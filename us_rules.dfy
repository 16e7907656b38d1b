/** The US threshold rules: unit conversion, volume weight, the 2024 and
    2026 size classifiers, the billing ("shipping") weight and the removal
    fee.  Lengths are inches and weights pounds unless a name says otherwise. */
module UsRules {
  import opened Text
  import Formula

  const InchesToCm: real := 2.54
  const CmToInches: real := 1.0 / 2.54
  const KgToPounds: real := 2.20462
  const GToPounds: real := 0.00220462

  /** The pairs of unit names `convert_units` knows how to convert. */
  predicate KnownConversion(from: string, to: string) {
    (from == "centimeters" && to == "inches") || (from == "inches" && to == "centimeters") ||
    (from == "grams" && to == "pounds") || (from == "pounds" && to == "grams")
  }

  /** `convert_units`: any pair it does not know leaves the value as it is. */
  function ConvertUnits(value: real, from: string, to: string): (r: real)
    ensures from == to || !KnownConversion(from, to) ==> r == value
  {
    if from == to then value
    else if from == "centimeters" && to == "inches" then value * CmToInches
    else if from == "inches" && to == "centimeters" then value * InchesToCm
    else if from == "grams" && to == "pounds" then value * GToPounds
    else if from == "pounds" && to == "grams" then value / GToPounds
    else value
  }

  /** Converting from one unit to another and back gives the value again, for
      every pair of unit names. */
  lemma ConvertRoundTrip(value: real, from: string, to: string)
    ensures ConvertUnits(ConvertUnits(value, from, to), to, from) == value
  {
    if from != to && KnownConversion(from, to) {
      if from == "centimeters" {
        assert value * CmToInches * InchesToCm == value * (CmToInches * InchesToCm);
      } else if from == "inches" {
        assert value * InchesToCm * CmToInches == value * (CmToInches * InchesToCm);
      }
    }
  }

  /** Kilograms go through grams: `convert_units(kg * 1000, 'grams', 'pounds')`
      is the kilogram-to-pound factor. */
  lemma KilogramsToPounds(kg: real)
    ensures ConvertUnits(kg * 1000.0, "grams", "pounds") == kg * KgToPounds
  {
  }

  /** Centimetres become inches by dividing by 2.54. */
  lemma CentimetersToInches(cm: real)
    ensures ConvertUnits(cm, "centimeters", "inches") * InchesToCm == cm
  {
    assert cm * CmToInches * InchesToCm == cm * (CmToInches * InchesToCm);
  }

  /** `calculate_volume_weight`: the dimensional weight in pounds. */
  function VolumeWeight(length: real, width: real, height: real): (r: real)
    ensures length >= 0.0 && width >= 0.0 && height >= 0.0 ==> r >= 0.0
  {
    length * width * height / 139.0
  }

  /** The dimensional weight does not depend on the order of the dimensions. */
  lemma VolumeWeightSymmetric(a: real, b: real, c: real)
    ensures VolumeWeight(a, b, c) == VolumeWeight(b, a, c) == VolumeWeight(a, c, b)
    ensures VolumeWeight(a, b, c) == VolumeWeight(b, c, a) == VolumeWeight(c, a, b) == VolumeWeight(c, b, a)
  {
    assert a * b * c == b * a * c == a * c * b == b * c * a == c * a * b == c * b * a;
  }

  function Max(a: real, b: real): (r: real)
    ensures r >= a && r >= b && (r == a || r == b)
  {
    if a >= b then a else b
  }

  /** `dimensions.sort(reverse=True)` on three dimensions. */
  function Sort3(a: real, b: real, c: real): (r: (real, real, real))
    ensures r.0 >= r.1 >= r.2
  {
    if a >= b then
      if b >= c then (a, b, c)
      else if a >= c then (a, c, b)
      else (c, a, b)
    else
      if a >= c then (b, a, c)
      else if b >= c then (b, c, a)
      else (c, b, a)
  }

  /** The sorted sides are the given sides. */
  lemma Sort3Permutation(a: real, b: real, c: real)
    ensures var r := Sort3(a, b, c); multiset{r.0, r.1, r.2} == multiset{a, b, c}
  {
  }

  /** Sorting does not depend on the order the dimensions come in. */
  lemma Sort3Symmetric(a: real, b: real, c: real)
    ensures Sort3(a, b, c) == Sort3(b, a, c) == Sort3(a, c, b)
    ensures Sort3(a, b, c) == Sort3(b, c, a) == Sort3(c, a, b) == Sort3(c, b, a)
  {
    Sort3SwapFirst(a, b, c);
    Sort3SwapLast(a, b, c);
    Sort3SwapFirst(a, c, b);
    Sort3SwapLast(b, a, c);
    Sort3SwapFirst(b, c, a);
  }

  lemma Sort3SwapFirst(a: real, b: real, c: real)
    ensures Sort3(a, b, c) == Sort3(b, a, c)
  {
  }

  lemma Sort3SwapLast(a: real, b: real, c: real)
    ensures Sort3(a, b, c) == Sort3(a, c, b)
  {
  }

  /** The US size tiers (`商品尺寸`). */
  datatype UsSize =
    | SmallStandard     // 小号标准尺寸
    | LargeStandard     // 大号标准尺寸
    | SmallBulky        // 小号大件 (2026 rules only)
    | LargeBulky        // 大号大件
    | Oversize0To50     // 超大件((0,50]磅)
    | Oversize50To70    // 超大件((50,70]磅)
    | Oversize70To150   // 超大件((70,150]磅)
    | OversizeOver150   // 超大件(>150磅)
  {
    predicate IsOversize() {
      Oversize0To50? || Oversize50To70? || Oversize70To150? || OversizeOver150?
    }
  }

  /** The label the calculator writes and the fee tables are keyed by. */
  function Label(c: UsSize): (r: string)
    ensures r != ""
  {
    match c
    case SmallStandard => "小号标准尺寸"
    case LargeStandard => "大号标准尺寸"
    case SmallBulky => "小号大件"
    case LargeBulky => "大号大件"
    case Oversize0To50 => "超大件((0,50]磅)"
    case Oversize50To70 => "超大件((50,70]磅)"
    case Oversize70To150 => "超大件((70,150]磅)"
    case OversizeOver150 => "超大件(>150磅)"
  }

  /** Different tiers have different labels. */
  lemma LabelInjective(c: UsSize, d: UsSize)
    ensures Label(c) == Label(d) <==> c == d
  {
  }

  /** Length plus girth. */
  function Girth(longest: real, second: real, shortest: real): real {
    longest + 2.0 * (second + shortest)
  }

  /** The oversize test: all three sides too big, too much length plus
      girth, or too heavy. */
  predicate OversizeGate(longest: real, second: real, shortest: real, sw: real) {
    (longest > 59.0 && second > 33.0 && shortest > 33.0) ||
    Girth(longest, second, shortest) > 130.0 ||
    sw > 50.0
  }

  /** The weight band of an oversize parcel; a weight at most 50 pounds
      (zero and negative weights too) is the lowest band. */
  function OversizeBand(sw: real): (r: UsSize)
    ensures r.IsOversize()
    ensures r == OversizeOver150 <==> sw > 150.0
    ensures r == Oversize70To150 <==> 70.0 < sw <= 150.0
    ensures r == Oversize50To70 <==> 50.0 < sw <= 70.0
    ensures r == Oversize0To50 <==> sw <= 50.0
  {
    if sw > 150.0 then OversizeOver150
    else if sw > 70.0 && sw <= 150.0 then Oversize70To150
    else if sw > 50.0 && sw <= 70.0 then Oversize50To70
    else Oversize0To50
  }

  predicate SmallStandardFits(longest: real, second: real, shortest: real, sw: real) {
    longest <= 15.0 && second <= 12.0 && shortest <= 0.75 && sw <= 1.0
  }

  predicate LargeStandardFits(longest: real, second: real, shortest: real, sw: real) {
    longest <= 18.0 && second <= 14.0 && shortest <= 8.0 && sw <= 20.0
  }

  predicate SmallBulkyFits(longest: real, second: real, shortest: real, sw: real) {
    longest <= 37.0 && second <= 28.0 && shortest <= 20.0 && sw <= 50.0 && Girth(longest, second, shortest) <= 130.0
  }

  predicate LargeBulkyFits(longest: real, second: real, shortest: real, sw: real) {
    longest <= 59.0 && second <= 33.0 && shortest <= 33.0 && sw <= 50.0 && Girth(longest, second, shortest) <= 130.0
  }

  /** The weight the classifiers use: the larger of the actual and the
      dimensional weight. */
  function ClassWeight(length: real, width: real, height: real, pw: real): real {
    Max(pw, VolumeWeight(length, width, height))
  }

  /** `determine_size_category_2024`. */
  function Classify2024(length: real, width: real, height: real, pw: real): (r: UsSize)
    ensures r != SmallBulky
    ensures var (l, m, s) := Sort3(length, width, height);
      var sw := ClassWeight(length, width, height, pw);
      (r == SmallStandard ==> SmallStandardFits(l, m, s, sw)) &&
      (r == LargeStandard ==> LargeStandardFits(l, m, s, sw)) &&
      (r == LargeBulky ==> LargeBulkyFits(l, m, s, sw)) &&
      (OversizeGate(l, m, s, sw) ==> r.IsOversize())
  {
    var (l, m, s) := Sort3(length, width, height);
    var sw := ClassWeight(length, width, height, pw);
    if OversizeGate(l, m, s, sw) then OversizeBand(sw)
    else if SmallStandardFits(l, m, s, sw) then SmallStandard
    else if LargeStandardFits(l, m, s, sw) then LargeStandard
    else if LargeBulkyFits(l, m, s, sw) then LargeBulky
    else Oversize0To50
  }

  /** `determine_size_category_2026`: the 2024 rules with `小号大件` tried
      between the standard tiers and `大号大件`. */
  function Classify2026(length: real, width: real, height: real, pw: real): (r: UsSize)
    ensures var (l, m, s) := Sort3(length, width, height);
      var sw := ClassWeight(length, width, height, pw);
      (r == SmallStandard ==> SmallStandardFits(l, m, s, sw)) &&
      (r == LargeStandard ==> LargeStandardFits(l, m, s, sw)) &&
      (r == SmallBulky ==> SmallBulkyFits(l, m, s, sw)) &&
      (r == LargeBulky ==> LargeBulkyFits(l, m, s, sw)) &&
      (OversizeGate(l, m, s, sw) ==> r.IsOversize())
  {
    var (l, m, s) := Sort3(length, width, height);
    var sw := ClassWeight(length, width, height, pw);
    if OversizeGate(l, m, s, sw) then OversizeBand(sw)
    else if SmallStandardFits(l, m, s, sw) then SmallStandard
    else if LargeStandardFits(l, m, s, sw) then LargeStandard
    else if SmallBulkyFits(l, m, s, sw) then SmallBulky
    else if LargeBulkyFits(l, m, s, sw) then LargeBulky
    else Oversize0To50
  }

  /** Neither classifier depends on which side is called length, width or
      height. */
  lemma ClassifySymmetric(a: real, b: real, c: real, pw: real)
    ensures Classify2024(a, b, c, pw) == Classify2024(b, a, c, pw) == Classify2024(a, c, b, pw)
    ensures Classify2024(a, b, c, pw) == Classify2024(b, c, a, pw) == Classify2024(c, a, b, pw) == Classify2024(c, b, a, pw)
    ensures Classify2026(a, b, c, pw) == Classify2026(b, a, c, pw) == Classify2026(a, c, b, pw)
    ensures Classify2026(a, b, c, pw) == Classify2026(b, c, a, pw) == Classify2026(c, a, b, pw) == Classify2026(c, b, a, pw)
  {
    Sort3Symmetric(a, b, c);
    VolumeWeightSymmetric(a, b, c);
  }

  /** The 2024 result, tier by tier: the oversize gate decides the oversize
      bands by weight, and each other tier holds exactly when its bounds hold
      and no earlier test did. */
  lemma Classify2024Tiers(length: real, width: real, height: real, pw: real)
    ensures var (l, m, s) := Sort3(length, width, height);
      var sw := ClassWeight(length, width, height, pw);
      var r := Classify2024(length, width, height, pw);
      (OversizeGate(l, m, s, sw) ==> r == OversizeBand(sw)) &&
      (r == SmallStandard <==> !OversizeGate(l, m, s, sw) && SmallStandardFits(l, m, s, sw)) &&
      (r == LargeStandard <==> !OversizeGate(l, m, s, sw) && !SmallStandardFits(l, m, s, sw) && LargeStandardFits(l, m, s, sw)) &&
      (r == LargeBulky <==> (!OversizeGate(l, m, s, sw) && !SmallStandardFits(l, m, s, sw) &&
                             !LargeStandardFits(l, m, s, sw) && LargeBulkyFits(l, m, s, sw))) &&
      (!r.IsOversize() ==> !OversizeGate(l, m, s, sw)) &&
      (r == OversizeOver150 <==> sw > 150.0) &&
      (r == Oversize70To150 <==> 70.0 < sw <= 150.0) &&
      (r == Oversize50To70 <==> 50.0 < sw <= 70.0)
  {
  }

  /** The 2026 rules differ from the 2024 rules only by moving some `大号大件`
      parcels to `小号大件`. */
  lemma Classify2026Agrees(length: real, width: real, height: real, pw: real)
    ensures var r24 := Classify2024(length, width, height, pw);
      var r26 := Classify2026(length, width, height, pw);
      r26 == r24 || (r24 == LargeBulky && r26 == SmallBulky)
    ensures Classify2026(length, width, height, pw) == SmallBulky <==>
      Classify2024(length, width, height, pw) == LargeBulky &&
      var (l, m, s) := Sort3(length, width, height);
      SmallBulkyFits(l, m, s, ClassWeight(length, width, height, pw))
  {
    var (l, m, s) := Sort3(length, width, height);
    var sw := ClassWeight(length, width, height, pw);
    if SmallBulkyFits(l, m, s, sw) {
      assert LargeBulkyFits(l, m, s, sw);
    }
  }

  /** The same classifier with the all-sides test read as "any side too big".
      Both readings give the same tier: a parcel the conjunction lets through
      fails every later tier and lands in the catch-all, which is the band the
      disjunction would have given it. */
  function Classify2026AnySide(length: real, width: real, height: real, pw: real): UsSize {
    var (l, m, s) := Sort3(length, width, height);
    var sw := ClassWeight(length, width, height, pw);
    if (l > 59.0 || m > 33.0 || s > 33.0) || Girth(l, m, s) > 130.0 || sw > 50.0 then OversizeBand(sw)
    else if SmallStandardFits(l, m, s, sw) then SmallStandard
    else if LargeStandardFits(l, m, s, sw) then LargeStandard
    else if SmallBulkyFits(l, m, s, sw) then SmallBulky
    else if LargeBulkyFits(l, m, s, sw) then LargeBulky
    else Oversize0To50
  }

  lemma AllSidesGateSameAsAnySide(length: real, width: real, height: real, pw: real)
    ensures Classify2026(length, width, height, pw) == Classify2026AnySide(length, width, height, pw)
  {
    var (l, m, s) := Sort3(length, width, height);
    var sw := ClassWeight(length, width, height, pw);
    if (l > 59.0 || m > 33.0 || s > 33.0) && !OversizeGate(l, m, s, sw) {
      assert sw <= 50.0;
      assert OversizeBand(sw) == Oversize0To50;
    }
  }

  /** No sorted side shrinks when no side shrinks. */
  lemma Sort3Monotone(a: real, b: real, c: real, a2: real, b2: real, c2: real)
    requires a <= a2 && b <= b2 && c <= c2
    ensures var (l, m, s) := Sort3(a, b, c);
      var (l2, m2, s2) := Sort3(a2, b2, c2);
      l <= l2 && m <= m2 && s <= s2
  {
    var (l, m, s) := Sort3(a, b, c);
    var (l2, m2, s2) := Sort3(a2, b2, c2);
    Sort3Permutation(a, b, c);
    Sort3Permutation(a2, b2, c2);
    assert l in multiset{a, b, c} && l2 in multiset{a2, b2, c2};
    assert m in multiset{a, b, c} && m2 in multiset{a2, b2, c2};
    assert s in multiset{a, b, c} && s2 in multiset{a2, b2, c2};
  }

  /** The dimensional weight does not shrink when no non-negative side
      shrinks. */
  lemma VolumeWeightMonotone(a: real, b: real, c: real, a2: real, b2: real, c2: real)
    requires 0.0 <= a <= a2 && 0.0 <= b <= b2 && 0.0 <= c <= c2
    ensures VolumeWeight(a, b, c) <= VolumeWeight(a2, b2, c2)
  {
    ProductBound(a, b, c, a2, b2, c2);
  }

  /** Larger sides and a larger weight pass the oversize gate if the smaller
      ones did, and fit a tier only if the smaller ones did. */
  lemma TierTestsMonotone(l: real, m: real, s: real, sw: real, l2: real, m2: real, s2: real, sw2: real)
    requires l <= l2 && m <= m2 && s <= s2 && sw <= sw2
    ensures OversizeGate(l, m, s, sw) ==> OversizeGate(l2, m2, s2, sw2)
    ensures SmallStandardFits(l2, m2, s2, sw2) ==> SmallStandardFits(l, m, s, sw)
    ensures LargeStandardFits(l2, m2, s2, sw2) ==> LargeStandardFits(l, m, s, sw)
    ensures SmallBulkyFits(l2, m2, s2, sw2) ==> SmallBulkyFits(l, m, s, sw)
    ensures LargeBulkyFits(l2, m2, s2, sw2) ==> LargeBulkyFits(l, m, s, sw)
  {
  }

  /** A 2024 tier is an oversize band exactly when the gate is passed or no
      lower tier fits. */
  lemma Classify2024Oversize(length: real, width: real, height: real, pw: real)
    ensures var (l, m, s) := Sort3(length, width, height);
      var sw := ClassWeight(length, width, height, pw);
      Classify2024(length, width, height, pw).IsOversize() <==>
        OversizeGate(l, m, s, sw) ||
        !(SmallStandardFits(l, m, s, sw) || LargeStandardFits(l, m, s, sw) || LargeBulkyFits(l, m, s, sw))
  {
  }

  /** The same for the 2026 rules, with `小号大件` among the lower tiers. */
  lemma Classify2026Oversize(length: real, width: real, height: real, pw: real)
    ensures var (l, m, s) := Sort3(length, width, height);
      var sw := ClassWeight(length, width, height, pw);
      Classify2026(length, width, height, pw).IsOversize() <==>
        OversizeGate(l, m, s, sw) ||
        !(SmallStandardFits(l, m, s, sw) || LargeStandardFits(l, m, s, sw) ||
          SmallBulkyFits(l, m, s, sw) || LargeBulkyFits(l, m, s, sw))
  {
  }

  /** A heavier parcel of the same sides stays oversize, under both years'
      rules. */
  lemma HeavierStaysOversize(length: real, width: real, height: real, pw: real, pw2: real)
    requires pw <= pw2
    ensures Classify2024(length, width, height, pw).IsOversize() ==>
      Classify2024(length, width, height, pw2).IsOversize()
    ensures Classify2026(length, width, height, pw).IsOversize() ==>
      Classify2026(length, width, height, pw2).IsOversize()
  {
    var (l, m, s) := Sort3(length, width, height);
    Classify2024Oversize(length, width, height, pw);
    Classify2024Oversize(length, width, height, pw2);
    Classify2026Oversize(length, width, height, pw);
    Classify2026Oversize(length, width, height, pw2);
    TierTestsMonotone(l, m, s, ClassWeight(length, width, height, pw),
                      l, m, s, ClassWeight(length, width, height, pw2));
  }

  /** A parcel whose non-negative sides and weight do not shrink stays
      oversize, under both years' rules. */
  lemma LargerStaysOversize(length: real, width: real, height: real, pw: real,
                            length2: real, width2: real, height2: real, pw2: real)
    requires 0.0 <= length <= length2 && 0.0 <= width <= width2 && 0.0 <= height <= height2
    requires pw <= pw2
    ensures Classify2024(length, width, height, pw).IsOversize() ==>
      Classify2024(length2, width2, height2, pw2).IsOversize()
    ensures Classify2026(length, width, height, pw).IsOversize() ==>
      Classify2026(length2, width2, height2, pw2).IsOversize()
  {
    var (l, m, s) := Sort3(length, width, height);
    var (l2, m2, s2) := Sort3(length2, width2, height2);
    Sort3Monotone(length, width, height, length2, width2, height2);
    VolumeWeightMonotone(length, width, height, length2, width2, height2);
    Classify2024Oversize(length, width, height, pw);
    Classify2024Oversize(length2, width2, height2, pw2);
    Classify2026Oversize(length, width, height, pw);
    Classify2026Oversize(length2, width2, height2, pw2);
    TierTestsMonotone(l, m, s, ClassWeight(length, width, height, pw),
                      l2, m2, s2, ClassWeight(length2, width2, height2, pw2));
  }

  /** `determine_shipping_weight`: `None` for a year other than 2024 and
      2026, where the source reads an unbound variable. */
  function ShippingWeight(pw: real, vw: real, category: string, year: int): (r: Option<real>)
    ensures r.Some? <==> year == 2024 || year == 2026
    ensures r.Some? ==> r.value == pw || r.value == Max(pw, vw)
  {
    if year == 2024 then
      Some(if category in ["小号标准尺寸", "特殊大件", "超大件(>150磅)"] then pw else Max(pw, vw))
    else if year == 2026 then
      Some(if category in ["小号标准尺寸", "超大件(>150磅)"] then pw else Max(pw, vw))
    else None
  }

  /** The categories billed by their actual weight alone, by year. */
  function ActualWeightCategories(year: int): set<string> {
    if year == 2024 then {"小号标准尺寸", "特殊大件", "超大件(>150磅)"}
    else {"小号标准尺寸", "超大件(>150磅)"}
  }

  /** The billing weight is the actual weight for the listed categories and
      the larger of actual and dimensional weight for every other one; it is
      never below the actual weight. */
  lemma ShippingWeightRule(pw: real, vw: real, category: string, year: int)
    requires year == 2024 || year == 2026
    ensures ShippingWeight(pw, vw, category, year).Some?
    ensures var sw := ShippingWeight(pw, vw, category, year).value;
      sw >= pw &&
      (category in ActualWeightCategories(year) ==> sw == pw) &&
      (category !in ActualWeightCategories(year) ==> sw == Max(pw, vw) && sw >= vw)
  {
  }

  /** The two years bill alike except for `特殊大件`. */
  lemma ShippingWeightYears(pw: real, vw: real, category: string)
    ensures ShippingWeight(pw, vw, category, 2024) != ShippingWeight(pw, vw, category, 2026) ==>
      category == "特殊大件" && vw > pw
  {
  }

  /** For the tiers the classifiers produce, only small standard and the
      heaviest oversize band are billed by actual weight, in both years. */
  lemma ShippingWeightOfTier(pw: real, vw: real, c: UsSize, year: int)
    requires year == 2024 || year == 2026
    ensures ShippingWeight(pw, vw, Label(c), year) ==
      Some(if c == SmallStandard || c == OversizeOver150 then pw else Max(pw, vw))
  {
    assert Label(c) != "特殊大件" by {
      assert "特殊大件"[0] == '特';
    }
    if c != SmallStandard && c != OversizeOver150 {
      assert Label(c) != "小号标准尺寸" && Label(c) != "超大件(>150磅)" by {
        LabelInjective(c, SmallStandard);
        LabelInjective(c, OversizeOver150);
      }
    }
  }

  /** The two tiers `calculate_removal_fee` treats as standard size. */
  predicate IsStandardLabel(category: string) {
    category == "小号标准尺寸" || category == "大号标准尺寸"
  }

  /** `calculate_removal_fee`. */
  function RemovalFee(category: string, sw: real): (r: real)
    ensures sw <= 0.0 ==> r == 0.0
  {
    if IsStandardLabel(category) then StandardRemovalFee(sw) else BulkyRemovalFee(sw)
  }

  function StandardRemovalFee(sw: real): real {
    if 0.0 < sw <= 0.5 then 0.84
    else if 0.5 < sw <= 1.0 then 1.53
    else if 1.0 < sw <= 2.0 then 2.27
    else if sw > 2.0 then Formula.Round(2.89 + (sw - 2.0) * 1.06, 2)
    else 0.0
  }

  function BulkyRemovalFee(sw: real): real {
    if 0.0 < sw <= 1.0 then 3.12
    else if 1.0 < sw <= 2.0 then 4.30
    else if 2.0 < sw <= 4.0 then 6.36
    else if 4.0 < sw <= 10.0 then 10.04
    else if sw > 10.0 then Formula.Round(14.32 + (sw - 10.0) * 1.06, 2)
    else 0.0
  }

  /** A removal fee is never negative, and it is already a whole number of
      cents, so rounding it again to two places leaves it as it is. */
  lemma RemovalFeeCents(category: string, sw: real)
    ensures RemovalFee(category, sw) >= 0.0
    ensures Formula.Round(RemovalFee(category, sw), 2) == RemovalFee(category, sw)
  {
    var r := RemovalFee(category, sw);
    var x := if IsStandardLabel(category) then 2.89 + (sw - 2.0) * 1.06 else 14.32 + (sw - 10.0) * 1.06;
    if (IsStandardLabel(category) && sw > 2.0) || (!IsStandardLabel(category) && sw > 10.0) {
      Formula.RoundNonNegative(x, 2);
      Formula.RoundIdempotent(x, 2);
    } else {
      assert Formula.Scale(2) == 100.0;
      var n: int := if r == 0.84 then 84 else if r == 1.53 then 153 else if r == 2.27 then 227
        else if r == 3.12 then 312 else if r == 4.30 then 430 else if r == 6.36 then 636
        else if r == 10.04 then 1004 else 0;
      assert n as real / 100.0 == r;
      Formula.RoundExact(n, 2);
    }
  }

  /** Within each size class a heavier parcel never costs less to remove. */
  lemma RemovalFeeMonotone(category: string, w1: real, w2: real)
    requires w1 <= w2
    ensures RemovalFee(category, w1) <= RemovalFee(category, w2)
  {
    assert Formula.Scale(2) == 100.0;
    var base := if IsStandardLabel(category) then 2.89 else 14.32;
    var knee := if IsStandardLabel(category) then 2.0 else 10.0;
    Formula.RoundExact(if IsStandardLabel(category) then 289 else 1432, 2);
    assert Formula.Round(base, 2) == base;
    if w1 > knee {
      Formula.RoundMonotone(base + (w1 - knee) * 1.06, base + (w2 - knee) * 1.06, 2);
    } else if w2 > knee {
      Formula.RoundMonotone(base, base + (w2 - knee) * 1.06, 2);
    }
  }
}
