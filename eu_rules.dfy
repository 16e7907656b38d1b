/** The European threshold rules: volume weight, the special-oversize test,
    the size classifier (envelope tiers held as data, then the parcel and
    oversize tiers) and the billing weight.  Lengths are centimetres and
    weights grams. */
module EuRules {
  import opened Text

  /** `calculate_volume_weight`: `L*W*H/5000` kilograms, written in grams. */
  function VolumeWeight(length: real, width: real, height: real): (r: real)
    ensures r == length * width * height / 5.0
    ensures length >= 0.0 && width >= 0.0 && height >= 0.0 ==> r >= 0.0
  {
    length * width * height / 5000.0 * 1000.0
  }

  /** The volume weight does not depend on the order of the sides. */
  lemma VolumeWeightSymmetric(a: real, b: real, c: real)
    ensures VolumeWeight(a, b, c) == VolumeWeight(b, a, c) == VolumeWeight(a, c, b)
    ensures VolumeWeight(a, b, c) == VolumeWeight(b, c, a) == VolumeWeight(c, a, b) == VolumeWeight(c, b, a)
  {
    assert a * b * c == b * a * c == a * c * b == b * c * a == c * a * b == c * b * a;
  }

  /** The volume weight does not shrink when no non-negative side shrinks. */
  lemma VolumeWeightMonotone(a: real, b: real, c: real, a2: real, b2: real, c2: real)
    requires 0.0 <= a <= a2 && 0.0 <= b <= b2 && 0.0 <= c <= c2
    ensures VolumeWeight(a, b, c) <= VolumeWeight(a2, b2, c2)
  {
    ProductBound(a, b, c, a2, b2, c2);
  }

  /** Length plus girth. */
  function Girth(length: real, width: real, height: real): real {
    length + 2.0 * (width + height)
  }

  /** `is_special_oversize_europe` */
  predicate IsSpecialOversize(length: real, width: real, height: real, pw: real): (r: bool)
    ensures pw > 31500.0 || length > 175.0 ==> r
    ensures r && pw <= 31500.0 && length <= 175.0 ==> width + height > 92.5
  {
    pw > 31500.0 || length > 175.0 || Girth(length, width, height) > 360.0
  }

  /** The European size tiers (`商品尺寸`). */
  datatype EuSize =
    | LightEnvelope          // 轻型信封
    | StandardEnvelope       // 标准信封
    | LargeEnvelope          // 大号信封
    | ExtraLargeEnvelope     // 超大号信封
    | SmallParcel            // 小包裹
    | StandardParcel         // 标准包裹
    | SmallOversize          // 小号大件
    | LightStandardOversize  // 轻型标准大件
    | HeavyStandardOversize  // 重型标准大件
    | LargeStandardOversize  // 大号标准大件
    | ExtraLargeOversize     // 特大号大件
    | HeavyOversize          // 超重型大件
    | SpecialOversize        // 特殊大件
  {
    predicate IsEnvelope() {
      LightEnvelope? || StandardEnvelope? || LargeEnvelope? || ExtraLargeEnvelope?
    }
  }

  function Label(c: EuSize): string {
    match c
    case LightEnvelope => "轻型信封"
    case StandardEnvelope => "标准信封"
    case LargeEnvelope => "大号信封"
    case ExtraLargeEnvelope => "超大号信封"
    case SmallParcel => "小包裹"
    case StandardParcel => "标准包裹"
    case SmallOversize => "小号大件"
    case LightStandardOversize => "轻型标准大件"
    case HeavyStandardOversize => "重型标准大件"
    case LargeStandardOversize => "大号标准大件"
    case ExtraLargeOversize => "特大号大件"
    case HeavyOversize => "超重型大件"
    case SpecialOversize => "特殊大件"
  }

  /** Different tiers have different labels. */
  lemma LabelInjective(c: EuSize, d: EuSize)
    ensures Label(c) == Label(d) <==> c == d
  {
  }

  /** One row of `envelope_categories`: the tier and its weight, length,
      width and height limits. */
  datatype Envelope = Envelope(size: EuSize, maxWeight: real, maxLength: real, maxWidth: real, maxHeight: real)

  const EnvelopeTiers: seq<Envelope> := [
    Envelope(LightEnvelope, 100.0, 33.0, 23.0, 2.5),
    Envelope(StandardEnvelope, 460.0, 33.0, 23.0, 2.5),
    Envelope(LargeEnvelope, 960.0, 33.0, 23.0, 4.0),
    Envelope(ExtraLargeEnvelope, 960.0, 33.0, 23.0, 6.0)
  ]

  predicate EnvelopeFits(e: Envelope, length: real, width: real, height: real, pw: real) {
    pw <= e.maxWeight && length <= e.maxLength && width <= e.maxWidth && height <= e.maxHeight
  }

  /** The position of the first envelope tier from `i` on whose limits all
      hold. */
  function FirstEnvelope(i: nat, length: real, width: real, height: real, pw: real): (r: Option<nat>)
    requires i <= |EnvelopeTiers|
    ensures r.Some? ==> i <= r.value < |EnvelopeTiers| && EnvelopeFits(EnvelopeTiers[r.value], length, width, height, pw)
    ensures forall j :: i <= j < (if r.Some? then r.value else |EnvelopeTiers|) ==>
      !EnvelopeFits(EnvelopeTiers[j], length, width, height, pw)
    decreases |EnvelopeTiers| - i
  {
    if i == |EnvelopeTiers| then None
    else if EnvelopeFits(EnvelopeTiers[i], length, width, height, pw) then Some(i)
    else FirstEnvelope(i + 1, length, width, height, pw)
  }

  /** The bounds of each parcel and oversize tier, volume weight included;
      the last two tiers bound only the weights. */
  predicate ParcelFits(c: EuSize, length: real, width: real, height: real, pw: real, vw: real) {
    match c
    case SmallParcel => length <= 35.0 && width <= 25.0 && height <= 12.0 && pw <= 3900.0 && vw <= 2100.0
    case StandardParcel => length <= 45.0 && width <= 34.0 && height <= 26.0 && pw <= 11900.0 && vw <= 7960.0
    case SmallOversize => length <= 61.0 && width <= 46.0 && height <= 46.0 && pw <= 1760.0 && vw <= 25820.0
    case LightStandardOversize => length <= 101.0 && width <= 60.0 && height <= 60.0 && pw <= 15000.0 && vw <= 72720.0
    case HeavyStandardOversize =>
      length <= 101.0 && width <= 60.0 && height <= 60.0 && 15000.0 < pw <= 23000.0 && vw <= 72720.0
    case LargeStandardOversize => length <= 120.0 && width <= 60.0 && height <= 60.0 && pw <= 23000.0 && vw <= 86400.0
    case ExtraLargeOversize => pw <= 23000.0 && vw <= 126000.0
    case HeavyOversize => pw <= 31500.0 && vw <= 126000.0
    case _ => false
  }

  /** The parcel and oversize tiers in the order they are tried. */
  const ParcelTiers: seq<EuSize> := [SmallParcel, StandardParcel, SmallOversize, LightStandardOversize,
                                     HeavyStandardOversize, LargeStandardOversize, ExtraLargeOversize, HeavyOversize]

  /** The parcel tiers one after the other, with `特殊大件` as the catch-all. */
  function ParcelTier(length: real, width: real, height: real, pw: real, vw: real): EuSize {
    if ParcelFits(SmallParcel, length, width, height, pw, vw) then SmallParcel
    else if ParcelFits(StandardParcel, length, width, height, pw, vw) then StandardParcel
    else if ParcelFits(SmallOversize, length, width, height, pw, vw) then SmallOversize
    else if ParcelFits(LightStandardOversize, length, width, height, pw, vw) then LightStandardOversize
    else if ParcelFits(HeavyStandardOversize, length, width, height, pw, vw) then HeavyStandardOversize
    else if ParcelFits(LargeStandardOversize, length, width, height, pw, vw) then LargeStandardOversize
    else if ParcelFits(ExtraLargeOversize, length, width, height, pw, vw) then ExtraLargeOversize
    else if ParcelFits(HeavyOversize, length, width, height, pw, vw) then HeavyOversize
    else SpecialOversize
  }

  /** `determine_european_size_category`: the special-oversize test, then
      the envelope tiers on weight and size alone, then the parcel tiers. */
  function EuClassify(length: real, width: real, height: real, pw: real): (r: EuSize)
    ensures IsSpecialOversize(length, width, height, pw) ==> r == SpecialOversize
    ensures r.IsEnvelope() ==> pw <= 960.0 && length <= 33.0 && width <= 23.0 && height <= 6.0
  {
    if IsSpecialOversize(length, width, height, pw) then SpecialOversize
    else match FirstEnvelope(0, length, width, height, pw)
      case Some(i) => EnvelopeTiers[i].size
      case None => ParcelTier(length, width, height, pw, VolumeWeight(length, width, height))
  }

  /** `determine_european_size_category`, with its loop over the envelope
      tiers. */
  method DetermineEuropeanSizeCategory(length: real, width: real, height: real, pw: real) returns (r: EuSize)
    ensures r == EuClassify(length, width, height, pw)
  {
    if IsSpecialOversize(length, width, height, pw) {
      return SpecialOversize;
    }
    var volume := VolumeWeight(length, width, height);
    var i := 0;
    while i < |EnvelopeTiers|
      invariant 0 <= i <= |EnvelopeTiers|
      invariant FirstEnvelope(0, length, width, height, pw) == FirstEnvelope(i, length, width, height, pw)
    {
      var e := EnvelopeTiers[i];
      if EnvelopeFits(e, length, width, height, pw) {
        return e.size;
      }
      i := i + 1;
    }
    if ParcelFits(SmallParcel, length, width, height, pw, volume) {
      return SmallParcel;
    }
    if ParcelFits(StandardParcel, length, width, height, pw, volume) {
      return StandardParcel;
    }
    if ParcelFits(SmallOversize, length, width, height, pw, volume) {
      return SmallOversize;
    }
    if ParcelFits(LightStandardOversize, length, width, height, pw, volume) {
      return LightStandardOversize;
    }
    if ParcelFits(HeavyStandardOversize, length, width, height, pw, volume) {
      return HeavyStandardOversize;
    }
    if ParcelFits(LargeStandardOversize, length, width, height, pw, volume) {
      return LargeStandardOversize;
    }
    if ParcelFits(ExtraLargeOversize, length, width, height, pw, volume) {
      return ExtraLargeOversize;
    }
    if ParcelFits(HeavyOversize, length, width, height, pw, volume) {
      return HeavyOversize;
    }
    return SpecialOversize;
  }

  /** A special-oversize parcel is `特殊大件` before any other test. */
  lemma SpecialOversizeFirst(length: real, width: real, height: real, pw: real)
    requires IsSpecialOversize(length, width, height, pw)
    ensures EuClassify(length, width, height, pw) == SpecialOversize
  {
  }

  /** An envelope result is the first envelope row whose four limits hold,
      after the special-oversize test failed; the volume weight plays no
      part. */
  lemma EnvelopeFirstFit(length: real, width: real, height: real, pw: real)
    ensures var r := EuClassify(length, width, height, pw);
      r.IsEnvelope() ==>
        !IsSpecialOversize(length, width, height, pw) &&
        exists i :: 0 <= i < |EnvelopeTiers| && EnvelopeTiers[i].size == r &&
          EnvelopeFits(EnvelopeTiers[i], length, width, height, pw) &&
          forall j :: 0 <= j < i ==> !EnvelopeFits(EnvelopeTiers[j], length, width, height, pw)
  {
    var r := EuClassify(length, width, height, pw);
    if r.IsEnvelope() {
      var v := VolumeWeight(length, width, height);
      if FirstEnvelope(0, length, width, height, pw).None? {
        ParcelTierNotEnvelope(length, width, height, pw, v);
      }
    }
  }

  lemma ParcelTierNotEnvelope(length: real, width: real, height: real, pw: real, vw: real)
    ensures !ParcelTier(length, width, height, pw, vw).IsEnvelope()
  {
  }

  /** Each envelope row's limits contain the previous row's, so a parcel that
      fits one envelope fits every later one. */
  lemma EnvelopesNested(i: nat, j: nat, length: real, width: real, height: real, pw: real)
    requires i <= j < |EnvelopeTiers|
    requires EnvelopeFits(EnvelopeTiers[i], length, width, height, pw)
    ensures EnvelopeFits(EnvelopeTiers[j], length, width, height, pw)
  {
  }

  /** A parcel or oversize result holds all the bounds of its tier and none of
      an earlier one, and no envelope row fits. */
  lemma ParcelTierBounds(length: real, width: real, height: real, pw: real)
    ensures var r := EuClassify(length, width, height, pw);
      var v := VolumeWeight(length, width, height);
      !r.IsEnvelope() && r != SpecialOversize ==>
        !IsSpecialOversize(length, width, height, pw) &&
        FirstEnvelope(0, length, width, height, pw).None? &&
        exists i :: 0 <= i < |ParcelTiers| && ParcelTiers[i] == r &&
          ParcelFits(r, length, width, height, pw, v) &&
          forall j :: 0 <= j < i ==> !ParcelFits(ParcelTiers[j], length, width, height, pw, v)
  {
    var r := EuClassify(length, width, height, pw);
    var v := VolumeWeight(length, width, height);
    if !r.IsEnvelope() && r != SpecialOversize {
      assert !IsSpecialOversize(length, width, height, pw);
      assert FirstEnvelope(0, length, width, height, pw).None?;
      ParcelTierFirst(length, width, height, pw, v);
    }
  }

  lemma ParcelTierFirst(length: real, width: real, height: real, pw: real, vw: real)
    ensures var r := ParcelTier(length, width, height, pw, vw);
      r != SpecialOversize ==>
        exists i :: 0 <= i < |ParcelTiers| && ParcelTiers[i] == r &&
          ParcelFits(r, length, width, height, pw, vw) &&
          forall j :: 0 <= j < i ==> !ParcelFits(ParcelTiers[j], length, width, height, pw, vw)
    ensures var r := ParcelTier(length, width, height, pw, vw);
      r == SpecialOversize <==> forall j :: 0 <= j < |ParcelTiers| ==> !ParcelFits(ParcelTiers[j], length, width, height, pw, vw)
  {
    var r := ParcelTier(length, width, height, pw, vw);
    var k := if r == SmallParcel then 0 else if r == StandardParcel then 1 else if r == SmallOversize then 2
      else if r == LightStandardOversize then 3 else if r == HeavyStandardOversize then 4
      else if r == LargeStandardOversize then 5 else if r == ExtraLargeOversize then 6 else 7;
    if r != SpecialOversize {
      assert ParcelTiers[k] == r;
    }
  }

  /** `重型标准大件` is exactly the parcels of 15000 to 23000 grams (lower bound
      excluded) within 101x60x60 cm and 72720 grams of volume weight: the
      lower weight bound rules out every earlier tier, and these sizes can
      never be special oversize. */
  lemma HeavyStandardExactly(length: real, width: real, height: real, pw: real)
    ensures EuClassify(length, width, height, pw) == HeavyStandardOversize <==>
      15000.0 < pw <= 23000.0 && length <= 101.0 && width <= 60.0 && height <= 60.0 &&
      VolumeWeight(length, width, height) <= 72720.0
  {
    var v := VolumeWeight(length, width, height);
    if 15000.0 < pw <= 23000.0 && length <= 101.0 && width <= 60.0 && height <= 60.0 && v <= 72720.0 {
      assert !IsSpecialOversize(length, width, height, pw);
      assert FirstEnvelope(0, length, width, height, pw).None?;
    }
    if EuClassify(length, width, height, pw) == HeavyStandardOversize {
      ParcelTierBounds(length, width, height, pw);
    }
  }

  /** The catch-all `特殊大件` is reached only by a special-oversize parcel or
      one over 31500 grams or 126000 grams of volume weight; for real
      (non-negative) sides it is reached by every such parcel. */
  lemma SpecialOversizeExactly(length: real, width: real, height: real, pw: real)
    ensures var v := VolumeWeight(length, width, height);
      EuClassify(length, width, height, pw) == SpecialOversize ==>
        IsSpecialOversize(length, width, height, pw) || pw > 31500.0 || v > 126000.0
    ensures var v := VolumeWeight(length, width, height);
      length >= 0.0 && width >= 0.0 && height >= 0.0 &&
      (IsSpecialOversize(length, width, height, pw) || pw > 31500.0 || v > 126000.0) ==>
        EuClassify(length, width, height, pw) == SpecialOversize
  {
    var v := VolumeWeight(length, width, height);
    var r := EuClassify(length, width, height, pw);
    if r == SpecialOversize && !IsSpecialOversize(length, width, height, pw) {
      ParcelTierFirst(length, width, height, pw, v);
      assert !ParcelFits(ParcelTiers[7], length, width, height, pw, v);
    }
    if length >= 0.0 && width >= 0.0 && height >= 0.0 && !IsSpecialOversize(length, width, height, pw) && v > 126000.0 {
      match FirstEnvelope(0, length, width, height, pw)
      case Some(k) =>
        EnvelopesNested(k, 3, length, width, height, pw);
        ProductBound(length, width, height, 33.0, 23.0, 6.0);
        assert false;
      case None =>
    }
  }

  /** `determine_european_shipping_weight` */
  function EuShippingWeight(pw: real, vw: real, category: string): (r: real)
    ensures r >= pw
    ensures r == pw || (r == vw && vw > pw)
  {
    if category in ["轻型信封", "标准信封", "大号信封", "超大号信封", "特殊大件"] then pw
    else if pw >= vw then pw else vw
  }

  /** For the classifier's tiers: envelopes and `特殊大件` are billed by the
      actual weight, every other tier by the larger of actual and volume
      weight. */
  lemma ShippingWeightOfTier(pw: real, vw: real, c: EuSize)
    ensures EuShippingWeight(pw, vw, Label(c)) == (if c.IsEnvelope() || c == SpecialOversize then pw
                                                   else if pw >= vw then pw else vw)
  {
    if !c.IsEnvelope() && c != SpecialOversize {
      LabelInjective(c, LightEnvelope);
      LabelInjective(c, StandardEnvelope);
      LabelInjective(c, LargeEnvelope);
      LabelInjective(c, ExtraLargeEnvelope);
      LabelInjective(c, SpecialOversize);
    }
  }
}
