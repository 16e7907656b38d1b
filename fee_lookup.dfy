/** Fee resolution shared by both calculators: the rows of a rate table
    that carry the requested keys, the first of them (in table order) whose
    weight range holds the weight, its fee cell read as an amount or as a
    formula, and the fallback over alternative weights when a weight gives
    no usable fee. */
module FeeLookup {
  import opened Text
  import Formula
  import RangeMatch

  /** Which calculator's cell conventions apply. */
  datatype Region = Us | Eu

  /** The fee cell with currency signs and thousands separators removed:
      `$` and `,` in the US tables, `£`, `€` and `,` in the EU table. */
  function CleanFee(region: Region, fee: string): (r: string)
    ensures region == Us ==> '$' !in r
    ensures region == Eu ==> '£' !in r && '€' !in r
    ensures ',' !in r
  {
    match region
    case Us => RemoveChar(RemoveChar(fee, '$'), ',')
    case Eu => RemoveChar(RemoveChar(RemoveChar(fee, '£'), '€'), ',')
  }

  /** What reading a matched row's fee yields: an amount, no usable amount
      (the formula could not be evaluated), or an exception that leaves the
      row loop (`float` of a digits-and-dots text with more than one dot). */
  datatype Lookup = Fee(amount: real) | Unresolved | Raised

  /** A cleaned fee whose text without dots is a digit string is a literal
      read by `float`; any other text is a formula in the billing weight,
      evaluated and rounded to two decimals. */
  function EvalFee(region: Region, fee: string, w: real): (r: Lookup)
    ensures r == Raised ==> IsLiteral(CleanFee(region, fee))
    ensures r.Fee? && !IsLiteral(CleanFee(region, fee)) ==> Formula.Round(r.amount, 2) == r.amount
  {
    var clean := CleanFee(region, fee);
    if IsLiteral(clean) then ReadLiteral(clean) else ReadFormula(clean, w)
  }

  /** `fee_clean.replace('.', '').isdigit()` */
  predicate IsLiteral(clean: string) { IsDigitText(RemoveChar(clean, '.')) }

  /** `float(fee_clean)`, which raises on a text such as `1.2.3`. */
  function ReadLiteral(clean: string): Lookup {
    match ParseFloat(clean)
    case None => Raised
    case Some(v) => Fee(v)
  }

  /** `round(eval(formula), 2)` with the weight in place of `发货重量`; any
      failure of `eval` is `Unresolved`. */
  function ReadFormula(clean: string, w: real): (r: Lookup)
    ensures r != Raised
    ensures r.Fee? ==> Formula.Round(r.amount, 2) == r.amount
  {
    match Formula.Evaluate(clean, w)
    case None => Unresolved
    case Some(v) =>
      Formula.RoundIdempotent(v, 2);
      Fee(Formula.Round(v, 2))
  }

  /** One row of a rate table once its keys have been matched: the weight
      range cell and the fee cell. */
  datatype Band = Band(range: string, fee: string)

  /** How a calculator reads a band: its range matcher and its fee reader.
      The row loop and the cascade are the same in all three lookups. */
  datatype Reading = Reading(inRange: (real, string) -> bool, fee: (string, real) -> Lookup)

  /** The US FBA and multichannel lookups. */
  function UsReading(): (rd: Reading)
    ensures forall w, range :: rd.inRange(w, range) == RangeMatch.UsInRange(w, range)
    ensures forall fee, w :: rd.fee(fee, w) == EvalFee(Us, fee, w)
  {
    Reading(RangeMatch.UsInRange, (fee, w) => EvalFee(Us, fee, w))
  }

  /** The EU lookup. */
  function EuReading(): (rd: Reading)
    ensures forall w, range :: rd.inRange(w, range) == RangeMatch.EuInRange(w, range)
    ensures forall fee, w :: rd.fee(fee, w) == EvalFee(Eu, fee, w)
  {
    Reading(RangeMatch.EuInRange, (fee, w) => EvalFee(Eu, fee, w))
  }

  predicate InRange(rd: Reading, w: real, range: string) { rd.inRange(w, range) }

  /** The position of the first band whose range holds `w`. */
  function FirstMatch(rd: Reading, bands: seq<Band>, w: real): (r: Option<nat>)
    ensures r.Some? ==> r.value < |bands| && InRange(rd, w, bands[r.value].range)
    ensures r.Some? ==> forall j :: 0 <= j < r.value ==> !InRange(rd, w, bands[j].range)
    ensures r.None? ==> forall j :: 0 <= j < |bands| ==> !InRange(rd, w, bands[j].range)
  {
    if bands == [] then None
    else if InRange(rd, w, bands[0].range) then Some(0)
    else
      match FirstMatch(rd, bands[1..], w)
      case None => None
      case Some(k) => Some(k + 1)
  }

  /** `_find_fee_by_weight` / `try_calculate_with_weight`: the fee of the
      first matching band; no matching band is `Unresolved`. */
  function FindFee(rd: Reading, bands: seq<Band>, w: real): (r: Lookup)
    ensures (forall j :: 0 <= j < |bands| ==> !InRange(rd, w, bands[j].range)) ==> r == Unresolved
    ensures r != Unresolved ==> exists j :: 0 <= j < |bands| && InRange(rd, w, bands[j].range) && r == rd.fee(bands[j].fee, w)
  {
    match FirstMatch(rd, bands, w)
    case None => Unresolved
    case Some(k) => rd.fee(bands[k].fee, w)
  }

  /** The row loop: bands in order, the first one whose range holds the
      weight decides. */
  method FindFeeByWeight(rd: Reading, bands: seq<Band>, w: real) returns (r: Lookup)
    ensures r == FindFee(rd, bands, w)
  {
    var i := 0;
    while i < |bands|
      invariant 0 <= i <= |bands|
      invariant forall j :: 0 <= j < i ==> !InRange(rd, w, bands[j].range)
    {
      if InRange(rd, w, bands[i].range) {
        FirstMatchAt(rd, bands, w, i);
        return rd.fee(bands[i].fee, w);
      }
      i := i + 1;
    }
    FirstMatchNone(rd, bands, w);
    return Unresolved;
  }

  /** `FirstMatch` is the least matching position ... */
  lemma {:induction false} FirstMatchAt(rd: Reading, bands: seq<Band>, w: real, i: nat)
    requires i < |bands| && InRange(rd, w, bands[i].range)
    requires forall j :: 0 <= j < i ==> !InRange(rd, w, bands[j].range)
    ensures FirstMatch(rd, bands, w) == Some(i)
  {
    if i > 0 {
      assert !InRange(rd, w, bands[0].range);
      forall j | 0 <= j < i - 1 ensures !InRange(rd, w, bands[1..][j].range) {
        assert bands[1..][j] == bands[j + 1];
      }
      FirstMatchAt(rd, bands[1..], w, i - 1);
    }
  }

  /** ... and `None` exactly when no band matches. */
  lemma {:induction false} FirstMatchNone(rd: Reading, bands: seq<Band>, w: real)
    requires forall j :: 0 <= j < |bands| ==> !InRange(rd, w, bands[j].range)
    ensures FirstMatch(rd, bands, w) == None
  {
    if bands != [] {
      assert !InRange(rd, w, bands[0].range);
      forall j | 0 <= j < |bands| - 1 ensures !InRange(rd, w, bands[1..][j].range) {
        assert bands[1..][j] == bands[j + 1];
      }
      FirstMatchNone(rd, bands[1..], w);
    }
  }

  /* Key filtering: the pandas masks over the categorical columns. */

  /** A table row: its categorical keys and its band. */
  datatype Row<K> = Row(key: K, band: Band)

  /** The bands of the rows whose keys equal `key`, in table order. */
  function Select<K(==)>(rows: seq<Row<K>>, key: K): (r: seq<Band>)
    ensures |r| <= |rows|
    ensures r == [] <==> forall k :: 0 <= k < |rows| ==> rows[k].key != key
  {
    if rows == [] then []
    else if rows[0].key == key then [rows[0].band] + Select(rows[1..], key)
    else
      var r := Select(rows[1..], key);
      assert r == [] ==> forall k :: 1 <= k < |rows| ==> rows[k].key != key by {
        if r == [] {
          forall k | 1 <= k < |rows| ensures rows[k].key != key { assert rows[1..][k - 1] == rows[k]; }
        }
      }
      r
  }

  /** The first row of the whole table that carries the keys and whose
      range holds `w`: the row the calculators use. */
  function FirstRow<K(==)>(rd: Reading, rows: seq<Row<K>>, key: K, w: real): (r: Option<nat>)
    ensures r.Some? ==> r.value < |rows| && rows[r.value].key == key && InRange(rd, w, rows[r.value].band.range)
    ensures r.Some? ==> forall j :: 0 <= j < r.value ==> !(rows[j].key == key && InRange(rd, w, rows[j].band.range))
    ensures r.None? ==> forall j :: 0 <= j < |rows| ==> !(rows[j].key == key && InRange(rd, w, rows[j].band.range))
  {
    if rows == [] then None
    else if rows[0].key == key && InRange(rd, w, rows[0].band.range) then Some(0)
    else
      match FirstRow(rd, rows[1..], key, w)
      case None => None
      case Some(k) => Some(k + 1)
  }

  /** Filtering first and then taking the first match finds the first row of
      the whole table with both the keys and the weight. */
  lemma {:induction false} SelectFirstMatch<K>(rd: Reading, rows: seq<Row<K>>, key: K, w: real)
    ensures FindFee(rd, Select(rows, key), w) ==
      match FirstRow(rd, rows, key, w)
      case None => Unresolved
      case Some(k) => rd.fee(rows[k].band.fee, w)
  {
    if rows != [] {
      SelectFirstMatch(rd, rows[1..], key, w);
      var tail := Select(rows[1..], key);
      if rows[0].key == key {
        var bands := [rows[0].band] + tail;
        assert bands[1..] == tail;
        if !InRange(rd, w, rows[0].band.range) {
          match FirstMatch(rd, tail, w)
          case None =>
          case Some(k) => assert bands[k + 1] == tail[k];
        }
      }
    }
  }

  /* The weight-fallback cascade. */

  /** Which results end the cascade: the FBA calculators need a positive
      fee (`if fee > 0`), the multichannel one any resolved fee (its
      success flag). */
  datatype Policy = PositiveOnly | AnyResolved

  predicate Accepted(policy: Policy, l: Lookup) {
    l.Fee? && (policy == AnyResolved || l.amount > 0.0)
  }

  /** The weights in `weights` are tried in order; the first accepted fee is
      the result; an exception ends everything with 0.0 (the outer `except`);
      nothing accepted is 0.0. */
  function Cascade(rd: Reading, bands: seq<Band>, weights: seq<real>, policy: Policy): (r: real)
    ensures policy == PositiveOnly ==> r >= 0.0
  {
    if weights == [] then 0.0
    else
      var l := FindFee(rd, bands, weights[0]);
      if l.Raised? then 0.0
      else if Accepted(policy, l) then l.amount
      else Cascade(rd, bands, weights[1..], policy)
  }

  /** Neither accepted nor an exception: the cascade goes on. */
  predicate PassesOn(rd: Reading, bands: seq<Band>, w: real, policy: Policy) {
    var l := FindFee(rd, bands, w);
    !l.Raised? && !Accepted(policy, l)
  }

  /** The cascade returns the fee of the first accepted weight ... */
  lemma {:induction false} CascadeFirstAccepted(rd: Reading, bands: seq<Band>, weights: seq<real>, policy: Policy, i: nat)
    requires i < |weights| && Accepted(policy, FindFee(rd, bands, weights[i]))
    requires forall j :: 0 <= j < i ==> PassesOn(rd, bands, weights[j], policy)
    ensures Cascade(rd, bands, weights, policy) == FindFee(rd, bands, weights[i]).amount
  {
    if i > 0 {
      assert PassesOn(rd, bands, weights[0], policy);
      forall j | 0 <= j < i - 1 ensures PassesOn(rd, bands, weights[1..][j], policy) {
        assert weights[1..][j] == weights[j + 1];
      }
      CascadeFirstAccepted(rd, bands, weights[1..], policy, i - 1);
    }
  }

  /** ... 0.0 when an exception comes first ... */
  lemma {:induction false} CascadeRaised(rd: Reading, bands: seq<Band>, weights: seq<real>, policy: Policy, i: nat)
    requires i < |weights| && FindFee(rd, bands, weights[i]).Raised?
    requires forall j :: 0 <= j < i ==> PassesOn(rd, bands, weights[j], policy)
    ensures Cascade(rd, bands, weights, policy) == 0.0
  {
    if i > 0 {
      assert PassesOn(rd, bands, weights[0], policy);
      forall j | 0 <= j < i - 1 ensures PassesOn(rd, bands, weights[1..][j], policy) {
        assert weights[1..][j] == weights[j + 1];
      }
      CascadeRaised(rd, bands, weights[1..], policy, i - 1);
    }
  }

  /** ... and 0.0 when no weight gives an accepted fee. */
  lemma {:induction false} CascadeExhausted(rd: Reading, bands: seq<Band>, weights: seq<real>, policy: Policy)
    requires forall j :: 0 <= j < |weights| ==> PassesOn(rd, bands, weights[j], policy)
    ensures Cascade(rd, bands, weights, policy) == 0.0
  {
    if weights != [] {
      assert PassesOn(rd, bands, weights[0], policy);
      forall j | 0 <= j < |weights| - 1 ensures PassesOn(rd, bands, weights[1..][j], policy) {
        assert weights[1..][j] == weights[j + 1];
      }
      CascadeExhausted(rd, bands, weights[1..], policy);
    }
  }

  /** With no bands no weight matches, so the cascade gives 0.0. */
  lemma NoBandsNoFee(rd: Reading, weights: seq<real>, policy: Policy)
    ensures Cascade(rd, [], weights, policy) == 0.0
  {
    forall j | 0 <= j < |weights| ensures PassesOn(rd, [], weights[j], policy) { }
    CascadeExhausted(rd, [], weights, policy);
  }

  /** The US FBA fallback order: the billing weight, then the actual weight
      if it differs from it, then the volume weight if it differs from both. */
  function UsFallbackWeights(sw: real, pw: real, vw: real): (ws: seq<real>)
    ensures |ws| >= 1 && ws[0] == sw
    ensures pw in ws && vw in ws
    ensures forall i, j :: 0 <= i < j < |ws| ==> ws[i] != ws[j]
    ensures forall k :: 0 <= k < |ws| ==> ws[k] == sw || ws[k] == pw || ws[k] == vw
    ensures pw != sw ==> ws[1] == pw
    ensures vw != sw && vw != pw ==> ws[|ws| - 1] == vw
    ensures |ws| == 1 + (if pw != sw then 1 else 0) + (if vw != sw && vw != pw then 1 else 0)
  {
    [sw] + (if pw != sw then [pw] else []) + (if vw != sw && vw != pw then [vw] else [])
  }

  /** The EU and multichannel fallback order: the billing weight, then the
      actual weight if given and different from it, then the volume weight
      if given and different from the billing weight (not compared with the
      actual weight). */
  function FallbackWeights(sw: real, pw: Option<real>, vw: Option<real>): (ws: seq<real>)
    ensures |ws| >= 1 && ws[0] == sw
    ensures pw.Some? ==> pw.value in ws
    ensures vw.Some? ==> vw.value in ws
    ensures forall k :: 1 <= k < |ws| ==> ws[k] != sw
    ensures forall k :: 0 <= k < |ws| ==>
      ws[k] == sw || (pw.Some? && ws[k] == pw.value) || (vw.Some? && ws[k] == vw.value)
    ensures pw.Some? && pw.value != sw ==> ws[1] == pw.value
    ensures vw.Some? && vw.value != sw ==> ws[|ws| - 1] == vw.value
    ensures |ws| == 1 + (if pw.Some? && pw.value != sw then 1 else 0) + (if vw.Some? && vw.value != sw then 1 else 0)
  {
    [sw] + (if pw.Some? && pw.value != sw then [pw.value] else [])
         + (if vw.Some? && vw.value != sw then [vw.value] else [])
  }

  /** Unlike the US order, the EU and multichannel order can try the same
      weight twice: when the actual and volume weights agree and differ from
      the billing weight. */
  lemma FallbackRepeats(sw: real, v: real)
    requires v != sw
    ensures FallbackWeights(sw, Some(v), Some(v)) == [sw, v, v]
    ensures UsFallbackWeights(sw, v, v) == [sw, v]
  {
  }

  /* `calculate_fee_from_table` (US FBA). */

  /** The price bucket of the US table. */
  function PriceRange(price: real): (r: string)
    ensures r == "<10" <==> price < 10.0
    ensures r == "[10,50]" <==> 10.0 <= price <= 50.0
    ensures r == ">50" <==> price > 50.0
  {
    if price < 10.0 then "<10" else if price <= 50.0 then "[10,50]" else ">50"
  }

  /** US table keys: period, price bucket, size category. */
  type UsKey = (string, string, string)

  function UsFbaFee(table: seq<Row<UsKey>>, size: string, sw: real, price: real, period: string, pw: real, vw: real): (r: real)
    ensures r >= 0.0
    ensures Select(table, (period, PriceRange(price), size)) == [] ==> r == 0.0
  {
    var bands := Select(table, (period, PriceRange(price), size));
    if bands == [] then 0.0
    else Cascade(UsReading(), bands, UsFallbackWeights(sw, pw, vw), PositiveOnly)
  }

  method CalculateFeeFromTable(table: seq<Row<UsKey>>, size: string, sw: real, price: real, period: string, pw: real, vw: real)
    returns (fee: real)
    ensures fee == UsFbaFee(table, size, sw, price, period, pw, vw)
  {
    var bands := Select(table, (period, PriceRange(price), size));
    if |bands| == 0 {
      return 0.0;
    }
    fee := UsFallbackCascade(UsReading(), bands, sw, pw, vw);
  }

  /** The three tries of the US FBA cascade, one after the other. */
  method UsFallbackCascade(rd: Reading, bands: seq<Band>, sw: real, pw: real, vw: real) returns (fee: real)
    ensures fee == Cascade(rd, bands, UsFallbackWeights(sw, pw, vw), PositiveOnly)
  {
    ghost var ws := UsFallbackWeights(sw, pw, vw);
    var l := FindFeeByWeight(rd, bands, sw);
    if l.Raised? {
      return 0.0;
    }
    if l.Fee? && l.amount > 0.0 {
      return l.amount;
    }
    if pw != sw {
      assert ws[1] == pw;
      l := FindFeeByWeight(rd, bands, pw);
      if l.Raised? {
        CascadeRaised(rd, bands, ws, PositiveOnly, 1);
        return 0.0;
      }
      if l.Fee? && l.amount > 0.0 {
        CascadeFirstAccepted(rd, bands, ws, PositiveOnly, 1);
        return l.amount;
      }
    }
    if vw != sw && vw != pw {
      ghost var i := |ws| - 1;
      assert ws[i] == vw;
      l := FindFeeByWeight(rd, bands, vw);
      if l.Raised? {
        CascadeRaised(rd, bands, ws, PositiveOnly, i);
        return 0.0;
      }
      if l.Fee? && l.amount > 0.0 {
        CascadeFirstAccepted(rd, bands, ws, PositiveOnly, i);
        return l.amount;
      }
    }
    CascadeExhausted(rd, bands, ws, PositiveOnly);
    return 0.0;
  }

  /* `calculate_european_fee_from_table`. */

  /** EU table keys: period, country, size category. */
  type EuKey = (string, string, string)

  function EuFbaFee(table: seq<Row<EuKey>>, size: string, sw: real, country: string, period: string, pw: Option<real>, vw: Option<real>): (r: real)
    ensures r >= 0.0
    ensures Select(table, (period, country, size)) == [] ==> r == 0.0
  {
    var bands := Select(table, (period, country, size));
    if bands == [] then 0.0
    else Cascade(EuReading(), bands, FallbackWeights(sw, pw, vw), PositiveOnly)
  }

  method CalculateEuropeanFeeFromTable(table: seq<Row<EuKey>>, size: string, sw: real, country: string, period: string,
                                       pw: Option<real>, vw: Option<real>)
    returns (fee: real)
    ensures fee == EuFbaFee(table, size, sw, country, period, pw, vw)
  {
    var bands := Select(table, (period, country, size));
    if |bands| == 0 {
      return 0.0;
    }
    fee := FallbackCascade(EuReading(), bands, sw, pw, vw, PositiveOnly);
  }

  /** The three tries of the EU and multichannel cascades, one after the other. */
  method FallbackCascade(rd: Reading, bands: seq<Band>, sw: real, pw: Option<real>, vw: Option<real>, policy: Policy)
    returns (fee: real)
    ensures fee == Cascade(rd, bands, FallbackWeights(sw, pw, vw), policy)
  {
    ghost var ws := FallbackWeights(sw, pw, vw);
    var l := FindFeeByWeight(rd, bands, sw);
    if l.Raised? {
      return 0.0;
    }
    if Accepted(policy, l) {
      return l.amount;
    }
    if pw.Some? && pw.value != sw {
      assert ws[1] == pw.value;
      l := FindFeeByWeight(rd, bands, pw.value);
      if l.Raised? {
        CascadeRaised(rd, bands, ws, policy, 1);
        return 0.0;
      }
      if Accepted(policy, l) {
        CascadeFirstAccepted(rd, bands, ws, policy, 1);
        return l.amount;
      }
    }
    if vw.Some? && vw.value != sw {
      ghost var i := |ws| - 1;
      assert ws[i] == vw.value;
      l := FindFeeByWeight(rd, bands, vw.value);
      if l.Raised? {
        CascadeRaised(rd, bands, ws, policy, i);
        return 0.0;
      }
      if Accepted(policy, l) {
        CascadeFirstAccepted(rd, bands, ws, policy, i);
        return l.amount;
      }
    }
    CascadeExhausted(rd, bands, ws, policy);
    return 0.0;
  }

  /* The lookup half of `calculate_multichannel_fee`. */

  /** Multichannel table keys: shipping type (`标准` standard, `加急`
      express) and size category. */
  type McKey = (string, string)

  /** `None` stands for a multichannel table that could not be found or read. */
  function MultichannelFee(table: Option<seq<Row<McKey>>>, size: string, sw: real, shippingType: string,
                           pw: Option<real>, vw: Option<real>): (r: real)
    ensures table.None? ==> r == 0.0
    ensures table.Some? && Select(table.value, (shippingType, size)) == [] ==> r == 0.0
  {
    match table
    case None => 0.0
    case Some(rows) =>
      var bands := Select(rows, (shippingType, size));
      if bands == [] then 0.0
      else Cascade(UsReading(), bands, FallbackWeights(sw, pw, vw), AnyResolved)
  }

  method CalculateMultichannelFee(table: Option<seq<Row<McKey>>>, size: string, sw: real, shippingType: string,
                                  pw: Option<real>, vw: Option<real>)
    returns (fee: real)
    ensures fee == MultichannelFee(table, size, sw, shippingType, pw, vw)
  {
    if table.None? {
      return 0.0;
    }
    var bands := Select(table.value, (shippingType, size));
    if |bands| == 0 {
      return 0.0;
    }
    fee := FallbackCascade(UsReading(), bands, sw, pw, vw, AnyResolved);
  }

  /* Reading fee cells. */

  lemma AllDigitsNoDot(s: string)
    requires AllDigits(s)
    ensures '.' !in s
  {
    forall k | 0 <= k < |s| ensures s[k] != '.' { assert IsDigit(s[k]); }
  }

  /** A fee text that reads as a literal has only digits and dots. */
  lemma LiteralChars(clean: string)
    requires IsDigitText(RemoveChar(clean, '.'))
    ensures forall k :: 0 <= k < |clean| ==> IsDigit(clean[k]) || clean[k] == '.'
  {
    var d := RemoveChar(clean, '.');
    forall k | 0 <= k < |clean| ensures IsDigit(clean[k]) || clean[k] == '.' {
      if clean[k] != '.' {
        assert clean[k] in d;
        var m :| 0 <= m < |d| && d[m] == clean[k];
        assert IsDigit(d[m]);
      }
    }
  }

  lemma DigitsDotsNoSpace(clean: string)
    requires forall k :: 0 <= k < |clean| ==> IsDigit(clean[k]) || clean[k] == '.'
    ensures NoSpace(clean) && (clean == [] || (clean[0] != '+' && clean[0] != '-'))
  {
    if clean != [] { assert IsDigit(clean[0]) || clean[0] == '.'; }
    forall k | 0 <= k < |clean| ensures !IsSpace(clean[k]) {
      assert IsDigit(clean[k]) || clean[k] == '.';
    }
  }

  /** A literal fee raises exactly when it holds two dots or more. */
  lemma LiteralRaisesIff(clean: string)
    requires IsDigitText(RemoveChar(clean, '.'))
    ensures ParseFloat(clean).None? <==> CountChar(clean, '.') >= 2
  {
    LiteralChars(clean);
    DigitsDotsNoSpace(clean);
    ParseFloatUnsigned(clean);
    ParseDigitsDots(clean);
  }

  /** The fee cell is `Raised` exactly for a digits-and-dots text with two
      dots or more (after the currency signs and commas are removed). */
  lemma EvalFeeRaisedIff(region: Region, fee: string, w: real)
    ensures EvalFee(region, fee, w).Raised? <==>
      IsDigitText(RemoveChar(CleanFee(region, fee), '.')) && CountChar(CleanFee(region, fee), '.') >= 2
  {
    var clean := CleanFee(region, fee);
    if IsDigitText(RemoveChar(clean, '.')) {
      LiteralRaisesIff(clean);
    }
  }

  /** The literal `whole.frac` reads as its value. */
  lemma ReadDecimal(whole: string, frac: string)
    requires AllDigits(whole) && AllDigits(frac) && |whole| > 0
    ensures IsLiteral(whole + "." + frac) && ReadLiteral(whole + "." + frac) == Fee(DecimalValue(whole, frac))
  {
    DecimalIsLiteral(whole, frac);
    DecimalParses(whole, frac);
  }

  lemma DecimalIsLiteral(whole: string, frac: string)
    requires AllDigits(whole) && AllDigits(frac) && |whole| > 0
    ensures IsLiteral(whole + "." + frac)
  {
    AllDigitsNoDot(whole);
    AllDigitsNoDot(frac);
    RemoveCharAround(whole, '.', frac);
    AllDigitsAppend(whole, frac);
  }

  lemma DecimalParses(whole: string, frac: string)
    requires AllDigits(whole) && AllDigits(frac) && |whole| > 0
    ensures ParseFloat(whole + "." + frac) == Some(DecimalValue(whole, frac))
  {
    var t := whole + "." + frac;
    DigitsDotsText(whole, frac);
    DigitsDotsNoSpace(t);
    ParseFloatUnsigned(t);
    ParseUnsignedDecimal(whole, frac);
  }

  lemma DigitsDotsText(whole: string, frac: string)
    requires AllDigits(whole) && AllDigits(frac)
    ensures forall m :: 0 <= m < |whole + "." + frac| ==> IsDigit((whole + "." + frac)[m]) || (whole + "." + frac)[m] == '.'
  {
    var t := whole + "." + frac;
    forall m | 0 <= m < |t| ensures IsDigit(t[m]) || t[m] == '.' {
      if m < |whole| { assert t[m] == whole[m]; }
      else if m > |whole| { assert t[m] == frac[m - |whole| - 1]; }
    }
  }

  /** The currency signs each cleaning removes: `$` for the US tables,
      `£` and `€` for the EU table. */
  predicate IsCurrencySign(region: Region, c: char) {
    match region
    case Us => c == '$'
    case Eu => c == '£' || c == '€'
  }

  /** No currency sign and no thousands separator, in either region. */
  predicate NoFeeMarks(t: string) {
    '$' !in t && '£' !in t && '€' !in t && ',' !in t
  }

  /** A text without signs and separators is left as it is. */
  lemma CleanPlain(region: Region, t: string)
    requires NoFeeMarks(t)
    ensures CleanFee(region, t) == t
  {
  }

  /** The region's currency sign in front of such a text is dropped. */
  lemma CleanSigned(region: Region, sign: char, t: string)
    requires IsCurrencySign(region, sign) && NoFeeMarks(t)
    ensures CleanFee(region, [sign] + t) == t
  {
    if region == Us {
      RemoveCharAppend([sign], t, '$');
      assert RemoveChar([sign], '$') == [];
      assert RemoveChar([sign] + t, '$') == t;
    } else {
      RemoveCharAppend([sign], t, '£');
      var a := RemoveChar([sign], '£');
      assert a == [] || a == [sign];
      RemoveCharAppend(a, t, '€');
      assert RemoveChar(a, '€') == [];
      assert RemoveChar(a + t, '€') == t;
    }
  }

  /** The currency sign in front of an amount is dropped. */
  lemma CleanAmount(region: Region, sign: char, whole: string, frac: string)
    requires IsCurrencySign(region, sign) && AllDigits(whole) && AllDigits(frac)
    ensures CleanFee(region, [sign] + (whole + "." + frac)) == whole + "." + frac
  {
    var t := whole + "." + frac;
    DigitsDotsText(whole, frac);
    assert NoFeeMarks(t) by {
      forall m | 0 <= m < |t| ensures t[m] != '$' && t[m] != ',' && t[m] != '£' && t[m] != '€' {
        assert IsDigit(t[m]) || t[m] == '.';
      }
    }
    CleanSigned(region, sign, t);
  }

  /** A plain amount `whole.frac` after the currency sign reads as its value
      (`$12.50` is 12.5). */
  lemma EvalFeeAmount(region: Region, sign: char, whole: string, frac: string, w: real)
    requires IsCurrencySign(region, sign) && AllDigits(whole) && AllDigits(frac) && |whole| > 0
    ensures EvalFee(region, [sign] + whole + "." + frac, w) == Fee(DecimalValue(whole, frac))
  {
    assert [sign] + whole + "." + frac == [sign] + (whole + "." + frac);
    CleanAmount(region, sign, whole, frac);
    ReadDecimal(whole, frac);
  }

  /** A formula cell without signs and separators whose text is no literal
      costs its value rounded to cents. */
  lemma EvalFeeFormula(region: Region, t: string, w: real)
    requires NoFeeMarks(t) && !IsLiteral(t) && Formula.Evaluate(t, w).Some?
    ensures EvalFee(region, t, w) == Fee(Formula.Round(Formula.Evaluate(t, w).value, 2))
  {
    CleanPlain(region, t);
  }

  /** The same cell after the region's currency sign costs the same. */
  lemma EvalFeeSignedFormula(region: Region, sign: char, t: string, w: real)
    requires IsCurrencySign(region, sign) && NoFeeMarks(t) && !IsLiteral(t) && Formula.Evaluate(t, w).Some?
    ensures EvalFee(region, [sign] + t, w) == Fee(Formula.Round(Formula.Evaluate(t, w).value, 2))
  {
    CleanSigned(region, sign, t);
  }

  /** A linear formula cell `base+rate*发货重量` costs `base + rate * w`
      rounded to cents. */
  lemma EvalFeeLinear(region: Region, base: string, aWhole: string, aFrac: string, a: real,
                      rate: string, bWhole: string, bFrac: string, b: real, w: real, v: real)
    requires AllDigits(aWhole) && AllDigits(aFrac) && |aWhole| + |aFrac| > 0
    requires AllDigits(bWhole) && AllDigits(bFrac) && |bWhole| + |bFrac| > 0
    requires base == aWhole + "." + aFrac && rate == bWhole + "." + bFrac
    requires a == DecimalValue(aWhole, aFrac) && b == DecimalValue(bWhole, bFrac)
    requires v == a + b * w
    ensures EvalFee(region, Formula.LinearCell(base, rate), w) == Fee(Formula.Round(v, 2))
  {
    var t := Formula.LinearCell(base, rate);
    Formula.LinearFormula(base, aWhole, aFrac, a, rate, bWhole, bFrac, b, w, v);
    LinearCellChars(base, aWhole, aFrac, rate, bWhole, bFrac);
    OperatorNotLiteral(t);
    EvalFeeFormula(region, t, w);
  }

  /** A text holding a `+` is no literal: its text without dots has a
      character that is not a digit. */
  lemma OperatorNotLiteral(t: string)
    requires '+' in t
    ensures !IsLiteral(t)
  {
    assert '+' in RemoveChar(t, '.');
  }

  /** The characters of a linear formula cell: no sign, no separator, and a
      `+` that keeps it from reading as a literal. */
  lemma LinearCellChars(base: string, aWhole: string, aFrac: string,
                        rate: string, bWhole: string, bFrac: string)
    requires AllDigits(aWhole) && AllDigits(aFrac) && AllDigits(bWhole) && AllDigits(bFrac)
    requires base == aWhole + "." + aFrac && rate == bWhole + "." + bFrac
    ensures NoFeeMarks(Formula.LinearCell(base, rate)) && '+' in Formula.LinearCell(base, rate)
  {
    var t := Formula.LinearCell(base, rate);
    DigitsDotsText(aWhole, aFrac);
    DigitsDotsText(bWhole, bFrac);
    assert t == base + "+" + rate + "*" + Formula.WeightName;
    assert t[|base|] == '+';
    forall c | c in "$£€," ensures c !in t {
      assert c !in base by {
        forall m | 0 <= m < |base| ensures base[m] != c { assert IsDigit(base[m]) || base[m] == '.'; }
      }
      assert c !in rate by {
        forall m | 0 <= m < |rate| ensures rate[m] != c { assert IsDigit(rate[m]) || rate[m] == '.'; }
      }
      assert c !in Formula.WeightName;
    }
  }

  /** The US cell `$0.40+0.10*发货重量` at 5 pounds costs 0.90. */
  lemma EvalFeeExample(base: string, rate: string)
    requires base == "0.40" && rate == "0.10"
    ensures EvalFee(Us, "$" + Formula.LinearCell(base, rate), 5.0) == Fee(0.9)
  {
    var t := Formula.LinearCell(base, rate);
    assert Formula.Evaluate(t, 5.0) == Some(0.9) by {
      Formula.FormulaExample(base, rate);
    }
    ExampleCellChars(base, rate);
    EvalFeeSignedFormula(Us, '$', t, 5.0);
    assert "$" == ['$'];
    assert Formula.Scale(2) == 100.0 by { assert Pow10(2) == 100; }
    Formula.RoundOnGrid(0.9, 90, 2);
  }

  lemma ExampleCellChars(base: string, rate: string)
    requires base == "0.40" && rate == "0.10"
    ensures NoFeeMarks(Formula.LinearCell(base, rate)) && !IsLiteral(Formula.LinearCell(base, rate))
  {
    LinearCellChars(base, "0", "40", rate, "0", "10");
    OperatorNotLiteral(Formula.LinearCell(base, rate));
  }
}
