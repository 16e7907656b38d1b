/** The European `process_product_dataframe`: the store code picks the
    country, records with an unknown store are skipped, and every other one
    gets its tier, billing weight and the FBA fee of every period. */
module EuPipeline {
  import opened Text
  import opened Cells
  import Formula
  import FeeLookup
  import EuRules
  import Columns

  /** The input columns the row loop reads (sides in centimetres, weight in
      grams). */
  datatype EuRecord = EuRecord(store: string, longest: Cell, median: Cell, shortest: Cell, weight: Cell)

  /** The output columns, with one FBA fee per period in `fees`. */
  datatype EuResult = EuResult(category: string, shippingWeight: real, country: string, fees: seq<real>)

  /** The values the new columns start with, kept by a skipped record. */
  function EuDefaults(periods: nat): (r: EuResult)
    ensures |r.fees| == periods && r.country == ""
  {
    EuResult("", 0.0, "", seq(periods, _ => 0.0))
  }

  /** `str(row['amazon-store']).strip().upper()` mapped to the country of the
      fee table; `None` for a store the loop skips. */
  function StoreCountry(store: string): (r: Option<string>)
    ensures r.Some? ==> r.value == "英国" || r.value == "德国"
  {
    var code := Upper(Strip(store));
    if code == "GB" then Some("英国")
    else if code == "DE" then Some("德国")
    else None
  }

  /** The store code is read without regard to surrounding blanks. */
  lemma StoreCountryIgnoresBlanks(store: string)
    ensures StoreCountry(Strip(store)) == StoreCountry(store)
  {
    StripIdempotent(store);
  }

  /** The store code is read without regard to letter case. */
  lemma StoreCountryIgnoresCase(store: string)
    ensures StoreCountry(Lower(store)) == StoreCountry(store)
  {
    StripLower(store);
    UpperLower(Strip(store));
    assert Upper(Strip(Lower(store))) == Upper(Strip(store));
  }

  lemma UpperLower(s: string)
    ensures Upper(Lower(s)) == Upper(s)
  {
    assert forall k :: 0 <= k < |s| ==> Upper(Lower(s))[k] == Upper(s)[k];
  }

  lemma LowerSlice(s: string, i: nat, j: nat)
    requires i <= j <= |s|
    ensures Lower(s[i..j]) == Lower(s)[i..j]
  {
  }

  /** Blanks are not letters, so lowering the case and stripping commute. */
  lemma StripLower(s: string)
    ensures Strip(Lower(s)) == Lower(Strip(s))
  {
    TrimLeftLower(s);
    TrimRightLower(TrimLeft(s));
  }

  lemma {:induction false} TrimLeftLower(s: string)
    ensures TrimLeft(Lower(s)) == Lower(TrimLeft(s))
    decreases |s|
  {
    if s != [] {
      assert Lower(s)[0] == LowerChar(s[0]);
      assert IsSpace(LowerChar(s[0])) == IsSpace(s[0]);
      if IsSpace(s[0]) {
        LowerSlice(s, 1, |s|);
        TrimLeftLower(s[1..]);
      }
    }
  }

  lemma {:induction false} TrimRightLower(s: string)
    ensures TrimRight(Lower(s)) == Lower(TrimRight(s))
    decreases |s|
  {
    if s != [] {
      assert Lower(s)[|s| - 1] == LowerChar(s[|s| - 1]);
      assert IsSpace(LowerChar(s[|s| - 1])) == IsSpace(s[|s| - 1]);
      if IsSpace(s[|s| - 1]) {
        LowerSlice(s, 0, |s| - 1);
        TrimRightLower(s[..|s| - 1]);
      }
    }
  }

  /** The sides and the weight, or `None` when one of the four cells does not
      read as a number. */
  function EuMeasures(rec: EuRecord): (r: Option<(real, real, real, real)>)
    ensures r.None? <==> ReadFloat(rec.longest).None? || ReadFloat(rec.median).None? ||
                         ReadFloat(rec.shortest).None? || ReadFloat(rec.weight).None?
  {
    match (ReadFloat(rec.longest), ReadFloat(rec.median), ReadFloat(rec.shortest), ReadFloat(rec.weight))
    case (Some(l), Some(m), Some(s), Some(w)) => Some((l, m, s, w))
    case _ => None
  }

  /** What the loop leaves in the output record for `rec`. */
  function EuRowResult(table: seq<FeeLookup.Row<FeeLookup.EuKey>>, periods: seq<string>, rec: EuRecord): (r: EuResult)
    ensures |r.fees| == |periods|
    ensures r.country == "" <==> StoreCountry(rec.store).None? || EuMeasures(rec).None?
    ensures r.country != "" ==> r.country == "英国" || r.country == "德国"
  {
    match StoreCountry(rec.store)
    case None => EuDefaults(|periods|)
    case Some(country) =>
      match EuMeasures(rec)
      case None => EuDefaults(|periods|)
      case Some(ms) => MeasuredEuRow(table, periods, country, ms)
  }

  /** The output for a known store and readable sides and weight. */
  function MeasuredEuRow(table: seq<FeeLookup.Row<FeeLookup.EuKey>>, periods: seq<string>, country: string,
                         ms: (real, real, real, real)): EuResult
  {
    var (l, m, s, pw) := ms;
    var vw := EuRules.VolumeWeight(l, m, s);
    var category := EuRules.Label(EuRules.EuClassify(l, m, s, pw));
    var sw := EuRules.EuShippingWeight(pw, vw, category);
    EuResult(category, Formula.Round(sw, 3), country, EuFeeColumn(table, category, sw, country, periods, pw, vw))
  }

  /** The FBA fee column, one entry per period. */
  function EuFeeColumn(table: seq<FeeLookup.Row<FeeLookup.EuKey>>, category: string, sw: real, country: string,
                       periods: seq<string>, pw: real, vw: real): (r: seq<real>)
    ensures |r| == |periods|
  {
    seq(|periods|, k requires 0 <= k < |periods| =>
      Formula.Round(FeeLookup.EuFbaFee(table, category, sw, country, periods[k], Some(pw), Some(vw)), 2))
  }

  /** `process_product_dataframe`: a record the loop skips keeps the
      defaults its columns were created with; every other one is overwritten. */
  method ProcessProductDataframe(table: seq<FeeLookup.Row<FeeLookup.EuKey>>, periods: seq<string>, records: seq<EuRecord>)
    returns (out: array<EuResult>)
    ensures out.Length == |records|
    ensures forall i :: 0 <= i < |records| ==> out[i] == EuRowResult(table, periods, records[i])
  {
    out := new EuResult[|records|];
    ghost var row := rec => EuRowResult(table, periods, rec);
    var i := 0;
    while i < |records|
      invariant 0 <= i <= |records| && out.Length == |records|
      invariant Columns.FilledBy(out[..], records, row, i)
    {
      var r := ProcessRecord(table, periods, records[i]);
      ghost var before := out[..];
      if r.None? {
        out[i] := EuDefaults(|periods|);
      } else {
        out[i] := r.value;
      }
      Columns.FillNext(before, out[..], records, row, i);
      i := i + 1;
    }
    assert Columns.FilledBy(out[..], records, row, |records|);
  }

  /** The loop body for one record: `None` where the source skips the record
      (unknown store, or a side or the weight that does not read as a
      number). */
  method ProcessRecord(table: seq<FeeLookup.Row<FeeLookup.EuKey>>, periods: seq<string>, rec: EuRecord)
    returns (r: Option<EuResult>)
    ensures r.None? <==> StoreCountry(rec.store).None? || EuMeasures(rec).None?
    ensures r.None? ==> EuRowResult(table, periods, rec) == EuDefaults(|periods|)
    ensures r.Some? ==> r.value == EuRowResult(table, periods, rec)
  {
    var country := StoreCountry(rec.store);
    if country.None? {
      return None;
    }
    var measures := EuMeasures(rec);
    if measures.None? {
      return None;
    }
    var result := ProcessMeasured(table, periods, country.value, measures.value);
    return Some(result);
  }

  /** The loop body for a known store and readable sides and weight. */
  method ProcessMeasured(table: seq<FeeLookup.Row<FeeLookup.EuKey>>, periods: seq<string>, country: string,
                         ms: (real, real, real, real))
    returns (r: EuResult)
    ensures r == MeasuredEuRow(table, periods, country, ms)
  {
    var (l, m, s, pw) := ms;
    var vw := EuRules.VolumeWeight(l, m, s);
    var size := EuRules.DetermineEuropeanSizeCategory(l, m, s, pw);
    var category := EuRules.Label(size);
    var sw := EuRules.EuShippingWeight(pw, vw, category);
    var col := seq(|periods|, _ => 0.0);
    var k := 0;
    while k < |periods|
      invariant 0 <= k <= |periods| && |col| == |periods|
      invariant forall j :: 0 <= j < k ==> col[j] == EuFeeColumn(table, category, sw, country, periods, pw, vw)[j]
    {
      var fee := FeeLookup.CalculateEuropeanFeeFromTable(table, category, sw, country, periods[k], Some(pw), Some(vw));
      col := col[k := Formula.Round(fee, 2)];
      k := k + 1;
    }
    r := EuResult(category, Formula.Round(sw, 3), country, col);
  }

  /** A record keeps its defaults exactly when its country column stays
      empty: an unknown store or an unreadable number leaves the record as it
      was, and every other record gets 英国 or 德国. */
  lemma CountryEmptyIffDefaults(table: seq<FeeLookup.Row<FeeLookup.EuKey>>, periods: seq<string>, rec: EuRecord)
    ensures StoreCountry(rec.store).None? ==> EuRowResult(table, periods, rec) == EuDefaults(|periods|)
    ensures EuRowResult(table, periods, rec).country == "" <==> EuRowResult(table, periods, rec) == EuDefaults(|periods|)
    ensures EuRowResult(table, periods, rec).country == "" <==> StoreCountry(rec.store).None? || EuMeasures(rec).None?
  {
  }

  /** A processed record holds the classifier's label, the billing weight to
      three places and a non-negative fee for every period. */
  lemma RowFacts(table: seq<FeeLookup.Row<FeeLookup.EuKey>>, periods: seq<string>, rec: EuRecord)
    ensures var r := EuRowResult(table, periods, rec);
      |r.fees| == |periods| && (forall k :: 0 <= k < |periods| ==> r.fees[k] >= 0.0)
    ensures StoreCountry(rec.store).Some? && EuMeasures(rec).Some? ==>
      var (l, m, s, pw) := EuMeasures(rec).value;
      var r := EuRowResult(table, periods, rec);
      r.category == EuRules.Label(EuRules.EuClassify(l, m, s, pw)) &&
      r.shippingWeight == Formula.Round(EuRules.EuShippingWeight(pw, EuRules.VolumeWeight(l, m, s), r.category), 3)
  {
    var r := EuRowResult(table, periods, rec);
    if StoreCountry(rec.store).Some? && EuMeasures(rec).Some? {
      var country := StoreCountry(rec.store).value;
      var (l, m, s, pw) := EuMeasures(rec).value;
      var vw := EuRules.VolumeWeight(l, m, s);
      var category := EuRules.Label(EuRules.EuClassify(l, m, s, pw));
      var sw := EuRules.EuShippingWeight(pw, vw, category);
      forall k | 0 <= k < |periods| ensures r.fees[k] >= 0.0 {
        Formula.RoundNonNegative(FeeLookup.EuFbaFee(table, category, sw, country, periods[k], Some(pw), Some(vw)), 2);
      }
    }
  }
}
