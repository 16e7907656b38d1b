/** The US `process_product_dataframe`: one output record per input record,
    holding the 2024 and 2026 tiers and billing weights, the removal fee, the
    two multichannel fees and the FBA fee of every period under both rules. */
module UsPipeline {
  import opened Text
  import opened Cells
  import Formula
  import FeeLookup
  import UsRules
  import Columns

  /** The input columns the row loop reads.  `salesPrice` is `None` when the
      sheet has no `sales-price` column. */
  datatype UsRecord = UsRecord(
    longest: Cell, median: Cell, shortest: Cell, dimensionUnit: string,
    weight: Cell, weightUnit: string, salesPrice: Option<Cell>)

  /** The output columns, with one FBA fee per period in `fba2024` and
      `fba2026`. */
  datatype UsResult = UsResult(
    category2024: string, shippingWeight2024: real,
    category2026: string, shippingWeight2026: real,
    removalFee2026: real, multichannelStandard: real, multichannelExpress: real,
    fba2024: seq<real>, fba2026: seq<real>)

  /** The values the new columns start with, kept by a record the loop
      gives up on. */
  function UsDefaults(periods: nat): (r: UsResult)
    ensures |r.fba2024| == periods && |r.fba2026| == periods
  {
    UsResult("", 0.0, "", 0.0, 0.0, 0.0, 0.0, seq(periods, _ => 0.0), seq(periods, _ => 0.0))
  }

  /** A length in inches: centimetres (in any letter case) are converted. */
  function InInches(v: real, unit: string): real {
    if Lower(unit) == "centimeters" then UsRules.ConvertUnits(v, "centimeters", "inches") else v
  }

  /** A weight in pounds: grams and kilograms (in any letter case) are
      converted, kilograms by way of grams. */
  function InPounds(v: real, unit: string): real {
    var u := Lower(unit);
    if u == "grams" || u == "g" then UsRules.ConvertUnits(v, "grams", "pounds")
    else if u == "kilograms" || u == "kg" then UsRules.ConvertUnits(v * 1000.0, "grams", "pounds")
    else v
  }

  /** How each weight unit is read. */
  lemma InPoundsFactor(v: real, unit: string)
    ensures Lower(unit) in {"grams", "g"} ==> InPounds(v, unit) == v * UsRules.GToPounds
    ensures Lower(unit) in {"kilograms", "kg"} ==> InPounds(v, unit) == v * UsRules.KgToPounds
    ensures Lower(unit) !in {"grams", "g", "kilograms", "kg"} ==> InPounds(v, unit) == v
  {
    UsRules.KilogramsToPounds(v);
  }

  /** The sides in inches and the weight in pounds, or `None` when one of the
      four cells does not read as a number. */
  function Measures(rec: UsRecord): (r: Option<(real, real, real, real)>)
    ensures r.None? <==> ReadFloat(rec.longest).None? || ReadFloat(rec.median).None? ||
                         ReadFloat(rec.shortest).None? || ReadFloat(rec.weight).None?
  {
    match (ReadFloat(rec.longest), ReadFloat(rec.median), ReadFloat(rec.shortest), ReadFloat(rec.weight))
    case (Some(l), Some(m), Some(s), Some(w)) =>
      Some((InInches(l, rec.dimensionUnit), InInches(m, rec.dimensionUnit), InInches(s, rec.dimensionUnit),
            InPounds(w, rec.weightUnit)))
    case _ => None
  }

  /** `float(row['sales-price']) if 'sales-price' in row else 0.0` */
  function Price(rec: UsRecord): Option<real> {
    match rec.salesPrice
    case None => Some(0.0)
    case Some(c) => ReadFloat(c)
  }

  /** The billing weight of a tier for a year the rules know. */
  function BillingWeight(pw: real, vw: real, category: string, year: int): real
    requires year == 2024 || year == 2026
  {
    UsRules.ShippingWeight(pw, vw, category, year).value
  }

  /** The FBA fee column of one rule set, one entry per period. */
  function FbaColumn(fees: seq<FeeLookup.Row<FeeLookup.UsKey>>, category: string, sw: real, price: real,
                     periods: seq<string>, pw: real, vw: real): (r: seq<real>)
    ensures |r| == |periods|
  {
    seq(|periods|, k requires 0 <= k < |periods| =>
      Formula.Round(FeeLookup.UsFbaFee(fees, category, sw, price, periods[k], pw, vw), 2))
  }

  /** What the loop body leaves in the output record for `rec`: the defaults
      when a side or the weight does not read as a number, and otherwise the
      record `MeasuredRow` describes. */
  function UsRowResult(fees: seq<FeeLookup.Row<FeeLookup.UsKey>>, mc: Option<seq<FeeLookup.Row<FeeLookup.McKey>>>,
                       periods: seq<string>, rec: UsRecord): (r: UsResult)
    ensures |r.fba2024| == |periods| && |r.fba2026| == |periods|
    ensures r.category2024 == "" <==> Measures(rec).None?
    ensures r.category2026 == "" <==> Measures(rec).None?
  {
    match Measures(rec)
    case None => UsDefaults(|periods|)
    case Some(ms) => MeasuredRow(fees, mc, periods, ms, Price(rec))
  }

  /** The output for sides `l`, `m`, `s` (inches) and weight `pw` (pounds):
      tiers, weights, removal and multichannel fees, and the FBA fees when the
      price reads as a number (they stay zero otherwise). */
  function MeasuredRow(fees: seq<FeeLookup.Row<FeeLookup.UsKey>>, mc: Option<seq<FeeLookup.Row<FeeLookup.McKey>>>,
                       periods: seq<string>, ms: (real, real, real, real), price: Option<real>): UsResult
  {
    var (l, m, s, pw) := ms;
    var vw := UsRules.VolumeWeight(l, m, s);
    var c24 := UsRules.Label(UsRules.Classify2024(l, m, s, pw));
    var sw24 := BillingWeight(pw, vw, c24, 2024);
    var c26 := UsRules.Label(UsRules.Classify2026(l, m, s, pw));
    var sw26 := BillingWeight(pw, vw, c26, 2026);
    UsResult(
      c24, Formula.Round(sw24, 3), c26, Formula.Round(sw26, 3),
      Formula.Round(UsRules.RemovalFee(c26, sw26), 2),
      Formula.Round(FeeLookup.MultichannelFee(mc, c26, sw26, "标准", Some(pw), Some(vw)), 2),
      Formula.Round(FeeLookup.MultichannelFee(mc, c26, sw26, "加急", Some(pw), Some(vw)), 2),
      if price.Some? then FbaColumn(fees, c24, sw24, price.value, periods, pw, vw) else seq(|periods|, _ => 0.0),
      if price.Some? then FbaColumn(fees, c26, sw26, price.value, periods, pw, vw) else seq(|periods|, _ => 0.0))
  }

  /** The body of the row loop for one record. */
  method ProcessRecord(fees: seq<FeeLookup.Row<FeeLookup.UsKey>>, mc: Option<seq<FeeLookup.Row<FeeLookup.McKey>>>,
                       periods: seq<string>, rec: UsRecord)
    returns (r: UsResult)
    ensures r == UsRowResult(fees, mc, periods, rec)
  {
    r := UsDefaults(|periods|);
    var measures := Measures(rec);
    if measures.None? {
      return;
    }
    r := ProcessMeasured(fees, mc, periods, measures.value, Price(rec));
  }

  /** The loop body once the sides and the weight have been read: it fills
      the columns in the order the source writes them. */
  method ProcessMeasured(fees: seq<FeeLookup.Row<FeeLookup.UsKey>>, mc: Option<seq<FeeLookup.Row<FeeLookup.McKey>>>,
                         periods: seq<string>, ms: (real, real, real, real), price: Option<real>)
    returns (r: UsResult)
    ensures r == MeasuredRow(fees, mc, periods, ms, price)
  {
    r := UsDefaults(|periods|);
    var (l, m, s, pw) := ms;
    var vw := UsRules.VolumeWeight(l, m, s);
    var c24 := UsRules.Label(UsRules.Classify2024(l, m, s, pw));
    var sw24 := BillingWeight(pw, vw, c24, 2024);
    var c26 := UsRules.Label(UsRules.Classify2026(l, m, s, pw));
    var sw26 := BillingWeight(pw, vw, c26, 2026);
    r := r.(category2024 := c24, shippingWeight2024 := Formula.Round(sw24, 3),
            category2026 := c26, shippingWeight2026 := Formula.Round(sw26, 3));
    r := r.(removalFee2026 := Formula.Round(UsRules.RemovalFee(c26, sw26), 2));
    var standard := FeeLookup.CalculateMultichannelFee(mc, c26, sw26, "标准", Some(pw), Some(vw));
    var express := FeeLookup.CalculateMultichannelFee(mc, c26, sw26, "加急", Some(pw), Some(vw));
    r := r.(multichannelStandard := Formula.Round(standard, 2), multichannelExpress := Formula.Round(express, 2));
    if price.None? {
      return;
    }
    var col24 := FbaFees(fees, c24, sw24, price.value, periods, pw, vw);
    var col26 := FbaFees(fees, c26, sw26, price.value, periods, pw, vw);
    r := r.(fba2024 := col24, fba2026 := col26);
  }

  /** The FBA fees of one rule set, computed period by period. */
  method FbaFees(fees: seq<FeeLookup.Row<FeeLookup.UsKey>>, category: string, sw: real, price: real,
                 periods: seq<string>, pw: real, vw: real)
    returns (col: seq<real>)
    ensures col == FbaColumn(fees, category, sw, price, periods, pw, vw)
  {
    col := seq(|periods|, _ => 0.0);
    var k := 0;
    while k < |periods|
      invariant 0 <= k <= |periods| && |col| == |periods|
      invariant forall j :: 0 <= j < k ==> col[j] == FbaColumn(fees, category, sw, price, periods, pw, vw)[j]
    {
      var fee := FeeLookup.CalculateFeeFromTable(fees, category, sw, price, periods[k], pw, vw);
      col := col[k := Formula.Round(fee, 2)];
      k := k + 1;
    }
  }

  /** `process_product_dataframe`: one output record per input record, each
      as `UsRowResult` describes it. */
  method ProcessProductDataframe(fees: seq<FeeLookup.Row<FeeLookup.UsKey>>, mc: Option<seq<FeeLookup.Row<FeeLookup.McKey>>>,
                                 periods: seq<string>, records: seq<UsRecord>)
    returns (out: array<UsResult>)
    ensures out.Length == |records|
    ensures forall i :: 0 <= i < |records| ==> out[i] == UsRowResult(fees, mc, periods, records[i])
  {
    out := new UsResult[|records|];
    ghost var row := rec => UsRowResult(fees, mc, periods, rec);
    var i := 0;
    while i < |records|
      invariant 0 <= i <= |records| && out.Length == |records|
      invariant Columns.FilledBy(out[..], records, row, i)
    {
      var r := ProcessRecord(fees, mc, periods, records[i]);
      ghost var before := out[..];
      out[i] := r;
      Columns.FillNext(before, out[..], records, row, i);
      i := i + 1;
    }
    assert Columns.FilledBy(out[..], records, row, |records|);
  }

  /** A record whose sides or weight do not read as numbers keeps every
      default, and one that does gets the two classifiers' labels. */
  lemma RowTiers(fees: seq<FeeLookup.Row<FeeLookup.UsKey>>, mc: Option<seq<FeeLookup.Row<FeeLookup.McKey>>>,
                 periods: seq<string>, rec: UsRecord)
    ensures Measures(rec).None? ==> UsRowResult(fees, mc, periods, rec) == UsDefaults(|periods|)
    ensures Measures(rec).Some? ==>
      var (l, m, s, pw) := Measures(rec).value;
      var r := UsRowResult(fees, mc, periods, rec);
      r.category2024 == UsRules.Label(UsRules.Classify2024(l, m, s, pw)) &&
      r.category2026 == UsRules.Label(UsRules.Classify2026(l, m, s, pw)) &&
      r.category2024 != "" && r.category2026 != ""
  {
    match Measures(rec)
    case None =>
    case Some(ms) =>
      var (l, m, s, pw) := ms;
      var r := MeasuredRow(fees, mc, periods, ms, Price(rec));
      assert UsRowResult(fees, mc, periods, rec) == r;
      assert r.category2024 == UsRules.Label(UsRules.Classify2024(l, m, s, pw));
      assert r.category2026 == UsRules.Label(UsRules.Classify2026(l, m, s, pw));
  }

  /** Every number a record gets is never negative except the multichannel
      fees (a formula there may go below zero); the FBA columns have one entry
      per period; an unreadable price leaves them all zero. */
  lemma RowFees(fees: seq<FeeLookup.Row<FeeLookup.UsKey>>, mc: Option<seq<FeeLookup.Row<FeeLookup.McKey>>>,
                periods: seq<string>, rec: UsRecord)
    ensures var r := UsRowResult(fees, mc, periods, rec);
      |r.fba2024| == |periods| && |r.fba2026| == |periods| &&
      r.removalFee2026 >= 0.0 &&
      (forall k :: 0 <= k < |periods| ==> r.fba2024[k] >= 0.0 && r.fba2026[k] >= 0.0) &&
      (Price(rec).None? ==> forall k :: 0 <= k < |periods| ==> r.fba2024[k] == 0.0 && r.fba2026[k] == 0.0)
  {
    match Measures(rec)
    case None =>
    case Some(ms) =>
      MeasuredRowFees(fees, mc, periods, ms, Price(rec));
  }

  lemma MeasuredRowFees(fees: seq<FeeLookup.Row<FeeLookup.UsKey>>, mc: Option<seq<FeeLookup.Row<FeeLookup.McKey>>>,
                        periods: seq<string>, ms: (real, real, real, real), price: Option<real>)
    ensures var r := MeasuredRow(fees, mc, periods, ms, price);
      |r.fba2024| == |periods| && |r.fba2026| == |periods| &&
      r.removalFee2026 >= 0.0 &&
      (forall k :: 0 <= k < |periods| ==> r.fba2024[k] >= 0.0 && r.fba2026[k] >= 0.0) &&
      (price.None? ==> forall k :: 0 <= k < |periods| ==> r.fba2024[k] == 0.0 && r.fba2026[k] == 0.0)
  {
    var r := MeasuredRow(fees, mc, periods, ms, price);
    var (l, m, s, pw) := ms;
    var vw := UsRules.VolumeWeight(l, m, s);
    var c24 := UsRules.Label(UsRules.Classify2024(l, m, s, pw));
    var sw24 := BillingWeight(pw, vw, c24, 2024);
    var c26 := UsRules.Label(UsRules.Classify2026(l, m, s, pw));
    var sw26 := BillingWeight(pw, vw, c26, 2026);
    UsRules.RemovalFeeCents(c26, sw26);
    if price.Some? {
      forall k | 0 <= k < |periods| ensures r.fba2024[k] >= 0.0 && r.fba2026[k] >= 0.0 {
        Formula.RoundNonNegative(FeeLookup.UsFbaFee(fees, c24, sw24, price.value, periods[k], pw, vw), 2);
        Formula.RoundNonNegative(FeeLookup.UsFbaFee(fees, c26, sw26, price.value, periods[k], pw, vw), 2);
      }
    }
  }
}
