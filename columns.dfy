/** Output columns filled one record at a time. */
module Columns {
  /** The first `n` entries of `out` are `f` of the matching record. */
  ghost predicate FilledBy<R, T>(out: seq<T>, records: seq<R>, f: R -> T, n: nat)
    requires n <= |out| && n <= |records|
  {
    forall j :: 0 <= j < n ==> out[j] == f(records[j])
  }

  /** Writing entry `n` extends the filled prefix by one. */
  lemma FillNext<R, T>(before: seq<T>, after: seq<T>, records: seq<R>, f: R -> T, n: nat)
    requires n < |before| == |after| && n < |records|
    requires FilledBy(before, records, f, n)
    requires forall j :: 0 <= j < n ==> after[j] == before[j]
    requires after[n] == f(records[n])
    ensures FilledBy(after, records, f, n + 1)
  {
  }
}
