/** Totals over a sequence, and how they change with one element. */
module Sums {
  function Total<T>(ts: seq<T>, weight: T -> nat): (n: nat)
  {
    if ts == [] then 0 else Total(ts[..|ts| - 1], weight) + weight(ts[|ts| - 1])
  }

  lemma {:induction false} TotalUpdate<T>(ts: seq<T>, i: nat, v: T, weight: T -> nat)
    requires i < |ts|
    ensures Total(ts[i := v], weight) == Total(ts, weight) - weight(ts[i]) + weight(v)
  {
    var rest, last := ts[..|ts| - 1], ts[|ts| - 1];
    if i == |ts| - 1 {
      assert ts[i := v][..|ts| - 1] == rest;
    } else {
      TotalUpdate(rest, i, v, weight);
      assert ts[i := v][..|ts| - 1] == rest[i := v];
    }
  }

  lemma {:induction false} TotalHead<T>(ts: seq<T>, weight: T -> nat)
    requires ts != []
    ensures Total(ts, weight) == weight(ts[0]) + Total(ts[1..], weight)
  {
    if |ts| > 1 {
      TotalHead(ts[..|ts| - 1], weight);
      assert ts[..|ts| - 1][1..] == ts[1..][..|ts| - 2];
    }
  }

  lemma TotalAppend<T>(ts: seq<T>, t: T, weight: T -> nat)
    ensures Total(ts + [t], weight) == Total(ts, weight) + weight(t)
  {
    assert (ts + [t])[..|ts|] == ts;
  }

  /** One element alone never outweighs the whole. */
  lemma {:induction false} TotalAtLeast<T>(ts: seq<T>, i: nat, weight: T -> nat)
    requires i < |ts|
    ensures weight(ts[i]) <= Total(ts, weight)
  {
    if i < |ts| - 1 { TotalAtLeast(ts[..|ts| - 1], i, weight); }
  }

  lemma {:induction false} TotalZero<T>(ts: seq<T>, weight: T -> nat)
    requires forall i :: 0 <= i < |ts| ==> weight(ts[i]) == 0
    ensures Total(ts, weight) == 0
  {
    if ts != [] {
      var rest := ts[..|ts| - 1];
      forall i | 0 <= i < |rest| ensures weight(rest[i]) == 0 { assert rest[i] == ts[i]; }
      TotalZero(rest, weight);
    }
  }
}
