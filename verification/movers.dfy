/**
 * The `daily_changes` / `daily_moves` dictionaries (symbol to percentage change, in
 * insertion order, as Python dicts keep it) and the top mover picked from them with
 * `max(..., key=abs)`: routes.py:315-326, main.py:118-141 and Main.py:51-76.
 */
module Movers {
  import opened Wrappers

  /** A Python dict from symbol to number, as its entries in insertion order. */
  type Moves = seq<(string, real)>

  predicate DistinctKeys(d: Moves) {
    forall i, j :: 0 <= i < j < |d| ==> d[i].0 != d[j].0
  }

  /** The position of key `k`, or -1. */
  function FindKey(d: Moves, k: string): (i: int)
    ensures -1 <= i < |d|
    ensures i == -1 <==> forall j :: 0 <= j < |d| ==> d[j].0 != k
    ensures 0 <= i ==> d[i].0 == k && forall j :: 0 <= j < i ==> d[j].0 != k
  {
    if d == [] then -1
    else if d[0].0 == k then 0
    else
      var i := FindKey(d[1..], k);
      if i == -1 then -1 else i + 1
  }

  /** `d.get(k)`. */
  function Get(d: Moves, k: string): Option<real> {
    var i := FindKey(d, k);
    if i >= 0 then Some(d[i].1) else None
  }

  /** `d[k] = v`: an existing key keeps its place, a new one goes last. */
  function Put(d: Moves, k: string, v: real): Moves {
    var i := FindKey(d, k);
    if i >= 0 then d[i := (k, v)] else d + [(k, v)]
  }

  /** `d[k] = v` keeps the keys distinct: an existing key keeps its place, a new one is appended. */
  lemma PutKeys(d: Moves, k: string, v: real)
    requires DistinctKeys(d)
    ensures DistinctKeys(Put(d, k, v))
    ensures Get(d, k).Some? ==> |Put(d, k, v)| == |d| && forall j :: 0 <= j < |d| ==> Put(d, k, v)[j].0 == d[j].0
    ensures Get(d, k).None? ==> Put(d, k, v) == d + [(k, v)]
  {
  }

  /** After `d[k] = v`, `k` maps to `v` and every other key keeps its value. */
  lemma PutGet(d: Moves, k: string, v: real)
    ensures Get(Put(d, k, v), k) == Some(v)
    ensures forall k' :: k' != k ==> Get(Put(d, k, v), k') == Get(d, k')
  {
    var i := FindKey(d, k);
    KeyAt(Put(d, k, v), k, if i >= 0 then i else |d|);
    forall k' | k' != k ensures Get(Put(d, k, v), k') == Get(d, k') {
      PutOther(d, k, v, k');
    }
  }

  lemma PutOther(d: Moves, k: string, v: real, other: string)
    requires other != k
    ensures Get(Put(d, k, v), other) == Get(d, other)
  {
    var m := FindKey(d, other);
    if m >= 0 {
      KeyAt(Put(d, k, v), other, m);
    }
  }

  /** The first entry with key `k` is the one `FindKey` returns. */
  lemma {:induction false} KeyAt(d: Moves, k: string, i: int)
    requires 0 <= i < |d| && d[i].0 == k
    requires forall j :: 0 <= j < i ==> d[j].0 != k
    ensures FindKey(d, k) == i
    decreases i
  {
    if i > 0 {
      KeyAt(d[1..], k, i - 1);
    }
  }

  function Abs(x: real): (r: real)
    ensures r >= 0.0 && (r == x || r == -x)
  {
    if x < 0.0 then -x else x
  }

  /**
   * The entry `max(d, key=abs)` picks: its change has the largest magnitude, and it is
   * the first entry that does (Python's `max` keeps the first of equal keys).
   */
  function TopIndex(d: Moves): (k: nat)
    requires d != []
    ensures k < |d|
    ensures forall j :: 0 <= j < |d| ==> Abs(d[j].1) <= Abs(d[k].1)
    ensures forall j :: 0 <= j < k ==> Abs(d[j].1) < Abs(d[k].1)
  {
    if |d| == 1 then 0
    else
      var k := TopIndex(d[..|d| - 1]);
      if Abs(d[|d| - 1].1) > Abs(d[k].1) then |d| - 1 else k
  }

  /** The top mover, or `None` for an empty dict (the fallback message). */
  function TopMover(d: Moves): (r: Option<(string, real)>)
    ensures r.None? <==> d == []
    ensures r.Some? ==> r.value in d && forall e :: e in d ==> Abs(e.1) <= Abs(r.value.1)
  {
    if d == [] then None else Some(d[TopIndex(d)])
  }
}
