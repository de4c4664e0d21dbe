/** One element put into a sequence, and the places its elements come from: what insertion sorts have in common. */
module Inserting {
  function Inserted<T>(s: seq<T>, p: nat, x: T): (r: seq<T>)
    requires p <= |s|
    ensures |r| == |s| + 1
    ensures forall i :: 0 <= i <= |s| ==> r[i] == if i < p then s[i] else if i == p then x else s[i - 1]
  {
    s[..p] + [x] + s[p..]
  }

  lemma InsertedHolds(at: seq<nat>, p: nat, n: nat, i: nat)
    requires p <= |at|
    ensures i in Inserted(at, p, n) <==> i in at || i == n
  {
    var places := Inserted(at, p, n);
    assert places[p] == n;
    if i in at {
      var k :| 0 <= k < |at| && at[k] == i;
      assert places[if k < p then k else k + 1] == i;
    }
  }

  /** The places still lead to the elements. */
  lemma InsertedPairs<T>(all: seq<T>, sorted: seq<T>, at: seq<nat>, x: T, p: nat)
    requires |at| == |sorted| && p <= |sorted| && forall k :: 0 <= k < |at| ==> at[k] < |all| && sorted[k] == all[at[k]]
    ensures var more, places, now := all + [x], Inserted(at, p, |all|), Inserted(sorted, p, x);
      forall k :: 0 <= k < |places| ==> places[k] < |more| && now[k] == more[places[k]]
  {
    var more, places, now := all + [x], Inserted(at, p, |all|), Inserted(sorted, p, x);
    forall k | 0 <= k < |places|
      ensures places[k] < |more| && now[k] == more[places[k]]
    {
      if k != p {
        var k0 := if k < p then k else k - 1;
        assert places[k] == at[k0] && now[k] == sorted[k0];
      }
    }
  }
}
