/** The byte-wise string order of sort.Strings, and sorted enumerations of a set. */
module Order {

  predicate Less(a: string, b: string) {
    if b == [] then false
    else if a == [] then true
    else a[0] < b[0] || (a[0] == b[0] && Less(a[1..], b[1..]))
  }

  /** The first letter at which they differ decides; a proper front comes before. */
  lemma {:induction false} LessWhen(a: string, b: string)
    ensures Less(a, b) <==> exists i :: DecidesAt(a, b, i)
  {
    if a != [] && b != [] {
      LessWhen(a[1..], b[1..]);
      if a[0] < b[0] {
        assert DecidesAt(a, b, 0);
      } else if i: nat :| a[0] == b[0] && DecidesAt(a[1..], b[1..], i) {
        assert a[..i + 1] == [a[0]] + a[1..][..i] && b[..i + 1] == [b[0]] + b[1..][..i];
        assert DecidesAt(a, b, i + 1);
      }
      if i: nat :| DecidesAt(a, b, i) && i > 0 {
        assert a[..i][0] == b[..i][0];
        assert a[1..][..i - 1] == a[..i][1..] && b[1..][..i - 1] == b[..i][1..];
        assert DecidesAt(a[1..], b[1..], i - 1);
      }
    } else if b != [] {
      assert DecidesAt(a, b, 0);
    }
  }

  predicate DecidesAt(a: string, b: string, i: nat) {
    i <= |a| && i < |b| && a[..i] == b[..i] && (i == |a| || a[i] < b[i])
  }

  lemma {:induction false} LessIrreflexive(a: string)
    ensures !Less(a, a)
  {
    if a == [] {
    } else {
      LessIrreflexive(a[1..]);
    }
  }

  lemma {:induction false} LessTransitive(a: string, b: string, c: string)
    requires Less(a, b) && Less(b, c)
    ensures Less(a, c)
  {
    if a == [] {
    } else if a[0] == b[0] == c[0] {
      LessTransitive(a[1..], b[1..], c[1..]);
    }
  }

  lemma {:induction false} LessTotal(a: string, b: string)
    ensures Less(a, b) || a == b || Less(b, a)
  {
    if a == [] || b == [] {
    } else if a[0] == b[0] {
      LessTotal(a[1..], b[1..]);
      assert a == [a[0]] + a[1..] && b == [b[0]] + b[1..];
    }
  }

  /** A common front does not matter. */
  lemma {:induction false} LessBehind(front: string, a: string, b: string)
    ensures Less(front + a, front + b) <==> Less(a, b)
  {
    if front == [] {
      assert front + a == a && front + b == b;
    } else {
      LessBehind(front[1..], a, b);
      assert (front + a)[1..] == front[1..] + a && (front + b)[1..] == front[1..] + b;
    }
  }

  predicate Ascending(s: seq<string>) {
    forall i, j :: 0 <= i < j < |s| ==> Less(s[i], s[j])
  }

  /** The place of x in an ascending sequence: everything before it is smaller. */
  function Rank(s: seq<string>, x: string): (r: nat)
    ensures r <= |s|
  {
    if s == [] || !Less(s[0], x) then 0 else 1 + Rank(s[1..], x)
  }

  lemma {:induction false} RankIs(s: seq<string>, x: string)
    ensures forall i :: 0 <= i < Rank(s, x) ==> Less(s[i], x)
    ensures Rank(s, x) < |s| ==> !Less(s[Rank(s, x)], x)
  {
    hide Less;
    if s != [] && Less(s[0], x) {
      RankIs(s[1..], x);
    }
  }

  lemma InsertAscending(s: seq<string>, x: string)
    requires Ascending(s) && x !in s
    ensures Ascending(s[..Rank(s, x)] + [x] + s[Rank(s, x)..])
  {
    hide Less, Rank;
    RankIs(s, x);
    var r := Rank(s, x);
    var all := s[..r] + [x] + s[r..];
    if r < |s| {
      LessTotal(s[r], x);
      assert s[r] in s;
    }
    forall j | r <= j < |s|
      ensures Less(x, s[j])
    {
      if j > r {
        LessTransitive(x, s[r], s[j]);
      }
    }
    forall i, j | 0 <= i < j < |all|
      ensures Less(all[i], all[j])
    {
      assert all[i] == if i < r then s[i] else if i == r then x else s[i - 1];
      assert all[j] == if j < r then s[j] else if j == r then x else s[j - 1];
    }
  }

  lemma InsertMembers(s: seq<string>, x: string, r: nat)
    requires r <= |s|
    ensures forall y :: y in s[..r] + [x] + s[r..] <==> y in s || y == x
  {
    assert s == s[..r] + s[r..];
  }

  /** A map's keys come in any order; sorting makes their enumeration unique. */
  method SortedKeys(keys: set<string>) returns (ids: seq<string>)
    ensures Ascending(ids)
    ensures forall x :: x in ids <==> x in keys
  {
    ids := [];
    var rest := keys;
    while rest != {}
      invariant rest <= keys && Ascending(ids)
      invariant forall x :: x in ids <==> x in keys - rest
      decreases rest
    {
      var x :| x in rest;
      InsertAscending(ids, x);
      InsertMembers(ids, x, Rank(ids, x));
      ids := ids[..Rank(ids, x)] + [x] + ids[Rank(ids, x)..];
      rest := rest - {x};
    }
  }

  lemma HeadIsMember(s: seq<string>)
    ensures s != [] ==> s[0] in s
  {
  }

  /** Two ascending sequences with the same members are the same sequence. */
  lemma {:induction false} AscendingUnique(a: seq<string>, b: seq<string>)
    requires Ascending(a) && Ascending(b)
    requires forall x :: x in a <==> x in b
    ensures a == b
  {
    HeadIsMember(a);
    HeadIsMember(b);
    if a == [] {
    } else {
      var j :| 0 <= j < |b| && b[j] == a[0];
      var i :| 0 <= i < |a| && a[i] == b[0];
      if j > 0 {
        HeadsMeet(a, b, i, j);
      }
      TailMembers(a, b);
      AscendingUnique(a[1..], b[1..]);
      assert a == [a[0]] + a[1..] && b == [b[0]] + b[1..];
    }
  }

  lemma HeadsMeet(a: seq<string>, b: seq<string>, i: nat, j: nat)
    requires Ascending(a) && Ascending(b) && i < |a| && j < |b|
    requires a[i] == b[0] && b[j] == a[0]
    ensures a[0] == b[0]
  {
    if i > 0 && j > 0 {
      LessTransitive(a[0], a[i], a[0]);
      LessIrreflexive(a[0]);
    }
  }

  lemma TailMembers(a: seq<string>, b: seq<string>)
    requires Ascending(a) && Ascending(b) && a != [] && b != [] && a[0] == b[0]
    requires forall x :: x in a <==> x in b
    ensures forall x :: x in a[1..] <==> x in b[1..]
  {
    LessIrreflexive(a[0]);
    forall x
      ensures x in a[1..] <==> x in a && x != a[0]
      ensures x in b[1..] <==> x in b && x != b[0]
    {
      if x in a[1..] {
        var i :| 0 <= i < |a[1..]| && a[1..][i] == x;
        assert Less(a[0], a[i + 1]);
      }
      if x in b[1..] {
        var i :| 0 <= i < |b[1..]| && b[1..][i] == x;
        assert Less(b[0], b[i + 1]);
      }
    }
  }
}
