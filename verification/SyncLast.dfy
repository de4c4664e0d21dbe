/** Which of several lines under one id stands last in a rendered file (internal/sync/render.go:31-62). */
module SyncLast {
  import opened Common
  import opened TaskLine
  import opened TaskLineLaws
  import opened SyncEngine
  import opened SyncTask
  import opened SyncPass
  import opened SyncOrder
  import opened SyncRender

  function OfId(ts: seq<Task>, id: string): seq<Task> {
    if ts == [] then [] else (if ts[0].id == id then [ts[0]] else []) + OfId(ts[1..], id)
  }

  lemma {:induction false} OfIdSnoc(ts: seq<Task>, t: Task, id: string)
    ensures OfId(ts + [t], id) == OfId(ts, id) + if t.id == id then [t] else []
  {
    if ts == [] {
      assert ts + [t] == [t] && [t][1..] == [];
    } else {
      OfIdSnoc(ts[1..], t, id);
      assert (ts + [t])[1..] == ts[1..] + [t];
    }
  }

  lemma {:induction false} OfIdMembers(ts: seq<Task>, id: string)
    ensures forall t :: t in OfId(ts, id) ==> t in ts && t.id == id
  {
    if ts != [] {
      OfIdMembers(ts[1..], id);
    }
  }

  // ----- the sort is stable -----

  /** A known id's tasks tie, so inserting one more puts it in front of them. */
  lemma {:induction false} InsertKeepsId(prior: seq<Task>, less: LineOrder, x: Task, s: seq<Task>, id: string)
    requires PriorPos(prior, id).Some?
    ensures OfId(Insert(prior, less, x, s), id) == (if x.id == id then [x] else []) + OfId(s, id)
  {
    hide PriorPos, EntryOf;
    if s == [] || !Before(prior, less, EntryOf(s[0]), EntryOf(x)) {
      assert ([x] + s)[1..] == s;
    } else {
      var rest := Insert(prior, less, x, s[1..]);
      InsertKeepsId(prior, less, x, s[1..], id);
      assert ([s[0]] + rest)[1..] == rest;
      if x.id == id {
        TiesAreNotBefore(prior, less, s[0], x);
      }
    }
  }

  lemma TiesAreNotBefore(prior: seq<Task>, less: LineOrder, a: Task, b: Task)
    requires PriorPos(prior, b.id).Some? && Before(prior, less, EntryOf(a), EntryOf(b))
    ensures a.id != b.id
  {
    hide PriorPos, Canon;
  }

  lemma {:induction false} SortedKeepsId(prior: seq<Task>, less: LineOrder, s: seq<Task>, id: string)
    requires PriorPos(prior, id).Some?
    ensures OfId(Sorted(prior, less, s), id) == OfId(s, id)
  {
    hide PriorPos, Insert;
    if s != [] {
      SortedKeepsId(prior, less, s[1..], id);
      InsertKeepsId(prior, less, s[0], Sorted(prior, less, s[1..]), id);
    }
  }

  // ----- the id's own lines decide what is dropped -----

  /** No task of another id prints one of this id's lines. */
  predicate LinesOfItsOwn(ts: seq<Task>, id: string) {
    forall i, j :: 0 <= i < |ts| && 0 <= j < |ts| && ts[i].id != id && ts[j].id == id ==> Canon(ts[i]) != Canon(ts[j])
  }

  /** Two sets that agree on the lines of ts drop the same of ts. */
  lemma {:induction false} SameDropped(ts: seq<Task>, seen: set<Line>, seen': set<Line>)
    requires forall i :: 0 <= i < |ts| ==> (Canon(ts[i]) in seen <==> Canon(ts[i]) in seen')
    ensures Deduped(ts, seen) == Deduped(ts, seen')
  {
    hide Canon;
    if ts != [] {
      var line := Canon(ts[0]);
      SameDropped(ts[1..], seen, seen');
      SameDropped(ts[1..], seen + {line}, seen' + {line});
    }
  }

  lemma {:induction false} DedupedKeepsId(ts: seq<Task>, seen: set<Line>, id: string)
    requires LinesOfItsOwn(ts, id)
    ensures OfId(Deduped(ts, seen), id) == Deduped(OfId(ts, id), seen)
  {
    hide Canon;
    if ts != [] {
      var t, rest := ts[0], ts[1..];
      var line := Canon(t);
      RestIsItsOwn(ts, id);
      DedupedKeepsId(rest, seen, id);
      DedupedKeepsId(rest, seen + {line}, id);
      OfIdCons(t, rest, id);
      OfIdCons(t, Deduped(rest, seen + {line}), id);
      assert ts == [t] + rest;
      if t.id == id {
        assert ([t] + OfId(rest, id))[1..] == OfId(rest, id);
      } else {
        OtherLine(ts, seen, id);
      }
      hide LinesOfItsOwn, OfId;
    }
  }

  lemma OfIdCons(t: Task, rest: seq<Task>, id: string)
    ensures OfId([t] + rest, id) == if t.id == id then [t] + OfId(rest, id) else OfId(rest, id)
  {
    assert ([t] + rest)[1..] == rest;
    assert [] + OfId(rest, id) == OfId(rest, id);
  }

  lemma RestIsItsOwn(ts: seq<Task>, id: string)
    requires ts != [] && LinesOfItsOwn(ts, id)
    ensures LinesOfItsOwn(ts[1..], id)
  {
    hide Canon;
  }

  lemma OtherLine(ts: seq<Task>, seen: set<Line>, id: string)
    requires ts != [] && ts[0].id != id && LinesOfItsOwn(ts, id)
    ensures Deduped(OfId(ts[1..], id), seen) == Deduped(OfId(ts[1..], id), seen + {Canon(ts[0])})
  {
    hide Canon, Deduped;
    var own := OfId(ts[1..], id);
    OfIdMembers(ts[1..], id);
    forall i | 0 <= i < |own|
      ensures Canon(own[i]) != Canon(ts[0])
    {
      assert own[i] in own;
      var j :| 0 <= j < |ts[1..]| && ts[1..][j] == own[i];
      assert ts[j + 1] == own[i];
    }
    SameDropped(own, seen, seen + {Canon(ts[0])});
  }

  /** Rendered over a file that knew the id, its tasks come in the order in which they are desired. */
  lemma OrderedKeepsId(prior: seq<Task>, less: LineOrder, desired: seq<Task>, id: string)
    requires PriorPos(prior, id).Some? && LinesOfItsOwn(desired, id)
    ensures OfId(Ordered(prior, less, desired), id) == Deduped(OfId(desired, id), {})
  {
    hide PriorPos, Sorted, Deduped, LinesOfItsOwn;
    SortedKeepsId(prior, less, Deduped(desired, {}), id);
    DedupedKeepsId(desired, {}, id);
  }

  // ----- reading the file -----

  lemma {:induction false} LastOfLines(ts: seq<Task>, id: string)
    requires forall t :: t in ts ==> Clean(t)
    ensures var own := OfId(ts, id);
      LastWith(LinesOf(ts), id) == if own == [] then None else Some(ReadBack(own[|own| - 1]))
  {
    hide Canon, Clean, ReadBack, ReadLine, OfId, LinesOf;
    if ts == [] {
      NothingOfId(id);
    } else {
      var front, t := ts[..|ts| - 1], ts[|ts| - 1];
      assert ts == front + [t];
      LastOfLines(front, id);
      OfIdSnoc(front, t, id);
      LinesOfAppend(front, t);
      assert (LinesOf(front) + [Canon(t)])[..|LinesOf(front)|] == LinesOf(front);
      CanonReadsBack(t);
    }
  }

  lemma NothingOfId(id: string)
    ensures OfId([], id) == [] && LinesOf([]) == []
  {
  }

  /** An id whose tasks are all of one project. */
  lemma {:induction false} OneProject(ts: seq<Task>, id: string, project: string)
    requires forall t :: t in ts && t.id == id ==> t.project == project
    ensures OfId(ts, id) == Own(ts, id, project)
  {
    hide OfId, Own;
    if ts == [] {
      NothingOfId(id);
      NoneOwn([], id, project);
    } else {
      var front, t := ts[..|ts| - 1], ts[|ts| - 1];
      assert ts == front + [t];
      OneProject(front, id, project);
      OfIdSnoc(front, t, id);
      OwnSnoc(front, t, id, project);
    }
  }

  lemma TwoDeduped(a: Task, b: Task)
    requires Canon(a) != [] && Canon(b) != []
    ensures Deduped([a, b], {}) == if Canon(a) == Canon(b) then [a] else [a, b]
  {
    hide Canon;
    assert [a, b][1..] == [b] && [b][1..] == [];
    assert Deduped([], {Canon(a)} + {Canon(b)}) == [];
    assert Deduped([b], {Canon(a)}) == if Canon(a) == Canon(b) then [] else [b];
    assert {} + {Canon(a)} == {Canon(a)};
  }
}
