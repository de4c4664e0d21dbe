/** A plan keeps the order in which each verdict names its tasks (internal/sync/engine.go:131-140). */
module SyncOrder {
  import opened TaskLine
  import opened SyncEngine
  import opened SyncPass
  import Order

  /** The tasks of one id and project, in order. */
  function Own(ts: seq<Task>, id: string, project: string): seq<Task> {
    if ts == [] then []
    else
      var last := ts[|ts| - 1];
      Own(ts[..|ts| - 1], id, project) + if last.id == id && last.project == project then [last] else []
  }

  lemma OwnSnoc(ts: seq<Task>, t: Task, id: string, project: string)
    ensures Own(ts + [t], id, project) == Own(ts, id, project) + if t.id == id && t.project == project then [t] else []
  {
    assert (ts + [t])[..|ts|] == ts;
  }

  lemma Joined(a: seq<Task>, b: seq<Task>, c: seq<Task>)
    ensures (a + b) + c == a + (b + c) && a + [] == a == [] + a
  {
  }

  lemma {:induction false} OwnConcat(a: seq<Task>, b: seq<Task>, id: string, project: string)
    ensures Own(a + b, id, project) == Own(a, id, project) + Own(b, id, project)
  {
    if b == [] {
      assert a + b == a;
      Joined(Own(a, id, project), [], []);
    } else {
      hide Own;
      var front, t := b[..|b| - 1], b[|b| - 1];
      OwnConcat(a, front, id, project);
      OwnSnoc(a + front, t, id, project);
      OwnSnoc(front, t, id, project);
      assert b == front + [t] && a + b == a + front + [t];
      Joined(Own(a, id, project), Own(front, id, project), if t.id == id && t.project == project then [t] else []);
    }
  }

  lemma {:induction false} OwnMembers(ts: seq<Task>, id: string, project: string, t: Task)
    ensures t in Own(ts, id, project) <==> t in ts && t.id == id && t.project == project
  {
    if ts != [] {
      var front, last := ts[..|ts| - 1], ts[|ts| - 1];
      OwnMembers(front, id, project, t);
      assert ts == front + [last];
    }
  }

  lemma NoneOwn(ts: seq<Task>, id: string, project: string)
    requires forall t :: t in ts ==> t.id != id || t.project != project
    ensures Own(ts, id, project) == []
  {
    var own := Own(ts, id, project);
    if own != [] {
      OwnMembers(ts, id, project, own[0]);
    }
  }

  lemma {:induction false} OwnPut(m: map<string, seq<Task>>, ts: seq<Task>, id: string, project: string)
    ensures Own(At(PutAll(m, ts), project), id, project) == Own(At(m, project), id, project) + Own(ts, id, project)
    decreases ts
  {
    hide Own;
    if ts == [] {
      NoneOwn([], id, project);
      assert Own(At(m, project), id, project) + [] == Own(At(m, project), id, project);
    } else {
      var t, rest := ts[0], ts[1..];
      OwnPut(Put(m, t), rest, id, project);
      OwnConcat([t], rest, id, project);
      assert ts == [t] + rest;
      OwnAfterPut(m, t, id, project);
      Joined(Own(At(m, project), id, project), Own([t], id, project), Own(rest, id, project));
    }
  }

  lemma OwnAfterPut(m: map<string, seq<Task>>, t: Task, id: string, project: string)
    ensures Own(At(Put(m, t), project), id, project) == Own(At(m, project), id, project) + Own([t], id, project)
  {
    hide Own;
    if t.project == project {
      OwnConcat(At(m, project), [t], id, project);
    } else {
      NoneOwn([t], id, project);
      Joined(Own(At(m, project), id, project), [], []);
    }
  }

  /** The order in which the verdicts name an id's tasks of a project. */
  function Named(vs: seq<Verdict>, canonSide: bool, id: string, project: string): seq<Task> {
    if vs == [] then []
    else Named(vs[..|vs| - 1], canonSide, id, project) + Own(SideOf(vs[|vs| - 1].outcome, canonSide), id, project)
  }

  function ByProject(plan: Plan, canonSide: bool): map<string, seq<Task>> {
    if canonSide then plan.canonByProject else plan.projByProject
  }

  lemma {:induction false} OwnInPlan(vs: seq<Verdict>, canonSide: bool, id: string, project: string)
    ensures Own(At(ByProject(PlanOf(vs), canonSide), project), id, project) == Named(vs, canonSide, id, project)
  {
    hide Own, PutAll;
    if vs == [] {
      NoneOwn([], id, project);
    } else {
      var front, v := vs[..|vs| - 1], vs[|vs| - 1];
      OwnInPlan(front, canonSide, id, project);
      OwnPut(ByProject(PlanOf(front), canonSide), SideOf(v.outcome, canonSide), id, project);
    }
  }

  lemma NamedSnoc(vs: seq<Verdict>, v: Verdict, canonSide: bool, id: string, project: string)
    ensures Named(vs + [v], canonSide, id, project) == Named(vs, canonSide, id, project) + Own(SideOf(v.outcome, canonSide), id, project)
  {
    hide Own;
    assert (vs + [v])[..|vs|] == vs;
  }

  lemma VerdictsSnoc(g: Gathered, synced: set<string>, ids: seq<string>, id: string)
    ensures Verdicts(g, synced, ids + [id]) == Verdicts(g, synced, ids) + [Verdict(id, ResolveAt(g, synced, id))]
  {
    hide ResolveAt;
  }

  /** A verdict names tasks of its own id only. */
  lemma OthersAreNotNamed(g: Gathered, synced: set<string>, other: string, canonSide: bool, id: string, project: string)
    requires Keyed(g) && id != other
    ensures Own(SideOf(ResolveAt(g, synced, other), canonSide), id, project) == []
  {
    hide Own, Resolve;
    forall t | t in SideOf(ResolveAt(g, synced, other), canonSide)
      ensures t.id == other
    {
      ResolveIds(other, Lookup(g.canon, other), Lookup(g.proj, other), Lookup(g.base, other), synced, t, RowOf(t));
    }
    NoneOwn(SideOf(ResolveAt(g, synced, other), canonSide), id, project);
  }

  /** An id has one verdict, so that verdict's order is the plan's. */
  lemma {:induction false} NamedOnce(g: Gathered, synced: set<string>, ids: seq<string>, canonSide: bool, id: string, project: string)
    requires Keyed(g) && forall i, j :: 0 <= i < j < |ids| ==> ids[i] != ids[j]
    ensures Named(Verdicts(g, synced, ids), canonSide, id, project) ==
            if id in ids then Own(SideOf(ResolveAt(g, synced, id), canonSide), id, project) else []
  {
    hide Own, ResolveAt, Keyed, Verdicts;
    if ids == [] {
      NoVerdicts(g, synced);
    } else {
      hide Named;
      var front, last := ids[..|ids| - 1], ids[|ids| - 1];
      NamedOnce(g, synced, front, canonSide, id, project);
      assert ids == front + [last];
      VerdictsSnoc(g, synced, front, last);
      NamedSnoc(Verdicts(g, synced, front), Verdict(last, ResolveAt(g, synced, last)), canonSide, id, project);
      Joined(Own(SideOf(ResolveAt(g, synced, id), canonSide), id, project), [], []);
      if id == last {
        assert last !in front;
      } else {
        OthersAreNotNamed(g, synced, last, canonSide, id, project);
      }
    }
  }

  lemma NoVerdicts(g: Gathered, synced: set<string>)
    ensures Verdicts(g, synced, []) == []
  {
  }

  lemma AscendingIsDistinct(ids: seq<string>)
    requires Order.Ascending(ids)
    ensures forall i, j :: 0 <= i < j < |ids| ==> ids[i] != ids[j]
  {
    forall i, j | 0 <= i < j < |ids|
      ensures ids[i] != ids[j]
    {
      Order.LessIrreflexive(ids[i]);
      assert Order.Less(ids[i], ids[j]);
    }
  }

  /** Whoever sorts the ids: the plan holds an id's tasks of a project as its verdict names them. */
  lemma PlanKeepsOrder(g: Gathered, synced: set<string>, ids: seq<string>, canonSide: bool, id: string, project: string)
    requires Keyed(g) && Order.Ascending(ids) && forall x :: x in ids <==> x in IdsOf(g)
    ensures Own(At(ByProject(PlanOf(Verdicts(g, synced, ids)), canonSide), project), id, project) ==
            if id in IdsOf(g) then Own(SideOf(ResolveAt(g, synced, id), canonSide), id, project) else []
  {
    hide Own, Resolve, PlanOf, Verdicts, Keyed, IdsOf;
    AscendingIsDistinct(ids);
    OwnInPlan(Verdicts(g, synced, ids), canonSide, id, project);
    NamedOnce(g, synced, ids, canonSide, id, project);
  }
}
