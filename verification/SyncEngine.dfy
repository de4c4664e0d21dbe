/** The pure three-way merge of internal/sync/engine.go. */
module SyncEngine {
  import opened Common
  import opened TaskLine
  import Order

  const SYNC_CONFLICT_TAG := "sync-conflict"

  datatype SyncBase = SyncBase(id: string, project: string, baseLine: Line)

  datatype Conflict = Conflict(id: string, project: string)

  datatype Plan = Plan(
    canonByProject: map<string, seq<Task>>,
    projByProject: map<string, seq<Task>>,
    baseUpserts: seq<SyncBase>,
    baseDeletes: seq<string>,
    conflicts: seq<Conflict>)

  /** The canonical line every equality test works on; empty for a task that cannot be formatted. */
  function Canon(t: Task): Line {
    var r := Format(t);
    if r.Ok? then r.value else []
  }

  function Tagged(t: Task): Task {
    if SYNC_CONFLICT_TAG in t.tags then t else t.(tags := t.tags + [SYNC_CONFLICT_TAG])
  }

  function RowOf(t: Task): SyncBase {
    SyncBase(t.id, t.project, Canon(t))
  }

  // ----- one id -----

  datatype BaseOp = Keep | Upsert(row: SyncBase) | Drop

  /** What a pass does with one id: its tasks on either side and its base row. */
  datatype Outcome = Outcome(canon: seq<Task>, proj: seq<Task>, base: BaseOp, conflicts: seq<Conflict>)

  /** The same task on both sides; a projection exists for synced projects only. */
  function Both(t: Task, synced: set<string>, base: BaseOp): Outcome {
    Outcome([t], if t.project in synced then [t] else [], base, [])
  }

  function KeepBoth(id: string, c: Task, p: Task, synced: set<string>): Outcome {
    Outcome([c, Tagged(p)],
            (if c.project in synced then [c] else []) + (if Tagged(p).project in synced then [Tagged(p)] else []),
            Keep,
            [Conflict(id, c.project)])
  }

  const Gone := Outcome([], [], Drop, [])

  /** The three-way merge of one id on canonical lines. */
  function Merge(id: string, c: Task, p: Task, b: SyncBase, synced: set<string>): Outcome {
    if Canon(c) == Canon(p) then Both(c, synced, if Canon(c) == b.baseLine then Keep else Upsert(RowOf(c)))
    else if b.baseLine == Canon(c) then Both(p, synced, Upsert(RowOf(p)))
    else if b.baseLine == Canon(p) then Both(c, synced, Upsert(RowOf(c)))
    else KeepBoth(id, c, p, synced)
  }

  /** The verdict on one id, from its three entries alone. */
  function Resolve(id: string, c: Option<Task>, p: Option<Task>, b: Option<SyncBase>, synced: set<string>): Outcome {
    if c.Some? && c.value.project !in synced then
      Outcome([c.value], [], if b.Some? then Drop else Keep, [])
    else if c.None? && b.Some? && b.value.project !in synced then Gone
    else if c.Some? && b.Some? && c.value.project != b.value.project then
      Both(c.value, synced, Upsert(RowOf(c.value)))
    else if b.None? then Fresh(id, c, p, synced)
    else if c.Some? && p.Some? then Merge(id, c.value, p.value, b.value, synced)
    else Gone
  }

  /** An id without an ancestor: new on one side, or present on both. */
  function Fresh(id: string, c: Option<Task>, p: Option<Task>, synced: set<string>): Outcome {
    if c.None? && p.None? then Outcome([], [], Keep, [])
    else if c.Some? && p.Some? && Canon(c.value) != Canon(p.value) then KeepBoth(id, c.value, p.value, synced)
    else
      var t := if c.Some? then c.value else p.value;
      Both(t, synced, Upsert(RowOf(t)))
  }

  function Lookup<K, V>(m: map<K, V>, k: K): Option<V> {
    if k in m then Some(m[k]) else None
  }

  datatype Gathered = Gathered(canon: map<string, Task>, proj: map<string, Task>, base: map<string, SyncBase>)

  function ResolveAt(g: Gathered, synced: set<string>, id: string): Outcome {
    Resolve(id, Lookup(g.canon, id), Lookup(g.proj, id), Lookup(g.base, id), synced)
  }

  // ----- the plan -----

  function At(m: map<string, seq<Task>>, project: string): seq<Task> {
    if project in m then m[project] else []
  }

  function Put(m: map<string, seq<Task>>, t: Task): map<string, seq<Task>> {
    m[t.project := At(m, t.project) + [t]]
  }

  function PutAll(m: map<string, seq<Task>>, ts: seq<Task>): map<string, seq<Task>>
    decreases ts
  {
    if ts == [] then m else PutAll(Put(m, ts[0]), ts[1..])
  }

  /** The plan after one more id has been decided. */
  function Extend(plan: Plan, id: string, o: Outcome): Plan {
    Plan(PutAll(plan.canonByProject, o.canon),
         PutAll(plan.projByProject, o.proj),
         if o.base.Upsert? then plan.baseUpserts + [o.base.row] else plan.baseUpserts,
         if o.base.Drop? then plan.baseDeletes + [id] else plan.baseDeletes,
         plan.conflicts + o.conflicts)
  }

  datatype Verdict = Verdict(id: string, outcome: Outcome)

  function PlanOf(vs: seq<Verdict>): Plan {
    if vs == [] then Plan(map[], map[], [], [], [])
    else Extend(PlanOf(vs[..|vs| - 1]), vs[|vs| - 1].id, vs[|vs| - 1].outcome)
  }

  /** The verdicts on a sequence of ids. */
  function Verdicts(g: Gathered, synced: set<string>, ids: seq<string>): (vs: seq<Verdict>)
    ensures |vs| == |ids|
    ensures forall i :: 0 <= i < |ids| ==> vs[i] == Verdict(ids[i], ResolveAt(g, synced, ids[i]))
  {
    if ids == [] then [] else [Verdict(ids[0], ResolveAt(g, synced, ids[0]))] + Verdicts(g, synced, ids[1..])
  }

  function IdsOf(g: Gathered): set<string> {
    g.canon.Keys + g.proj.Keys + g.base.Keys
  }

  /** Decide walks the sorted ids of the three maps and lets each branch grow the plan. */
  method Decide(canon: map<string, Task>, proj: map<string, Task>, base: map<string, SyncBase>, synced: set<string>)
    returns (plan: Plan, ids: seq<string>)
    ensures Order.Ascending(ids) && forall id :: id in ids <==> id in IdsOf(Gathered(canon, proj, base))
    ensures plan == PlanOf(Verdicts(Gathered(canon, proj, base), synced, ids))
  {
    hide Resolve, Extend, Verdicts;
    ids := Order.SortedKeys(canon.Keys + proj.Keys + base.Keys);
    plan := Plan(map[], map[], [], [], []);
    ghost var vs := Verdicts(Gathered(canon, proj, base), synced, ids);
    for i := 0 to |ids|
      invariant plan == PlanOf(vs[..i])
    {
      var id := ids[i];
      plan := DecideId(plan, id, Lookup(canon, id), Lookup(proj, id), Lookup(base, id), synced);
      assert vs[..i + 1][..i] == vs[..i];
    }
    assert vs[..|ids|] == vs;
  }

  /** putCanon, putProj and upsertBase on one task. */
  method Place(plan: Plan, t: Task, synced: set<string>, upsert: bool) returns (r: Plan)
    ensures r == Extend(plan, t.id, Both(t, synced, if upsert then Upsert(RowOf(t)) else Keep))
  {
    r := plan.(canonByProject := Put(plan.canonByProject, t));
    if t.project in synced {
      r := r.(projByProject := Put(plan.projByProject, t));
    }
    if upsert {
      r := r.(baseUpserts := plan.baseUpserts + [RowOf(t)]);
    }
    PutOne(plan.canonByProject, t);
    PutOne(plan.projByProject, t);
    assert plan.conflicts + [] == plan.conflicts;
  }

  method PlaceBoth(plan: Plan, id: string, c: Task, p: Task, synced: set<string>) returns (r: Plan)
    ensures r == Extend(plan, id, KeepBoth(id, c, p, synced))
  {
    var canon := Put(Put(plan.canonByProject, c), Tagged(p));
    var proj := plan.projByProject;
    if c.project in synced {
      proj := Put(proj, c);
    }
    if Tagged(p).project in synced {
      proj := Put(proj, Tagged(p));
    }
    PutTwo(plan.canonByProject, c, Tagged(p));
    PutTwo(plan.projByProject, c, Tagged(p));
    r := plan.(canonByProject := canon, projByProject := proj, conflicts := plan.conflicts + [Conflict(id, c.project)]);
  }

  lemma PutOne(m: map<string, seq<Task>>, t: Task)
    ensures PutAll(m, [t]) == Put(m, t)
  {
    assert [t][1..] == [];
  }

  lemma PutTwo(m: map<string, seq<Task>>, a: Task, b: Task)
    ensures PutAll(m, []) == m && PutAll(m, [a]) == Put(m, a) && PutAll(m, [b]) == Put(m, b)
    ensures PutAll(m, [a, b]) == Put(Put(m, a), b)
    ensures [a] + [b] == [a, b] && [a] + [] == [a] && [] + [b] == [b]
  {
    PutOne(m, a);
    PutOne(m, b);
    PutOne(Put(m, a), b);
    assert [a, b][1..] == [b];
  }

  method DecideId(plan: Plan, id: string, c: Option<Task>, p: Option<Task>, b: Option<SyncBase>, synced: set<string>)
    returns (r: Plan)
    ensures r == Extend(plan, id, Resolve(id, c, p, b, synced))
  {
    assert plan.conflicts + [] == plan.conflicts;
    r := plan;
    if c.Some? && c.value.project !in synced {
      PutOne(plan.canonByProject, c.value);
      r := r.(canonByProject := Put(plan.canonByProject, c.value));
      if b.Some? {
        r := r.(baseDeletes := plan.baseDeletes + [id]);
      }
    } else if c.None? && b.Some? && b.value.project !in synced {
      r := r.(baseDeletes := plan.baseDeletes + [id]);
    } else if c.Some? && b.Some? && c.value.project != b.value.project {
      r := Place(plan, c.value, synced, true);
    } else if c.Some? && p.None? && b.None? {
      r := Place(plan, c.value, synced, true);
    } else if c.None? && p.Some? && b.None? {
      r := Place(plan, p.value, synced, true);
    } else if c.Some? && p.Some? && b.None? {
      if Canon(c.value) == Canon(p.value) {
        r := Place(plan, c.value, synced, true);
      } else {
        r := PlaceBoth(plan, id, c.value, p.value, synced);
      }
    } else if c.Some? && p.Some? && b.Some? {
      r := DecideMerge(plan, id, c.value, p.value, b.value, synced);
    } else if b.Some? {
      r := r.(baseDeletes := plan.baseDeletes + [id]);
    }
  }

  method DecideMerge(plan: Plan, id: string, c: Task, p: Task, b: SyncBase, synced: set<string>) returns (r: Plan)
    ensures r == Extend(plan, id, Merge(id, c, p, b, synced))
  {
    var mine, theirs := Canon(c), Canon(p);
    if mine == theirs {
      r := Place(plan, c, synced, mine != b.baseLine);
    } else if b.baseLine == mine {
      r := Place(plan, p, synced, true);
    } else if b.baseLine == theirs {
      r := Place(plan, c, synced, true);
    } else {
      r := PlaceBoth(plan, id, c, p, synced);
    }
  }

  // ----- what a plan holds -----

  lemma {:induction false} PutAllMembers(m: map<string, seq<Task>>, ts: seq<Task>, project: string, t: Task)
    ensures t in At(PutAll(m, ts), project) <==> t in At(m, project) || (t.project == project && t in ts)
    decreases ts
  {
    if ts == [] {
    } else {
      PutAllMembers(Put(m, ts[0]), ts[1..], project, t);
      assert ts == [ts[0]] + ts[1..];
    }
  }

  predicate PutsCanon(v: Verdict, t: Task) {
    t in v.outcome.canon
  }

  predicate PutsProj(v: Verdict, t: Task) {
    t in v.outcome.proj
  }

  predicate Upserts(v: Verdict, row: SyncBase) {
    v.outcome.base == Upsert(row)
  }

  predicate Drops(v: Verdict, id: string) {
    v.id == id && v.outcome.base == Drop
  }

  predicate Clashes(v: Verdict) {
    v.outcome.conflicts != []
  }

  /** A plan's canon set for a project is the union of the verdicts, and so is its projection set. */
  lemma {:induction false} PlanTasks(vs: seq<Verdict>, project: string, t: Task)
    ensures t in At(PlanOf(vs).canonByProject, project) <==>
            t.project == project && exists v :: v in vs && PutsCanon(v, t)
    ensures t in At(PlanOf(vs).projByProject, project) <==>
            t.project == project && exists v :: v in vs && PutsProj(v, t)
  {
    if vs == [] {
    } else {
      var v, front := vs[|vs| - 1], vs[..|vs| - 1];
      PlanTasks(front, project, t);
      PutAllMembers(PlanOf(front).canonByProject, v.outcome.canon, project, t);
      PutAllMembers(PlanOf(front).projByProject, v.outcome.proj, project, t);
      assert vs == front + [v];
      assert PutsCanon(v, t) <==> t in v.outcome.canon;
      assert PutsProj(v, t) <==> t in v.outcome.proj;
    }
  }

  /** The base mutations and conflicts of a plan are those of its verdicts. */
  lemma {:induction false} PlanRows(vs: seq<Verdict>, row: SyncBase)
    ensures row in PlanOf(vs).baseUpserts <==> exists v :: v in vs && Upserts(v, row)
    ensures row.id in PlanOf(vs).baseDeletes <==> exists v :: v in vs && Drops(v, row.id)
  {
    if vs == [] {
    } else {
      var v, front := vs[|vs| - 1], vs[..|vs| - 1];
      PlanRows(front, row);
      assert vs == front + [v];
      assert Upserts(v, row) <==> v.outcome.base == Upsert(row);
      assert Drops(v, row.id) <==> v.id == row.id && v.outcome.base == Drop;
    }
  }

  lemma {:induction false} PlanConflicts(vs: seq<Verdict>)
    ensures PlanOf(vs).conflicts == [] <==> forall v :: v in vs ==> !Clashes(v)
  {
    if vs == [] {
    } else {
      var v, front := vs[|vs| - 1], vs[..|vs| - 1];
      PlanConflicts(front);
      assert vs == front + [v];
      assert Clashes(v) <==> v.outcome.conflicts != [];
    }
  }

  /** Every map is keyed by the id its entries carry. */
  predicate Keyed(g: Gathered) {
    && (forall id :: id in g.canon ==> g.canon[id].id == id)
    && (forall id :: id in g.proj ==> g.proj[id].id == id)
    && (forall id :: id in g.base ==> g.base[id].id == id)
  }

  /** An outcome holds tasks, and a row, that carry the id it is about. */
  lemma OutcomeIds(g: Gathered, synced: set<string>, id: string, t: Task, row: SyncBase)
    requires Keyed(g)
    ensures var v := Verdict(id, ResolveAt(g, synced, id));
      && (PutsCanon(v, t) || PutsProj(v, t) ==> t.id == id)
      && (Upserts(v, row) ==> row.id == id)
  {
    ResolveIds(id, Lookup(g.canon, id), Lookup(g.proj, id), Lookup(g.base, id), synced, t, row);
  }

  lemma ResolveIds(id: string, c: Option<Task>, p: Option<Task>, b: Option<SyncBase>, synced: set<string>,
                   t: Task, row: SyncBase)
    requires (c.Some? ==> c.value.id == id) && (p.Some? ==> p.value.id == id)
    ensures var o := Resolve(id, c, p, b, synced);
      && (t in o.canon || t in o.proj ==> t.id == id)
      && (o.base == Upsert(row) ==> row.id == id)
  {
    hide Canon;
  }

  /** In a keyed plan whatever is held for an id comes from that id's verdict. */
  lemma HoldsAt(g: Gathered, synced: set<string>, ids: seq<string>, t: Task, project: string)
    requires Keyed(g)
    ensures var plan, o := PlanOf(Verdicts(g, synced, ids)), ResolveAt(g, synced, t.id);
      && (t in At(plan.canonByProject, project) <==> t.project == project && t.id in ids && t in o.canon)
      && (t in At(plan.projByProject, project) <==> t.project == project && t.id in ids && t in o.proj)
  {
    var vs := Verdicts(g, synced, ids);
    PlanTasks(vs, project, t);
    forall v | v in vs
      ensures v.id in ids && v == Verdict(v.id, ResolveAt(g, synced, v.id))
      ensures PutsCanon(v, t) || PutsProj(v, t) ==> v.id == t.id
    {
      OutcomeIds(g, synced, v.id, t, RowOf(t));
    }
    VerdictOf(g, synced, ids, t.id);
    var own := Verdict(t.id, ResolveAt(g, synced, t.id));
    assert PutsCanon(own, t) <==> t in own.outcome.canon;
    assert PutsProj(own, t) <==> t in own.outcome.proj;
  }

  lemma VerdictOf(g: Gathered, synced: set<string>, ids: seq<string>, id: string)
    ensures id in ids ==> Verdict(id, ResolveAt(g, synced, id)) in Verdicts(g, synced, ids)
  {
    if id in ids {
      var i :| 0 <= i < |ids| && ids[i] == id;
      assert Verdicts(g, synced, ids)[i] == Verdict(id, ResolveAt(g, synced, id));
    }
  }

  /** The rows a keyed plan upserts and the ids it deletes come from the id's own verdict. */
  lemma RowsAt(g: Gathered, synced: set<string>, ids: seq<string>, row: SyncBase)
    requires Keyed(g)
    ensures var plan, o := PlanOf(Verdicts(g, synced, ids)), ResolveAt(g, synced, row.id);
      && (row in plan.baseUpserts <==> row.id in ids && o.base == Upsert(row))
      && (row.id in plan.baseDeletes <==> row.id in ids && o.base == Drop)
  {
    var vs := Verdicts(g, synced, ids);
    PlanRows(vs, row);
    forall v | v in vs
      ensures v.id in ids && v == Verdict(v.id, ResolveAt(g, synced, v.id))
      ensures Upserts(v, row) || Drops(v, row.id) ==> v.id == row.id
    {
      if Upserts(v, row) {
        UpsertId(g, synced, v.id, row);
      }
    }
    VerdictOf(g, synced, ids, row.id);
    var own := Verdict(row.id, ResolveAt(g, synced, row.id));
    assert Upserts(own, row) <==> own.outcome.base == Upsert(row);
    assert Drops(own, row.id) <==> own.outcome.base == Drop;
  }

  lemma UpsertId(g: Gathered, synced: set<string>, id: string, row: SyncBase)
    requires Keyed(g)
    requires ResolveAt(g, synced, id).base == Upsert(row)
    ensures row.id == id
  {
    hide Canon;
  }

  /** No id is both upserted and deleted, and no id is upserted to two rows. */
  lemma OneBaseMutation(g: Gathered, synced: set<string>, ids: seq<string>, row: SyncBase, other: SyncBase)
    requires Keyed(g)
    requires row in PlanOf(Verdicts(g, synced, ids)).baseUpserts
    ensures row.id !in PlanOf(Verdicts(g, synced, ids)).baseDeletes
    ensures other in PlanOf(Verdicts(g, synced, ids)).baseUpserts && other.id == row.id ==> other == row
  {
    RowsAt(g, synced, ids, row);
    RowsAt(g, synced, ids, other);
  }

  predicate AgreeAt(g: Gathered, h: Gathered, id: string) {
    && Lookup(g.canon, id) == Lookup(h.canon, id)
    && Lookup(g.proj, id) == Lookup(h.proj, id)
    && Lookup(g.base, id) == Lookup(h.base, id)
  }

  /** What a plan holds for an id depends on that id's three entries and on nothing else. */
  lemma DecideIsLocal(g: Gathered, h: Gathered, synced: set<string>, ids: seq<string>, ids': seq<string>,
                      t: Task, row: SyncBase, project: string)
    requires Keyed(g) && Keyed(h) && AgreeAt(g, h, t.id) && row.id == t.id
    requires forall x :: x in ids <==> x in IdsOf(g)
    requires forall x :: x in ids' <==> x in IdsOf(h)
    ensures var a, b := PlanOf(Verdicts(g, synced, ids)), PlanOf(Verdicts(h, synced, ids'));
      && (t in At(a.canonByProject, project) <==> t in At(b.canonByProject, project))
      && (t in At(a.projByProject, project) <==> t in At(b.projByProject, project))
      && (row in a.baseUpserts <==> row in b.baseUpserts)
      && (row.id in a.baseDeletes <==> row.id in b.baseDeletes)
  {
    HoldsAt(g, synced, ids, t, project);
    HoldsAt(h, synced, ids', t, project);
    RowsAt(g, synced, ids, row);
    RowsAt(h, synced, ids', row);
    assert ResolveAt(g, synced, t.id) == ResolveAt(h, synced, t.id);
    assert t.id in IdsOf(g) <==> t.id in IdsOf(h);
  }
}
