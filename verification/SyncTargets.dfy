/** From the plan to the files: renderTargets (internal/sync/reconcile.go) and what each file must hold. */
module SyncTargets {
  import opened TaskLine
  import opened SyncEngine
  import opened SyncPaths
  import opened SyncPass
  import opened SyncOrder
  import opened SyncRender
  import Order

  type Targets = map<Path, seq<Task>>

  function TasksFor(m: Targets, path: Path): seq<Task> {
    if path in m then m[path] else []
  }

  predicate FromProject(m: map<string, seq<Task>>, project: string, t: Task) {
    project in m && t in m[project]
  }

  /** m with the tasks of one project appended at its path. */
  function Grow(m: Targets, path: Path, ts: seq<Task>): Targets {
    m[path := TasksFor(m, path) + ts]
  }

  /** A project outside rest sends t to path. */
  ghost predicate Sent(m: map<string, seq<Task>>, pathOf: map<string, Path>, rest: set<string>, path: Path, t: Task) {
    exists project :: project !in rest && FromProject(m, project, t) && project in pathOf && pathOf[project] == path
  }

  lemma SentStep(m: map<string, seq<Task>>, pathOf: map<string, Path>, rest: set<string>, project: string, path: Path, t: Task)
    requires project in rest && project in m
    ensures Sent(m, pathOf, rest - {project}, path, t) <==>
            Sent(m, pathOf, rest, path, t) || (project in pathOf && pathOf[project] == path && t in m[project])
  {
    if Sent(m, pathOf, rest, path, t) {
      var q :| q !in rest && FromProject(m, q, t) && q in pathOf && pathOf[q] == path;
      assert q !in rest - {project};
    }
    if project in pathOf && pathOf[project] == path && t in m[project] {
      assert FromProject(m, project, t) && project !in rest - {project};
    }
  }

  /** Every task stands under its own project. */
  ghost predicate OwnTasks(m: map<string, seq<Task>>) {
    forall project, t :: t in At(m, project) ==> t.project == project
  }

  /** What the projects outside rest send to path of one id and project, in order. */
  function SentOwn(m: map<string, seq<Task>>, pathOf: map<string, Path>, rest: set<string>, path: Path, id: string, project: string)
    : seq<Task>
  {
    if project !in rest && project in pathOf && pathOf[project] == path then Own(At(m, project), id, project) else []
  }

  lemma SentOwnStep(m: map<string, seq<Task>>, pathOf: map<string, Path>, rest: set<string>, q: string, targets: Targets,
                    path: Path, id: string, project: string)
    requires OwnTasks(m) && q in rest && q in m
    requires Own(TasksFor(targets, path), id, project) == SentOwn(m, pathOf, rest, path, id, project)
    ensures var next := if q in pathOf then Grow(targets, pathOf[q], m[q]) else targets;
      Own(TasksFor(next, path), id, project) == SentOwn(m, pathOf, rest - {q}, path, id, project)
  {
    hide Own;
    if q in pathOf && pathOf[q] == path {
      OwnConcat(TasksFor(targets, path), m[q], id, project);
      if q == project {
        assert [] + Own(m[q], id, project) == Own(m[q], id, project);
      } else {
        NoneOfOther(m, q, id, project);
        assert Own(TasksFor(targets, path), id, project) + [] == Own(TasksFor(targets, path), id, project);
      }
    }
  }

  lemma NoneOfOther(m: map<string, seq<Task>>, q: string, id: string, project: string)
    requires OwnTasks(m) && q in m && q != project
    ensures Own(m[q], id, project) == []
  {
    hide Own;
    forall t | t in m[q]
      ensures t.project == q
    {
      assert t in At(m, q);
    }
    NoneOwn(m[q], id, project);
  }

  /** One loop of renderTargets: the projects come in map order, and several may share a file; each keeps its own order. */
  method Send(m: map<string, seq<Task>>, pathOf: map<string, Path>) returns (targets: Targets)
    ensures forall path, t :: t in TasksFor(targets, path) <==> Sent(m, pathOf, {}, path, t)
    ensures OwnTasks(m) && pathOf.Keys <= m.Keys ==>
              forall path, id, project :: Own(TasksFor(targets, path), id, project) == SentOwn(m, pathOf, {}, path, id, project)
    ensures [] !in m.Values ==> [] !in targets.Values
  {
    hide Sent, SentOwn, OwnTasks, Own;
    targets := map[];
    var rest := m.Keys;
    NothingSent(m, pathOf);
    while rest != {}
      invariant rest <= m.Keys
      invariant forall path, t :: t in TasksFor(targets, path) <==> Sent(m, pathOf, rest, path, t)
      invariant OwnTasks(m) && pathOf.Keys <= m.Keys ==>
        forall path, id, project :: Own(TasksFor(targets, path), id, project) == SentOwn(m, pathOf, rest, path, id, project)
      invariant [] !in m.Values ==> [] !in targets.Values
      decreases rest
    {
      var project :| project in rest;
      forall path, t
        ensures Sent(m, pathOf, rest - {project}, path, t) <==>
                Sent(m, pathOf, rest, path, t) || (project in pathOf && pathOf[project] == path && t in m[project])
      {
        SentStep(m, pathOf, rest, project, path, t);
      }
      if OwnTasks(m) && pathOf.Keys <= m.Keys {
        AllSentOwn(m, pathOf, rest, project, targets);
      }
      assert m[project] in m.Values;
      if project in pathOf {
        targets := Grow(targets, pathOf[project], m[project]);
      }
      rest := rest - {project};
    }
  }

  lemma NothingSent(m: map<string, seq<Task>>, pathOf: map<string, Path>)
    ensures forall path, t :: !Sent(m, pathOf, m.Keys, path, t)
    ensures pathOf.Keys <= m.Keys ==> forall path, id, project :: SentOwn(m, pathOf, m.Keys, path, id, project) == []
    ensures forall id, project :: Own([], id, project) == []
  {
  }

  lemma AllSentOwn(m: map<string, seq<Task>>, pathOf: map<string, Path>, rest: set<string>, q: string, targets: Targets)
    requires OwnTasks(m) && q in rest && q in m
    requires forall path, id, project :: Own(TasksFor(targets, path), id, project) == SentOwn(m, pathOf, rest, path, id, project)
    ensures var next := if q in pathOf then Grow(targets, pathOf[q], m[q]) else targets;
      forall path, id, project :: Own(TasksFor(next, path), id, project) == SentOwn(m, pathOf, rest - {q}, path, id, project)
  {
    hide Own, SentOwn, OwnTasks, Grow;
    var next := if q in pathOf then Grow(targets, pathOf[q], m[q]) else targets;
    forall path, id, project
      ensures Own(TasksFor(next, path), id, project) == SentOwn(m, pathOf, rest - {q}, path, id, project)
    {
      SentOwnStep(m, pathOf, rest, q, targets, path, id, project);
    }
  }

  function CanonPaths(projects: set<string>): map<string, Path> {
    map project | project in projects :: CanonFile(Flatten(project))
  }

  /** The projection files of the projects that have tasks. */
  function ProjPaths(cfg: Config, projects: set<string>): map<string, Path> {
    map project | project in cfg.fileOf && project in projects :: ProjFile(cfg.fileOf[project])
  }

  method RenderTargets(cfg: Config, plan: Plan) returns (canonByPath: Targets, projByPath: Targets)
    ensures var m := plan.canonByProject; var paths := CanonPaths(m.Keys);
      && (forall path, t :: t in TasksFor(canonByPath, path) <==> Sent(m, paths, {}, path, t))
      && (OwnTasks(m) ==> forall path, id, project :: Own(TasksFor(canonByPath, path), id, project) == SentOwn(m, paths, {}, path, id, project))
      && ([] !in m.Values ==> [] !in canonByPath.Values)
    ensures var m := plan.projByProject; var paths := ProjPaths(cfg, m.Keys);
      && (forall path, t :: t in TasksFor(projByPath, path) <==> Sent(m, paths, {}, path, t))
      && (OwnTasks(m) ==> forall path, id, project :: Own(TasksFor(projByPath, path), id, project) == SentOwn(m, paths, {}, path, id, project))
      && ([] !in m.Values ==> [] !in projByPath.Values)
  {
    hide Sent, SentOwn, OwnTasks, Own, Flatten;
    canonByPath := Send(plan.canonByProject, CanonPaths(plan.canonByProject.Keys));
    projByPath := Send(plan.projByProject, ProjPaths(cfg, plan.projByProject.Keys));
  }

  /** The tasks of a project belong into the file at path. */
  predicate ProjectLands(cfg: Config, project: string, path: Path) {
    if path.CanonFile? then path == CanonFile(Flatten(project)) else project in cfg.fileOf && path == ProjFile(cfg.fileOf[project])
  }

  /** What an id's verdict wants of one project at path, in the verdict's order. */
  function WantedOwn(cfg: Config, g: Gathered, path: Path, id: string, project: string): seq<Task> {
    if id in IdsOf(g) && ProjectLands(cfg, project, path) then Own(SideOf(ResolveAt(g, cfg.Synced(), id), path.CanonFile?), id, project)
    else []
  }

  ghost predicate KeepsVerdictOrder(cfg: Config, g: Gathered, path: Path, desired: seq<Task>) {
    forall id, project :: Own(desired, id, project) == WantedOwn(cfg, g, path, id, project)
  }

  /** desired is exactly what the verdicts of g want at path, the tasks of an id and project in the verdict's order. */
  ghost predicate DesiredAt(cfg: Config, g: Gathered, path: Path, desired: seq<Task>) {
    (forall t :: t in desired <==> exists id :: Wants(cfg, g, path, id, t)) && KeepsVerdictOrder(cfg, g, path, desired)
  }

  lemma NothingDesired(cfg: Config, g: Gathered, path: Path)
    requires !exists id, t :: Wants(cfg, g, path, id, t)
    ensures DesiredAt(cfg, g, path, [])
  {
    hide ResolveAt, Flatten;
    forall id, project
      ensures WantedOwn(cfg, g, path, id, project) == Own([], id, project)
    {
      NoneOwn([], id, project);
      if id in IdsOf(g) && ProjectLands(cfg, project, path) {
        var side := SideOf(ResolveAt(g, cfg.Synced(), id), path.CanonFile?);
        forall t | t in side
          ensures t.project == project ==> Wants(cfg, g, path, id, t)
        {
        }
        NoneOwn(side, id, project);
      }
    }
  }

  /** In a plan every task stands under its own project, so it is sent to that project's file. */
  lemma SentHome(m: map<string, seq<Task>>, pathOf: map<string, Path>, path: Path, t: Task)
    requires forall project :: t in At(m, project) ==> t.project == project
    ensures Sent(m, pathOf, {}, path, t) <==> t in At(m, t.project) && t.project in pathOf && pathOf[t.project] == path
  {
    if Sent(m, pathOf, {}, path, t) {
      var q :| q !in {} && FromProject(m, q, t) && q in pathOf && pathOf[q] == path;
      assert t in At(m, q);
    }
    if t in At(m, t.project) && t.project in pathOf && pathOf[t.project] == path {
      assert FromProject(m, t.project, t);
    }
  }

  /** The tasks of one project in the plan's canon part. */
  lemma CanonOfProject(vs: seq<Verdict>, project: string, t: Task)
    ensures t in At(PlanOf(vs).canonByProject, project) <==> t.project == project && exists v :: v in vs && PutsCanon(v, t)
  {
    PlanTasks(vs, project, t);
  }

  lemma CanonSent(cfg: Config, g: Gathered, ids: seq<string>, path: Path, t: Task)
    requires (forall id :: id in ids <==> id in IdsOf(g)) && path.CanonFile?
    ensures var m := PlanOf(Verdicts(g, cfg.Synced(), ids)).canonByProject;
      Sent(m, CanonPaths(m.Keys), {}, path, t) <==> exists id :: Wants(cfg, g, path, id, t)
  {
    hide Resolve, Flatten, PlanOf, PutsCanon, Wants, Verdicts, Sent;
    var vs := Verdicts(g, cfg.Synced(), ids);
    var m := PlanOf(vs).canonByProject;
    forall project
      ensures t in At(m, project) ==> t.project == project
    {
      CanonOfProject(vs, project, t);
    }
    SentHome(m, CanonPaths(m.Keys), path, t);
    CanonOfProject(vs, t.project, t);
    CanonWants(cfg, g, ids, path, t);
    assert t in At(m, t.project) ==> t.project in m;
  }

  lemma {:induction false} PlanHasTasks(vs: seq<Verdict>)
    ensures [] !in PlanOf(vs).canonByProject.Values && [] !in PlanOf(vs).projByProject.Values
  {
    hide PutAll;
    if vs != [] {
      var front, v := PlanOf(vs[..|vs| - 1]), vs[|vs| - 1];
      PlanHasTasks(vs[..|vs| - 1]);
      PutHasTasks(front.canonByProject, v.outcome.canon);
      PutHasTasks(front.projByProject, v.outcome.proj);
    }
  }

  lemma {:induction false} PutHasTasks(m: map<string, seq<Task>>, ts: seq<Task>)
    requires [] !in m.Values
    ensures [] !in PutAll(m, ts).Values
    decreases ts
  {
    if ts != [] {
      PutHasTasks(Put(m, ts[0]), ts[1..]);
    }
  }

  lemma PlanOwnTasks(vs: seq<Verdict>)
    ensures OwnTasks(PlanOf(vs).canonByProject) && OwnTasks(PlanOf(vs).projByProject)
  {
    hide PlanOf, PutsCanon, PutsProj;
    forall project, t
      ensures t in At(PlanOf(vs).canonByProject, project) ==> t.project == project
      ensures t in At(PlanOf(vs).projByProject, project) ==> t.project == project
    {
      CanonOfProject(vs, project, t);
      ProjOfProject(vs, project, t);
    }
  }

  /** The canon targets of Decide's plan are what the verdicts want in that file. */
  lemma CanonTargetIsWanted(cfg: Config, g: Gathered, ids: seq<string>, path: Path, desired: seq<Task>)
    requires Keyed(g) && Order.Ascending(ids) && forall id :: id in ids <==> id in IdsOf(g)
    requires path.CanonFile?
    requires var m := PlanOf(Verdicts(g, cfg.Synced(), ids)).canonByProject; var paths := CanonPaths(m.Keys);
      && (forall t :: t in desired <==> Sent(m, paths, {}, path, t))
      && forall id, project :: Own(desired, id, project) == SentOwn(m, paths, {}, path, id, project)
    ensures DesiredAt(cfg, g, path, desired)
  {
    hide PlanOf, Verdicts, Sent, SentOwn, Wants, IdsOf, Own, WantedOwn, Keyed;
    forall t
      ensures t in desired <==> exists id :: Wants(cfg, g, path, id, t)
    {
      CanonSent(cfg, g, ids, path, t);
    }
    forall id, project
      ensures Own(desired, id, project) == WantedOwn(cfg, g, path, id, project)
    {
      CanonSentOwn(cfg, g, ids, path, id, project);
    }
  }

  lemma CanonSentOwn(cfg: Config, g: Gathered, ids: seq<string>, path: Path, id: string, project: string)
    requires Keyed(g) && Order.Ascending(ids) && (forall x :: x in ids <==> x in IdsOf(g)) && path.CanonFile?
    ensures var m := PlanOf(Verdicts(g, cfg.Synced(), ids)).canonByProject;
      SentOwn(m, CanonPaths(m.Keys), {}, path, id, project) == WantedOwn(cfg, g, path, id, project)
  {
    hide PlanOf, Verdicts, Keyed, IdsOf, ResolveAt, Flatten, Own;
    PlanKeepsOrder(g, cfg.Synced(), ids, true, id, project);
    NoneOwn([], id, project);
  }

  lemma CanonWants(cfg: Config, g: Gathered, ids: seq<string>, path: Path, t: Task)
    requires forall id :: id in ids <==> id in IdsOf(g)
    requires path.CanonFile?
    ensures (exists id :: Wants(cfg, g, path, id, t)) <==>
            path == CanonFile(Flatten(t.project)) && exists v :: v in Verdicts(g, cfg.Synced(), ids) && PutsCanon(v, t)
  {
    hide Resolve, Flatten;
    var vs := Verdicts(g, cfg.Synced(), ids);
    if path == CanonFile(Flatten(t.project)) && exists v :: v in vs && PutsCanon(v, t) {
      var v :| v in vs && PutsCanon(v, t);
      assert Wants(cfg, g, path, v.id, t);
    }
    if id :| Wants(cfg, g, path, id, t) {
      VerdictOf(g, cfg.Synced(), ids, id);
      assert PutsCanon(Verdict(id, ResolveAt(g, cfg.Synced(), id)), t);
    }
  }

  lemma ProjOfProject(vs: seq<Verdict>, project: string, t: Task)
    ensures t in At(PlanOf(vs).projByProject, project) <==> t.project == project && exists v :: v in vs && PutsProj(v, t)
  {
    PlanTasks(vs, project, t);
  }

  lemma ProjSent(cfg: Config, g: Gathered, ids: seq<string>, path: Path, t: Task)
    requires (forall id :: id in ids <==> id in IdsOf(g)) && path.ProjFile?
    ensures var m := PlanOf(Verdicts(g, cfg.Synced(), ids)).projByProject;
      Sent(m, ProjPaths(cfg, m.Keys), {}, path, t) <==> exists id :: Wants(cfg, g, path, id, t)
  {
    hide Resolve, PlanOf, PutsProj, Wants, Verdicts, Sent;
    var vs := Verdicts(g, cfg.Synced(), ids);
    var m := PlanOf(vs).projByProject;
    forall project
      ensures t in At(m, project) ==> t.project == project
    {
      ProjOfProject(vs, project, t);
    }
    SentHome(m, ProjPaths(cfg, m.Keys), path, t);
    ProjOfProject(vs, t.project, t);
    ProjWants(cfg, g, ids, path, t);
    assert t in At(m, t.project) ==> t.project in m;
  }

  lemma ProjSentOwn(cfg: Config, g: Gathered, ids: seq<string>, path: Path, id: string, project: string)
    requires Keyed(g) && Order.Ascending(ids) && (forall x :: x in ids <==> x in IdsOf(g)) && path.ProjFile?
    ensures var m := PlanOf(Verdicts(g, cfg.Synced(), ids)).projByProject;
      SentOwn(m, ProjPaths(cfg, m.Keys), {}, path, id, project) == WantedOwn(cfg, g, path, id, project)
  {
    hide PlanOf, Verdicts, Keyed, IdsOf, ResolveAt, Flatten, Own;
    PlanKeepsOrder(g, cfg.Synced(), ids, false, id, project);
    NoneOwn([], id, project);
  }

  /** The same for projection targets. */
  lemma ProjTargetIsWanted(cfg: Config, g: Gathered, ids: seq<string>, path: Path, desired: seq<Task>)
    requires Keyed(g) && Order.Ascending(ids) && forall id :: id in ids <==> id in IdsOf(g)
    requires path.ProjFile?
    requires var m := PlanOf(Verdicts(g, cfg.Synced(), ids)).projByProject; var paths := ProjPaths(cfg, m.Keys);
      && (forall t :: t in desired <==> Sent(m, paths, {}, path, t))
      && forall id, project :: Own(desired, id, project) == SentOwn(m, paths, {}, path, id, project)
    ensures DesiredAt(cfg, g, path, desired)
  {
    hide PlanOf, Verdicts, Sent, SentOwn, Wants, IdsOf, Own, WantedOwn, Keyed;
    forall t
      ensures t in desired <==> exists id :: Wants(cfg, g, path, id, t)
    {
      ProjSent(cfg, g, ids, path, t);
    }
    forall id, project
      ensures Own(desired, id, project) == WantedOwn(cfg, g, path, id, project)
    {
      ProjSentOwn(cfg, g, ids, path, id, project);
    }
  }

  lemma ProjWants(cfg: Config, g: Gathered, ids: seq<string>, path: Path, t: Task)
    requires forall id :: id in ids <==> id in IdsOf(g)
    requires path.ProjFile?
    ensures (exists id :: Wants(cfg, g, path, id, t)) <==>
            t.project in cfg.fileOf && path == ProjFile(cfg.fileOf[t.project])
            && exists v :: v in Verdicts(g, cfg.Synced(), ids) && PutsProj(v, t)
  {
    hide Resolve;
    var vs := Verdicts(g, cfg.Synced(), ids);
    if LandsOn(cfg, t, false, path) && exists v :: v in vs && PutsProj(v, t) {
      var v :| v in vs && PutsProj(v, t);
      assert Wants(cfg, g, path, v.id, t);
    }
    if id :| Wants(cfg, g, path, id, t) {
      VerdictOf(g, cfg.Synced(), ids, id);
      assert PutsProj(Verdict(id, ResolveAt(g, cfg.Synced(), id)), t);
    }
  }

  /** A file rendered from the desired tasks holds the wanted lines, each once. */
  lemma RenderedIsWanted(cfg: Config, g: Gathered, path: Path, prior: seq<Task>, less: LineOrder, desired: seq<Task>)
    requires DesiredAt(cfg, g, path, desired)
    ensures forall line :: line in LinesOf(Ordered(prior, less, desired)) <==> WantsLine(cfg, g, path, line)
  {
    hide Canon, Ordered, LinesOf, Wants, KeepsVerdictOrder;
    EachLineOnce(prior, less, desired);
    forall line
      ensures line != [] && HasLine(desired, line) <==> WantsLine(cfg, g, path, line)
    {
      if line != [] && HasLine(desired, line) {
        var i :| 0 <= i < |desired| && Canon(desired[i]) == line;
        assert desired[i] in desired;
      }
      if WantsLine(cfg, g, path, line) {
        var id, t :| Wants(cfg, g, path, id, t) && Canon(t) == line && line != [];
        assert t in desired;
      }
    }
  }
}
