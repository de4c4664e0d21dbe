/**
 The gather of a reconcile pass (internal/sync/reconcile.go:89-117, 263-338): the files that are read, the last task of an id
 in each, and ids drawn for projection lines that have none.
 */
module SyncGather {
  import opened Common
  import opened TaskLine
  import opened SyncEngine
  import opened SyncTask
  import opened SyncPaths
  import opened SyncPass
  import opened SyncIdle
  import opened TaskFile

  datatype File = File(mtime: nat, lines: seq<Line>)

  type Disk = map<Path, File>

  function ContentOf(disk: Disk): Files {
    map path | path in disk :: disk[path].lines
  }

  /** ReadFileMtime: an absent file reads as never modified. */
  function MtimeOf(disk: Disk, path: Path): nat {
    if path in disk then disk[path].mtime else 0
  }

  lemma {:induction false} TasksInAre(lines: seq<Line>, t: Task)
    requires TasksIn(lines).Ok?
    ensures t in TasksIn(lines).value <==> exists line :: line in lines && ReadLine(line) == Some(t)
  {
    hide Parse, TasksIn;
    if lines == [] {
      NoTasks();
    } else {
      var front, last := lines[..|lines| - 1], lines[|lines| - 1];
      assert lines == front + [last];
      TasksInSnoc(front, last);
      TasksInAre(front, t);
      assert ReadLine(last) == Parse(last).value;
    }
  }

  datatype FileState = FileState(mtime: nat, tasks: seq<Task>)

  type States = map<Path, FileState>

  /** states are the given paths as they were on disk. */
  ghost predicate ReadFrom(disk: Disk, paths: set<Path>, states: States) {
    && states.Keys == paths
    && (forall path :: path in paths ==>
          states[path].mtime == MtimeOf(disk, path) &&
          TasksIn(LinesAt(ContentOf(disk), path)) == Ok(states[path].tasks))
  }

  /** gatherCanonFiles and gatherProjectionFiles: every path read, or the first read error. */
  method GatherFiles(disk: Disk, paths: set<Path>) returns (r: Result<States, ParseError>)
    ensures r.Ok? ==> ReadFrom(disk, paths, r.value)
  {
    hide TasksIn;
    var states: States := map[];
    var rest := paths;
    while rest != {}
      invariant rest <= paths && ReadFrom(disk, paths - rest, states)
      decreases rest
    {
      var path :| path in rest;
      var tasks := TasksIn(LinesAt(ContentOf(disk), path));
      if tasks.Err? {
        return Err(tasks.error);
      }
      states := states[path := FileState(MtimeOf(disk, path), tasks.value)];
      rest := rest - {path};
    }
    r := Ok(states);
  }

  /** The last of the tasks of an id. */
  function LastTask(tasks: seq<Task>, id: string): (r: Option<Task>)
    ensures r.Some? ==> r.value.id == id
  {
    if tasks == [] then None
    else if tasks[|tasks| - 1].id == id then Some(tasks[|tasks| - 1])
    else LastTask(tasks[..|tasks| - 1], id)
  }

  lemma LastTaskSnoc(tasks: seq<Task>, t: Task, id: string)
    ensures LastTask(tasks + [t], id) == if t.id == id then Some(t) else LastTask(tasks, id)
  {
    assert (tasks + [t])[..|tasks|] == tasks;
  }

  lemma {:induction false} LastTaskIsRead(lines: seq<Line>, id: string)
    requires TasksIn(lines).Ok?
    ensures LastTask(TasksIn(lines).value, id) == LastWith(lines, id)
  {
    hide Parse, TasksIn, LastTask;
    if lines == [] {
      NoTasks();
      assert LastTask([], id) == None by { NoLastTask(id); }
    } else {
      var front, last := lines[..|lines| - 1], lines[|lines| - 1];
      assert lines == front + [last];
      TasksInSnoc(front, last);
      LastTaskIsRead(front, id);
      assert ReadLine(last) == Parse(last).value;
      if Parse(last).value.Some? {
        LastTaskSnoc(TasksIn(front).value, Parse(last).value.value, id);
      }
    }
  }

  lemma NoLastTask(id: string)
    ensures LastTask([], id) == None
  {
  }

  lemma {:induction false} LastTaskMembers(tasks: seq<Task>, id: string)
    ensures LastTask(tasks, id).Some? ==> LastTask(tasks, id).value in tasks
    ensures LastTask(tasks, id).None? ==> forall t :: t in tasks ==> t.id != id
  {
    if tasks != [] {
      var front, last := tasks[..|tasks| - 1], tasks[|tasks| - 1];
      LastTaskMembers(front, id);
      assert tasks == front + [last];
    }
  }

  ghost predicate HeldIn(states: States, t: Task) {
    exists path :: path in states && t in states[path].tasks
  }

  /** t is the last of its id in some file. */
  ghost predicate LastIn(states: States, t: Task) {
    exists path :: path in states && LastTask(states[path].tasks, t.id) == Some(t)
  }

  /** After i of a file's tasks: t is the last of its id among them, or an earlier file had it. */
  ghost predicate LastSoFar(states: States, tasks: seq<Task>, i: nat, t: Task)
    requires i <= |tasks|
  {
    var last := LastTask(tasks[..i], t.id);
    if last.Some? then last == Some(t) else LastIn(states, t)
  }

  lemma LastAtStart(states: States, tasks: seq<Task>, t: Task)
    requires LastIn(states, t)
    ensures LastSoFar(states, tasks, 0, t)
  {
  }

  lemma LastStep(states: States, tasks: seq<Task>, i: nat, before: map<string, Task>, after: map<string, Task>)
    requires i < |tasks| && after == before[tasks[i].id := tasks[i]]
    requires forall id :: id in before ==> before[id].id == id && LastSoFar(states, tasks, i, before[id])
    ensures forall id :: id in after ==> after[id].id == id && LastSoFar(states, tasks, i + 1, after[id])
  {
    hide LastTask, LastIn;
    assert tasks[..i + 1] == tasks[..i] + [tasks[i]];
    forall id | id in after
      ensures LastSoFar(states, tasks, i + 1, after[id])
    {
      LastTaskSnoc(tasks[..i], tasks[i], after[id].id);
    }
  }

  lemma LastAtEnd(states: States, path: Path, t: Task)
    requires path in states && LastSoFar(states, states[path].tasks, |states[path].tasks|, t)
    ensures LastIn(states, t)
  {
    hide LastTask;
    assert states[path].tasks[..|states[path].tasks|] == states[path].tasks;
  }

  /** The canon map: the files come in map order, but in a file the last task of an id wins. */
  method CollectCanon(states: States) returns (canon: map<string, Task>)
    ensures forall id :: id in canon ==> canon[id].id == id && LastIn(states, canon[id])
    ensures forall t :: HeldIn(states, t) ==> t.id in canon
  {
    hide LastTask, LastIn, LastSoFar;
    canon := map[];
    var rest := states.Keys;
    while rest != {}
      invariant rest <= states.Keys
      invariant forall id :: id in canon ==> canon[id].id == id && LastIn(states, canon[id])
      invariant forall path, t :: path in states && path !in rest && t in states[path].tasks ==> t.id in canon
      decreases rest
    {
      var path :| path in rest;
      var tasks := states[path].tasks;
      forall id | id in canon
        ensures LastSoFar(states, tasks, 0, canon[id])
      {
        LastAtStart(states, tasks, canon[id]);
      }
      for i := 0 to |tasks|
        invariant forall id :: id in canon ==> canon[id].id == id && LastSoFar(states, tasks, i, canon[id])
        invariant forall q, t :: q in states && q !in rest && t in states[q].tasks ==> t.id in canon
        invariant forall j :: 0 <= j < i ==> tasks[j].id in canon
      {
        ghost var before := canon;
        canon := canon[tasks[i].id := tasks[i]];
        LastStep(states, tasks, i, before, canon);
      }
      forall id | id in canon
        ensures LastIn(states, canon[id])
      {
        LastAtEnd(states, path, canon[id]);
      }
      rest := rest - {path};
    }
  }

  // ----- projection lines, some of them without an id -----

  /** The tasks gathered from the projection file of a project. */
  function ProjTasks(cfg: Config, states: States, project: string): seq<Task> {
    if project in cfg.fileOf && ProjFile(cfg.fileOf[project]) in states then states[ProjFile(cfg.fileOf[project])].tasks else []
  }

  /** p is the last of its id in its project's file, forced to the project. */
  ghost predicate LastListed(cfg: Config, states: States, p: Task) {
    exists t: Task :: t.id != "" && LastTask(ProjTasks(cfg, states, p.project), p.id) == Some(t) && p == Forced(t, p.project)
  }

  /** p is a line without an id under the n-th id drawn, forced to its project. */
  ghost predicate Minted(cfg: Config, states: States, mint: nat -> string, p: Task) {
    exists t: Task, n: nat :: t in ProjTasks(cfg, states, p.project) && t.id == "" && p.id == mint(n) && p == Forced(t.(id := mint(n)), p.project)
  }

  ghost predicate Projected(cfg: Config, states: States, mint: nat -> string, p: Task) {
    p.project in cfg.fileOf && (LastListed(cfg, states, p) || Minted(cfg, states, mint, p))
  }

  /** A line without an id: the place of its task among those of its project's file. */
  datatype Slot = Slot(project: string, index: nat)

  predicate Nameless(cfg: Config, states: States, slot: Slot) {
    && slot.project in cfg.fileOf && slot.index < |ProjTasks(cfg, states, slot.project)|
    && ProjTasks(cfg, states, slot.project)[slot.index].id == ""
  }

  /** Of the ids drawn none is drawn twice, and none is in the files already. */
  ghost predicate Unused(mint: nat -> string, drawn: nat, cfg: Config, states: States) {
    && (forall m: nat, n: nat :: m < drawn && n < drawn && mint(m) == mint(n) ==> m == n)
    && (forall n: nat, project, t :: n < drawn && t in ProjTasks(cfg, states, project) ==> t.id != mint(n))
  }

  lemma FewerAreUnused(mint: nat -> string, drawn: nat, cfg: Config, states: States)
    requires Unused(mint, drawn + 1, cfg, states)
    ensures Unused(mint, drawn, cfg, states)
  {
    hide ProjTasks;
  }

  /** The slot's task is in the map under the id drawn for it. */
  predicate Entered(cfg: Config, states: States, mint: nat -> string, numbers: map<Slot, nat>, proj: map<string, Task>, slot: Slot)
    requires Nameless(cfg, states, slot)
  {
    slot in numbers &&
    var id := mint(numbers[slot]);
    id in proj && proj[id] == Forced(ProjTasks(cfg, states, slot.project)[slot.index].(id := id), slot.project)
  }

  /** The slots up to the index-th of a project, and those of the projects that are through, are entered, each under its own id. */
  ghost predicate EnteredSoFar(cfg: Config, states: States, mint: nat -> string, numbers: map<Slot, nat>, next: nat,
                               proj: map<string, Task>, rest: set<string>, project: string, index: nat) {
    && (forall slot :: slot in numbers ==> numbers[slot] < next)
    && (forall slot, other :: slot in numbers && other in numbers && numbers[slot] == numbers[other] ==> slot == other)
    && (forall slot :: slot in numbers ==> slot.project !in rest || (slot.project == project && slot.index < index))
    && (forall slot: Slot :: Nameless(cfg, states, slot) && (slot.project !in rest || (slot.project == project && slot.index < index)) ==>
          Entered(cfg, states, mint, numbers, proj, slot))
  }

  lemma EnterNamed(cfg: Config, states: States, mint: nat -> string, numbers: map<Slot, nat>, next: nat,
                   proj: map<string, Task>, rest: set<string>, project: string, index: nat, p: Task)
    requires Unused(mint, next, cfg, states) && EnteredSoFar(cfg, states, mint, numbers, next, proj, rest, project, index)
    requires index < |ProjTasks(cfg, states, project)| && ProjTasks(cfg, states, project)[index].id == p.id != ""
    ensures EnteredSoFar(cfg, states, mint, numbers, next, proj[p.id := p], rest, project, index + 1)
  {
    hide WithoutTag, ProjTasks;
    var t := ProjTasks(cfg, states, project)[index];
    assert t in ProjTasks(cfg, states, project);
    assert forall n: nat :: n < next ==> p.id != mint(n);
    forall slot: Slot | Nameless(cfg, states, slot) && (slot.project !in rest || (slot.project == project && slot.index < index + 1))
      ensures Entered(cfg, states, mint, numbers, proj[p.id := p], slot)
    {
      assert slot.project == project && slot.index == index ==> t.id == "";
      assert Entered(cfg, states, mint, numbers, proj, slot);
    }
  }

  lemma EnterMinted(cfg: Config, states: States, mint: nat -> string, numbers: map<Slot, nat>, next: nat,
                    proj: map<string, Task>, rest: set<string>, project: string, index: nat)
    requires Unused(mint, next + 1, cfg, states) && EnteredSoFar(cfg, states, mint, numbers, next, proj, rest, project, index)
    requires project in rest && Nameless(cfg, states, Slot(project, index))
    ensures var p := Forced(ProjTasks(cfg, states, project)[index].(id := mint(next)), project);
      EnteredSoFar(cfg, states, mint, numbers[Slot(project, index) := next], next + 1, proj[mint(next) := p], rest, project, index + 1)
  {
    hide WithoutTag, ProjTasks;
    var id := mint(next);
    var p := Forced(ProjTasks(cfg, states, project)[index].(id := id), project);
    var now := Slot(project, index);
    assert now !in numbers;
    forall slot: Slot | Nameless(cfg, states, slot) && (slot.project !in rest || (slot.project == project && slot.index < index + 1))
      ensures Entered(cfg, states, mint, numbers[now := next], proj[id := p], slot)
    {
      if slot != now {
        assert Entered(cfg, states, mint, numbers, proj, slot);
        assert mint(numbers[slot]) != id;
      }
    }
  }

  lemma EnterProject(cfg: Config, states: States, mint: nat -> string, numbers: map<Slot, nat>, next: nat,
                     proj: map<string, Task>, rest: set<string>, project: string, other: string)
    requires EnteredSoFar(cfg, states, mint, numbers, next, proj, rest, project, |ProjTasks(cfg, states, project)|) && project in rest
    ensures EnteredSoFar(cfg, states, mint, numbers, next, proj, rest - {project}, other, 0)
  {
    hide WithoutTag, ProjTasks;
  }

  lemma BeginProject(cfg: Config, states: States, mint: nat -> string, numbers: map<Slot, nat>, next: nat,
                     proj: map<string, Task>, rest: set<string>, project: string, other: string)
    requires EnteredSoFar(cfg, states, mint, numbers, next, proj, rest, other, 0)
    ensures EnteredSoFar(cfg, states, mint, numbers, next, proj, rest, project, 0)
  {
    hide WithoutTag, ProjTasks;
  }

  lemma BeginEntering(cfg: Config, states: States, mint: nat -> string)
    ensures EnteredSoFar(cfg, states, mint, map[], 0, map[], cfg.fileOf.Keys, "", 0)
  {
  }

  /** An entry that a prefix of a project's tasks, or an earlier project, accounts for. */
  ghost predicate ProjectedSoFar(cfg: Config, states: States, mint: nat -> string, project: string, index: nat, p: Task)
    requires index <= |ProjTasks(cfg, states, project)|
  {
    var last := LastTask(ProjTasks(cfg, states, project)[..index], p.id);
    (Minted(cfg, states, mint, p) && p.project in cfg.fileOf)
    || (if last.Some? && p.project == project && p.id != "" then p == Forced(last.value, project) && project in cfg.fileOf
        else p.project != project && Projected(cfg, states, mint, p))
  }

  lemma ProjectedAtStart(cfg: Config, states: States, mint: nat -> string, rest: set<string>, project: string, p: Task)
    requires Projected(cfg, states, mint, p) && (p.project != project || Minted(cfg, states, mint, p))
    ensures ProjectedSoFar(cfg, states, mint, project, 0, p)
  {
    hide Forced;
  }

  lemma ProjectedAtEnd(cfg: Config, states: States, mint: nat -> string, project: string, p: Task)
    requires ProjectedSoFar(cfg, states, mint, project, |ProjTasks(cfg, states, project)|, p)
    ensures Projected(cfg, states, mint, p)
  {
    hide Forced;
    var tasks := ProjTasks(cfg, states, project);
    assert tasks[..|tasks|] == tasks;
  }

  lemma ProjectedStep(cfg: Config, states: States, mint: nat -> string, project: string, index: nat, p: Task)
    requires index < |ProjTasks(cfg, states, project)| && ProjectedSoFar(cfg, states, mint, project, index, p)
    requires p.id != ProjTasks(cfg, states, project)[index].id
    ensures ProjectedSoFar(cfg, states, mint, project, index + 1, p)
  {
    hide Forced, LastTask, Minted, Projected;
    var tasks := ProjTasks(cfg, states, project);
    assert tasks[..index + 1] == tasks[..index] + [tasks[index]];
    LastTaskSnoc(tasks[..index], tasks[index], p.id);
  }

  /** The projection map: forced tasks, ids drawn for lines without one; in a file the last task of an id wins. */
  method CollectProj(cfg: Config, states: States, mint: nat -> string)
    returns (proj: map<string, Task>, ghost numbers: map<Slot, nat>, ghost drawn: nat)
    ensures forall id :: id in proj ==> proj[id].id == id && Projected(cfg, states, mint, proj[id])
    ensures forall project, t :: project in cfg.fileOf && t in ProjTasks(cfg, states, project) && t.id != "" ==> t.id in proj
    ensures forall slot :: slot in numbers ==> numbers[slot] < drawn
    ensures Unused(mint, drawn, cfg, states) ==>
              && (forall slot :: Nameless(cfg, states, slot) ==> Entered(cfg, states, mint, numbers, proj, slot))
              && (forall slot, other :: slot in numbers && other in numbers && numbers[slot] == numbers[other] ==> slot == other)
  {
    hide WithoutTag, Forced, Projected, ProjectedSoFar, Minted, LastTask, EnteredSoFar, Entered, ProjTasks, Unused;
    proj, numbers := map[], map[];
    var next := 0;
    var rest := cfg.fileOf.Keys;
    BeginEntering(cfg, states, mint);
    ghost var last := "";
    while rest != {}
      invariant rest <= cfg.fileOf.Keys
      invariant forall id :: id in proj ==> proj[id].id == id && Projected(cfg, states, mint, proj[id])
      invariant forall id :: id in proj ==> proj[id].project !in rest
      invariant forall project, t :: project in cfg.fileOf && project !in rest && t in ProjTasks(cfg, states, project) && t.id != "" ==> t.id in proj
      invariant forall slot :: slot in numbers ==> numbers[slot] < next
      invariant Unused(mint, next, cfg, states) ==> EnteredSoFar(cfg, states, mint, numbers, next, proj, rest, last, 0)
      decreases rest
    {
      var project :| project in rest;
      var tasks := ProjTasks(cfg, states, project);
      if Unused(mint, next, cfg, states) {
        BeginProject(cfg, states, mint, numbers, next, proj, rest, project, last);
      }
      forall id | id in proj
        ensures ProjectedSoFar(cfg, states, mint, project, 0, proj[id])
      {
        ProjectedAtStart(cfg, states, mint, rest, project, proj[id]);
      }
      for i := 0 to |tasks|
        invariant forall id :: id in proj ==> proj[id].id == id && ProjectedSoFar(cfg, states, mint, project, i, proj[id])
        invariant forall id :: id in proj ==> proj[id].project !in rest - {project}
        invariant forall q, t :: q in cfg.fileOf && q !in rest && t in ProjTasks(cfg, states, q) && t.id != "" ==> t.id in proj
        invariant forall j :: 0 <= j < i && tasks[j].id != "" ==> tasks[j].id in proj
        invariant forall slot :: slot in numbers ==> numbers[slot] < next
        invariant Unused(mint, next, cfg, states) ==> EnteredSoFar(cfg, states, mint, numbers, next, proj, rest, project, i)
      {
        var t := tasks[i];
        ghost var before := proj;
        if t.id == "" {
          t := t.(id := mint(next));
          if Unused(mint, next + 1, cfg, states) {
            FewerAreUnused(mint, next, cfg, states);
            EnterMinted(cfg, states, mint, numbers, next, proj, rest, project, i);
          }
          numbers := numbers[Slot(project, i) := next];
          next := next + 1;
        }
        var p := ForceProject(t, project);
        ForcedIs(t, project);
        if tasks[i].id != "" && Unused(mint, next, cfg, states) {
          EnterNamed(cfg, states, mint, numbers, next, proj, rest, project, i, p);
        }
        proj := proj[p.id := p];
        NextProjected(cfg, states, mint, project, i, before, next, p, proj);
      }
      forall id | id in proj
        ensures Projected(cfg, states, mint, proj[id])
      {
        ProjectedAtEnd(cfg, states, mint, project, proj[id]);
      }
      if Unused(mint, next, cfg, states) {
        EnterProject(cfg, states, mint, numbers, next, proj, rest, project, project);
      }
      last := project;
      rest := rest - {project};
    }
    drawn := next;
    AllEntered(cfg, states, mint, numbers, next, proj, last);
  }

  lemma ForcedIs(t: Task, project: string)
    ensures Forced(t, project).id == t.id && Forced(t, project).project == project
  {
  }

  /** One more task of a project, under its own id or a drawn one. */
  lemma NextProjected(cfg: Config, states: States, mint: nat -> string, project: string, i: nat, before: map<string, Task>, next: nat, p: Task,
                      after: map<string, Task>)
    requires project in cfg.fileOf && i < |ProjTasks(cfg, states, project)| && after == before[p.id := p]
    requires forall id :: id in before ==> before[id].id == id && ProjectedSoFar(cfg, states, mint, project, i, before[id])
    requires var t := ProjTasks(cfg, states, project)[i];
      if t.id == "" then next > 0 && p == Forced(t.(id := mint(next - 1)), project) else p == Forced(t, project)
    ensures forall id :: id in after ==> ProjectedSoFar(cfg, states, mint, project, i + 1, after[id])
  {
    hide WithoutTag, LastTask, Projected;
    var tasks := ProjTasks(cfg, states, project);
    assert tasks[..i + 1] == tasks[..i] + [tasks[i]];
    ForcedIs(tasks[i], project);
    hide Forced;
    forall id | id in after
      ensures ProjectedSoFar(cfg, states, mint, project, i + 1, after[id])
    {
      if id == p.id {
        LastTaskSnoc(tasks[..i], tasks[i], p.id);
        if tasks[i].id == "" {
          DrawnIsMinted(cfg, states, mint, project, i, next, p);
        }
      } else if tasks[i].id != "" {
        ProjectedStep(cfg, states, mint, project, i, before[id]);
      } else {
        NamelessStep(cfg, states, mint, project, i, before[id]);
      }
    }
  }

  lemma DrawnIsMinted(cfg: Config, states: States, mint: nat -> string, project: string, i: nat, next: nat, p: Task)
    requires project in cfg.fileOf && i < |ProjTasks(cfg, states, project)| && ProjTasks(cfg, states, project)[i].id == ""
    requires next > 0 && p == Forced(ProjTasks(cfg, states, project)[i].(id := mint(next - 1)), project)
    ensures Minted(cfg, states, mint, p)
  {
    hide WithoutTag, ProjTasks;
    var n: nat := next - 1;
    var t := ProjTasks(cfg, states, project)[i];
    assert t in ProjTasks(cfg, states, p.project) && p.id == mint(n);
  }

  /** A line without an id changes nothing about the entries of other ids. */
  lemma NamelessStep(cfg: Config, states: States, mint: nat -> string, project: string, i: nat, p: Task)
    requires i < |ProjTasks(cfg, states, project)| && ProjTasks(cfg, states, project)[i].id == ""
    requires ProjectedSoFar(cfg, states, mint, project, i, p)
    ensures ProjectedSoFar(cfg, states, mint, project, i + 1, p)
  {
    hide Forced, LastTask, Minted, Projected;
    var tasks := ProjTasks(cfg, states, project);
    assert tasks[..i + 1] == tasks[..i] + [tasks[i]];
    LastTaskSnoc(tasks[..i], tasks[i], p.id);
  }

  lemma AllEntered(cfg: Config, states: States, mint: nat -> string, numbers: map<Slot, nat>, next: nat, proj: map<string, Task>, last: string)
    ensures EnteredSoFar(cfg, states, mint, numbers, next, proj, {}, last, 0) ==>
              && (forall slot :: Nameless(cfg, states, slot) ==> Entered(cfg, states, mint, numbers, proj, slot))
              && (forall slot, other :: slot in numbers && other in numbers && numbers[slot] == numbers[other] ==> slot == other)
  {
    hide Entered, ProjTasks;
  }

  // ----- the gathered state is a gather of the files -----

  function CanonPathsOn(disk: Disk): set<Path> {
    set path | path in disk && path.CanonFile? && !Skipped(path)
  }

  function ProjPathsOf(cfg: Config): set<Path> {
    set project | project in cfg.fileOf && Projects(cfg, project) :: ProjFile(cfg.fileOf[project])
  }

  lemma StateReads(disk: Disk, paths: set<Path>, states: States, path: Path, t: Task)
    requires ReadFrom(disk, paths, states) && path in paths
    ensures t in states[path].tasks <==> Reads(ContentOf(disk), path, t)
    ensures LastTask(states[path].tasks, t.id) == LastWith(LinesAt(ContentOf(disk), path), t.id)
  {
    hide TasksIn, ReadLine, LastTask, LastWith;
    TasksInAre(LinesAt(ContentOf(disk), path), t);
    LastTaskIsRead(LinesAt(ContentOf(disk), path), t.id);
  }

  lemma CanonGathered(disk: Disk, states: States, canon: map<string, Task>)
    requires ReadFrom(disk, CanonPathsOn(disk), states)
    requires forall id :: id in canon ==> canon[id].id == id && LastIn(states, canon[id])
    requires forall t :: HeldIn(states, t) ==> t.id in canon
    ensures GathersCanon(ContentOf(disk), canon)
  {
    hide Reads, ReadFrom, Skipped, LastTask, LastWith;
    KeysOf(disk, CanonPathsOn(disk), states);
    forall id | id in canon
      ensures InCanon(ContentOf(disk), canon[id])
    {
      var path :| path in states && LastTask(states[path].tasks, canon[id].id) == Some(canon[id]);
      StateReads(disk, CanonPathsOn(disk), states, path, canon[id]);
      assert StandsIn(ContentOf(disk), path, canon[id]);
    }
    forall path: Path, t | path.CanonFile? && !Skipped(path) && Reads(ContentOf(disk), path, t)
      ensures t.id in canon
    {
      ReadsOnDisk(disk, path, t);
      StateReads(disk, CanonPathsOn(disk), states, path, t);
      assert HeldIn(states, t);
    }
  }

  lemma KeysOf(disk: Disk, paths: set<Path>, states: States)
    requires ReadFrom(disk, paths, states)
    ensures states.Keys == paths
  {
  }

  lemma ReadsOnDisk(disk: Disk, path: Path, t: Task)
    requires Reads(ContentOf(disk), path, t)
    ensures path in disk
  {
    hide ReadLine;
  }

  /** Every projection line that is read carries an id, so none is drawn in this pass. */
  ghost predicate NothingMinted(cfg: Config, files: Files) {
    forall project, t :: Projects(cfg, project) && Reads(files, ProjFile(cfg.fileOf[project]), t) ==> t.id != ""
  }

  /** The tasks of a project's projection file, if the scan reads it. */
  lemma ProjTasksAre(cfg: Config, disk: Disk, states: States, project: string, t: Task)
    requires ReadFrom(disk, ProjPathsOf(cfg), states) && cfg.Valid()
    ensures t in ProjTasks(cfg, states, project) <==> Projects(cfg, project) && Reads(ContentOf(disk), ProjFile(cfg.fileOf[project]), t)
    ensures Projects(cfg, project) ==>
              LastTask(ProjTasks(cfg, states, project), t.id) == LastWith(LinesAt(ContentOf(disk), ProjFile(cfg.fileOf[project])), t.id)
  {
    hide Reads, ReadFrom, Skipped, LastTask, LastWith, IsTag;
    KeysOf(disk, ProjPathsOf(cfg), states);
    if project in cfg.fileOf {
      var path := ProjFile(cfg.fileOf[project]);
      assert path in ProjPathsOf(cfg) <==> Projects(cfg, project);
      if Projects(cfg, project) {
        StateReads(disk, ProjPathsOf(cfg), states, path, t);
      }
    }
  }

  lemma ProjGathered(cfg: Config, disk: Disk, states: States, mint: nat -> string, proj: map<string, Task>)
    requires cfg.Valid() && ReadFrom(disk, ProjPathsOf(cfg), states) && NothingMinted(cfg, ContentOf(disk))
    requires forall id :: id in proj ==> proj[id].id == id && Projected(cfg, states, mint, proj[id])
    requires forall project, t :: project in cfg.fileOf && t in ProjTasks(cfg, states, project) && t.id != "" ==> t.id in proj
    ensures GathersProj(cfg, ContentOf(disk), proj)
  {
    hide Reads, ReadFrom, WithoutTag, IsTag, Skipped, ProjTasks, LastTask, LastWith, InProjection, Projected;
    forall id | id in proj
      ensures InProjection(cfg, ContentOf(disk), proj[id])
    {
      ProjectedIsRead(cfg, disk, states, mint, proj[id]);
    }
    forall project, t | Projects(cfg, project) && Reads(ContentOf(disk), ProjFile(cfg.fileOf[project]), t)
      ensures t.id in proj
    {
      ProjTasksAre(cfg, disk, states, project, t);
      ProjectsInConfig(cfg, project);
    }
  }

  lemma ProjectsInConfig(cfg: Config, project: string)
    ensures Projects(cfg, project) ==> project in cfg.fileOf
  {
  }

  lemma ProjectedIsRead(cfg: Config, disk: Disk, states: States, mint: nat -> string, p: Task)
    requires cfg.Valid() && ReadFrom(disk, ProjPathsOf(cfg), states) && NothingMinted(cfg, ContentOf(disk))
    requires Projected(cfg, states, mint, p)
    ensures InProjection(cfg, ContentOf(disk), p)
  {
    hide Reads, ReadFrom, WithoutTag, IsTag, Projects, ProjTasks, LastTask, LastWith;
    if Minted(cfg, states, mint, p) {
      var t: Task, n: nat :| t in ProjTasks(cfg, states, p.project) && t.id == "" && p.id == mint(n)
                             && p == Forced(t.(id := mint(n)), p.project);
      ProjTasksAre(cfg, disk, states, p.project, t);
      assert false;
    } else {
      var t: Task :| t.id != "" && LastTask(ProjTasks(cfg, states, p.project), p.id) == Some(t) && p == Forced(t, p.project);
      LastTaskMembers(ProjTasks(cfg, states, p.project), p.id);
      ProjTasksAre(cfg, disk, states, p.project, t);
      LastTaskHasId(ProjTasks(cfg, states, p.project), p.id);
    }
  }

  lemma LastTaskHasId(tasks: seq<Task>, id: string)
    ensures LastTask(tasks, id).Some? ==> LastTask(tasks, id).value.id == id
  {
  }

  // ----- drawn ids, seen from the files -----

  /** The tasks on the lines of a projection file that the scan reads. */
  function TasksOn(cfg: Config, files: Files, project: string): seq<Task> {
    if !Projects(cfg, project) then []
    else
      var r := TasksIn(LinesAt(files, ProjFile(cfg.fileOf[project])));
      if r.Ok? then r.value else []
  }

  /** A projection line without an id. */
  predicate NewLine(cfg: Config, files: Files, slot: Slot) {
    slot.index < |TasksOn(cfg, files, slot.project)| && TasksOn(cfg, files, slot.project)[slot.index].id == ""
  }

  /** Of the ids drawn none is drawn twice, and none is in a file that is read or in the base. */
  ghost predicate Unseen(mint: nat -> string, drawn: nat, cfg: Config, files: Files, base: map<string, SyncBase>) {
    && (forall m: nat, n: nat :: m < drawn && n < drawn && mint(m) == mint(n) ==> m == n)
    && (forall n: nat, project, t :: n < drawn && t in TasksOn(cfg, files, project) ==> t.id != mint(n))
    && (forall n: nat, t :: n < drawn && InCanon(files, t) ==> t.id != mint(n))
    && (forall n: nat :: n < drawn ==> mint(n) !in base)
  }

  /** The task that a new line becomes. */
  function NewTask(cfg: Config, files: Files, mint: nat -> string, slot: Slot, n: nat): Task
    requires NewLine(cfg, files, slot)
  {
    Forced(TasksOn(cfg, files, slot.project)[slot.index].(id := mint(n)), slot.project)
  }

  /** Every new line has an entry under an id of its own, and nothing else is known under that id. */
  ghost predicate AllDrawn(cfg: Config, files: Files, mint: nat -> string, drawn: nat, numbers: map<Slot, nat>, g: Gathered) {
    && (forall slot :: NewLine(cfg, files, slot) ==>
          && slot in numbers && numbers[slot] < drawn
          && var id := mint(numbers[slot]);
             id in g.proj && id !in g.canon && id !in g.base && g.proj[id] == NewTask(cfg, files, mint, slot, numbers[slot]))
    && (forall slot, other :: slot in numbers && other in numbers && numbers[slot] == numbers[other] ==> slot == other)
  }

  lemma TasksOnAre(cfg: Config, disk: Disk, states: States, project: string)
    requires cfg.Valid() && ReadFrom(disk, ProjPathsOf(cfg), states)
    ensures TasksOn(cfg, ContentOf(disk), project) == ProjTasks(cfg, states, project)
  {
    hide Skipped, IsTag, TasksIn;
    KeysOf(disk, ProjPathsOf(cfg), states);
  }

  lemma UnseenIsUnused(mint: nat -> string, drawn: nat, cfg: Config, disk: Disk, states: States, base: map<string, SyncBase>)
    requires cfg.Valid() && ReadFrom(disk, ProjPathsOf(cfg), states) && Unseen(mint, drawn, cfg, ContentOf(disk), base)
    ensures Unused(mint, drawn, cfg, states)
  {
    hide ReadFrom, IsTag, TasksOn, ProjTasks, InCanon;
    forall n: nat, project, t | n < drawn && t in ProjTasks(cfg, states, project)
      ensures t.id != mint(n)
    {
      TasksOnAre(cfg, disk, states, project);
    }
  }

  lemma DrawnAtEnd(cfg: Config, disk: Disk, states: States, mint: nat -> string, drawn: nat, numbers: map<Slot, nat>, g: Gathered)
    requires cfg.Valid() && ReadFrom(disk, ProjPathsOf(cfg), states) && Unseen(mint, drawn, cfg, ContentOf(disk), g.base)
    requires GathersCanon(ContentOf(disk), g.canon) && forall slot :: slot in numbers ==> numbers[slot] < drawn
    requires forall slot :: Nameless(cfg, states, slot) ==> Entered(cfg, states, mint, numbers, g.proj, slot)
    requires forall slot, other :: slot in numbers && other in numbers && numbers[slot] == numbers[other] ==> slot == other
    ensures AllDrawn(cfg, ContentOf(disk), mint, drawn, numbers, g)
  {
    hide ReadFrom, IsTag, TasksOn, ProjTasks, InCanon, WithoutTag;
    forall slot | NewLine(cfg, ContentOf(disk), slot)
      ensures slot in numbers && numbers[slot] < drawn
      ensures var id := mint(numbers[slot]);
        id in g.proj && id !in g.canon && id !in g.base && g.proj[id] == NewTask(cfg, ContentOf(disk), mint, slot, numbers[slot])
    {
      TasksOnAre(cfg, disk, states, slot.project);
      ProjectOfNewLine(cfg, ContentOf(disk), slot);
      assert Nameless(cfg, states, slot);
      assert Entered(cfg, states, mint, numbers, g.proj, slot);
    }
  }

  lemma ProjectOfNewLine(cfg: Config, files: Files, slot: Slot)
    requires NewLine(cfg, files, slot)
    ensures slot.project in cfg.fileOf && Projects(cfg, slot.project)
  {
  }
}
