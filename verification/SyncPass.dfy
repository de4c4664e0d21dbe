/**
 One reconcile pass on whole files (internal/sync/reconcile.go): what is gathered,
 what every file should hold, and what a second pass makes of it.
 */
module SyncPass {
  import opened Common
  import opened TaskLine
  import opened TaskLineLaws
  import opened SyncEngine
  import opened SyncTask
  import opened SyncPaths

  type Files = map<Path, seq<Line>>

  function LinesAt(files: Files, path: Path): seq<Line> {
    if path in files then files[path] else []
  }

  /** Whether the plan's task t, put on one side, belongs into the file at path. */
  predicate LandsOn(cfg: Config, t: Task, canonSide: bool, path: Path) {
    if canonSide then path == CanonFile(Flatten(t.project))
    else t.project in cfg.fileOf && path == ProjFile(cfg.fileOf[t.project])
  }

  function SideOf(o: Outcome, canonSide: bool): seq<Task> {
    if canonSide then o.canon else o.proj
  }

  // ----- gathering: which of several files wins is left open, but in a file the last line does -----

  ghost predicate Reads(files: Files, path: Path, t: Task) {
    exists line :: line in LinesAt(files, path) && ReadLine(line) == Some(t)
  }

  /** The task on the last line under an id. */
  function LastWith(lines: seq<Line>, id: string): (r: Option<Task>)
    ensures r.Some? ==> r.value.id == id
  {
    if lines == [] then None
    else
      var t := ReadLine(lines[|lines| - 1]);
      if t.Some? && t.value.id == id then t else LastWith(lines[..|lines| - 1], id)
  }

  lemma {:induction false} LastIsRead(lines: seq<Line>, id: string)
    ensures LastWith(lines, id).Some? ==> exists line :: line in lines && ReadLine(line) == LastWith(lines, id)
    ensures LastWith(lines, id).None? ==> forall line :: line in lines && ReadLine(line).Some? ==> ReadLine(line).value.id != id
  {
    hide ReadLine;
    if lines != [] {
      var front, last := lines[..|lines| - 1], lines[|lines| - 1];
      LastIsRead(front, id);
      assert lines == front + [last];
    }
  }

  /** t is on the last line of its id in a main-vault file that the scan reads. */
  predicate StandsIn(files: Files, path: Path, t: Task) {
    path.CanonFile? && !Skipped(path) && LastWith(LinesAt(files, path), t.id) == Some(t)
  }

  ghost predicate InCanon(files: Files, t: Task) {
    exists path :: StandsIn(files, path, t)
  }

  lemma CanonSource(files: Files, t: Task) returns (path: Path)
    requires InCanon(files, t)
    ensures StandsIn(files, path, t) && path.CanonFile? && !Skipped(path) && Reads(files, path, t)
  {
    hide Skipped, ReadLine, LastWith;
    path :| StandsIn(files, path, t);
    LastIsRead(LinesAt(files, path), t.id);
  }

  ghost predicate GathersCanon(files: Files, canon: map<string, Task>) {
    && (forall id :: id in canon ==> canon[id].id == id && InCanon(files, canon[id]))
    && (forall path: Path, t :: path.CanonFile? && !Skipped(path) && Reads(files, path, t) ==> t.id in canon)
  }

  /** The projection file of a project, if the scan reads it. */
  predicate Projects(cfg: Config, project: string) {
    project in cfg.fileOf && !Skipped(ProjFile(cfg.fileOf[project]))
  }

  /** p is the last line of its id in a configured projection file, forced to the file's project. */
  ghost predicate InProjection(cfg: Config, files: Files, p: Task) {
    && Projects(cfg, p.project)
    && exists t: Task :: LastWith(LinesAt(files, ProjFile(cfg.fileOf[p.project])), p.id) == Some(t) && p == Forced(t, p.project)
  }

  lemma ProjSource(cfg: Config, files: Files, p: Task) returns (t: Task)
    requires InProjection(cfg, files, p)
    ensures Projects(cfg, p.project) && Reads(files, ProjFile(cfg.fileOf[p.project]), t) && p == Forced(t, p.project)
    ensures t.id == p.id && LastWith(LinesAt(files, ProjFile(cfg.fileOf[p.project])), p.id) == Some(t)
  {
    hide ReadLine, LastWith, Forced, Skipped;
    t :| LastWith(LinesAt(files, ProjFile(cfg.fileOf[p.project])), p.id) == Some(t) && p == Forced(t, p.project);
    LastIsRead(LinesAt(files, ProjFile(cfg.fileOf[p.project])), p.id);
  }

  ghost predicate GathersProj(cfg: Config, files: Files, proj: map<string, Task>) {
    && (forall id :: id in proj ==> proj[id].id == id && InProjection(cfg, files, proj[id]))
    && (forall project, t :: Projects(cfg, project) && Reads(files, ProjFile(cfg.fileOf[project]), t) ==> t.id in proj)
  }

  ghost predicate Gathers(cfg: Config, files: Files, g: Gathered) {
    GathersCanon(files, g.canon) && GathersProj(cfg, files, g.proj)
  }

  // ----- what a pass wants on disk -----

  predicate Wants(cfg: Config, g: Gathered, path: Path, id: string, t: Task) {
    id in IdsOf(g) && t in SideOf(ResolveAt(g, cfg.Synced(), id), path.CanonFile?) && LandsOn(cfg, t, path.CanonFile?, path)
  }

  ghost predicate WantsLine(cfg: Config, g: Gathered, path: Path, line: Line) {
    exists id, t :: Wants(cfg, g, path, id, t) && Canon(t) == line && line != []
  }

  /** The file at path holds the lines the plan wants there and no others. */
  ghost predicate WrittenAt(cfg: Config, g: Gathered, files: Files, path: Path) {
    forall line :: line in LinesAt(files, path) <==> WantsLine(cfg, g, path, line)
  }

  /** Every file that a scan reads is. */
  ghost predicate Written(cfg: Config, g: Gathered, files: Files) {
    forall path :: !Skipped(path) ==> WrittenAt(cfg, g, files, path)
  }

  /** The next scan reads every file in which the verdict puts a task. */
  predicate ReadAgain(cfg: Config, o: Outcome) {
    && (forall t :: t in o.canon ==> !Skipped(CanonFile(Flatten(t.project))))
    && (forall t :: t in o.proj ==> Projects(cfg, t.project))
  }

  ghost predicate AllReadAgain(cfg: Config, g: Gathered) {
    forall id :: id in IdsOf(g) ==> ReadAgain(cfg, ResolveAt(g, cfg.Synced(), id))
  }

  function ApplyOp(b: Option<SyncBase>, op: BaseOp): Option<SyncBase> {
    match op
    case Keep => b
    case Upsert(row) => Some(row)
    case Drop => None
  }

  /** base after CommitSyncState. */
  ghost predicate Committed(cfg: Config, g: Gathered, base: map<string, SyncBase>) {
    forall id :: Lookup(base, id) == ApplyOp(Lookup(g.base, id), ResolveAt(g, cfg.Synced(), id).base)
  }

  ghost predicate ConflictFree(cfg: Config, g: Gathered) {
    forall id :: id in IdsOf(g) ==> ResolveAt(g, cfg.Synced(), id).conflicts == []
  }

  /** Tasks free of stray markers whose first tag is their project. */
  predicate Settled(t: Task) {
    Clean(t) && Stable(t)
  }

  ghost predicate AllSettled(cfg: Config, g: Gathered) {
    && Keyed(g)
    && (forall id :: id in g.canon ==> Settled(g.canon[id]))
    && (forall id :: id in g.proj ==> Settled(g.proj[id]) && g.proj[id].project in cfg.fileOf)
  }

  // ----- equality up to what the merge looks at -----

  /** The same task to the merge: id, project and canonical line. */
  predicate Alike(a: Task, b: Task) {
    a.id == b.id && a.project == b.project && Canon(a) == Canon(b)
  }

  predicate AllAlike(a: seq<Task>, b: seq<Task>) {
    |a| == |b| && forall i :: 0 <= i < |a| ==> Alike(a[i], b[i])
  }

  predicate AlikeOutcome(o: Outcome, o': Outcome) {
    AllAlike(o.canon, o'.canon) && AllAlike(o.proj, o'.proj) && o'.conflicts == o.conflicts == []
  }

  predicate AlikeOption(a: Option<Task>, b: Option<Task>) {
    a.Some? == b.Some? && (a.Some? ==> Alike(a.value, b.value))
  }

  /** A conflict-free outcome holds one task at most, the same on both sides. */
  lemma OneTask(id: string, c: Option<Task>, p: Option<Task>, b: Option<SyncBase>, synced: set<string>)
    ensures var o := Resolve(id, c, p, b, synced); o.conflicts == [] ==>
      && |o.canon| <= 1 && |o.proj| <= 1
      && (o.proj != [] ==> o.canon == o.proj && o.proj[0].project in synced)
      && (forall t :: t in o.canon ==> c == Some(t) || p == Some(t))
  {
    hide Canon;
  }

  // ----- convergence -----

  /** What a conflict-free verdict leaves: nothing, an unsynced task without a row, or a synced one with its row. */
  predicate Rests(o: Outcome, b: Option<SyncBase>, synced: set<string>) {
    if o.canon == [] then o.proj == [] && b.None?
    else
      var t := o.canon[0];
      && o.canon == [t]
      && if t.project in synced then o.proj == [t] && b.Some? && b.value.project == t.project && b.value.baseLine == Canon(t)
         else o.proj == [] && b.None?
  }

  lemma VerdictRests(id: string, c: Option<Task>, p: Option<Task>, b: Option<SyncBase>, synced: set<string>)
    requires c.Some? || p.Some? || b.Some?
    requires p.Some? ==> p.value.project in synced
    requires Resolve(id, c, p, b, synced).conflicts == []
    ensures Rests(Resolve(id, c, p, b, synced), ApplyOp(b, Resolve(id, c, p, b, synced).base), synced)
  {
    hide Canon;
  }

  lemma RestingVerdict(id: string, o: Outcome, b: Option<SyncBase>, synced: set<string>, c': Option<Task>, p': Option<Task>)
    requires Rests(o, b, synced) && o.conflicts == []
    requires AlikeOption(if o.canon == [] then None else Some(o.canon[0]), c')
    requires AlikeOption(if o.proj == [] then None else Some(o.proj[0]), p')
    ensures AlikeOutcome(o, Resolve(id, c', p', b, synced)) && Resolve(id, c', p', b, synced).base == Keep
  {
    hide Canon;
  }

  /** A wanted task is one of the two gathered for its id. */
  lemma WantedIsGathered(cfg: Config, g: Gathered, path: Path, id: string, t: Task)
    requires AllSettled(cfg, g) && ConflictFree(cfg, g) && Wants(cfg, g, path, id, t)
    ensures Settled(t) && t.id == id
    ensures Lookup(g.canon, id) == Some(t) || Lookup(g.proj, id) == Some(t)
    ensures !path.CanonFile? ==> t.project in cfg.fileOf
  {
    hide Canon, Settled, Resolve;
    OneTask(id, Lookup(g.canon, id), Lookup(g.proj, id), Lookup(g.base, id), cfg.Synced());
  }

  /** A wanted line reads back as the task it was printed from. */
  lemma WantedLineReads(cfg: Config, g: Gathered, path: Path, line: Line) returns (id: string, t: Task)
    requires AllSettled(cfg, g) && ConflictFree(cfg, g) && WantsLine(cfg, g, path, line)
    ensures Wants(cfg, g, path, id, t) && Canon(t) == line && Settled(t) && t.id == id
    ensures ReadLine(line) == Some(ReadBack(t)) && Alike(t, ReadBack(t))
  {
    hide Canon, ReadLine, Clean, ReadBack, Resolve, LandsOn;
    id, t :| Wants(cfg, g, path, id, t) && Canon(t) == line && line != [];
    WantedIsGathered(cfg, g, path, id, t);
    CanonReadsBack(t);
  }

  /** A written file holds each wanted task, read back. */
  lemma WrittenTaskReads(cfg: Config, g: Gathered, files: Files, path: Path, id: string, t: Task)
    requires AllSettled(cfg, g) && ConflictFree(cfg, g) && WrittenAt(cfg, g, files, path) && Wants(cfg, g, path, id, t)
    ensures Settled(t) && t.id == id && Reads(files, path, ReadBack(t)) && Alike(t, ReadBack(t))
  {
    hide Canon, ReadLine, Clean, ReadBack, Resolve, LandsOn, Wants;
    WantedIsGathered(cfg, g, path, id, t);
    CanonReadsBack(t);
    assert WantsLine(cfg, g, path, Canon(t));
  }

  function OnlyTask(ts: seq<Task>): Option<Task> {
    if ts == [] then None else Some(ts[0])
  }

  /** What the next canon scan finds of a conflict-free verdict. */
  function FoundCanon(o: Outcome): Option<Task> {
    if o.canon == [] || Skipped(CanonFile(Flatten(o.canon[0].project))) then None else Some(o.canon[0])
  }

  function FoundProj(cfg: Config, o: Outcome): Option<Task> {
    if o.proj == [] || !Projects(cfg, o.proj[0].project) then None else Some(o.proj[0])
  }

  /** After a full pass the canon gather finds exactly what the plan put where it looks. */
  lemma WrittenCanon(cfg: Config, g: Gathered, files: Files, g': Gathered, id: string)
    requires AllSettled(cfg, g) && ConflictFree(cfg, g) && Written(cfg, g, files) && GathersCanon(files, g'.canon)
    requires id in IdsOf(g)
    ensures AlikeOption(FoundCanon(ResolveAt(g, cfg.Synced(), id)), Lookup(g'.canon, id))
  {
    hide Canon, Clean, ReadBack, Resolve, ReadLine, Skipped, Flatten, LastWith;
    var o := ResolveAt(g, cfg.Synced(), id);
    OneTask(id, Lookup(g.canon, id), Lookup(g.proj, id), Lookup(g.base, id), cfg.Synced());
    if FoundCanon(o).Some? {
      var t, path := o.canon[0], CanonFile(Flatten(o.canon[0].project));
      assert Wants(cfg, g, path, id, t);
      WrittenTaskReads(cfg, g, files, path, id, t);
    }
    if id in g'.canon {
      CanonComesFromPlan(cfg, g, files, g'.canon[id]);
    }
  }

  lemma CanonComesFromPlan(cfg: Config, g: Gathered, files: Files, found: Task)
    requires AllSettled(cfg, g) && ConflictFree(cfg, g) && Written(cfg, g, files) && InCanon(files, found)
    ensures found.id in IdsOf(g)
    ensures AlikeOption(FoundCanon(ResolveAt(g, cfg.Synced(), found.id)), Some(found))
  {
    hide Canon, Clean, ReadBack, Resolve, ReadLine, AllSettled, ConflictFree, Alike, Settled, Skipped, Flatten, LastWith;
    var path := CanonSource(files, found);
    var line :| line in LinesAt(files, path) && ReadLine(line) == Some(found);
    assert WrittenAt(cfg, g, files, path);
    var id, t := WantedLineReads(cfg, g, path, line);
    assert found.id == id by {
      AlikeIds(t, found);
    }
    WantedIsOnly(cfg, g, path, id, t);
  }

  lemma AlikeIds(a: Task, b: Task)
    requires Alike(a, b)
    ensures a.id == b.id
  {
  }

  lemma WantedIsOnly(cfg: Config, g: Gathered, path: Path, id: string, t: Task)
    requires ConflictFree(cfg, g) && Wants(cfg, g, path, id, t)
    ensures OnlyTask(SideOf(ResolveAt(g, cfg.Synced(), id), path.CanonFile?)) == Some(t)
    ensures LandsOn(cfg, t, path.CanonFile?, path)
  {
    hide Canon, Resolve, LandsOn;
    OneTask(id, Lookup(g.canon, id), Lookup(g.proj, id), Lookup(g.base, id), cfg.Synced());
  }

  /** A wanted task of a projection file, read back and forced again, is the same to the merge. */
  lemma ForcedAgain(cfg: Config, u: Task)
    requires cfg.Valid() && Settled(u) && u.project in cfg.fileOf
    ensures Alike(u, Forced(ReadBack(u), u.project))
  {
    hide Canon, IsTag;
    TagIsNotEmpty(u.project);
    ProjectIsShown(u);
    ForcedReadsBack(u, u.project);
  }

  lemma TagIsNotEmpty(tag: string)
    requires IsTag(tag)
    ensures tag != ""
  {
  }

  lemma ProjComesFromPlan(cfg: Config, g: Gathered, files: Files, found: Task)
    requires cfg.Valid() && AllSettled(cfg, g) && ConflictFree(cfg, g) && Written(cfg, g, files)
    requires InProjection(cfg, files, found)
    ensures found.id in IdsOf(g)
    ensures AlikeOption(FoundProj(cfg, ResolveAt(g, cfg.Synced(), found.id)), Some(found))
  {
    hide Canon, Clean, ReadBack, Resolve, ReadLine, AllSettled, ConflictFree, Alike, Settled, Forced, Skipped, LastWith;
    var read := ProjSource(cfg, files, found);
    var path := ProjFile(cfg.fileOf[found.project]);
    var line :| line in LinesAt(files, path) && ReadLine(line) == Some(read);
    assert WrittenAt(cfg, g, files, path);
    var id, t := WantedLineReads(cfg, g, path, line);
    WantedIsOnly(cfg, g, path, id, t);
    assert t.project == found.project;
    ForcedAgain(cfg, t);
    AlikeIds(t, found);
  }

  /** After a full pass the projection gather finds exactly what the plan put where it looks. */
  lemma WrittenProj(cfg: Config, g: Gathered, files: Files, g': Gathered, id: string)
    requires cfg.Valid() && AllSettled(cfg, g) && ConflictFree(cfg, g) && Written(cfg, g, files)
    requires GathersProj(cfg, files, g'.proj) && id in IdsOf(g)
    ensures AlikeOption(FoundProj(cfg, ResolveAt(g, cfg.Synced(), id)), Lookup(g'.proj, id))
  {
    hide Canon, Clean, ReadBack, Resolve, ReadLine, Skipped, LastWith, Forced;
    var o := ResolveAt(g, cfg.Synced(), id);
    OneTask(id, Lookup(g.canon, id), Lookup(g.proj, id), Lookup(g.base, id), cfg.Synced());
    if FoundProj(cfg, o).Some? {
      var t := o.proj[0];
      var path := ProjFile(cfg.fileOf[t.project]);
      assert Wants(cfg, g, path, id, t);
      WrittenTaskReads(cfg, g, files, path, id, t);
    }
    if id in g'.proj {
      ProjComesFromPlan(cfg, g, files, g'.proj[id]);
    }
  }

  /** The second pass knows no id the first did not know. */
  lemma NoNewIds(cfg: Config, g: Gathered, files: Files, g': Gathered, id: string)
    requires cfg.Valid() && AllSettled(cfg, g) && ConflictFree(cfg, g) && Written(cfg, g, files)
    requires Gathers(cfg, files, g') && Committed(cfg, g, g'.base) && id in IdsOf(g')
    ensures id in IdsOf(g)
  {
    hide Canon, Clean, ReadBack, ReadLine;
    if id in g'.canon {
      CanonComesFromPlan(cfg, g, files, g'.canon[id]);
    } else if id in g'.proj {
      ProjComesFromPlan(cfg, g, files, g'.proj[id]);
    } else {
      NothingKnown(g, cfg.Synced(), id);
      assert Lookup(g'.base, id) == ApplyOp(Lookup(g.base, id), ResolveAt(g, cfg.Synced(), id).base);
    }
  }

  lemma NothingKnown(g: Gathered, synced: set<string>, id: string)
    ensures id !in IdsOf(g) ==> ResolveAt(g, synced, id) == Outcome([], [], Keep, [])
  {
  }

  /** A task that the next scan misses is taken for deleted. */
  lemma LostVerdict(id: string, o: Outcome, b: Option<SyncBase>, synced: set<string>, c': Option<Task>, p': Option<Task>)
    requires Rests(o, b, synced) && o.conflicts == []
    requires if c'.None? then o.canon != [] && (p'.Some? ==> o.proj != [])
             else AlikeOption(OnlyTask(o.canon), c') && o.proj != [] && p'.None?
    ensures !AlikeOutcome(o, Resolve(id, c', p', b, synced))
  {
    hide Canon;
  }

  /**
   One pass converges: once every file is written and the base committed, gathering and deciding again finds no conflict,
   changes no base row of the id, and wants the same task on both sides, exactly if the next scan reads the files it is in.
   */
  lemma OnePassConverges(cfg: Config, g: Gathered, files: Files, g': Gathered, id: string)
    requires cfg.Valid() && AllSettled(cfg, g) && ConflictFree(cfg, g) && Written(cfg, g, files)
    requires Gathers(cfg, files, g') && Committed(cfg, g, g'.base) && id in IdsOf(g)
    ensures AlikeOutcome(ResolveAt(g, cfg.Synced(), id), ResolveAt(g', cfg.Synced(), id))
            <==> ReadAgain(cfg, ResolveAt(g, cfg.Synced(), id))
    ensures ReadAgain(cfg, ResolveAt(g, cfg.Synced(), id)) ==> ResolveAt(g', cfg.Synced(), id).base == Keep
  {
    hide Canon, Resolve, AlikeOption, AlikeOutcome, Rests, ApplyOp, ReadAgain, FoundCanon, FoundProj, Gathers, Written,
         AllSettled, GathersCanon, GathersProj;
    assert GathersCanon(files, g'.canon) && GathersProj(cfg, files, g'.proj) by {
      GathersBoth(cfg, files, g');
    }
    WrittenCanon(cfg, g, files, g', id);
    WrittenProj(cfg, g, files, g', id);
    var o := ResolveAt(g, cfg.Synced(), id);
    ProjectsAreSynced(cfg, g, id);
    VerdictRests(id, Lookup(g.canon, id), Lookup(g.proj, id), Lookup(g.base, id), cfg.Synced());
    assert Lookup(g'.base, id) == ApplyOp(Lookup(g.base, id), o.base);
    ConvergesAt(cfg, id, o, Lookup(g'.base, id), Lookup(g'.canon, id), Lookup(g'.proj, id));
  }

  lemma GathersBoth(cfg: Config, files: Files, g: Gathered)
    requires Gathers(cfg, files, g)
    ensures GathersCanon(files, g.canon) && GathersProj(cfg, files, g.proj)
  {
    hide GathersCanon, GathersProj;
  }

  lemma ProjectsAreSynced(cfg: Config, g: Gathered, id: string)
    requires AllSettled(cfg, g)
    ensures Lookup(g.proj, id).Some? ==> g.proj[id].project in cfg.Synced()
  {
    hide Settled;
  }

  lemma ConvergesAt(cfg: Config, id: string, o: Outcome, b: Option<SyncBase>, c': Option<Task>, p': Option<Task>)
    requires Rests(o, b, cfg.Synced()) && o.conflicts == []
    requires AlikeOption(FoundCanon(o), c') && AlikeOption(FoundProj(cfg, o), p')
    ensures AlikeOutcome(o, Resolve(id, c', p', b, cfg.Synced())) <==> ReadAgain(cfg, o)
    ensures ReadAgain(cfg, o) ==> Resolve(id, c', p', b, cfg.Synced()).base == Keep
  {
    hide Canon, Resolve, Alike, AlikeOutcome, Rests, Skipped, Flatten;
    RestingOnly(o, b, cfg.Synced());
    if ReadAgain(cfg, o) {
      RestingVerdict(id, o, b, cfg.Synced(), c', p');
    } else {
      LostVerdict(id, o, b, cfg.Synced(), c', p');
    }
  }

  lemma RestingOnly(o: Outcome, b: Option<SyncBase>, synced: set<string>)
    requires Rests(o, b, synced)
    ensures |o.canon| <= 1 && |o.proj| <= 1 && (o.proj != [] ==> o.canon == o.proj)
  {
    hide Canon;
  }

  /** The second plan has nothing to report: no upsert, no delete, no conflict. */
  lemma SecondPlanIsEmpty(cfg: Config, g: Gathered, files: Files, g': Gathered, ids: seq<string>)
    requires cfg.Valid() && AllSettled(cfg, g) && ConflictFree(cfg, g) && AllReadAgain(cfg, g) && Written(cfg, g, files)
    requires Gathers(cfg, files, g') && Committed(cfg, g, g'.base)
    requires forall id :: id in ids ==> id in IdsOf(g')
    ensures var plan := PlanOf(Verdicts(g', cfg.Synced(), ids));
      plan.baseUpserts == [] && plan.baseDeletes == [] && plan.conflicts == []
  {
    hide Canon, Clean, ReadBack, Resolve, ReadLine, Written, Gathers, Committed, AllSettled, ConflictFree, Verdicts;
    var vs := Verdicts(g', cfg.Synced(), ids);
    forall v | v in vs
      ensures v.outcome.base == Keep && v.outcome.conflicts == []
    {
      NoNewIds(cfg, g, files, g', v.id);
      OnePassConverges(cfg, g, files, g', v.id);
    }
    IdlePlan(vs);
  }

  lemma {:induction false} IdlePlan(vs: seq<Verdict>)
    requires forall v :: v in vs ==> v.outcome.base == Keep && v.outcome.conflicts == []
    ensures PlanOf(vs).baseUpserts == [] && PlanOf(vs).baseDeletes == [] && PlanOf(vs).conflicts == []
  {
    if vs == [] {
    } else {
      IdlePlan(vs[..|vs| - 1]);
    }
  }

  /** Two gathers whose verdicts are alike want the same lines in every file. */
  lemma AlikeWants(cfg: Config, g: Gathered, g': Gathered, path: Path, line: Line)
    requires forall id :: AlikeOutcome(ResolveAt(g, cfg.Synced(), id), ResolveAt(g', cfg.Synced(), id))
    ensures WantsLine(cfg, g, path, line) ==> WantsLine(cfg, g', path, line)
  {
    hide Canon, Resolve, ResolveAt;
    if WantsLine(cfg, g, path, line) {
      var id, t :| Wants(cfg, g, path, id, t) && Canon(t) == line && line != [];
      NothingKnown(g', cfg.Synced(), id);
      var side, side' := SideOf(ResolveAt(g, cfg.Synced(), id), path.CanonFile?), SideOf(ResolveAt(g', cfg.Synced(), id), path.CanonFile?);
      assert AllAlike(side, side');
      var i :| 0 <= i < |side| && side[i] == t;
      assert Alike(t, side'[i]);
      assert Wants(cfg, g', path, id, side'[i]);
    }
  }

  lemma AllAlikeIsSymmetric(a: seq<Task>, b: seq<Task>)
    requires AllAlike(a, b)
    ensures AllAlike(b, a)
  {
    hide Canon;
    forall i | 0 <= i < |b|
      ensures Alike(b[i], a[i])
    {
      assert Alike(a[i], b[i]);
    }
  }

  lemma AlikeIsSymmetric(o: Outcome, o': Outcome)
    requires AlikeOutcome(o, o')
    ensures AlikeOutcome(o', o)
  {
    AllAlikeIsSymmetric(o.canon, o'.canon);
    AllAlikeIsSymmetric(o.proj, o'.proj);
  }

  /** All verdicts of the second pass are alike those of the first. */
  lemma VerdictsStay(cfg: Config, g: Gathered, files: Files, g': Gathered, id: string)
    requires cfg.Valid() && AllSettled(cfg, g) && ConflictFree(cfg, g) && AllReadAgain(cfg, g) && Written(cfg, g, files)
    requires Gathers(cfg, files, g') && Committed(cfg, g, g'.base)
    ensures AlikeOutcome(ResolveAt(g, cfg.Synced(), id), ResolveAt(g', cfg.Synced(), id))
  {
    hide Canon, Clean, ReadBack, Resolve, ReadLine, AllSettled, ConflictFree, Gathers, Committed, Written;
    if id in IdsOf(g) {
      OnePassConverges(cfg, g, files, g', id);
    } else {
      NothingKnown(g, cfg.Synced(), id);
      NothingKnown(g', cfg.Synced(), id);
      if id in IdsOf(g') {
        NoNewIds(cfg, g, files, g', id);
      }
    }
  }

  lemma SameWants(cfg: Config, g: Gathered, g': Gathered)
    requires forall id :: AlikeOutcome(ResolveAt(g, cfg.Synced(), id), ResolveAt(g', cfg.Synced(), id))
    ensures forall path, line :: WantsLine(cfg, g, path, line) <==> WantsLine(cfg, g', path, line)
  {
    hide ResolveAt, WantsLine;
    forall id
      ensures AlikeOutcome(ResolveAt(g', cfg.Synced(), id), ResolveAt(g, cfg.Synced(), id))
    {
      AlikeIsSymmetric(ResolveAt(g, cfg.Synced(), id), ResolveAt(g', cfg.Synced(), id));
    }
    forall path, line
      ensures WantsLine(cfg, g, path, line) <==> WantsLine(cfg, g', path, line)
    {
      AlikeWants(cfg, g, g', path, line);
      AlikeWants(cfg, g', g, path, line);
    }
  }

  /** A second pass wants in every file exactly the lines that are there; that it writes no byte is shown in SyncIdle. */
  lemma SecondPassWantsTheFiles(cfg: Config, g: Gathered, files: Files, g': Gathered)
    requires cfg.Valid() && AllSettled(cfg, g) && ConflictFree(cfg, g) && AllReadAgain(cfg, g) && Written(cfg, g, files)
    requires Gathers(cfg, files, g') && Committed(cfg, g, g'.base)
    ensures Written(cfg, g', files)
  {
    hide WantsLine, ResolveAt, AllSettled, ConflictFree, Gathers, Committed;
    forall id
      ensures AlikeOutcome(ResolveAt(g, cfg.Synced(), id), ResolveAt(g', cfg.Synced(), id))
    {
      VerdictsStay(cfg, g, files, g', id);
    }
    SameWants(cfg, g, g');
    forall path: Path | !Skipped(path)
      ensures WrittenAt(cfg, g', files, path)
    {
      assert WrittenAt(cfg, g, files, path);
    }
  }
}
