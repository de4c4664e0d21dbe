/**
 The store and one reconcile pass over it (internal/sync/reconcile.go, internal/vault/guarded.go),
 run without interference but cut off after any number of file writes.
 */
module SyncStore {
  import opened Common
  import opened TaskLine
  import opened SyncEngine
  import opened SyncTask
  import opened SyncPaths
  import opened SyncPass
  import opened SyncOrder
  import opened SyncRender
  import opened SyncTargets
  import opened SyncRecovery
  import opened SyncRuns
  import opened SyncIdle
  import opened SyncGather
  import opened TaskFile
  import Order

  // ----- the base -----

  function RowsFor(upserts: seq<SyncBase>, id: string): Option<SyncBase> {
    if upserts == [] then None
    else if upserts[|upserts| - 1].id == id then Some(upserts[|upserts| - 1])
    else RowsFor(upserts[..|upserts| - 1], id)
  }

  lemma {:induction false} RowsForIsMember(upserts: seq<SyncBase>, id: string)
    ensures RowsFor(upserts, id).Some? ==> RowsFor(upserts, id).value in upserts && RowsFor(upserts, id).value.id == id
    ensures RowsFor(upserts, id).None? ==> forall row :: row in upserts ==> row.id != id
  {
    if upserts != [] {
      var front, last := upserts[..|upserts| - 1], upserts[|upserts| - 1];
      RowsForIsMember(front, id);
      assert upserts == front + [last];
    }
  }

  /** What a plan's base mutations do to one id is the op of its verdict. */
  lemma CommittedBase(cfg: Config, g: Gathered, ids: seq<string>, base: map<string, SyncBase>)
    requires Keyed(g) && forall id :: id in ids <==> id in IdsOf(g)
    requires var plan := PlanOf(Verdicts(g, cfg.Synced(), ids));
      forall id :: Lookup(base, id) ==
        if id in plan.baseDeletes then None
        else if RowsFor(plan.baseUpserts, id).Some? then RowsFor(plan.baseUpserts, id) else Lookup(g.base, id)
    ensures Committed(cfg, g, base)
  {
    hide Resolve, PlanOf, Verdicts, Keyed;
    var plan := PlanOf(Verdicts(g, cfg.Synced(), ids));
    forall id
      ensures Lookup(base, id) == ApplyOp(Lookup(g.base, id), ResolveAt(g, cfg.Synced(), id).base)
    {
      var op := ResolveAt(g, cfg.Synced(), id).base;
      NothingKnown(g, cfg.Synced(), id);
      RowsForIsMember(plan.baseUpserts, id);
      var row := RowsFor(plan.baseUpserts, id);
      if row.Some? {
        RowsAt(g, cfg.Synced(), ids, row.value);
      } else {
        RowsAt(g, cfg.Synced(), ids, SyncBase(id, "", []));
        if op.Upsert? {
          OpRowId(g, cfg.Synced(), id);
          RowsAt(g, cfg.Synced(), ids, op.row);
        }
      }
    }
  }

  lemma OpRowId(g: Gathered, synced: set<string>, id: string)
    requires Keyed(g)
    ensures ResolveAt(g, synced, id).base.Upsert? ==> ResolveAt(g, synced, id).base.row.id == id
  {
    hide Canon;
  }

  // ----- the pass -----

  /** What a pass wants to write at a path, and the mtime it gathered there. */
  datatype Target = Target(mtime: nat, content: seq<Line>)

  function KnownMtime(disk: Disk, path: Path): nat {
    if Skipped(path) then 0 else MtimeOf(disk, path)
  }

  ghost predicate AimedAt(cfg: Config, g: Gathered, less: LineOrder, disk: Disk, path: Path, target: Target) {
    target.mtime == KnownMtime(disk, path) && RenderedOver(cfg, g, less, ContentOf(disk), path, target.content)
  }

  ghost predicate Aimed(cfg: Config, g: Gathered, less: LineOrder, disk: Disk, known: map<Path, Target>) {
    forall path :: path in known ==> AimedAt(cfg, g, less, disk, path, known[path])
  }

  lemma AbsentFile(disk: Disk, path: Path)
    requires path !in disk
    ensures LinesAt(ContentOf(disk), path) == [] && MtimeOf(disk, path) == 0 && TasksIn([]) == Ok([])
  {
    NoTasks();
  }

  /** The states of the scanned files are what is known of them; of any other file nothing is. */
  ghost predicate Known(disk: Disk, states: States, path: Path) {
    var state := if path in states then states[path] else FileState(0, []);
    KnownMtime(disk, path) == state.mtime && PriorAt(ContentOf(disk), path) == Ok(state.tasks)
  }

  lemma ScannedIsKnown(disk: Disk, paths: set<Path>, states: States, path: Path)
    requires ReadFrom(disk, paths, states) && forall p :: p in paths ==> !Skipped(p)
    requires path in paths || path !in disk || Skipped(path)
    ensures Known(disk, states, path)
  {
    hide Skipped, TasksIn;
    KeysOf(disk, paths, states);
    if path !in paths && !Skipped(path) {
      AbsentFile(disk, path);
    }
  }

  /** addTarget over every file read and every file wanted: an emptied file is rewritten to empty. */
  method BuildTargets(cfg: Config, ghost g: Gathered, ghost disk: Disk, states: States, byPath: Targets, less: LineOrder)
    returns (known: map<Path, Target>)
    requires forall path :: path in states.Keys + byPath.Keys ==>
               Known(disk, states, path) && DesiredAt(cfg, g, path, TasksFor(byPath, path))
    ensures known.Keys == states.Keys + byPath.Keys && Aimed(cfg, g, less, disk, known)
  {
    hide DesiredAt, Ordered, LinesOf, TasksIn, AimedAt, Known, Skipped;
    known := map[];
    var rest := states.Keys + byPath.Keys;
    while rest != {}
      invariant rest <= states.Keys + byPath.Keys
      invariant known.Keys == states.Keys + byPath.Keys - rest && Aimed(cfg, g, less, disk, known)
      decreases rest
    {
      var path :| path in rest;
      var state := if path in states then states[path] else FileState(0, []);
      var content, _ := RenderFile(state.tasks, less, TasksFor(byPath, path));
      TargetIsAimed(cfg, g, less, disk, states, path, TasksFor(byPath, path), content);
      known := known[path := Target(state.mtime, content)];
      rest := rest - {path};
    }
  }

  lemma TargetIsAimed(cfg: Config, g: Gathered, less: LineOrder, disk: Disk, states: States, path: Path, desired: seq<Task>,
                      content: seq<Line>)
    requires Known(disk, states, path) && DesiredAt(cfg, g, path, desired)
    requires var state := if path in states then states[path] else FileState(0, []);
      content == LinesOf(Ordered(state.tasks, less, desired))
    ensures var state := if path in states then states[path] else FileState(0, []);
      AimedAt(cfg, g, less, disk, path, Target(state.mtime, content))
  {
    hide DesiredAt, Ordered, LinesOf, TasksIn, Skipped;
  }

  lemma RenderedIsWritten(cfg: Config, g: Gathered, less: LineOrder, files: Files, path: Path)
    requires Rendered(cfg, g, less, path, LinesAt(files, path))
    ensures WrittenAt(cfg, g, files, path)
  {
    hide DesiredAt, Ordered, LinesOf, WantsLine;
    var prior :| RenderedFrom(cfg, g, less, path, prior, LinesAt(files, path));
    var desired :| DesiredAt(cfg, g, path, desired) && LinesAt(files, path) == LinesOf(Ordered(prior, less, desired));
    RenderedIsWanted(cfg, g, path, prior, less, desired);
  }

  lemma AimedIsRendered(cfg: Config, g: Gathered, less: LineOrder, disk: Disk, path: Path, target: Target)
    requires AimedAt(cfg, g, less, disk, path, target)
    ensures Rendered(cfg, g, less, path, target.content) && RenderedOver(cfg, g, less, ContentOf(disk), path, target.content)
  {
    hide RenderedFrom, TasksIn, Skipped;
  }

  /** An absent file in which nothing is wanted is as rendered. */
  lemma NothingRendered(cfg: Config, g: Gathered, less: LineOrder, disk: Disk, path: Path)
    requires !IsWanted(cfg, g, path) && path !in disk
    ensures RenderedOver(cfg, g, less, ContentOf(disk), path, []) && Rendered(cfg, g, less, path, [])
  {
    hide DesiredAt, TasksIn, Skipped;
    AbsentFile(disk, path);
    NothingDesired(cfg, g, path);
    assert [] == LinesOf(Ordered([], less, []));
    assert RenderedFrom(cfg, g, less, path, [], []);
  }

  /** An abort at a path is the write guard's refusal. */
  datatype WriteResult = AllWritten | Interrupted | Refused(path: Path)

  datatype PassResult = Failed(error: ParseError) | CutOff | Aborted(path: Path) | Done

  /** With a path every earlier one of keys is in done. */
  ghost predicate FirstPart(cfg: Config, keys: set<Path>, done: set<Path>) {
    done <= keys && forall p, q :: p in done && q in keys && Earlier(cfg, q, p) ==> q in done
  }

  lemma NextPart(cfg: Config, keys: set<Path>, paths: seq<Path>, done: set<Path>, i: nat)
    requires SyncPaths.InOrder(cfg, paths) && (forall x :: x in paths <==> x in keys) && i < |paths|
    requires FirstPart(cfg, keys, done) && forall x :: x in done <==> x in paths[..i]
    ensures paths[i] !in done && FirstPart(cfg, keys, done + {paths[i]})
    ensures forall x :: x in done + {paths[i]} <==> x in paths[..i + 1]
    ensures forall q :: q in keys && Earlier(cfg, q, paths[i]) ==> q in done
  {
    hide Earlier;
    assert paths[..i + 1] == paths[..i] + [paths[i]];
    EarlierIrreflexive(cfg, paths[i]);
    forall j | 0 <= j < i
      ensures paths[..i][j] != paths[i]
    {
      assert Earlier(cfg, paths[j], paths[i]);
    }
    forall q | q in keys && Earlier(cfg, q, paths[i])
      ensures q in done
    {
      var j :| 0 <= j < |paths| && paths[j] == q;
      EarlierIrreflexive(cfg, q);
      if j > i {
        EarlierTransitive(cfg, q, paths[i], paths[j]);
      }
      assert j < i;
      assert paths[..i][j] == q;
    }
  }

  /** The targets in done hold, whether written or found so; nothing else was touched, and nothing at all if all held before. */
  ghost predicate SoFar(known: map<Path, Target>, start: Disk, now: Disk, done: set<Path>)
    requires done <= known.Keys
  {
    && (forall path :: path !in done ==> MtimeOf(now, path) == MtimeOf(start, path))
    && (forall path :: LinesAt(ContentOf(now), path) == if path in done then known[path].content else LinesAt(ContentOf(start), path))
    && (forall path :: path in done ==> known[path].mtime == MtimeOf(start, path) || LinesAt(ContentOf(start), path) == known[path].content)
    && (AllHeld(known, start) ==> now == start)
  }

  ghost predicate AllHeld(known: map<Path, Target>, disk: Disk) {
    forall path :: path in known ==> LinesAt(ContentOf(disk), path) == known[path].content
  }

  lemma NothingSoFar(cfg: Config, known: map<Path, Target>, disk: Disk)
    ensures SoFar(known, disk, disk, {}) && FirstPart(cfg, known.Keys, {})
  {
    hide ContentOf, LinesAt;
  }

  lemma SoFarAt(known: map<Path, Target>, start: Disk, now: Disk, done: set<Path>, path: Path)
    requires done <= known.Keys && SoFar(known, start, now, done) && path in known && path !in done
    ensures MtimeOf(now, path) == MtimeOf(start, path)
    ensures LinesAt(ContentOf(now), path) != known[path].content ==> !AllHeld(known, start)
  {
    hide ContentOf, LinesAt, MtimeOf;
  }

  lemma SoFarKept(known: map<Path, Target>, start: Disk, now: Disk, done: set<Path>, path: Path)
    requires done <= known.Keys && SoFar(known, start, now, done) && path in known && path !in done
    requires LinesAt(ContentOf(now), path) == known[path].content
    ensures SoFar(known, start, now, done + {path})
  {
    hide ContentOf, LinesAt, MtimeOf, AllHeld;
  }

  lemma SoFarWritten(known: map<Path, Target>, start: Disk, before: Disk, now: Disk, done: set<Path>, path: Path)
    requires done <= known.Keys && SoFar(known, start, before, done) && path in known && path !in done && !AllHeld(known, start)
    requires LinesAt(ContentOf(now), path) == known[path].content && MtimeOf(before, path) == known[path].mtime
    requires forall q :: q != path ==> LinesAt(ContentOf(now), q) == LinesAt(ContentOf(before), q) && MtimeOf(now, q) == MtimeOf(before, q)
    ensures SoFar(known, start, now, done + {path})
  {
    hide ContentOf, LinesAt, MtimeOf, AllHeld;
  }

  lemma SoFarGives(known: map<Path, Target>, start: Disk, now: Disk, done: set<Path>)
    requires done <= known.Keys && SoFar(known, start, now, done)
    ensures forall path :: LinesAt(ContentOf(now), path) == if path in done then known[path].content else LinesAt(ContentOf(start), path)
    ensures forall path :: path in done ==> known[path].mtime == MtimeOf(start, path) || LinesAt(ContentOf(start), path) == known[path].content
    ensures (forall path :: path in known ==> LinesAt(ContentOf(start), path) == known[path].content) ==> AllHeld(known, start) && now == start
  {
    hide ContentOf, LinesAt, MtimeOf;
  }

  class Store {
    var disk: Disk
    var base: map<string, SyncBase>
    var clock: nat

    ghost predicate Valid()
      reads this
    {
      && (forall path :: path in disk ==> 1 <= disk[path].mtime <= clock)
      && (forall id :: id in base ==> base[id].id == id)
    }

    /** The lock is held from the check to the rename, so this is one step. */
    method WriteGuarded(path: Path, data: seq<Line>, expected: nat) returns (ok: bool)
      requires Valid()
      modifies this`disk, this`clock
      ensures Valid()
      ensures ok <==> MtimeOf(old(disk), path) == expected
      ensures ok ==> clock == old(clock) + 1 && disk == old(disk)[path := File(clock, data)]
      ensures !ok ==> disk == old(disk) && clock == old(clock)
    {
      ok := MtimeOf(disk, path) == expected;
      if ok {
        clock := clock + 1;
        disk := disk[path := File(clock, data)];
      }
    }

    /** CommitSyncState: all upserts, then all deletes, in one transaction. */
    method CommitSyncState(upserts: seq<SyncBase>, deletes: seq<string>)
      requires Valid()
      modifies this`base
      ensures Valid()
      ensures forall id :: Lookup(base, id) ==
                if id in deletes then None
                else if RowsFor(upserts, id).Some? then RowsFor(upserts, id) else Lookup(old(base), id)
    {
      var next := base;
      for i := 0 to |upserts|
        invariant forall id :: id in next ==> next[id].id == id
        invariant forall id :: Lookup(next, id) ==
                    if RowsFor(upserts[..i], id).Some? then RowsFor(upserts[..i], id) else Lookup(base, id)
      {
        assert upserts[..i + 1][..i] == upserts[..i];
        next := next[upserts[i].id := upserts[i]];
      }
      assert upserts[..|upserts|] == upserts;
      base := map id | id in next && id !in deletes :: next[id];
    }

    /** Only files of the sync: every projection file belongs to a configured project. */
    ghost predicate Managed(cfg: Config)
      reads this
    {
      cfg.Valid() && forall path: Path :: path in disk && path.ProjFile? ==> exists project :: project in cfg.fileOf && path == ProjFile(cfg.fileOf[project])
    }

    /**
     The write loop, in the order of the paths, cut off after some writes or refused by the guard: the first part of the files
     holds its targets, the others are untouched, and a file that holds its target already is not written.
     */
    method WriteTargets(cfg: Config, known: map<Path, Target>, cut: nat) returns (r: WriteResult, ghost done: set<Path>)
      requires Valid()
      modifies this`disk, this`clock
      ensures Valid() && FirstPart(cfg, known.Keys, done) && (r.AllWritten? ==> done == known.Keys)
      ensures forall path :: LinesAt(ContentOf(disk), path) ==
                if path in done then known[path].content else LinesAt(ContentOf(old(disk)), path)
      ensures r.Refused? ==> r.path in known && r.path !in done && known[r.path].mtime != MtimeOf(old(disk), r.path)
                             && forall q :: q in known && Earlier(cfg, q, r.path) ==> q in done
      ensures r.AllWritten? ==> forall path :: path in known ==>
                known[path].mtime == MtimeOf(old(disk), path) || LinesAt(ContentOf(old(disk)), path) == known[path].content
      ensures (forall path :: path in known ==> LinesAt(ContentOf(old(disk)), path) == known[path].content) ==>
                r.AllWritten? && disk == old(disk)
    {
      hide Earlier, SoFar, SyncPaths.InOrder, FirstPart;
      var paths := SortedPaths(cfg, known.Keys);
      done := {};
      var writes := 0;
      NothingSoFar(cfg, known, disk);
      for i := 0 to |paths|
        invariant Valid() && FirstPart(cfg, known.Keys, done) && forall x :: x in done <==> x in paths[..i]
        invariant done <= known.Keys && SoFar(known, old(disk), disk, done)
      {
        var path := paths[i];
        NextPart(cfg, known.Keys, paths, done, i);
        if LinesAt(ContentOf(disk), path) != known[path].content {
          SoFarAt(known, old(disk), disk, done, path);
          if writes == cut {
            SoFarGives(known, old(disk), disk, done);
            return Interrupted, done;
          }
          ghost var before := disk;
          var ok := WriteGuarded(path, known[path].content, known[path].mtime);
          if !ok {
            SoFarGives(known, old(disk), disk, done);
            return Refused(path), done;
          }
          OnlyThere(before, disk, path, File(clock, known[path].content));
          SoFarWritten(known, old(disk), before, disk, done, path);
          writes := writes + 1;
        } else {
          SoFarKept(known, old(disk), disk, done, path);
        }
        done := done + {path};
      }
      assert paths[..|paths|] == paths;
      SoFarGives(known, old(disk), disk, done);
      r := AllWritten;
    }

    /** Gather: the canon map, the projection map and the state of every file read. */
    method Gather(cfg: Config, mint: nat -> string)
      returns (r: Result<(States, States), ParseError>, g: Gathered, ghost numbers: map<Slot, nat>, ghost drawn: nat)
      requires Valid() && cfg.Valid()
      ensures r.Ok? ==> Keyed(g) && g.base == base && GathersCanon(ContentOf(disk), g.canon)
      ensures r.Ok? ==> ReadFrom(disk, CanonPathsOn(disk), r.value.0) && ReadFrom(disk, ProjPathsOf(cfg), r.value.1)
      ensures r.Ok? && NothingMinted(cfg, ContentOf(disk)) ==> Gathers(cfg, ContentOf(disk), g)
      ensures r.Ok? && Unseen(mint, drawn, cfg, ContentOf(disk), base) ==> AllDrawn(cfg, ContentOf(disk), mint, drawn, numbers, g)
    {
      hide ReadFrom, HeldIn, LastIn, Projected, GathersCanon, GathersProj, TasksIn, Unused, Unseen, AllDrawn, Entered, Nameless, Skipped,
           NothingMinted, IsTag;
      g, numbers, drawn := Gathered(map[], map[], base), map[], 0;
      var canonFiles := GatherFiles(disk, CanonPathsOn(disk));
      if canonFiles.Err? {
        return Err(canonFiles.error), g, numbers, drawn;
      }
      var projFiles := GatherFiles(disk, ProjPathsOf(cfg));
      if projFiles.Err? {
        return Err(projFiles.error), g, numbers, drawn;
      }
      var canon := CollectCanon(canonFiles.value);
      var proj;
      proj, numbers, drawn := CollectProj(cfg, projFiles.value, mint);
      g := Gathered(canon, proj, base);
      CanonGathered(disk, canonFiles.value, canon);
      if NothingMinted(cfg, ContentOf(disk)) {
        ProjGathered(cfg, disk, projFiles.value, mint, proj);
      }
      if Unseen(mint, drawn, cfg, ContentOf(disk), base) {
        UnseenIsUnused(mint, drawn, cfg, disk, projFiles.value, base);
        DrawnAtEnd(cfg, disk, projFiles.value, mint, drawn, numbers, g);
      }
      r := Ok((canonFiles.value, projFiles.value));
    }

    /** Decide, route and render: every file that must be looked at, with the lines it should hold. */
    method PlanTargets(cfg: Config, g: Gathered, canonFiles: States, projFiles: States, less: LineOrder)
      returns (known: map<Path, Target>, plan: Plan, ghost ids: seq<string>)
      requires Valid() && Managed(cfg) && Keyed(g)
      requires ReadFrom(disk, CanonPathsOn(disk), canonFiles) && ReadFrom(disk, ProjPathsOf(cfg), projFiles)
      ensures Aimed(cfg, g, less, disk, known)
      ensures forall path :: path !in known ==> !IsWanted(cfg, g, path) && (Skipped(path) || path !in disk)
      ensures forall path :: path in known && Skipped(path) ==> IsWanted(cfg, g, path)
      ensures (forall id :: id in ids <==> id in IdsOf(g)) && plan == PlanOf(Verdicts(g, cfg.Synced(), ids))
    {
      hide DesiredAt, PlanOf, Verdicts, Sent, SentOwn, ReadFrom, Flatten, IdsOf, Keyed, TasksIn, AimedAt, Skipped, Known, OwnTasks, Own,
           IsTag, IsWanted;
      var sorted: seq<string>;
      plan, sorted := Decide(g.canon, g.proj, g.base, cfg.Synced());
      ids := sorted;
      var canonByPath, projByPath := RenderTargets(cfg, plan);
      PlanOwnTasks(Verdicts(g, cfg.Synced(), ids));
      PlanHasTasks(Verdicts(g, cfg.Synced(), ids));
      CanonSide(cfg, g, ids, canonByPath);
      ProjSide(cfg, g, ids, projByPath);
      KeysOf(disk, CanonPathsOn(disk), canonFiles);
      KeysOf(disk, ProjPathsOf(cfg), projFiles);
      SideKnown(cfg, g, disk, canonByPath, true, CanonPathsOn(disk), canonFiles);
      ProjOnDisk(cfg, disk);
      SideKnown(cfg, g, disk, projByPath, false, ProjPathsOf(cfg), projFiles);
      var knownCanon := BuildTargets(cfg, g, disk, canonFiles, OnSide(canonByPath, true), less);
      var knownProj := BuildTargets(cfg, g, disk, projFiles, OnSide(projByPath, false), less);
      known := knownCanon + knownProj;
      AimedBoth(cfg, g, less, disk, knownCanon, knownProj);
      forall path
        ensures path !in known ==> !IsWanted(cfg, g, path) && (Skipped(path) || path !in disk)
        ensures path in known && Skipped(path) ==> IsWanted(cfg, g, path)
      {
        SideWanted(cfg, g, disk, if path.CanonFile? then canonByPath else projByPath, path);
      }
    }

    /**
     One pass without interference, cut off after some file writes or aborted by the guard. The first part of the files holds
     the wanted lines and the others are untouched; the base is committed only when every file was written. Only a file that
     the scan skips is ever refused. After a settled pass without conflict a further one changes nothing.
     */
    method ReconcileOnce(cfg: Config, less: LineOrder, mint: nat -> string, cut: nat)
      returns (r: PassResult, ghost g: Gathered, ghost done: set<Path>, ghost numbers: map<Slot, nat>, ghost drawn: nat)
      requires Valid() && Managed(cfg)
      modifies this
      ensures Valid()
      ensures r.Failed? ==> disk == old(disk) && base == old(base)
      ensures !r.Failed? ==> Keyed(g) && g.base == old(base) && GathersCanon(ContentOf(old(disk)), g.canon)
      ensures !r.Failed? && NothingMinted(cfg, ContentOf(old(disk))) ==> Gathers(cfg, ContentOf(old(disk)), g)
      ensures !r.Failed? && Unseen(mint, drawn, cfg, ContentOf(old(disk)), old(base)) ==>
                AllDrawn(cfg, ContentOf(old(disk)), mint, drawn, numbers, g)
      ensures !r.Failed? ==> Partial(cfg, g, ContentOf(old(disk)), ContentOf(disk), done)
      ensures r.CutOff? || r.Aborted? ==> base == old(base)
      ensures r.Aborted? ==> Skipped(r.path) && r.path in old(disk) && IsWanted(cfg, g, r.path) && r.path !in done
      ensures r.Aborted? ==> forall q :: (IsWanted(cfg, g, q) || (q in old(disk) && !Skipped(q))) && Earlier(cfg, q, r.path) ==> q in done
      ensures r.Done? ==> Written(cfg, g, ContentOf(disk)) && Committed(cfg, g, base) && forall path :: IsWanted(cfg, g, path) ==> path in done
      ensures r.Done? ==> forall path :: path in old(disk) && Skipped(path) && IsWanted(cfg, g, path) ==>
                            WrittenAt(cfg, g, ContentOf(old(disk)), path)
      ensures r.Done? ==> forall path :: !Skipped(path) ==>
                            RenderedOver(cfg, g, less, ContentOf(old(disk)), path, LinesAt(ContentOf(disk), path))
      ensures !r.Failed? ==> Happened(cfg, Pass(g, ContentOf(old(disk)), ContentOf(disk), r.Done?, done, base))
      ensures r.Done? && Calm(cfg, less, g) ==> Quiet(cfg, less, ContentOf(disk), base)
      ensures Quiet(cfg, less, ContentOf(old(disk)), old(base)) ==> disk == old(disk) && base == old(base) && (r.Done? || r.Failed?)
    {
      hide WantsLine, Gathers, GathersCanon, Keyed, Aimed, AimedAt, ReadFrom, Quiet, Rendered, RenderedFrom, RenderedOver, DesiredAt, TasksIn,
           NothingMinted, Calm, Committed, Unseen, AllDrawn, IsWanted, Skipped, FirstPart, Earlier, WrittenAt, KeepsOrder, Happened, IsTag;
      done := {};
      var files, gathered;
      files, gathered, numbers, drawn := Gather(cfg, mint);
      g := gathered;
      if files.Err? {
        return Failed(files.error), g, done, numbers, drawn;
      }
      var known, plan, ids := PlanTargets(cfg, gathered, files.value.0, files.value.1, less);
      AimedMtimes(cfg, g, less, disk, known);
      if Quiet(cfg, less, ContentOf(disk), base) {
        QuietTargets(cfg, less, disk, base, g, known);
      }
      var written;
      written, done := WriteTargets(cfg, known, cut);
      TargetsWritten(cfg, g, less, old(disk), disk, known, done);
      if !written.AllWritten? {
        PassHappened(cfg, g, old(disk), disk, false, done, base);
        if written.Interrupted? {
          return CutOff, g, done, numbers, drawn;
        }
        return Aborted(written.path), g, done, numbers, drawn;
      }
      CommitSyncState(plan.baseUpserts, plan.baseDeletes);
      CommittedBase(cfg, g, ids, base);
      AllRendered(cfg, g, less, old(disk), disk, known);
      SkippedHeld(cfg, g, less, old(disk), known);
      PassHappened(cfg, g, old(disk), disk, true, done, base);
      if Calm(cfg, less, g) {
        CalmIsQuiet(cfg, less, g, ContentOf(old(disk)), ContentOf(disk), base);
      }
      if Quiet(cfg, less, ContentOf(old(disk)), old(base)) {
        QuietBase(cfg, less, old(disk), old(base), g, ids, base);
      }
      r := PassResult.Done;
    }
  }

  lemma OnlyThere(before: Disk, after: Disk, path: Path, file: File)
    requires after == before[path := file]
    ensures LinesAt(ContentOf(after), path) == file.lines
    ensures forall q :: q != path ==> LinesAt(ContentOf(after), q) == LinesAt(ContentOf(before), q) && MtimeOf(after, q) == MtimeOf(before, q)
  {
  }

  function OnSide(targets: Targets, canonSide: bool): Targets {
    map path | path in targets && path.CanonFile? == canonSide :: targets[path]
  }

  lemma ProjOnDisk(cfg: Config, disk: Disk)
    requires forall path: Path :: path in disk && path.ProjFile? ==> exists project :: project in cfg.fileOf && path == ProjFile(cfg.fileOf[project])
    ensures forall path: Path :: path in disk && path.ProjFile? && !Skipped(path) ==> path in ProjPathsOf(cfg)
  {
    hide Skipped;
    forall path: Path | path in disk && path.ProjFile? && !Skipped(path)
      ensures path in ProjPathsOf(cfg)
    {
      var project :| project in cfg.fileOf && path == ProjFile(cfg.fileOf[project]);
      assert Projects(cfg, project);
    }
  }

  /** Each side's targets are desired on the files of that side, over what is known of them. */
  lemma SideKnown(cfg: Config, g: Gathered, disk: Disk, targets: Targets, canonSide: bool, paths: set<Path>, states: States)
    requires forall path: Path :: path.CanonFile? == canonSide ==> DesiredAt(cfg, g, path, TasksFor(targets, path))
    requires forall path: Path :: path in paths ==> path.CanonFile? == canonSide && !Skipped(path)
    requires forall path: Path :: path in disk && path.CanonFile? == canonSide && !Skipped(path) ==> path in paths
    requires ReadFrom(disk, paths, states)
    ensures forall path :: path in states.Keys + OnSide(targets, canonSide).Keys ==>
              Known(disk, states, path) && DesiredAt(cfg, g, path, TasksFor(OnSide(targets, canonSide), path))
  {
    hide DesiredAt, Skipped, Known, ReadFrom;
    KeysOf(disk, paths, states);
    forall path | path in states.Keys + OnSide(targets, canonSide).Keys
      ensures Known(disk, states, path) && DesiredAt(cfg, g, path, TasksFor(OnSide(targets, canonSide), path))
    {
      assert TasksFor(OnSide(targets, canonSide), path) == TasksFor(targets, path);
      ScannedIsKnown(disk, paths, states, path);
    }
  }

  /** A path has tasks sent to it exactly if it is wanted. */
  lemma SideWanted(cfg: Config, g: Gathered, disk: Disk, targets: Targets, path: Path)
    requires DesiredAt(cfg, g, path, TasksFor(targets, path)) && [] !in targets.Values
    ensures path in targets <==> IsWanted(cfg, g, path)
  {
    hide Wants, KeepsVerdictOrder;
    if path in targets {
      assert targets[path] in targets.Values;
      assert targets[path][0] in TasksFor(targets, path);
    }
    if IsWanted(cfg, g, path) {
      var id, t :| Wants(cfg, g, path, id, t);
      assert t in TasksFor(targets, path);
    }
  }

  lemma AimedBoth(cfg: Config, g: Gathered, less: LineOrder, disk: Disk, a: map<Path, Target>, b: map<Path, Target>)
    requires Aimed(cfg, g, less, disk, a) && Aimed(cfg, g, less, disk, b)
    ensures Aimed(cfg, g, less, disk, a + b)
  {
    hide AimedAt;
  }

  lemma CanonSide(cfg: Config, g: Gathered, ids: seq<string>, byPath: Targets)
    requires Keyed(g) && Order.Ascending(ids) && forall id :: id in ids <==> id in IdsOf(g)
    requires var m := PlanOf(Verdicts(g, cfg.Synced(), ids)).canonByProject; var paths := CanonPaths(m.Keys);
      && (forall path, t :: t in TasksFor(byPath, path) <==> Sent(m, paths, {}, path, t))
      && forall path, id, project :: Own(TasksFor(byPath, path), id, project) == SentOwn(m, paths, {}, path, id, project)
    ensures forall path: Path :: path.CanonFile? ==> DesiredAt(cfg, g, path, TasksFor(byPath, path))
  {
    hide PlanOf, Verdicts, Sent, SentOwn, IdsOf, DesiredAt, Own, Keyed;
    forall path: Path | path.CanonFile?
      ensures DesiredAt(cfg, g, path, TasksFor(byPath, path))
    {
      CanonTargetIsWanted(cfg, g, ids, path, TasksFor(byPath, path));
    }
  }

  lemma ProjSide(cfg: Config, g: Gathered, ids: seq<string>, byPath: Targets)
    requires Keyed(g) && Order.Ascending(ids) && forall id :: id in ids <==> id in IdsOf(g)
    requires var m := PlanOf(Verdicts(g, cfg.Synced(), ids)).projByProject; var paths := ProjPaths(cfg, m.Keys);
      && (forall path, t :: t in TasksFor(byPath, path) <==> Sent(m, paths, {}, path, t))
      && forall path, id, project :: Own(TasksFor(byPath, path), id, project) == SentOwn(m, paths, {}, path, id, project)
    ensures forall path: Path :: path.ProjFile? ==> DesiredAt(cfg, g, path, TasksFor(byPath, path))
  {
    hide PlanOf, Verdicts, Sent, SentOwn, IdsOf, DesiredAt, Own, Keyed;
    forall path: Path | path.ProjFile?
      ensures DesiredAt(cfg, g, path, TasksFor(byPath, path))
    {
      ProjTargetIsWanted(cfg, g, ids, path, TasksFor(byPath, path));
    }
  }

  lemma AimedMtimes(cfg: Config, g: Gathered, less: LineOrder, disk: Disk, known: map<Path, Target>)
    requires Aimed(cfg, g, less, disk, known)
    ensures forall path :: path in known && known[path].mtime != MtimeOf(disk, path) ==> Skipped(path) && path in disk
  {
    hide RenderedOver, Skipped;
    forall path | path in known
      ensures known[path].mtime == KnownMtime(disk, path)
    {
      assert AimedAt(cfg, g, less, disk, path, known[path]);
    }
  }

  /** A file that holds its target holds the wanted lines. */
  lemma TargetsWritten(cfg: Config, g: Gathered, less: LineOrder, before: Disk, after: Disk, known: map<Path, Target>,
                       done: set<Path>)
    requires Aimed(cfg, g, less, before, known) && FirstPart(cfg, known.Keys, done)
    requires forall path :: path !in known ==> !IsWanted(cfg, g, path)
    requires forall path :: LinesAt(ContentOf(after), path) ==
               if path in done then known[path].content else LinesAt(ContentOf(before), path)
    ensures Partial(cfg, g, ContentOf(before), ContentOf(after), done)
  {
    hide AimedAt, WrittenAt, Rendered, RenderedOver, IsWanted, Earlier;
    forall path
      ensures if path in done then WrittenAt(cfg, g, ContentOf(after), path)
              else LinesAt(ContentOf(after), path) == LinesAt(ContentOf(before), path)
    {
      if path in done {
        AimedIsRendered(cfg, g, less, before, path, known[path]);
        RenderedIsWritten(cfg, g, less, ContentOf(after), path);
      }
    }
  }

  /** After a complete pass every file that is read is as rendered over what it was. */
  lemma AllRendered(cfg: Config, g: Gathered, less: LineOrder, before: Disk, after: Disk, known: map<Path, Target>)
    requires Aimed(cfg, g, less, before, known)
    requires forall path :: path !in known ==> !IsWanted(cfg, g, path) && (Skipped(path) || path !in before)
    requires forall path :: LinesAt(ContentOf(after), path) ==
               if path in known then known[path].content else LinesAt(ContentOf(before), path)
    ensures forall path :: !Skipped(path) ==> RenderedOver(cfg, g, less, ContentOf(before), path, LinesAt(ContentOf(after), path))
    ensures forall path :: !Skipped(path) ==> Rendered(cfg, g, less, path, LinesAt(ContentOf(after), path))
    ensures Written(cfg, g, ContentOf(after))
  {
    hide AimedAt, WrittenAt, Rendered, RenderedOver, IsWanted, Skipped;
    forall path: Path | !Skipped(path)
      ensures RenderedOver(cfg, g, less, ContentOf(before), path, LinesAt(ContentOf(after), path))
      ensures Rendered(cfg, g, less, path, LinesAt(ContentOf(after), path)) && WrittenAt(cfg, g, ContentOf(after), path)
    {
      if path in known {
        AimedIsRendered(cfg, g, less, before, path, known[path]);
      } else {
        AbsentFile(before, path);
        NothingRendered(cfg, g, less, before, path);
      }
      RenderedIsWritten(cfg, g, less, ContentOf(after), path);
    }
  }

  /** A pass that was not refused found every wanted file that the scan skips absent, or holding what is wanted. */
  lemma SkippedHeld(cfg: Config, g: Gathered, less: LineOrder, before: Disk, known: map<Path, Target>)
    requires Aimed(cfg, g, less, before, known) && forall path :: path in before ==> before[path].mtime >= 1
    requires forall path :: path !in known ==> !IsWanted(cfg, g, path)
    requires forall path :: path in known ==> known[path].mtime == MtimeOf(before, path) || LinesAt(ContentOf(before), path) == known[path].content
    ensures forall path :: path in before && Skipped(path) && IsWanted(cfg, g, path) ==> WrittenAt(cfg, g, ContentOf(before), path)
  {
    hide WrittenAt, RenderedOver, Rendered, IsWanted, Skipped;
    forall path | path in before && Skipped(path) && IsWanted(cfg, g, path)
      ensures WrittenAt(cfg, g, ContentOf(before), path)
    {
      assert AimedAt(cfg, g, less, before, path, known[path]);
      AimedIsRendered(cfg, g, less, before, path, known[path]);
      RenderedIsWritten(cfg, g, less, ContentOf(before), path);
    }
  }

  lemma PassHappened(cfg: Config, g: Gathered, before: Disk, after: Disk, complete: bool, done: set<Path>,
                     base: map<string, SyncBase>)
    requires GathersCanon(ContentOf(before), g.canon) && Keyed(g)
    requires Partial(cfg, g, ContentOf(before), ContentOf(after), done)
    requires if complete then Written(cfg, g, ContentOf(after)) && Committed(cfg, g, base) else base == g.base
    ensures Happened(cfg, Pass(g, ContentOf(before), ContentOf(after), complete, done, base))
  {
    hide GathersCanon, Committed, Keyed, WrittenAt, Skipped, KeepsOrder;
  }

  lemma CalmIsQuiet(cfg: Config, less: LineOrder, g: Gathered, before: Files, files: Files, base: map<string, SyncBase>)
    requires Calm(cfg, less, g) && Committed(cfg, g, base)
    requires forall path :: !Skipped(path) ==> RenderedOver(cfg, g, less, before, path, LinesAt(files, path))
    ensures Quiet(cfg, less, files, base)
  {
    hide Calm, Committed, RenderedFrom, Skipped, TasksIn;
    assert LeftBy(cfg, less, g, files, base);
  }

  /** What a settled pass left carries an id on every line that is read. */
  lemma QuietMintsNothing(cfg: Config, less: LineOrder, g: Gathered, files: Files, base: map<string, SyncBase>)
    requires LeftBy(cfg, less, g, files, base)
    ensures NothingMinted(cfg, files)
  {
    LeftIsWritten(cfg, less, g, files, base);
    hide Canon, ReadLine, AllSettled, ConflictFree, AllReadAgain, StrictTotal, Rendered, WantsLine, Wants, Alike, Committed, Skipped, IsTag;
    forall project, t | Projects(cfg, project) && Reads(files, ProjFile(cfg.fileOf[project]), t)
      ensures t.id != ""
    {
      var path := ProjFile(cfg.fileOf[project]);
      var line :| line in LinesAt(files, path) && ReadLine(line) == Some(t);
      assert WrittenAt(cfg, g, files, path);
      var id, u := WantedLineReads(cfg, g, path, line);
      WantedId(cfg, g, path, id, u);
      AlikeIds(u, t);
    }
  }

  /** Over such files every target is the file itself. */
  lemma QuietTargets(cfg: Config, less: LineOrder, disk: Disk, base: map<string, SyncBase>, g: Gathered, known: map<Path, Target>)
    requires Quiet(cfg, less, ContentOf(disk), base) && g.base == base && Aimed(cfg, g, less, disk, known)
    requires NothingMinted(cfg, ContentOf(disk)) ==> Gathers(cfg, ContentOf(disk), g)
    requires forall path :: path in known && Skipped(path) ==> IsWanted(cfg, g, path)
    ensures forall path :: path in known ==> LinesAt(ContentOf(disk), path) == known[path].content
  {
    hide RenderedFrom, TasksIn, Gathers, NothingMinted, LeftBy, Skipped, IsWanted;
    var first :| LeftBy(cfg, less, first, ContentOf(disk), base);
    QuietMintsNothing(cfg, less, first, ContentOf(disk), base);
    forall path | path in known
      ensures LinesAt(ContentOf(disk), path) == known[path].content
    {
      assert AimedAt(cfg, g, less, disk, path, known[path]);
      if Skipped(path) {
        QuietWantsNoSkipped(cfg, less, first, ContentOf(disk), g, path);
      } else {
        QuietContent(cfg, less, first, ContentOf(disk), g, path, PriorAt(ContentOf(disk), path).value, known[path].content);
      }
    }
  }

  lemma QuietWantsNoSkipped(cfg: Config, less: LineOrder, first: Gathered, files: Files, g: Gathered, path: Path)
    requires LeftBy(cfg, less, first, files, g.base) && Gathers(cfg, files, g) && IsWanted(cfg, g, path)
    ensures !Skipped(path)
  {
    QuietVerdicts(cfg, less, first, files, g);
    WantedToo(cfg, g, first, path);
    hide ResolveAt, Gathers, AlikeOutcome, LeftBy;
    var id, t :| Wants(cfg, first, path, id, t);
    WantedIsReadAgain(cfg, first, path, id, t);
  }

  lemma WantedIsReadAgain(cfg: Config, g: Gathered, path: Path, id: string, t: Task)
    requires AllReadAgain(cfg, g) && Wants(cfg, g, path, id, t)
    ensures !Skipped(path)
  {
    hide Resolve, Skipped, Flatten;
    assert ReadAgain(cfg, ResolveAt(g, cfg.Synced(), id));
  }

  /** And the commit has nothing to do. */
  lemma QuietBase(cfg: Config, less: LineOrder, disk: Disk, before: map<string, SyncBase>, g: Gathered, ids: seq<string>,
                  base: map<string, SyncBase>)
    requires Quiet(cfg, less, ContentOf(disk), before) && g.base == before && Committed(cfg, g, base)
    requires NothingMinted(cfg, ContentOf(disk)) ==> Gathers(cfg, ContentOf(disk), g)
    ensures base == before
  {
    var first :| LeftBy(cfg, less, first, ContentOf(disk), before);
    QuietMintsNothing(cfg, less, first, ContentOf(disk), before);
    LeftIsWritten(cfg, less, first, ContentOf(disk), before);
    hide ResolveAt, AllSettled, ConflictFree, AllReadAgain, Gathers, Written, Rendered, NothingMinted, StrictTotal, Skipped;
    forall id
      ensures Lookup(base, id) == Lookup(before, id)
    {
      KeptRow(cfg, first, ContentOf(disk), g, id);
      assert Lookup(base, id) == ApplyOp(Lookup(g.base, id), ResolveAt(g, cfg.Synced(), id).base);
    }
    SameMap(base, before);
  }

  lemma KeptRow(cfg: Config, first: Gathered, files: Files, g: Gathered, id: string)
    requires cfg.Valid() && AllSettled(cfg, first) && ConflictFree(cfg, first) && AllReadAgain(cfg, first) && Written(cfg, first, files)
    requires Gathers(cfg, files, g) && Committed(cfg, first, g.base)
    ensures ResolveAt(g, cfg.Synced(), id).base == Keep
  {
    hide ResolveAt, AllSettled, ConflictFree, Gathers, Written, Committed, ReadAgain;
    NothingKnown(g, cfg.Synced(), id);
    if id in IdsOf(g) {
      NoNewIds(cfg, first, files, g, id);
      OnePassConverges(cfg, first, files, g, id);
    }
  }

  lemma SameMap(a: map<string, SyncBase>, b: map<string, SyncBase>)
    requires forall id :: Lookup(a, id) == Lookup(b, id)
    ensures a == b
  {
    forall id
      ensures id in a <==> id in b
      ensures id in a ==> a[id] == b[id]
    {
      assert Lookup(a, id) == Lookup(b, id);
    }
  }
}
