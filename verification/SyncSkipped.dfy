/**
 Tasks in files that no scan reads (internal/sync/reconcile.go:263-304, 342-384): renderTargets writes a file
 named like a conflict copy, and every gather skips it.
 */
module SyncSkipped {
  import opened Common
  import opened TaskLine
  import opened TaskLineLaws
  import opened SyncEngine
  import opened SyncTask
  import opened SyncPaths
  import opened SyncPass
  import opened SyncRecovery
  import opened SyncMoves
  import Order

  // ----- the name -----

  lemma {:induction false} LowerIsFixed(s: string)
    requires forall i :: 0 <= i < |s| ==> LowerChar(s[i]) == s[i]
    ensures Lower(s) == s
  {
    if s != [] {
      LowerIsFixed(s[1..]);
    }
  }

  lemma {:induction false} DashedIsFixed(s: string)
    requires '/' !in s
    ensures Dashed(s) == s
  {
    if s != [] {
      DashedIsFixed(s[1..]);
    }
  }

  /** The tag that Decide puts on a conflict names such a file. */
  lemma ConflictTagIsSkipped()
    ensures Flatten(SYNC_CONFLICT_TAG) == SYNC_CONFLICT_TAG && Skipped(CanonFile(Flatten(SYNC_CONFLICT_TAG)))
  {
    hide Lower, Dashed, Contains;
    DashedIsFixed(SYNC_CONFLICT_TAG);
    LowerIsFixed(SYNC_CONFLICT_TAG);
    assert Contains(SYNC_CONFLICT_TAG, "sync-conflict") by { ContainsItself(SYNC_CONFLICT_TAG); }
  }

  lemma ContainsItself(s: string)
    ensures Contains(s, s)
  {
  }

  // ----- a complete pass -----

  /** The pass keeps the task in a file that is not read again. */
  ghost predicate PutAway(cfg: Config, g: Gathered, id: string) {
    var canon := ResolveAt(g, cfg.Synced(), id).canon;
    canon != [] && Skipped(Home(canon[0]))
  }

  /** After the pass that put it away, the next one does not know the task in canon, and takes its line from both sides. */
  lemma PutAwayIsDropped(cfg: Config, g: Gathered, files: Files, g': Gathered, id: string)
    requires cfg.Valid() && AllSettled(cfg, g) && ConflictFree(cfg, g) && Written(cfg, g, files)
    requires Gathers(cfg, files, g') && Committed(cfg, g, g'.base) && id in IdsOf(g) && PutAway(cfg, g, id)
    ensures id !in g'.canon && ResolveAt(g', cfg.Synced(), id).canon == [] && ResolveAt(g', cfg.Synced(), id).proj == []
  {
    hide Canon, Resolve, AlikeOption, Rests, ApplyOp, FoundProj, Gathers, Written, AllSettled, GathersCanon, GathersProj, Skipped, Flatten;
    assert GathersCanon(files, g'.canon) && GathersProj(cfg, files, g'.proj) by {
      GathersBoth(cfg, files, g');
    }
    WrittenCanon(cfg, g, files, g', id);
    WrittenProj(cfg, g, files, g', id);
    var o := ResolveAt(g, cfg.Synced(), id);
    ProjectsAreSynced(cfg, g, id);
    VerdictRests(id, Lookup(g.canon, id), Lookup(g.proj, id), Lookup(g.base, id), cfg.Synced());
    assert Lookup(g'.base, id) == ApplyOp(Lookup(g.base, id), o.base);
    assert Lookup(g'.canon, id).None? by {
      assert FoundCanon(o) == None;
      NotFound(Lookup(g'.canon, id));
    }
    DroppedVerdict(cfg, id, o, Lookup(g'.base, id), Lookup(g'.proj, id));
  }

  lemma NotFound(found: Option<Task>)
    requires AlikeOption(None, found)
    ensures found == None
  {
  }

  lemma DroppedVerdict(cfg: Config, id: string, o: Outcome, b: Option<SyncBase>, p': Option<Task>)
    requires Rests(o, b, cfg.Synced()) && o.canon != [] && AlikeOption(FoundProj(cfg, o), p')
    ensures Resolve(id, None, p', b, cfg.Synced()).canon == [] && Resolve(id, None, p', b, cfg.Synced()).proj == []
  {
    hide Canon, Skipped;
  }

  // ----- a pass that the guard refuses -----

  /**
   Once the files in which the task stood are rewritten, every retry misses it in canon: whether the file it belongs into was
   written or the guard refused it. Without a base row a projection line brings it back; otherwise it is gone on both sides.
   */
  lemma PutAwayIsLost(cfg: Config, g: Gathered, files: Files, files': Files, done: set<Path>, g': Gathered, id: string)
    requires Sound(cfg, g, files) && Retried(cfg, g, files, files', done, g') && id in g.canon && PutAway(cfg, g, id)
    requires forall path :: StandsIn(files, path, g.canon[id]) ==> path in done
    ensures id !in g'.canon
    ensures SameAt(cfg, g, g', id) <==> id !in g.base && id in g'.proj && g.canon[id].project in cfg.fileOf
    ensures ResolveAt(g', cfg.Synced(), id).canon == [] <==> id in g.base || id !in g'.proj
  {
    hide Canon, Resolve, Sound, Partial, Gathers, Recovers, SettledEntries, OldOrNew, InCanon, StandsIn, Flatten, Skipped;
    EntriesSettled(cfg, g, files, id);
    GathersBoth(cfg, files', g');
    if id in g'.canon {
      GatheredStands(files', g', id);
      NotScanned(cfg, g, files, files', done, id, g'.canon[id]);
    }
    ProjInterrupted(cfg, g, files, files', done, g', id);
    HalfMoveRecovers(id, g.canon[id], Lookup(g.proj, id), Lookup(g.base, id), cfg.Synced(), Lookup(g'.proj, id));
    MissingVerdict(id, Lookup(g'.proj, id), Lookup(g.base, id), cfg.Synced());
  }

  lemma MissingVerdict(id: string, p: Option<Task>, b: Option<SyncBase>, synced: set<string>)
    ensures Resolve(id, None, p, b, synced).canon == [] <==> b.Some? || p.None?
  {
    hide Canon;
  }

  lemma NotScanned(cfg: Config, g: Gathered, files: Files, files': Files, done: set<Path>, id: string, found: Task)
    requires Sound(cfg, g, files) && Partial(cfg, g, files, files', done) && id in g.canon && PutAway(cfg, g, id)
    requires forall path :: StandsIn(files, path, g.canon[id]) ==> path in done
    requires InCanon(files', found)
    ensures found.id != id
  {
    hide Canon, ResolveAt, Alike, AllSettled, ConflictFree, RowsStable, UniqueCanon, UniqueProj, Skipped, LastWith, Flatten,
         Reads, GathersProj, GathersCanon, WrittenAt, KeepsOrder;
    var path := CanonSource(files', found);
    if path in done {
      FoundWritten(cfg, g, files', path, found);
    } else {
      OldCanon(files, files', g, path, found);
    }
  }

  // ----- an input -----

  const EXAMPLE_ID := "qi-0000000a"
  const EXAMPLE_CONFIG := Config("/v", map[])

  /** "- [ ] w #sync-conflict ^qi-0000000a" */
  function ExampleTask(): Task {
    Task(EXAMPLE_ID, [Word("w"), Tag(SYNC_CONFLICT_TAG)], SYNC_CONFLICT_TAG, [SYNC_CONFLICT_TAG], None, None, [], "", "", false, None)
  }

  function ExampleFiles(): Files {
    map[CanonFile("inbox") := [Canon(ExampleTask())]]
  }

  function ExampleGather(): Gathered {
    Gathered(map[EXAMPLE_ID := ExampleTask()], map[], map[])
  }

  lemma ConflictTagIsTag()
    ensures IsTag(SYNC_CONFLICT_TAG) && IsQiId(EXAMPLE_ID)
  {
    assert !IsDigit(SYNC_CONFLICT_TAG[0]);
  }

  lemma ExampleTags()
    ensures TagsIn(ExampleTask().text) == [SYNC_CONFLICT_TAG]
  {
    var t := ExampleTask();
    assert t.text[1..] == [Tag(SYNC_CONFLICT_TAG)] && [Tag(SYNC_CONFLICT_TAG)][1..] == [];
    assert TagsIn([Tag(SYNC_CONFLICT_TAG)]) == [SYNC_CONFLICT_TAG];
  }

  lemma ExampleIsSettled()
    ensures Settled(ExampleTask()) && ReadBack(ExampleTask()) == ExampleTask()
  {
    hide IsTag, IsQiId, TagsIn, NewTags;
    ConflictTagIsTag();
    ExampleTags();
    var t := ExampleTask();
    NothingGained(t);
    assert t.text + [] == t.text;
  }

  lemma ExampleStands(path: Path, t: Task)
    ensures StandsIn(ExampleFiles(), path, t) <==> path == CanonFile("inbox") && t == ExampleTask()
    ensures Reads(ExampleFiles(), path, t) ==> path == CanonFile("inbox") && t == ExampleTask()
  {
    hide Canon, ReadBack, ExampleTask, IsSyncConflict, ReadLine;
    ExampleIsSettled();
    hide Settled;
    CanonOfSettled();
    ShortIsNoConflict("inbox");
    var line := Canon(ExampleTask());
    LastOfOne(line, t.id);
    if path != CanonFile("inbox") {
      assert LinesAt(ExampleFiles(), path) == [];
    } else {
      assert LinesAt(ExampleFiles(), path) == [line];
    }
  }

  lemma CanonOfSettled()
    ensures ReadLine(Canon(ExampleTask())) == Some(ExampleTask())
  {
    hide Canon, ReadLine, ExampleTask;
    ExampleIsSettled();
    CanonReadsBack(ExampleTask());
  }

  lemma LastOfOne(line: Line, id: string)
    ensures LastWith([], id) == None
    ensures LastWith([line], id) == if ReadLine(line).Some? && ReadLine(line).value.id == id then ReadLine(line) else None
  {
    hide ReadLine;
    assert [line][..0] == [];
  }

  lemma ExampleGathers()
    ensures Gathers(EXAMPLE_CONFIG, ExampleFiles(), ExampleGather())
    ensures UniqueCanon(ExampleFiles()) && UniqueProj(EXAMPLE_CONFIG, ExampleFiles())
  {
    hide Canon, ExampleFiles, ExampleTask, StandsIn, Reads;
    forall path, t
      ensures StandsIn(ExampleFiles(), path, t) <==> path == CanonFile("inbox") && t == ExampleTask()
      ensures Reads(ExampleFiles(), path, t) ==> path == CanonFile("inbox") && t == ExampleTask()
    {
      ExampleStands(path, t);
    }
    assert StandsIn(ExampleFiles(), CanonFile("inbox"), ExampleTask());
    ExampleHasId();
  }

  lemma ExampleHasId()
    ensures ExampleTask().id == EXAMPLE_ID && ExampleTask().project == SYNC_CONFLICT_TAG
  {
  }

  lemma ExampleIsSound()
    ensures Sound(EXAMPLE_CONFIG, ExampleGather(), ExampleFiles())
  {
    hide Canon, ExampleFiles, ExampleTask, Settled, Gathers, UniqueCanon, UniqueProj, Merge, Fresh;
    ExampleIsSettled();
    ExampleHasId();
    ExampleGathers();
  }

  lemma ExamplePutAway()
    ensures PutAway(EXAMPLE_CONFIG, ExampleGather(), EXAMPLE_ID)
  {
    hide Canon, Skipped;
    ConflictTagIsSkipped();
    hide Flatten;
  }

  lemma ExampleOrder()
    ensures Earlier(EXAMPLE_CONFIG, CanonFile("inbox"), CanonFile(Flatten(SYNC_CONFLICT_TAG)))
  {
    ConflictTagIsSkipped();
    hide Flatten, Skipped;
    Order.LessBehind("/v/", "inbox.md", "sync-conflict.md");
    assert EXAMPLE_CONFIG.Text(CanonFile("inbox")) == "/v/" + "inbox.md";
    assert EXAMPLE_CONFIG.Text(CanonFile(SYNC_CONFLICT_TAG)) == "/v/" + "sync-conflict.md";
  }

  /** A pass that stops before sync-conflict.md has rewritten inbox.md, and no retry knows the task. */
  lemma ExampleIsLost() returns (files': Files, done: set<Path>)
    ensures Partial(EXAMPLE_CONFIG, ExampleGather(), ExampleFiles(), files', done)
    ensures CanonFile("inbox") in done && CanonFile(SYNC_CONFLICT_TAG) !in done
    ensures forall g' :: Retried(EXAMPLE_CONFIG, ExampleGather(), ExampleFiles(), files', done, g') ==>
              EXAMPLE_ID !in g'.canon && !SameAt(EXAMPLE_CONFIG, ExampleGather(), g', EXAMPLE_ID)
  {
    ConflictTagIsSkipped();
    hide Canon, Flatten, Skipped, Partial, PutAway, Sound, Retried, SameAt, StandsIn, WantedPaths, Rewritten, Earlier, ExampleTask, ReadLine;
    ExampleIsSound();
    ExamplePutAway();
    ExampleOrder();
    var away := CanonFile(SYNC_CONFLICT_TAG);
    done := Before(EXAMPLE_CONFIG, ExampleGather(), ExampleFiles(), away);
    files' := Rewritten(EXAMPLE_CONFIG, ExampleGather(), ExampleFiles(), done);
    CutIsPartial(EXAMPLE_CONFIG, ExampleGather(), ExampleFiles(), away);
    EarlierIrreflexive(EXAMPLE_CONFIG, away);
    forall path | StandsIn(ExampleFiles(), path, ExampleGather().canon[EXAMPLE_ID])
      ensures path in done
    {
      ExampleStands(path, ExampleTask());
    }
    forall g' | Retried(EXAMPLE_CONFIG, ExampleGather(), ExampleFiles(), files', done, g')
      ensures EXAMPLE_ID !in g'.canon && !SameAt(EXAMPLE_CONFIG, ExampleGather(), g', EXAMPLE_ID)
    {
      PutAwayIsLost(EXAMPLE_CONFIG, ExampleGather(), ExampleFiles(), files', done, g', EXAMPLE_ID);
    }
  }
}
