/**
 Partial-write recovery (internal/sync/reconcile.go): a pass that aborts or crashes
 leaves some files rewritten and the base uncommitted; the next pass decides the same.
 */
module SyncRecovery {
  import opened Common
  import opened TaskLine
  import opened TaskLineLaws
  import opened SyncEngine
  import opened SyncTask
  import opened SyncPass
  import opened SyncPaths

  /** A row whose line reads back into the row's project. */
  predicate RowStable(row: SyncBase) {
    ReadLine(row.baseLine).Some? ==> ReadLine(row.baseLine).value.project == row.project
  }

  /** Two settled tasks with one canonical line are in one project. */
  lemma SameLineSameProject(a: Task, b: Task)
    requires Settled(a) && Settled(b) && Canon(a) == Canon(b)
    ensures a.project == b.project
  {
    CanonReadsBack(a);
    CanonReadsBack(b);
  }

  lemma RowLineSameProject(a: Task, row: SyncBase)
    requires Settled(a) && RowStable(row) && Canon(a) == row.baseLine
    ensures a.project == row.project
  {
    CanonReadsBack(a);
  }

  // ----- one id -----

  /** What may be on one side after some of its files were rewritten: the old entry or the wanted one. */
  predicate OldOrNew(before: Option<Task>, wanted: seq<Task>, found: Option<Task>) {
    && (found.Some? ==> found == before || (wanted != [] && Alike(wanted[0], found.value)))
    && (before.Some? && wanted != [] && wanted[0].project == before.value.project ==> found.Some?)
  }

  predicate SettledEntries(c: Option<Task>, p: Option<Task>, b: Option<SyncBase>, synced: set<string>) {
    && (c.Some? ==> Settled(c.value))
    && (p.Some? ==> Settled(p.value) && p.value.project in synced)
    && (b.Some? ==> RowStable(b.value))
  }

  /** The verdict on an id survives any mixture of old and rewritten files, and so does its final base row. */
  predicate Recovers(id: string, c: Option<Task>, p: Option<Task>, b: Option<SyncBase>, synced: set<string>,
                     c': Option<Task>, p': Option<Task>) {
    var o, o' := Resolve(id, c, p, b, synced), Resolve(id, c', p', b, synced);
    AlikeOutcome(o, o') && ApplyOp(b, o'.base) == ApplyOp(b, o.base)
  }

  /** The conflict-free pass was interrupted: each side is old or new, and no canon task was lost on the way. */
  predicate Interrupted(id: string, c: Option<Task>, p: Option<Task>, b: Option<SyncBase>, synced: set<string>,
                        c': Option<Task>, p': Option<Task>) {
    var o := Resolve(id, c, p, b, synced);
    && SettledEntries(c, p, b, synced) && o.conflicts == []
    && OldOrNew(c, o.canon, c') && OldOrNew(p, o.proj, p')
    && (c.Some? && o.canon != [] ==> c'.Some?)
  }

  lemma VerdictRecovers(id: string, c: Option<Task>, p: Option<Task>, b: Option<SyncBase>, synced: set<string>,
                        c': Option<Task>, p': Option<Task>)
    requires Interrupted(id, c, p, b, synced, c', p')
    ensures Recovers(id, c, p, b, synced, c', p')
  {
    hide Canon, Settled, RowStable, Interrupted, Recovers;
    if b.Some? && c.Some? && p.Some? {
      MergeRecovers(id, c.value, p.value, b.value, synced, c', p');
    } else if b.Some? {
      OneSidedRecovers(id, c, p, b.value, synced, c', p');
    } else {
      FreshRecovers(id, c, p, synced, c', p');
    }
  }

  lemma FreshRecovers(id: string, c: Option<Task>, p: Option<Task>, synced: set<string>,
                      c': Option<Task>, p': Option<Task>)
    requires Interrupted(id, c, p, None, synced, c', p')
    ensures Recovers(id, c, p, None, synced, c', p')
  {
    hide Canon, Settled, RowStable, Merge;
    if c.Some? && p.Some? && Canon(c.value) == Canon(p.value) {
      SameLineSameProject(c.value, p.value);
    }
  }

  lemma OneSidedRecovers(id: string, c: Option<Task>, p: Option<Task>, b: SyncBase, synced: set<string>,
                         c': Option<Task>, p': Option<Task>)
    requires c.None? || p.None?
    requires Interrupted(id, c, p, Some(b), synced, c', p')
    ensures Recovers(id, c, p, Some(b), synced, c', p')
  {
    hide Canon, Settled, RowStable, Fresh;
  }

  lemma MergeRecovers(id: string, c: Task, p: Task, b: SyncBase, synced: set<string>,
                      c': Option<Task>, p': Option<Task>)
    requires Interrupted(id, Some(c), Some(p), Some(b), synced, c', p')
    ensures Recovers(id, Some(c), Some(p), Some(b), synced, c', p')
  {
    hide Recovers, Interrupted;
    if Canon(c) == Canon(p) {
      EqualRecovers(id, c, p, b, synced, c', p');
    } else if b.baseLine == Canon(p) {
      CanonEditRecovers(id, c, p, b, synced, c', p');
    } else {
      ProjectionEditRecovers(id, c, p, b, synced, c', p');
    }
  }

  lemma EqualRecovers(id: string, c: Task, p: Task, b: SyncBase, synced: set<string>,
                      c': Option<Task>, p': Option<Task>)
    requires Interrupted(id, Some(c), Some(p), Some(b), synced, c', p') && Canon(c) == Canon(p)
    ensures Recovers(id, Some(c), Some(p), Some(b), synced, c', p')
  {
    hide Canon, Settled, RowStable, Fresh;
    SameLineSameProject(c, p);
  }

  lemma CanonEditRecovers(id: string, c: Task, p: Task, b: SyncBase, synced: set<string>,
                          c': Option<Task>, p': Option<Task>)
    requires Interrupted(id, Some(c), Some(p), Some(b), synced, c', p') && b.baseLine == Canon(p) != Canon(c)
    ensures Recovers(id, Some(c), Some(p), Some(b), synced, c', p')
  {
    hide Canon, Settled, RowStable, Fresh;
    RowLineSameProject(p, b);
  }

  lemma ProjectionEditRecovers(id: string, c: Task, p: Task, b: SyncBase, synced: set<string>,
                               c': Option<Task>, p': Option<Task>)
    requires Interrupted(id, Some(c), Some(p), Some(b), synced, c', p') && Canon(p) != Canon(c) && Canon(p) != b.baseLine
    ensures Recovers(id, Some(c), Some(p), Some(b), synced, c', p')
  {
    hide Canon, Settled, RowStable, Fresh;
  }

  /**
   A moved task whose old file was written first is missing from canon on the retry. It comes
   back exactly when it had no base row and its synced projection line is there.
   */
  lemma HalfMoveRecovers(id: string, c: Task, p: Option<Task>, b: Option<SyncBase>, synced: set<string>, p': Option<Task>)
    requires SettledEntries(Some(c), p, b, synced) && c.id == id && (p.Some? ==> p.value.id == id)
    requires Resolve(id, Some(c), p, b, synced).conflicts == [] && Resolve(id, Some(c), p, b, synced).canon != []
    requires OldOrNew(p, Resolve(id, Some(c), p, b, synced).proj, p')
    ensures Recovers(id, Some(c), p, b, synced, None, p') <==> b.None? && p'.Some? && c.project in synced
  {
    hide Canon, Settled, RowStable, Merge;
    if p.Some? && Canon(c) == Canon(p.value) {
      SameLineSameProject(c, p.value);
    }
  }

  // ----- whole files -----

  /** No id stands for two tasks, in however many files it is. */
  ghost predicate UniqueCanon(files: Files) {
    forall t: Task, t': Task :: InCanon(files, t) && InCanon(files, t') && t.id == t'.id ==> t == t'
  }

  ghost predicate UniqueProj(cfg: Config, files: Files) {
    forall p: Task, p': Task :: InProjection(cfg, files, p) && InProjection(cfg, files, p') && p.id == p'.id ==> p == p'
  }

  function Home(t: Task): Path {
    CanonFile(Flatten(t.project))
  }

  /** The file that the pass keeps the task in is one it was gathered from, or is written before one of those. */
  ghost predicate ComesHome(cfg: Config, g: Gathered, files: Files, id: string) {
    id in g.canon ==> forall t :: t in ResolveAt(g, cfg.Synced(), id).canon ==>
      exists was: Path :: StandsIn(files, was, g.canon[id]) && (was == Home(t) || Earlier(cfg, Home(t), was))
  }

  ghost predicate RowsStable(g: Gathered) {
    forall id :: id in g.base ==> RowStable(g.base[id])
  }

  /** A settled, conflict-free gather of files without ambiguous ids. */
  ghost predicate Sound(cfg: Config, g: Gathered, files: Files) {
    && cfg.Valid() && Gathers(cfg, files, g) && AllSettled(cfg, g) && RowsStable(g) && ConflictFree(cfg, g)
    && UniqueCanon(files) && UniqueProj(cfg, files)
  }

  /** The conditions under which a pass may be interrupted anywhere. */
  ghost predicate Restartable(cfg: Config, g: Gathered, files: Files) {
    Sound(cfg, g, files) && AllReadAgain(cfg, g) && forall id :: ComesHome(cfg, g, files, id)
  }

  ghost predicate IsWanted(cfg: Config, g: Gathered, path: Path) {
    exists id, t :: Wants(cfg, g, path, id, t)
  }

  /** The files are written in the order of their paths: what is wanted in an earlier one is written by then. */
  ghost predicate KeepsOrder(cfg: Config, g: Gathered, done: set<Path>) {
    forall p, q :: p in done && IsWanted(cfg, g, q) && Earlier(cfg, q, p) ==> q in done
  }

  /** files' is files with the paths in done, a first part of all, rewritten as the plan of g wants them. */
  ghost predicate Partial(cfg: Config, g: Gathered, files: Files, files': Files, done: set<Path>) {
    && KeepsOrder(cfg, g, done)
    && forall path :: if path in done then WrittenAt(cfg, g, files', path) else LinesAt(files', path) == LinesAt(files, path)
  }

  /** A canon line found after the interruption is the old one or the wanted one. */
  lemma FoundInCanon(cfg: Config, g: Gathered, files: Files, files': Files, done: set<Path>, found: Task)
    requires Sound(cfg, g, files) && Partial(cfg, g, files, files', done) && InCanon(files', found)
    ensures Lookup(g.canon, found.id) == Some(found) ||
            AlikeOption(OnlyTask(ResolveAt(g, cfg.Synced(), found.id).canon), Some(found))
  {
    hide Canon, Clean, ReadBack, Resolve, ReadLine, LandsOn, AllSettled, ConflictFree, Alike, Settled, RowsStable, UniqueProj,
         UniqueCanon, KeepsOrder, Skipped, LastWith, GathersProj;
    var path := CanonSource(files', found);
    if path in done {
      FoundWritten(cfg, g, files', path, found);
    } else {
      OldCanon(files, files', g, path, found);
    }
  }

  /** A task read from a rewritten file is like the one wanted under its id. */
  lemma FoundWritten(cfg: Config, g: Gathered, files: Files, path: Path, found: Task)
    requires AllSettled(cfg, g) && ConflictFree(cfg, g) && WrittenAt(cfg, g, files, path) && Reads(files, path, found)
    ensures AlikeOption(OnlyTask(SideOf(ResolveAt(g, cfg.Synced(), found.id), path.CanonFile?)), Some(found))
    ensures LandsOn(cfg, SideOf(ResolveAt(g, cfg.Synced(), found.id), path.CanonFile?)[0], path.CanonFile?, path)
  {
    hide Canon, Clean, ReadBack, Resolve, ReadLine, LandsOn, AllSettled, ConflictFree, Alike, Settled;
    var line :| line in LinesAt(files, path) && ReadLine(line) == Some(found);
    var id, t := WantedLineReads(cfg, g, path, line);
    AlikeIds(t, found);
    WantedIsOnly(cfg, g, path, id, t);
  }

  lemma OldCanon(files: Files, files': Files, g: Gathered, path: Path, found: Task)
    requires GathersCanon(files, g.canon) && UniqueCanon(files) && StandsIn(files', path, found)
    requires LinesAt(files', path) == LinesAt(files, path)
    ensures Lookup(g.canon, found.id) == Some(found) && StandsIn(files, path, found)
  {
    hide LastWith, Skipped;
    assert StandsIn(files, path, found);
    assert InCanon(files, found);
    LastIsRead(LinesAt(files, path), found.id);
    assert Reads(files, path, found);
    hide Reads, StandsIn;
    assert found.id in g.canon;
  }

  /** A canon task that comes home is still there, old or new, after the interruption. */
  lemma KeptInCanon(cfg: Config, g: Gathered, files: Files, files': Files, done: set<Path>, g': Gathered, id: string)
    requires AllSettled(cfg, g) && ConflictFree(cfg, g) && Partial(cfg, g, files, files', done) && GathersCanon(files', g'.canon)
    requires id in g.canon && ResolveAt(g, cfg.Synced(), id).canon != [] && ReadAgain(cfg, ResolveAt(g, cfg.Synced(), id))
    requires ComesHome(cfg, g, files, id) && g.canon[id].id == id
    ensures id in g'.canon
  {
    hide Canon, Resolve, ResolveAt, Reads, WrittenAt, AllSettled, ConflictFree, Skipped, LastWith, Earlier, Flatten, Wants;
    var t := ResolveAt(g, cfg.Synced(), id).canon[0];
    assert Wants(cfg, g, Home(t), id, t) by {
      KeptIsWanted(cfg, g, id, t);
    }
    var was: Path :| StandsIn(files, was, g.canon[id]) && (was == Home(t) || Earlier(cfg, Home(t), was));
    assert IsWanted(cfg, g, Home(t));
    if was in done {
      assert Home(t) in done;
      WrittenKeeps(cfg, g, files', g', Home(t), id, t);
    } else {
      StillStands(files, files', g', was, g.canon[id]);
    }
  }

  lemma KeptIsWanted(cfg: Config, g: Gathered, id: string, t: Task)
    requires id in g.canon && t in ResolveAt(g, cfg.Synced(), id).canon
    ensures Wants(cfg, g, Home(t), id, t)
  {
    hide Resolve, Flatten;
  }

  lemma WrittenKeeps(cfg: Config, g: Gathered, files: Files, g': Gathered, path: Path, id: string, t: Task)
    requires AllSettled(cfg, g) && ConflictFree(cfg, g) && WrittenAt(cfg, g, files, path) && GathersCanon(files, g'.canon)
    requires path.CanonFile? && !Skipped(path) && Wants(cfg, g, path, id, t)
    ensures id in g'.canon
  {
    hide Canon, Resolve, ResolveAt, WrittenAt, Reads, AllSettled, ConflictFree, ReadBack, Settled, Wants, Skipped, InCanon;
    WrittenTaskReads(cfg, g, files, path, id, t);
    AlikeIds(t, ReadBack(t));
  }

  lemma StillStands(files: Files, files': Files, g': Gathered, path: Path, t: Task)
    requires LinesAt(files', path) == LinesAt(files, path) && StandsIn(files, path, t) && GathersCanon(files', g'.canon)
    ensures t.id in g'.canon
  {
    hide LastWith, Skipped, InCanon, ReadLine;
    LastIsRead(LinesAt(files, path), t.id);
    assert Reads(files', path, t);
  }

  lemma StillReads(files: Files, files': Files, path: Path, t: Task)
    requires LinesAt(files', path) == LinesAt(files, path) && Reads(files, path, t)
    ensures Reads(files', path, t)
  {
  }

  /** The same for projections: old or wanted, and present when the project stays. */
  lemma FoundInProjection(cfg: Config, g: Gathered, files: Files, files': Files, done: set<Path>, found: Task)
    requires Sound(cfg, g, files) && Partial(cfg, g, files, files', done) && InProjection(cfg, files', found)
    ensures Lookup(g.proj, found.id) == Some(found) ||
            AlikeOption(OnlyTask(ResolveAt(g, cfg.Synced(), found.id).proj), Some(found))
  {
    hide Canon, Clean, ReadBack, Resolve, ReadLine, AllSettled, ConflictFree, Alike, Settled, RowsStable,
         UniqueCanon, UniqueProj, Forced, Skipped, LastWith, KeepsOrder, GathersCanon;
    var path := ProjFile(cfg.fileOf[found.project]);
    var read := ProjSource(cfg, files', found);
    if path in done {
      ForcedIsWritten(cfg, g, files', found.project, read);
    } else {
      assert LinesAt(files', path) == LinesAt(files, path);
      assert InProjection(cfg, files, found);
      OldProjection(cfg, files, g, found);
    }
  }

  /** A line of a rewritten projection file, forced to the file's project, is like the task wanted there. */
  lemma ForcedIsWritten(cfg: Config, g: Gathered, files: Files, project: string, read: Task)
    requires cfg.Valid() && AllSettled(cfg, g) && ConflictFree(cfg, g) && project in cfg.fileOf
    requires var path := ProjFile(cfg.fileOf[project]); WrittenAt(cfg, g, files, path) && Reads(files, path, read)
    ensures AlikeOption(OnlyTask(ResolveAt(g, cfg.Synced(), read.id).proj), Some(Forced(read, project)))
  {
    hide Canon, Clean, ReadBack, Resolve, ReadLine, AllSettled, ConflictFree, Alike, Settled, Forced;
    var path := ProjFile(cfg.fileOf[project]);
    var line :| line in LinesAt(files, path) && ReadLine(line) == Some(read);
    var id, t := WantedLineReads(cfg, g, path, line);
    WantedIsOnly(cfg, g, path, id, t);
    assert t.project == project;
    ForcedAgain(cfg, t);
    AlikeIds(t, ReadBack(t));
  }

  lemma OldProjection(cfg: Config, files: Files, g: Gathered, found: Task)
    requires GathersProj(cfg, files, g.proj) && UniqueProj(cfg, files) && InProjection(cfg, files, found)
    ensures Lookup(g.proj, found.id) == Some(found)
  {
    hide Reads, Forced, Canon, Skipped, LastWith, InProjection;
    var read := ProjSource(cfg, files, found);
    assert found.id in g.proj;
  }

  lemma RewrittenProjection(cfg: Config, g: Gathered, files': Files, id: string, path: Path)
    requires AllSettled(cfg, g) && ConflictFree(cfg, g) && WrittenAt(cfg, g, files', path) && id in g.proj
    requires path == ProjFile(cfg.fileOf[g.proj[id].project]) && ResolveAt(g, cfg.Synced(), id).proj != []
    requires ResolveAt(g, cfg.Synced(), id).proj[0].project == g.proj[id].project
    ensures exists read: Task :: read.id == id && Reads(files', path, read)
  {
    hide Canon, Clean, ReadBack, Resolve, ReadLine, ConflictFree, Alike, Settled, Reads, WrittenAt;
    var t := ResolveAt(g, cfg.Synced(), id).proj[0];
    assert Wants(cfg, g, path, id, t);
    hide AllSettled, Wants;
    WrittenTaskReads(cfg, g, files', path, id, t);
    AlikeIds(t, ReadBack(t));
  }

  lemma KeptInProjection(cfg: Config, g: Gathered, files: Files, files': Files, done: set<Path>, g': Gathered, id: string)
    requires Sound(cfg, g, files) && Partial(cfg, g, files, files', done) && GathersProj(cfg, files', g'.proj)
    requires id in g.proj && ResolveAt(g, cfg.Synced(), id).proj != []
    requires ResolveAt(g, cfg.Synced(), id).proj[0].project == g.proj[id].project
    ensures id in g'.proj
  {
    hide Canon, Clean, ReadBack, Resolve, ReadLine, ConflictFree, Alike, Settled, RowsStable, UniqueCanon, UniqueProj,
         Forced, Reads, Skipped, LastWith, KeepsOrder;
    var project := g.proj[id].project;
    var before := ProjSource(cfg, files, g.proj[id]);
    var path := ProjFile(cfg.fileOf[project]);
    if path in done {
      assert WrittenAt(cfg, g, files', path);
      RewrittenProjection(cfg, g, files', id, path);
      var read: Task :| read.id == id && Reads(files', path, read);
    } else {
      assert LinesAt(files', path) == LinesAt(files, path);
      StillReads(files, files', path, before);
    }
  }

  /** Whatever the interruption left, the next gather finds each side of an id old or new. */
  lemma CanonInterrupted(cfg: Config, g: Gathered, files: Files, files': Files, done: set<Path>, g': Gathered, id: string)
    requires Sound(cfg, g, files) && Partial(cfg, g, files, files', done) && GathersCanon(files', g'.canon)
    requires ReadAgain(cfg, ResolveAt(g, cfg.Synced(), id)) && ComesHome(cfg, g, files, id)
    ensures var wanted := ResolveAt(g, cfg.Synced(), id).canon;
      && OldOrNew(Lookup(g.canon, id), wanted, Lookup(g'.canon, id))
      && (id in g.canon && wanted != [] ==> id in g'.canon)
  {
    hide Canon, ResolveAt, Alike, Reads, Partial, InCanon, RowsStable, UniqueCanon, UniqueProj, GathersProj, ReadAgain, ComesHome,
         ConflictFree, Settled;
    if id in g'.canon {
      FoundInCanon(cfg, g, files, files', done, g'.canon[id]);
    }
    if id in g.canon && ResolveAt(g, cfg.Synced(), id).canon != [] {
      KeptInCanon(cfg, g, files, files', done, g', id);
    }
  }

  lemma ProjInterrupted(cfg: Config, g: Gathered, files: Files, files': Files, done: set<Path>, g': Gathered, id: string)
    requires Sound(cfg, g, files) && Partial(cfg, g, files, files', done) && GathersProj(cfg, files', g'.proj)
    ensures OldOrNew(Lookup(g.proj, id), ResolveAt(g, cfg.Synced(), id).proj, Lookup(g'.proj, id))
  {
    hide Canon, ResolveAt, Alike, Reads, Partial, InProjection, Sound;
    var wanted := ResolveAt(g, cfg.Synced(), id).proj;
    if id in g'.proj {
      FoundInProjection(cfg, g, files, files', done, g'.proj[id]);
    }
    if id in g.proj && wanted != [] && wanted[0].project == g.proj[id].project {
      KeptInProjection(cfg, g, files, files', done, g', id);
    }
  }

  lemma EntriesSettled(cfg: Config, g: Gathered, files: Files, id: string)
    requires Sound(cfg, g, files)
    ensures SettledEntries(Lookup(g.canon, id), Lookup(g.proj, id), Lookup(g.base, id), cfg.Synced())
    ensures id in g.canon ==> g.canon[id].id == id
    ensures id in g.proj ==> g.proj[id].id == id
    ensures id in IdsOf(g) ==> ResolveAt(g, cfg.Synced(), id).conflicts == []
  {
    hide Canon, Resolve, Settled, RowStable, UniqueCanon, UniqueProj, Gathers;
    assert ConflictFree(cfg, g);
  }

  lemma InterruptedAt(cfg: Config, g: Gathered, files: Files, files': Files, done: set<Path>, g': Gathered, id: string)
    requires Sound(cfg, g, files) && Partial(cfg, g, files, files', done)
    requires ReadAgain(cfg, ResolveAt(g, cfg.Synced(), id)) && ComesHome(cfg, g, files, id)
    requires Gathers(cfg, files', g') && id in IdsOf(g)
    ensures Interrupted(id, Lookup(g.canon, id), Lookup(g.proj, id), Lookup(g.base, id), cfg.Synced(),
                        Lookup(g'.canon, id), Lookup(g'.proj, id))
  {
    hide Canon, Resolve, Settled, Sound, Partial, OldOrNew, GathersCanon, GathersProj, ReadAgain, ComesHome, SettledEntries;
    CanonInterrupted(cfg, g, files, files', done, g', id);
    ProjInterrupted(cfg, g, files, files', done, g', id);
    EntriesSettled(cfg, g, files, id);
  }

  lemma NoForeignIds(cfg: Config, g: Gathered, files: Files, files': Files, done: set<Path>, g': Gathered, id: string)
    requires Sound(cfg, g, files) && Partial(cfg, g, files, files', done)
    requires Gathers(cfg, files', g') && g'.base == g.base && id in IdsOf(g')
    ensures id in IdsOf(g)
  {
    hide Canon, Resolve, Alike, Reads, Sound, Partial, InCanon, InProjection;
    NothingKnown(g, cfg.Synced(), id);
    if id in g'.canon {
      FoundInCanon(cfg, g, files, files', done, g'.canon[id]);
    } else if id in g'.proj {
      FoundInProjection(cfg, g, files, files', done, g'.proj[id]);
    }
  }

  /** The retry reaches the same verdict on the id, and the same final base row. */
  predicate SameAt(cfg: Config, g: Gathered, g': Gathered, id: string) {
    Recovers(id, Lookup(g.canon, id), Lookup(g.proj, id), Lookup(g.base, id), cfg.Synced(), Lookup(g'.canon, id), Lookup(g'.proj, id))
  }

  /** A retry after a cut: some files rewritten in order, the base uncommitted, everything gathered anew. */
  ghost predicate Retried(cfg: Config, g: Gathered, files: Files, files': Files, done: set<Path>, g': Gathered) {
    Partial(cfg, g, files, files', done) && Gathers(cfg, files', g') && g'.base == g.base
  }

  /**
   Partial-write recovery: with any first part of the files rewritten and the base uncommitted, gathering and deciding again
   gives an id the same verdict and the same final base row, if its task comes home into a file that is read again.
   */
  lemma RetryDecidesTheSame(cfg: Config, g: Gathered, files: Files, files': Files, done: set<Path>, g': Gathered, id: string)
    requires Sound(cfg, g, files) && Retried(cfg, g, files, files', done, g')
    requires ReadAgain(cfg, ResolveAt(g, cfg.Synced(), id)) && ComesHome(cfg, g, files, id)
    ensures SameAt(cfg, g, g', id)
  {
    hide Canon, Resolve, Sound, Partial, Gathers, Interrupted, AlikeOutcome, Recovers, ReadAgain, ComesHome;
    if id in IdsOf(g) {
      InterruptedAt(cfg, g, files, files', done, g', id);
      VerdictRecovers(id, Lookup(g.canon, id), Lookup(g.proj, id), Lookup(g.base, id), cfg.Synced(),
                      Lookup(g'.canon, id), Lookup(g'.proj, id));
    } else {
      if id in IdsOf(g') {
        NoForeignIds(cfg, g, files, files', done, g', id);
      }
      NoTaskAlike(id, cfg.Synced());
    }
  }

  lemma NoTaskAlike(id: string, synced: set<string>)
    ensures Recovers(id, None, None, None, synced, None, None)
  {
  }

  lemma AllReadAgainAt(cfg: Config, g: Gathered, id: string)
    requires AllReadAgain(cfg, g)
    ensures ReadAgain(cfg, ResolveAt(g, cfg.Synced(), id))
  {
    hide Resolve, Skipped, Flatten;
    NothingKnown(g, cfg.Synced(), id);
  }

  lemma RetryIsAlike(cfg: Config, g: Gathered, files: Files, files': Files, done: set<Path>, g': Gathered, id: string)
    requires Restartable(cfg, g, files) && Retried(cfg, g, files, files', done, g')
    ensures SameAt(cfg, g, g', id) && AlikeOutcome(ResolveAt(g, cfg.Synced(), id), ResolveAt(g', cfg.Synced(), id))
  {
    hide Resolve, Sound, Partial, Gathers, ReadAgain, ComesHome, AlikeOutcome, AllReadAgain;
    AllReadAgainAt(cfg, g, id);
    RetryDecidesTheSame(cfg, g, files, files', done, g', id);
  }

  /** The retry wants the same lines in every file. */
  lemma RetryWantsTheSame(cfg: Config, g: Gathered, files: Files, files': Files, done: set<Path>, g': Gathered)
    requires Restartable(cfg, g, files) && Retried(cfg, g, files, files', done, g')
    ensures forall path, line :: WantsLine(cfg, g, path, line) <==> WantsLine(cfg, g', path, line)
    ensures forall path :: IsWanted(cfg, g, path) ==> IsWanted(cfg, g', path)
  {
    hide WantsLine, ResolveAt, Restartable, Retried, AlikeOutcome, SameAt, IsWanted;
    forall id
      ensures AlikeOutcome(ResolveAt(g, cfg.Synced(), id), ResolveAt(g', cfg.Synced(), id))
    {
      RetryIsAlike(cfg, g, files, files', done, g', id);
    }
    SameWants(cfg, g, g');
    forall path | IsWanted(cfg, g, path)
      ensures IsWanted(cfg, g', path)
    {
      WantedToo(cfg, g, g', path);
    }
  }

  lemma WantedToo(cfg: Config, g: Gathered, g': Gathered, path: Path)
    requires forall id :: AlikeOutcome(ResolveAt(g, cfg.Synced(), id), ResolveAt(g', cfg.Synced(), id))
    requires IsWanted(cfg, g, path)
    ensures IsWanted(cfg, g', path)
  {
    hide Canon, Resolve, ResolveAt;
    var id, t :| Wants(cfg, g, path, id, t);
    NothingKnown(g', cfg.Synced(), id);
    var side, side' := SideOf(ResolveAt(g, cfg.Synced(), id), path.CanonFile?), SideOf(ResolveAt(g', cfg.Synced(), id), path.CanonFile?);
    assert AllAlike(side, side');
    var i :| 0 <= i < |side| && side[i] == t;
    assert Alike(t, side'[i]);
    assert Wants(cfg, g', path, id, side'[i]);
  }

  // ----- any number of interruptions -----

  /** One interrupted pass: what it gathered, which files it rewrote, and the files it left. */
  datatype Attempt = Attempt(gathered: Gathered, rewritten: set<Path>, left: Files)

  /** Each attempt starts from the files the one before left, with the base still uncommitted. */
  ghost predicate Chain(cfg: Config, base: map<string, SyncBase>, files: Files, attempts: seq<Attempt>)
    decreases attempts
  {
    attempts == [] ||
    (var a := attempts[0];
     && Gathers(cfg, files, a.gathered) && a.gathered.base == base
     && Partial(cfg, a.gathered, files, a.left, a.rewritten)
     && Chain(cfg, base, a.left, attempts[1..]))
  }

  function LastFiles(files: Files, attempts: seq<Attempt>): Files {
    if attempts == [] then files else attempts[|attempts| - 1].left
  }

  /** The first plan's rewrites followed by a retry's are a larger part of the first plan. */
  lemma PartialGrows(cfg: Config, g: Gathered, files: Files, files': Files, done: set<Path>, a: Attempt)
    requires Restartable(cfg, g, files) && Retried(cfg, g, files, files', done, a.gathered)
    requires Partial(cfg, a.gathered, files', a.left, a.rewritten)
    ensures Partial(cfg, g, files, a.left, done + a.rewritten)
  {
    hide WantsLine, Restartable, Gathers, IsWanted, Earlier;
    RetryWantsTheSame(cfg, g, files, files', done, a.gathered);
    forall path
      ensures if path in done + a.rewritten then WrittenAt(cfg, g, a.left, path)
              else LinesAt(a.left, path) == LinesAt(files, path)
    {
      if path in a.rewritten {
        assert WrittenAt(cfg, a.gathered, a.left, path);
      } else {
        assert LinesAt(a.left, path) == LinesAt(files', path);
        if path in done {
          assert WrittenAt(cfg, g, files', path);
        }
      }
    }
  }

  lemma {:induction false} ChainIsPartial(cfg: Config, g: Gathered, files: Files, files': Files, done: set<Path>,
                                          attempts: seq<Attempt>) returns (all: set<Path>)
    requires Restartable(cfg, g, files) && Partial(cfg, g, files, files', done)
    requires Chain(cfg, g.base, files', attempts)
    ensures Partial(cfg, g, files, LastFiles(files', attempts), all)
    decreases attempts
  {
    hide Restartable, Partial, Gathers;
    if attempts == [] {
      all := done;
    } else {
      var a := attempts[0];
      PartialGrows(cfg, g, files, files', done, a);
      all := ChainIsPartial(cfg, g, files, a.left, done + a.rewritten, attempts[1..]);
    }
  }

  /**
   After any number of aborted or crashed passes, each cut anywhere, the next full pass
   writes what the first one would have written and commits the base it would have committed.
   */
  lemma AnyCrashesThenSame(cfg: Config, g: Gathered, files: Files, attempts: seq<Attempt>, g': Gathered,
                           final: Files, base': map<string, SyncBase>)
    requires Restartable(cfg, g, files) && Chain(cfg, g.base, files, attempts)
    requires Gathers(cfg, LastFiles(files, attempts), g') && g'.base == g.base
    requires Written(cfg, g', final) && Committed(cfg, g', base')
    ensures Written(cfg, g, final) && Committed(cfg, g, base')
  {
    hide WantsLine, Restartable, Gathers, Chain, ResolveAt, AlikeOutcome, IsWanted, SameAt, Skipped;
    assert Partial(cfg, g, files, files, {});
    var all := ChainIsPartial(cfg, g, files, files, {}, attempts);
    hide Partial;
    var left := LastFiles(files, attempts);
    RetryWantsTheSame(cfg, g, files, left, all, g');
    forall path: Path | !Skipped(path)
      ensures WrittenAt(cfg, g, final, path)
    {
      assert WrittenAt(cfg, g', final, path);
    }
    forall id
      ensures Lookup(base', id) == ApplyOp(Lookup(g.base, id), ResolveAt(g, cfg.Synced(), id).base)
    {
      RetryIsAlike(cfg, g, files, left, all, g', id);
      SameRow(cfg, g, g', id);
    }
  }

  lemma SameRow(cfg: Config, g: Gathered, g': Gathered, id: string)
    requires SameAt(cfg, g, g', id) && g'.base == g.base
    ensures ApplyOp(Lookup(g'.base, id), ResolveAt(g', cfg.Synced(), id).base) ==
            ApplyOp(Lookup(g.base, id), ResolveAt(g, cfg.Synced(), id).base)
  {
    hide Resolve;
  }
}
