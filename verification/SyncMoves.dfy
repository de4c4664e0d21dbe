/**
 Which moved canon tasks a retry brings back (internal/sync/reconcile.go:82-87, 200-208): the files are written in the
 order of their paths, so a task is safe exactly if its new file comes before the old one.
 */
module SyncMoves {
  import opened Common
  import opened TaskLine
  import opened SyncEngine
  import opened SyncTask
  import opened SyncPaths
  import opened SyncPass
  import opened SyncRecovery

  // ----- every cut has files and a gather -----

  ghost function Listing(s: set<Line>): (r: seq<Line>)
    ensures forall x :: x in r <==> x in s
  {
    if s == {} then []
    else
      var x :| x in s;
      [x] + Listing(s - {x})
  }

  ghost function WantedLines(cfg: Config, g: Gathered, path: Path): set<Line> {
    set id, t | id in IdsOf(g) && t in SideOf(ResolveAt(g, cfg.Synced(), id), path.CanonFile?)
                && LandsOn(cfg, t, path.CanonFile?, path) && Canon(t) != [] :: Canon(t)
  }

  lemma WantedLinesAre(cfg: Config, g: Gathered, path: Path, line: Line)
    ensures line in WantedLines(cfg, g, path) <==> WantsLine(cfg, g, path, line)
  {
    hide Canon, ResolveAt, LandsOn;
    if WantsLine(cfg, g, path, line) {
      var id, t :| Wants(cfg, g, path, id, t) && Canon(t) == line && line != [];
    }
    if line in WantedLines(cfg, g, path) {
      var id, t :| id in IdsOf(g) && t in SideOf(ResolveAt(g, cfg.Synced(), id), path.CanonFile?)
                   && LandsOn(cfg, t, path.CanonFile?, path) && Canon(t) != [] && Canon(t) == line;
      assert Wants(cfg, g, path, id, t);
    }
  }

  ghost function WantedPaths(cfg: Config, g: Gathered): set<Path> {
    (set id, t | id in IdsOf(g) && t in ResolveAt(g, cfg.Synced(), id).canon :: Home(t)) +
    (set id, t | id in IdsOf(g) && t in ResolveAt(g, cfg.Synced(), id).proj && t.project in cfg.fileOf :: ProjFile(cfg.fileOf[t.project]))
  }

  lemma WantedPathsAre(cfg: Config, g: Gathered, path: Path)
    requires IsWanted(cfg, g, path)
    ensures path in WantedPaths(cfg, g)
  {
    hide ResolveAt, Flatten;
    var id, t :| Wants(cfg, g, path, id, t);
    if path.CanonFile? {
      assert t in ResolveAt(g, cfg.Synced(), id).canon && path == Home(t);
    } else {
      assert t in ResolveAt(g, cfg.Synced(), id).proj && path == ProjFile(cfg.fileOf[t.project]);
    }
  }

  /** The files after a cut that leaves exactly the paths in done rewritten. */
  ghost function Rewritten(cfg: Config, g: Gathered, files: Files, done: set<Path>): Files {
    map path | path in files.Keys + done :: if path in done then Listing(WantedLines(cfg, g, path)) else LinesAt(files, path)
  }

  lemma RewrittenAt(cfg: Config, g: Gathered, files: Files, done: set<Path>, path: Path)
    ensures if path in done then WrittenAt(cfg, g, Rewritten(cfg, g, files, done), path)
            else LinesAt(Rewritten(cfg, g, files, done), path) == LinesAt(files, path)
  {
    hide WantsLine, WantedLines;
    forall line
      ensures line in WantedLines(cfg, g, path) <==> WantsLine(cfg, g, path, line)
    {
      WantedLinesAre(cfg, g, path, line);
    }
  }

  ghost function CanonIds(files: Files): set<string> {
    set path, line | path in files && line in files[path] && path.CanonFile? && !Skipped(path) && ReadLine(line).Some? :: ReadLine(line).value.id
  }

  ghost function ProjIds(cfg: Config, files: Files): set<string> {
    set project, line | project in cfg.fileOf && line in LinesAt(files, ProjFile(cfg.fileOf[project]))
                        && Projects(cfg, project) && ReadLine(line).Some? :: ReadLine(line).value.id
  }

  lemma CanonIdStands(files: Files, id: string)
    requires id in CanonIds(files)
    ensures exists t: Task :: t.id == id && InCanon(files, t)
  {
    hide ReadLine, Skipped, LastWith;
    var path, line :| path in files && line in files[path] && path.CanonFile? && !Skipped(path) && ReadLine(line).Some?
                      && ReadLine(line).value.id == id;
    LastIsRead(LinesAt(files, path), id);
    assert StandsIn(files, path, LastWith(LinesAt(files, path), id).value);
  }

  lemma ProjIdStands(cfg: Config, files: Files, id: string)
    requires id in ProjIds(cfg, files)
    ensures exists p: Task :: p.id == id && InProjection(cfg, files, p)
  {
    hide ReadLine, Skipped, LastWith, WithoutTag;
    var project, line :| project in cfg.fileOf && line in LinesAt(files, ProjFile(cfg.fileOf[project]))
                         && Projects(cfg, project) && ReadLine(line).Some? && ReadLine(line).value.id == id;
    LastIsRead(LinesAt(files, ProjFile(cfg.fileOf[project])), id);
    var t := LastWith(LinesAt(files, ProjFile(cfg.fileOf[project])), id).value;
    assert InProjection(cfg, files, Forced(t, project)) && Forced(t, project).id == id;
  }

  ghost function PickCanon(files: Files, id: string): (t: Task)
    requires id in CanonIds(files)
    ensures t.id == id && InCanon(files, t)
  {
    CanonIdStands(files, id);
    var t: Task :| t.id == id && InCanon(files, t);
    t
  }

  ghost function PickProj(cfg: Config, files: Files, id: string): (p: Task)
    requires id in ProjIds(cfg, files)
    ensures p.id == id && InProjection(cfg, files, p)
  {
    ProjIdStands(cfg, files, id);
    var p: Task :| p.id == id && InProjection(cfg, files, p);
    p
  }

  /** Some gather of any files. */
  ghost function SomeGather(cfg: Config, files: Files, base: map<string, SyncBase>): Gathered {
    Gathered(map id | id in CanonIds(files) :: PickCanon(files, id), map id | id in ProjIds(cfg, files) :: PickProj(cfg, files, id), base)
  }

  lemma SomeGatherGathers(cfg: Config, files: Files, base: map<string, SyncBase>)
    ensures Gathers(cfg, files, SomeGather(cfg, files, base)) && SomeGather(cfg, files, base).base == base
  {
    hide ReadLine, Skipped, InCanon, InProjection;
    var g := SomeGather(cfg, files, base);
    forall path: Path, t | path.CanonFile? && !Skipped(path) && Reads(files, path, t)
      ensures t.id in g.canon
    {
      var line :| line in LinesAt(files, path) && ReadLine(line) == Some(t);
      assert t.id in CanonIds(files);
    }
    forall project, t | Projects(cfg, project) && Reads(files, ProjFile(cfg.fileOf[project]), t)
      ensures t.id in g.proj
    {
      var line :| line in LinesAt(files, ProjFile(cfg.fileOf[project])) && ReadLine(line) == Some(t);
      assert t.id in ProjIds(cfg, files);
    }
  }

  // ----- the cut just before the new file -----

  /** Every file before the given one, of those that exist or are wanted. */
  ghost function Before(cfg: Config, g: Gathered, files: Files, path: Path): set<Path> {
    set p | p in files.Keys + WantedPaths(cfg, g) && Earlier(cfg, p, path)
  }

  lemma BeforeKeepsOrder(cfg: Config, g: Gathered, files: Files, path: Path)
    ensures KeepsOrder(cfg, g, Before(cfg, g, files, path))
  {
    hide Earlier, IsWanted, WantedPaths;
    forall p, q | p in Before(cfg, g, files, path) && IsWanted(cfg, g, q) && Earlier(cfg, q, p)
      ensures q in Before(cfg, g, files, path)
    {
      EarlierTransitive(cfg, q, p, path);
      WantedPathsAre(cfg, g, q);
    }
  }

  lemma CutIsPartial(cfg: Config, g: Gathered, files: Files, path: Path)
    ensures Partial(cfg, g, files, Rewritten(cfg, g, files, Before(cfg, g, files, path)), Before(cfg, g, files, path))
  {
    hide WrittenAt, Rewritten, Before, KeepsOrder;
    var done := Before(cfg, g, files, path);
    BeforeKeepsOrder(cfg, g, files, path);
    forall p
      ensures if p in done then WrittenAt(cfg, g, Rewritten(cfg, g, files, done), p)
              else LinesAt(Rewritten(cfg, g, files, done), p) == LinesAt(files, p)
    {
      RewrittenAt(cfg, g, files, done, p);
    }
  }

  /** A task that does not come home is then on no main-vault line. */
  lemma CutLosesTask(cfg: Config, g: Gathered, files: Files, id: string, t: Task, found: Task)
    requires Sound(cfg, g, files) && id in g.canon && g.canon[id].id == id && ResolveAt(g, cfg.Synced(), id).canon == [t]
    requires !ComesHome(cfg, g, files, id)
    requires InCanon(Rewritten(cfg, g, files, Before(cfg, g, files, Home(t))), found)
    ensures found.id != id
  {
    hide Canon, Resolve, Alike, AllSettled, ConflictFree, RowsStable, UniqueCanon, UniqueProj, Skipped, LastWith, Earlier, Flatten,
         WantedPaths, Rewritten, Reads, GathersProj, GathersCanon, WrittenAt;
    var done := Before(cfg, g, files, Home(t));
    var files' := Rewritten(cfg, g, files, done);
    var path := CanonSource(files', found);
    RewrittenAt(cfg, g, files, done, path);
    EarlierIrreflexive(cfg, Home(t));
    if path in done {
      FoundWritten(cfg, g, files', path, found);
    } else {
      OldCanon(files, files', g, path, found);
      StandingExists(files, path, found);
      EarlierTotal(cfg, path, Home(t));
    }
  }

  lemma StandingExists(files: Files, path: Path, t: Task)
    requires StandsIn(files, path, t)
    ensures path in files
  {
    hide ReadLine;
  }

  lemma NotHomeLoses(cfg: Config, g: Gathered, files: Files, id: string) returns (files': Files, done: set<Path>, g': Gathered)
    requires Sound(cfg, g, files) && id in g.canon && ResolveAt(g, cfg.Synced(), id).canon != []
    requires !ComesHome(cfg, g, files, id) && (id in g.base || g.canon[id].project !in cfg.fileOf)
    ensures Retried(cfg, g, files, files', done, g') && id !in g'.canon && !SameAt(cfg, g, g', id)
  {
    hide Canon, Resolve, Sound, Partial, Gathers, ComesHome, Rewritten, Before, SomeGather, Recovers, SettledEntries, OldOrNew, InCanon;
    EntriesSettled(cfg, g, files, id);
    OneTask(id, Lookup(g.canon, id), Lookup(g.proj, id), Lookup(g.base, id), cfg.Synced());
    var t := ResolveAt(g, cfg.Synced(), id).canon[0];
    done := Before(cfg, g, files, Home(t));
    files' := Rewritten(cfg, g, files, done);
    CutIsPartial(cfg, g, files, Home(t));
    g' := SomeGather(cfg, files', g.base);
    SomeGatherGathers(cfg, files', g.base);
    GathersBoth(cfg, files', g');
    if id in g'.canon {
      GatheredStands(files', g', id);
      CutLosesTask(cfg, g, files, id, t, g'.canon[id]);
    }
    ProjInterrupted(cfg, g, files, files', done, g', id);
    HalfMoveRecovers(id, g.canon[id], Lookup(g.proj, id), Lookup(g.base, id), cfg.Synced(), Lookup(g'.proj, id));
  }

  lemma GatheredStands(files: Files, g: Gathered, id: string)
    requires GathersCanon(files, g.canon) && id in g.canon
    ensures g.canon[id].id == id && InCanon(files, g.canon[id])
  {
    hide InCanon;
  }

  /** Every retry of the pass, wherever it was cut, decides the same for the id. */
  ghost predicate AlwaysRecovers(cfg: Config, g: Gathered, files: Files, id: string) {
    forall files', done, g' :: Retried(cfg, g, files, files', done, g') ==> SameAt(cfg, g, g', id)
  }

  /**
   For a task that the pass keeps in canon, and that has a base row or belongs to no synced project: every retry decides the
   same, whichever first part of the files was rewritten, exactly if the task comes home.
   */
  lemma RecoversWhenHome(cfg: Config, g: Gathered, files: Files, id: string)
    requires Sound(cfg, g, files) && id in g.canon && ResolveAt(g, cfg.Synced(), id).canon != []
    requires ReadAgain(cfg, ResolveAt(g, cfg.Synced(), id)) && (id in g.base || g.canon[id].project !in cfg.fileOf)
    ensures AlwaysRecovers(cfg, g, files, id) <==> ComesHome(cfg, g, files, id)
  {
    hide ResolveAt, Sound, Retried, SameAt, ComesHome, ReadAgain;
    if ComesHome(cfg, g, files, id) {
      forall files', done, g' | Retried(cfg, g, files, files', done, g')
        ensures SameAt(cfg, g, g', id)
      {
        RetryDecidesTheSame(cfg, g, files, files', done, g', id);
      }
    } else {
      var files', done, g' := NotHomeLoses(cfg, g, files, id);
    }
  }

  /** For a task that stands in one file, home means: not moved, or moved to a file that is written first. */
  lemma MovedComesHome(cfg: Config, g: Gathered, files: Files, id: string, was: Path, t: Task)
    requires id in g.canon && ResolveAt(g, cfg.Synced(), id).canon == [t] && StandsIn(files, was, g.canon[id])
    requires forall path :: StandsIn(files, path, g.canon[id]) ==> path == was
    ensures ComesHome(cfg, g, files, id) <==> was == Home(t) || Earlier(cfg, Home(t), was)
  {
    hide Resolve, StandsIn, Earlier, Flatten;
    assert t in ResolveAt(g, cfg.Synced(), id).canon;
  }
}
