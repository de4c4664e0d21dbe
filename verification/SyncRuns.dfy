/** Any sequence of complete and interrupted passes leaves the tasks of unsynced projects alone. */
module SyncRuns {
  import opened Common
  import opened TaskLine
  import opened TaskLineLaws
  import opened SyncEngine
  import opened SyncTask
  import opened SyncPaths
  import opened SyncPass

  ghost predicate AllClean(g: Gathered) {
    && Keyed(g)
    && (forall id :: id in g.canon ==> Clean(g.canon[id]))
    && (forall id :: id in g.proj ==> Clean(g.proj[id]))
  }

  lemma ConflictTagIsTag()
    ensures IsTag(SYNC_CONFLICT_TAG)
  {
    assert !IsDigit(SYNC_CONFLICT_TAG[0]);
  }

  lemma TaggedIsClean(t: Task)
    requires Clean(t)
    ensures Clean(Tagged(t)) && Tagged(t).id == t.id
  {
    hide IsTag, IsQiId, Plain;
    ConflictTagIsTag();
  }

  /** Conflict or not, whatever a plan writes is clean and carries the id it was decided under. */
  lemma WantedIsClean(cfg: Config, g: Gathered, path: Path, id: string, t: Task)
    requires AllClean(g) && Wants(cfg, g, path, id, t)
    ensures Clean(t) && t.id == id
  {
    hide Canon, Clean, LandsOn, Tagged;
    if id in g.proj {
      TaggedIsClean(g.proj[id]);
    }
  }

  /** A line found in a rewritten file was wanted under the id it reads back with. */
  lemma WrittenLineId(cfg: Config, g: Gathered, path: Path, line: Line, found: Task) returns (t: Task)
    requires AllClean(g) && WantsLine(cfg, g, path, line) && ReadLine(line) == Some(found)
    ensures Wants(cfg, g, path, found.id, t) && found == ReadBack(t) && Canon(found) == Canon(t) && Clean(t)
  {
    hide Canon, Clean, ReadLine, Wants, ReadBack;
    var id, u :| Wants(cfg, g, path, id, u) && Canon(u) == line && line != [];
    WantedIsClean(cfg, g, path, id, u);
    CanonReadsBack(u);
    t := u;
  }

  // ----- what other tasks may print -----

  /** The task's own line reads back under the id. */
  predicate PrintsUnder(t: Task, id: string) {
    ReadLine(Canon(t)).Some? && ReadLine(Canon(t)).value.id == id
  }

  /** No task gathered under another id prints a line that reads back under this one, plain or with the conflict tag. */
  predicate OnlyItsOwn(g: Gathered, id: string) {
    && (forall x :: x in g.canon && x != id ==> !PrintsUnder(g.canon[x], id))
    && (forall x :: x in g.proj && x != id ==> !PrintsUnder(g.proj[x], id) && !PrintsUnder(Tagged(g.proj[x]), id))
  }

  /** Clean tasks print their own ids, so among them every id is alone. */
  lemma CleanIsOnlyItsOwn(g: Gathered, id: string)
    requires AllClean(g)
    ensures OnlyItsOwn(g, id)
  {
    hide Canon, Clean, ReadLine, Tagged;
    forall x | x in g.canon && x != id
      ensures !PrintsUnder(g.canon[x], id)
    {
      CanonReadsBack(g.canon[x]);
    }
    forall x | x in g.proj && x != id
      ensures !PrintsUnder(g.proj[x], id) && !PrintsUnder(Tagged(g.proj[x]), id)
    {
      TaggedIsClean(g.proj[x]);
      CanonReadsBack(g.proj[x]);
      CanonReadsBack(Tagged(g.proj[x]));
    }
  }

  lemma VerdictTasks(id: string, c: Option<Task>, p: Option<Task>, b: Option<SyncBase>, synced: set<string>, t: Task)
    requires var o := Resolve(id, c, p, b, synced); t in o.canon || t in o.proj
    ensures c == Some(t) || p == Some(t) || (p.Some? && t == Tagged(p.value))
  {
    hide Canon, Tagged;
  }

  /** A line that reads back under an id that is alone is of that id's verdict. */
  lemma LineOfItsOwn(cfg: Config, g: Gathered, path: Path, id: string, t: Task, own: string)
    requires OnlyItsOwn(g, own) && Wants(cfg, g, path, id, t) && PrintsUnder(t, own)
    ensures id == own && Wants(cfg, g, path, own, t)
  {
    hide Canon, Resolve, LandsOn, Tagged, PrintsUnder;
    VerdictTasks(id, Lookup(g.canon, id), Lookup(g.proj, id), Lookup(g.base, id), cfg.Synced(), t);
  }

  // ----- passes -----

  /** A pass over files: rewritten everywhere and committed, or cut after some files with the base as it was. */
  datatype Pass = Pass(gathered: Gathered, before: Files, after: Files, complete: bool, rewritten: set<Path>,
                       base': map<string, SyncBase>)

  ghost predicate Rewrote(p: Pass, path: Path) {
    (p.complete && !Skipped(path)) || path in p.rewritten
  }

  ghost predicate Happened(cfg: Config, p: Pass) {
    && GathersCanon(p.before, p.gathered.canon) && Keyed(p.gathered)
    && (forall path :: if Rewrote(p, path) then WrittenAt(cfg, p.gathered, p.after, path)
                       else LinesAt(p.after, path) == LinesAt(p.before, path))
    && (if p.complete then Committed(cfg, p.gathered, p.base') else p.base' == p.gathered.base)
  }

  /** c is the task of its id in every canon file that is read, and it lies in the file of its project, which is one of them. */
  ghost predicate Rests(files: Files, c: Task) {
    && !Skipped(CanonFile(Flatten(c.project)))
    && Reads(files, CanonFile(Flatten(c.project)), c)
    && (forall path: Path, t :: path.CanonFile? && !Skipped(path) && Reads(files, path, t) && t.id == c.id ==> t == c)
  }

  lemma RestingIsGathered(files: Files, canon: map<string, Task>, c: Task)
    requires Rests(files, c) && GathersCanon(files, canon)
    ensures c.id in canon && canon[c.id] == c
  {
    hide Reads, Skipped, InCanon, Flatten;
    var home := CanonFile(Flatten(c.project));
    assert Reads(files, home, c);
    var path := CanonSource(files, canon[c.id]);
  }

  /** An unsynced task is passed through: it is the only thing its id puts anywhere. */
  lemma UnsyncedVerdict(cfg: Config, g: Gathered, c: Task)
    requires Lookup(g.canon, c.id) == Some(c) && c.project !in cfg.fileOf
    ensures ResolveAt(g, cfg.Synced(), c.id).canon == [c]
    ensures ResolveAt(g, cfg.Synced(), c.id).proj == []
    ensures ApplyOp(Lookup(g.base, c.id), ResolveAt(g, cfg.Synced(), c.id).base) == None
  {
    hide Canon, Merge, Fresh;
  }

  /** An unsynced task that rests before a pass which puts nothing else under its id. */
  ghost predicate RestsIn(cfg: Config, p: Pass, c: Task) {
    Happened(cfg, p) && Rests(p.before, c) && c.project !in cfg.fileOf && Clean(c) && OnlyItsOwn(p.gathered, c.id)
  }

  /** What stands in a rewritten canon file under the id of c is c read back. */
  lemma RewrittenIsReadBack(cfg: Config, p: Pass, c: Task, path: Path, t: Task)
    requires RestsIn(cfg, p, c)
    requires path.CanonFile? && Rewrote(p, path) && Reads(p.after, path, t) && t.id == c.id
    ensures t == ReadBack(c)
  {
    hide Canon, Clean, ReadLine, ReadBack, Resolve, LandsOn, Committed, OnlyItsOwn, Rests, GathersCanon, Rewrote, Keyed;
    RestingIsGathered(p.before, p.gathered.canon, c);
    UnsyncedVerdict(cfg, p.gathered, c);
    CanonReadsBack(c);
    var line :| line in LinesAt(p.after, path) && ReadLine(line) == Some(t);
    assert WrittenAt(cfg, p.gathered, p.after, path);
    var id, u :| Wants(cfg, p.gathered, path, id, u) && Canon(u) == line && line != [];
    LineOfItsOwn(cfg, p.gathered, path, id, u, c.id);
    assert u in [c];
  }

  lemma RewrittenKeeps(cfg: Config, p: Pass, c: Task)
    requires RestsIn(cfg, p, c) && Rewrote(p, CanonFile(Flatten(c.project)))
    ensures Reads(p.after, CanonFile(Flatten(c.project)), ReadBack(c))
  {
    hide Canon, Clean, ReadLine, ReadBack, Resolve, Committed, OnlyItsOwn, Rests, GathersCanon, Rewrote, Keyed, Flatten;
    var home := CanonFile(Flatten(c.project));
    RestingIsGathered(p.before, p.gathered.canon, c);
    UnsyncedVerdict(cfg, p.gathered, c);
    CanonReadsBack(c);
    assert WrittenAt(cfg, p.gathered, p.after, home);
    assert Wants(cfg, p.gathered, home, c.id, c);
    assert WantsLine(cfg, p.gathered, home, Canon(c));
  }

  /** After a pass, complete or cut anywhere, every line of an unsynced task's id is still that task. */
  lemma UnsyncedLineStays(cfg: Config, p: Pass, c: Task, path: Path, t: Task)
    requires RestsIn(cfg, p, c) && ReadBack(c) == c
    requires path.CanonFile? && !Skipped(path) && Reads(p.after, path, t) && t.id == c.id
    ensures t == c
  {
    hide Canon, Clean, ReadBack, ReadLine, WrittenAt, LinesAt, Committed, GathersCanon, OnlyItsOwn, Keyed, Skipped, Flatten;
    if Rewrote(p, path) {
      RewrittenIsReadBack(cfg, p, c, path, t);
    } else {
      assert LinesAt(p.after, path) == LinesAt(p.before, path);
      assert Reads(p.before, path, t);
    }
  }

  lemma RestingIsFixed(files: Files, c: Task)
    requires Rests(files, c)
    ensures ReadBack(c) == c
  {
    hide ReadBack, ReadLine, Skipped;
    var line :| line in LinesAt(files, CanonFile(Flatten(c.project))) && ReadLine(line) == Some(c);
    ReadTaskIsFixed(line);
  }

  lemma UnsyncedRow(cfg: Config, p: Pass, c: Task)
    requires RestsIn(cfg, p, c)
    ensures p.complete || c.id !in p.gathered.base ==> c.id !in p.base'
  {
    hide Canon, Clean, Resolve, WrittenAt, LinesAt, Rests, GathersCanon, OnlyItsOwn, Keyed, Rewrote;
    RestingIsGathered(p.before, p.gathered.canon, c);
    UnsyncedVerdict(cfg, p.gathered, c);
    if p.complete {
      assert Lookup(p.base', c.id) == None;
    }
  }

  /** One pass, complete or cut anywhere, leaves an unsynced task where it rests. */
  lemma UnsyncedRestsOn(cfg: Config, p: Pass, c: Task)
    requires RestsIn(cfg, p, c)
    ensures Rests(p.after, c)
    ensures p.complete || c.id !in p.gathered.base ==> c.id !in p.base'
  {
    hide Canon, Clean, ReadBack, ReadLine, WrittenAt, LinesAt, Committed, GathersCanon, OnlyItsOwn, Keyed, Skipped, Flatten;
    var home := CanonFile(Flatten(c.project));
    UnsyncedRow(cfg, p, c);
    RestingIsFixed(p.before, c);
    if Rewrote(p, home) {
      RewrittenKeeps(cfg, p, c);
    } else {
      assert LinesAt(p.after, home) == LinesAt(p.before, home);
    }
    forall path: Path, t | path.CanonFile? && !Skipped(path) && Reads(p.after, path, t) && t.id == c.id
      ensures t == c
    {
      UnsyncedLineStays(cfg, p, c, path, t);
    }
  }

  /**
   Passes one after the other, each loading the base that the one before left. Between them anybody edits any file,
   and moves, adds and deletes tasks, as long as c rests where it rested.
   */
  ghost predicate Run(cfg: Config, passes: seq<Pass>, c: Task) {
    && (forall i :: 0 <= i < |passes| ==> Happened(cfg, passes[i]) && OnlyItsOwn(passes[i].gathered, c.id))
    && (forall i :: 0 < i < |passes| ==>
          && passes[i].gathered.base == passes[i - 1].base'
          && (Rests(passes[i - 1].after, c) ==> Rests(passes[i].before, c)))
  }

  /**
   Whatever conflicts, moves, crashes and edits the passes of a run meet elsewhere, a canon task of an
   unsynced project keeps its line in its file, and once a pass has completed it has no base row.
   */
  lemma {:induction false} UnsyncedSurvivesEveryRun(cfg: Config, passes: seq<Pass>, c: Task)
    requires Run(cfg, passes, c) && passes != []
    requires Rests(passes[0].before, c) && c.project !in cfg.fileOf && Clean(c)
    ensures Rests(passes[|passes| - 1].after, c)
    ensures (exists i :: 0 <= i < |passes| && passes[i].complete) || c.id !in passes[0].gathered.base ==>
              c.id !in passes[|passes| - 1].base'
  {
    hide Happened, Rests, OnlyItsOwn, Clean;
    var n := |passes| - 1;
    if n == 0 {
      UnsyncedRestsOn(cfg, passes[0], c);
    } else {
      assert forall i :: 0 <= i < n ==> passes[..n][i] == passes[i];
      UnsyncedSurvivesEveryRun(cfg, passes[..n], c);
      assert passes[..n][n - 1] == passes[n - 1];
      UnsyncedRestsOn(cfg, passes[n], c);
    }
  }
}
