/**
 What becomes of a conflict (internal/sync/engine.go:205-263, reconcile.go:99-117, render.go:31-62): the pass that meets it
 writes two lines under one id, canon's before the tagged copy, and of a file the next gather keeps the last.
 */
module SyncConflict {
  import opened Common
  import opened TaskLine
  import opened TaskLineLaws
  import opened SyncEngine
  import opened SyncTask
  import opened SyncPaths
  import opened SyncPass
  import opened SyncOrder
  import opened SyncRender
  import opened SyncTargets
  import opened SyncLast
  import opened SyncIdle
  import opened SyncRuns
  import opened SyncCopy
  import opened SyncMerge
  import opened SyncGather
  import opened TaskFile

  /** u prints the line, or prints what a copy of a task with that line prints. */
  ghost predicate Carries(u: Task, line: Line) {
    Canon(u) == line || exists s: Task, copy: Task :: IsCopy(copy, s) && Canon(s) == line && Canon(u) == Canon(copy)
  }

  ghost predicate Kept(line: Line, o: Outcome) {
    exists i :: 0 <= i < |o.canon| && Carries(o.canon[i], line)
  }

  /** Both edits of a conflict are still in canon. */
  ghost predicate BothKept(c: Task, p: Task, o: Outcome) {
    Kept(Canon(c), o) && Kept(Canon(p), o)
  }

  /** What a gather finds of a conflict: canon's task, or the projection's with the conflict tag. */
  predicate OneOf(found: Task, c: Task, p: Task) {
    Alike(c, found) || (Alike(Tagged(p), found) && SYNC_CONFLICT_TAG in found.tags)
  }

  predicate Conflicting(id: string, c: Task, p: Task, b: Option<SyncBase>, synced: set<string>) {
    Resolve(id, Some(c), Some(p), b, synced).conflicts != []
  }

  /** The next verdict on what was found settles on one line. */
  predicate Settles(c': Task, p': Task, b: Option<SyncBase>, synced: set<string>) {
    || Canon(c') == Canon(p')
    || Overruled(Some(c'), b, synced)
    || !Edited(c', b) || !Edited(p', b)
  }

  function Winner(c': Task, p': Task, b: Option<SyncBase>, synced: set<string>): Task {
    if Canon(c') == Canon(p') || Overruled(Some(c'), b, synced) || Edited(c', b) then c' else p'
  }

  /** A verdict on two present sides holds one task if it settles, and both otherwise. */
  lemma VerdictOnTwo(id: string, c': Task, p': Task, b: Option<SyncBase>, synced: set<string>)
    ensures Resolve(id, Some(c'), Some(p'), b, synced).canon ==
            if Settles(c', p', b, synced) then [Winner(c', p', b, synced)] else [c', Tagged(p')]
  {
    hide Canon, Tagged;
  }

  /**
   The verdict after a conflict, whatever the gather picked of the two lines on each side: both edits are kept exactly
   if it does not settle on one line, or the line it settles on carries both.
   */
  lemma SecondVerdict(id: string, c: Task, p: Task, b: Option<SyncBase>, synced: set<string>, c': Task, p': Task)
    requires OneOf(c', c, p) && OneOf(p', c, p)
    ensures BothKept(c, p, Resolve(id, Some(c'), Some(p'), b, synced)) <==>
            !Settles(c', p', b, synced) ||
            (Carries(Winner(c', p', b, synced), Canon(c)) && Carries(Winner(c', p', b, synced), Canon(p)))
  {
    hide Canon, Tagged, Resolve, Carries, Alike, Winner, Settles;
    var o := Resolve(id, Some(c'), Some(p'), b, synced);
    VerdictOnTwo(id, c', p', b, synced);
    if Settles(c', p', b, synced) {
      OnlyOne(Winner(c', p', b, synced), o, Canon(c));
      OnlyOne(Winner(c', p', b, synced), o, Canon(p));
    } else {
      DifferentPicks(c, p, c', p', b, synced);
      assert o.canon[0] == c' && o.canon[1] == Tagged(p');
    }
  }

  lemma OnlyOne(u: Task, o: Outcome, line: Line)
    requires o.canon == [u]
    ensures Kept(line, o) <==> Carries(u, line)
  {
    hide Carries;
    assert o.canon[0] == u;
  }

  /** Picks that print different lines are one of each. */
  lemma DifferentPicks(c: Task, p: Task, c': Task, p': Task, b: Option<SyncBase>, synced: set<string>)
    requires OneOf(c', c, p) && OneOf(p', c, p) && !Settles(c', p', b, synced)
    ensures (Carries(c', Canon(c)) && Carries(Tagged(p'), Canon(p))) || (Carries(c', Canon(p)) && Carries(Tagged(p'), Canon(c)))
  {
    hide Canon, Overruled, Edited;
    if Alike(c, c') {
      assert Tagged(p') == p' && Canon(p') == Canon(Tagged(p));
      TaggedCarries(p', p);
    } else {
      assert Canon(c') == Canon(Tagged(p)) && Canon(p') == Canon(c);
      TaggedCarries(c', p);
      TaggedCarries(Tagged(p'), p');
    }
  }

  /** Whatever prints a task's copy carries the task's line. */
  lemma TaggedCarries(u: Task, p: Task)
    requires Canon(u) == Canon(Tagged(p))
    ensures Carries(u, Canon(p))
  {
    hide Canon, Tagged, IsCopy;
    TaggedIsCopy(Tagged(p), p);
  }

  // ----- what the next gather finds -----

  /** The conflict tag goes behind the tags that the line shows, so the first tag stays. */
  lemma TaggedIsSettled(p: Task)
    requires Settled(p) && p.project in p.tags && p.project != ""
    ensures Settled(Tagged(p))
  {
    hide IsTag, IsQiId, Plain;
    TaggedIsClean(p);
    if Tagged(p) != p {
      var inline := SetOf(TagsIn(p.text));
      NewTagsSnoc(p.tags, SYNC_CONFLICT_TAG, inline);
      FullTextIsPlain(p);
      FullTextIsPlain(Tagged(p));
      assert Gained(Tagged(p)) == Gained(p) + NewTags([SYNC_CONFLICT_TAG], inline + SetOf(p.tags));
      hide NewTags, TagTokens, Gained, Clean;
      assert TagsIn(FullText(Tagged(p)))[0] == TagsIn(FullText(p))[0];
    }
  }

  /** What a written conflict task reads back as, in canon. */
  lemma ReadOneOf(c: Task, p: Task, t: Task)
    requires Settled(c) && Settled(p) && p.project in p.tags && p.project != ""
    requires t == c || t == Tagged(p)
    ensures Settled(t) && OneOf(ReadBack(t), c, p)
  {
    hide Canon, Tagged, IsTag, IsQiId, Clean, ReadBack, Plain;
    TaggedIsSettled(p);
    CanonReadsBack(t);
    TagReadsBack(p);
  }

  lemma TagReadsBack(p: Task)
    requires Settled(p)
    ensures SYNC_CONFLICT_TAG in ReadBack(Tagged(p)).tags
  {
    hide IsTag, IsQiId, Clean, Tagged;
    TaggedIsClean(p);
    TaggedShows(p);
    TagIsShown(Tagged(p), SYNC_CONFLICT_TAG);
  }

  lemma TaggedShows(p: Task)
    ensures SYNC_CONFLICT_TAG in Tagged(p).tags && SYNC_CONFLICT_TAG != ""
  {
  }

  /** And in a projection, forced to the file's project. */
  lemma ForcedOneOf(cfg: Config, c: Task, p: Task, t: Task)
    requires cfg.Valid() && Settled(c) && Settled(p) && p.project in p.tags && p.project != ""
    requires (t == c || t == Tagged(p)) && t.project in cfg.fileOf
    ensures OneOf(Forced(ReadBack(t), t.project), c, p)
  {
    hide Canon, Tagged, IsTag, IsQiId, Clean, ReadBack, Settled, WithoutTag;
    TaggedIsSettled(p);
    ForcedAgain(cfg, t);
    TagReadsBack(p);
    ForcedKeepsTags(ReadBack(t), t.project);
  }

  lemma ForcedKeepsTags(t: Task, project: string)
    ensures forall x :: x in t.tags ==> x in Forced(t, project).tags
  {
    WithoutTagIs(t.tags, project);
  }

  // ----- the second pass on files -----

  /** The conflict pass was carried out: its lines are written and its base is committed. */
  ghost predicate ConflictWritten(cfg: Config, before: Files, g: Gathered, files: Files, g': Gathered, id: string) {
    && cfg.Valid() && Gathers(cfg, before, g) && AllSettled(cfg, g) && id in g.canon && id in g.proj
    && Conflicting(id, g.canon[id], g.proj[id], Lookup(g.base, id), cfg.Synced())
    && Written(cfg, g, files) && Gathers(cfg, files, g') && Committed(cfg, g, g'.base)
    && !Skipped(CanonFile(Flatten(g.canon[id].project))) && Projects(cfg, g.canon[id].project)
  }

  lemma ConflictOutcome(id: string, c: Task, p: Task, b: Option<SyncBase>, synced: set<string>)
    requires Conflicting(id, c, p, b, synced)
    ensures var o := Resolve(id, Some(c), Some(p), b, synced);
      && o.canon == [c, Tagged(p)] && o.base == Keep && c.project in synced
      && o.proj == [c] + if Tagged(p).project in synced then [Tagged(p)] else []
  {
    hide Canon, Tagged;
  }

  /** A gathered projection task has its project among its tags. */
  lemma GatheredHasTag(cfg: Config, before: Files, g: Gathered, id: string)
    requires cfg.Valid() && GathersProj(cfg, before, g.proj) && id in g.proj
    ensures g.proj[id].project in g.proj[id].tags && g.proj[id].project in cfg.fileOf && g.proj[id].project != ""
  {
    hide Reads, WithoutTag, IsTag;
    assert InProjection(cfg, before, g.proj[id]);
    TagIsNotEmpty(g.proj[id].project);
  }

  /** A settled task that the plan wants in a file is read there. */
  lemma WantedIsRead(cfg: Config, g: Gathered, files: Files, path: Path, id: string, t: Task)
    requires WrittenAt(cfg, g, files, path) && Wants(cfg, g, path, id, t) && Clean(t)
    ensures Reads(files, path, ReadBack(t)) && ReadBack(t).id == t.id
  {
    hide Canon, ReadLine, Clean, ReadBack, Wants;
    CanonReadsBack(t);
    assert WantsLine(cfg, g, path, Canon(t));
  }

  lemma SettledIsClean(cfg: Config, g: Gathered)
    requires AllSettled(cfg, g)
    ensures AllClean(g)
  {
    hide Clean, Stable;
  }

  /** A line read from a written file is that of a task wanted there under its id. */
  lemma ReadIsWanted(cfg: Config, g: Gathered, files: Files, path: Path, found: Task) returns (t: Task)
    requires AllSettled(cfg, g) && WrittenAt(cfg, g, files, path) && Reads(files, path, found)
    ensures Wants(cfg, g, path, found.id, t) && found == ReadBack(t)
  {
    hide Canon, ReadLine, Clean, ReadBack, Wants, AllSettled, AllClean, WantsLine;
    SettledIsClean(cfg, g);
    var line :| line in LinesAt(files, path) && ReadLine(line) == Some(found);
    t := WrittenLineId(cfg, g, path, line, found);
  }

  /** The plan of a conflict wants its two tasks and no others, canon's own on both sides. */
  lemma ConflictWants(cfg: Config, g: Gathered, id: string)
    requires Keyed(g) && id in g.canon && id in g.proj
    requires Conflicting(id, g.canon[id], g.proj[id], Lookup(g.base, id), cfg.Synced())
    ensures g.canon[id].project in cfg.fileOf
    ensures Wants(cfg, g, CanonFile(Flatten(g.canon[id].project)), id, g.canon[id])
    ensures Wants(cfg, g, ProjFile(cfg.fileOf[g.canon[id].project]), id, g.canon[id])
    ensures forall path, t :: Wants(cfg, g, path, id, t) ==> t == g.canon[id] || t == Tagged(g.proj[id])
  {
    hide Canon, Resolve, Tagged, Flatten;
    ConflictOutcome(id, g.canon[id], g.proj[id], Lookup(g.base, id), cfg.Synced());
  }

  lemma CanonHasId(cfg: Config, g: Gathered, files: Files, canon: map<string, Task>, id: string, c: Task)
    requires Written(cfg, g, files) && GathersCanon(files, canon) && Clean(c) && c.id == id && !Skipped(CanonFile(Flatten(c.project)))
    requires Wants(cfg, g, CanonFile(Flatten(c.project)), id, c)
    ensures id in canon
  {
    hide Canon, Clean, ReadBack, Wants, WrittenAt, Reads, Skipped, Flatten, InCanon;
    WantedIsRead(cfg, g, files, CanonFile(Flatten(c.project)), id, c);
  }

  /** Where the next gather finds the id in canon, and whose line that is. */
  lemma CanonSourceOf(cfg: Config, g: Gathered, files: Files, canon: map<string, Task>, id: string) returns (path: Path, t: Task)
    requires AllSettled(cfg, g) && Written(cfg, g, files) && GathersCanon(files, canon) && id in canon
    ensures StandsIn(files, path, canon[id]) && canon[id].id == id && Wants(cfg, g, path, id, t) && canon[id] == ReadBack(t)
  {
    hide Canon, Clean, ReadBack, Wants, WrittenAt, Reads, AllSettled, Skipped, LastWith;
    path := CanonSource(files, canon[id]);
    t := ReadIsWanted(cfg, g, files, path, canon[id]);
  }

  lemma CanonPick(cfg: Config, before: Files, g: Gathered, files: Files, g': Gathered, id: string)
    requires ConflictWritten(cfg, before, g, files, g', id)
    ensures id in g'.canon && OneOf(g'.canon[id], g.canon[id], g.proj[id])
  {
    hide Canon, Clean, ReadBack, Resolve, Wants, Stable, Tagged, OneOf, Committed, Written, GathersCanon, Conflicting, GathersProj, Skipped,
         Flatten, StandsIn;
    ConflictWants(cfg, g, id);
    GatheredHasTag(cfg, before, g, id);
    CanonHasId(cfg, g, files, g'.canon, id, g.canon[id]);
    var path, t := CanonSourceOf(cfg, g, files, g'.canon, id);
    ReadOneOf(g.canon[id], g.proj[id], t);
  }

  lemma ProjHasId(cfg: Config, g: Gathered, files: Files, proj: map<string, Task>, id: string, c: Task)
    requires Written(cfg, g, files) && GathersProj(cfg, files, proj) && Clean(c) && c.id == id && Projects(cfg, c.project)
    requires Wants(cfg, g, ProjFile(cfg.fileOf[c.project]), id, c)
    ensures id in proj
  {
    hide Canon, Clean, ReadBack, Wants, WrittenAt, Reads, InProjection, Skipped;
    WantedIsRead(cfg, g, files, ProjFile(cfg.fileOf[c.project]), id, c);
  }

  /** The same for projections. */
  lemma ProjSourceOf(cfg: Config, g: Gathered, files: Files, proj: map<string, Task>, id: string) returns (read: Task, t: Task)
    requires cfg.Valid() && AllSettled(cfg, g) && Written(cfg, g, files) && GathersProj(cfg, files, proj) && id in proj
    ensures proj[id].id == id && Projects(cfg, proj[id].project) && proj[id] == Forced(read, proj[id].project)
    ensures var path := ProjFile(cfg.fileOf[proj[id].project]);
      LastWith(LinesAt(files, path), id) == Some(read) && Wants(cfg, g, path, id, t)
    ensures read == ReadBack(t) && t.project == proj[id].project
  {
    hide Canon, Clean, ReadBack, ResolveAt, WrittenAt, Reads, AllSettled, Forced, Skipped, LastWith;
    assert InProjection(cfg, files, proj[id]);
    read := ProjSource(cfg, files, proj[id]);
    var path := ProjFile(cfg.fileOf[proj[id].project]);
    t := ReadIsWanted(cfg, g, files, path, read);
    assert LandsOn(cfg, t, false, path);
  }

  lemma ProjPick(cfg: Config, before: Files, g: Gathered, files: Files, g': Gathered, id: string)
    requires ConflictWritten(cfg, before, g, files, g', id)
    ensures id in g'.proj && OneOf(g'.proj[id], g.canon[id], g.proj[id])
  {
    hide Canon, Clean, ReadBack, Resolve, Wants, Stable, Tagged, OneOf, Committed, Written, GathersProj, Conflicting, Forced, GathersCanon,
         Skipped, Flatten, LastWith;
    ConflictWants(cfg, g, id);
    GatheredHasTag(cfg, before, g, id);
    ProjHasId(cfg, g, files, g'.proj, id, g.canon[id]);
    var read, t := ProjSourceOf(cfg, g, files, g'.proj, id);
    ForcedOneOf(cfg, g.canon[id], g.proj[id], t);
  }

  /**
   Two passes: after a conflict pass was carried out, whatever the next gather picks of the two lines on each side,
   both edits are still kept exactly if the next verdict does not settle on one line, or that line carries both.
   */
  lemma ConflictAfterTwoPasses(cfg: Config, before: Files, g: Gathered, files: Files, g': Gathered, id: string)
    requires ConflictWritten(cfg, before, g, files, g', id)
    ensures id in g'.canon && id in g'.proj && Lookup(g'.base, id) == Lookup(g.base, id)
    ensures var c, p, c', p', b, synced := g.canon[id], g.proj[id], g'.canon[id], g'.proj[id], Lookup(g.base, id), cfg.Synced();
      && OneOf(c', c, p) && OneOf(p', c, p)
      && (BothKept(c, p, ResolveAt(g', synced, id)) <==>
          !Settles(c', p', b, synced) ||
          (Carries(Winner(c', p', b, synced), Canon(c)) && Carries(Winner(c', p', b, synced), Canon(p))))
  {
    CanonPick(cfg, before, g, files, g', id);
    ProjPick(cfg, before, g, files, g', id);
    ConflictOutcome(id, g.canon[id], g.proj[id], Lookup(g.base, id), cfg.Synced());
    hide Canon, Resolve, Tagged, OneOf, BothKept, Carries, Settles, Winner, AllSettled, Written, Gathers;
    SecondVerdict(id, g.canon[id], g.proj[id], Lookup(g.base, id), cfg.Synced(), g'.canon[id], g'.proj[id]);
  }

  /** With the tagged copy on both sides one line is left. */
  lemma OneLineLeft(id: string, c: Task, p: Task, b: Option<SyncBase>, synced: set<string>, c': Task, p': Task)
    requires Canon(c') == Canon(p') == Canon(Tagged(p))
    ensures var o := Resolve(id, Some(c'), Some(p'), b, synced);
      && |o.canon| == 1 && Canon(o.canon[0]) == Canon(Tagged(p)) && o.conflicts == []
      && (BothKept(c, p, o) <==> Carries(o.canon[0], Canon(c)))
  {
    hide Canon, Tagged, Resolve, Carries;
    var o := Resolve(id, Some(c'), Some(p'), b, synced);
    VerdictOnTwo(id, c', p', b, synced);
    SettledHasNoConflict(id, c', p', b, synced);
    OnlyOne(c', o, Canon(c));
    OnlyOne(c', o, Canon(p));
    TaggedCarries(c', p);
  }

  lemma SettledHasNoConflict(id: string, c': Task, p': Task, b: Option<SyncBase>, synced: set<string>)
    requires Canon(c') == Canon(p')
    ensures Resolve(id, Some(c'), Some(p'), b, synced).conflicts == []
  {
    hide Canon, Tagged;
  }

  lemma CopyAlike(cfg: Config, g: Gathered, id: string)
    requires cfg.Valid() && AllSettled(cfg, g) && id in g.proj
    requires g.proj[id].project in g.proj[id].tags && g.proj[id].project in cfg.fileOf && g.proj[id].project != ""
    ensures var t := Tagged(g.proj[id]);
      Canon(ReadBack(t)) == Canon(t) && Canon(Forced(ReadBack(t), t.project)) == Canon(t)
  {
    hide Canon, Clean, ReadBack, IsTag, WithoutTag, Stable;
    TaggedIsSettled(g.proj[id]);
    CanonReadsBack(Tagged(g.proj[id]));
    ForcedAgain(cfg, Tagged(g.proj[id]));
  }

  // ----- a conflict within one project -----

  /** A file was rendered over what it was, and was known to hold the id. */
  ghost predicate RenderedKnown(cfg: Config, g: Gathered, less: LineOrder, before: Files, files: Files, path: Path, id: string) {
    RenderedOver(cfg, g, less, before, path, LinesAt(files, path)) && LastWith(LinesAt(before, path), id).Some?
  }

  /** The conflict is between two lines of one project, each in the file of that project, and the pass was carried out. */
  ghost predicate OneProjectConflict(cfg: Config, less: LineOrder, before: Files, g: Gathered, files: Files, g': Gathered, id: string) {
    && ConflictWritten(cfg, before, g, files, g', id) && g.canon[id].project == g.proj[id].project && id != ""
    && LastWith(LinesAt(before, CanonFile(Flatten(g.canon[id].project))), id).Some?
    && forall path :: !Skipped(path) ==> RenderedOver(cfg, g, less, before, path, LinesAt(files, path))
  }

  lemma KnownInPrior(lines: seq<Line>, prior: seq<Task>, id: string)
    requires TasksIn(lines) == Ok(prior) && LastWith(lines, id).Some? && id != ""
    ensures PriorPos(prior, id).Some?
  {
    hide TasksIn, ReadLine, LastWith;
    LastIsRead(lines, id);
    var t := LastWith(lines, id).value;
    TasksInAre(lines, t);
    KnownPosition(prior, t);
  }

  lemma KnownPosition(prior: seq<Task>, t: Task)
    requires t in prior && t.id != ""
    ensures PriorPos(prior, t.id).Some?
  {
    var i :| 0 <= i < |prior| && prior[i] == t;
  }

  lemma PairOwn(c: Task, t: Task, id: string, project: string)
    requires c.id == t.id == id && c.project == t.project == project
    ensures Own([c, t], id, project) == [c, t]
  {
    assert [c, t][..1] == [c] && [c][..0] == [];
    assert Own([c], id, project) == [c];
  }

  /** The tasks desired under the conflict's id are its two, canon's first. */
  lemma DesiredPair(cfg: Config, g: Gathered, path: Path, desired: seq<Task>, id: string)
    requires cfg.Valid() && AllSettled(cfg, g) && id in g.canon && id in g.proj && g.canon[id].project == g.proj[id].project
    requires Conflicting(id, g.canon[id], g.proj[id], Lookup(g.base, id), cfg.Synced())
    requires ProjectLands(cfg, g.canon[id].project, path) && DesiredAt(cfg, g, path, desired)
    ensures OfId(desired, id) == [g.canon[id], Tagged(g.proj[id])] && LinesOfItsOwn(desired, id)
    ensures forall t :: t in desired ==> Clean(t)
  {
    hide Canon, Resolve, Clean, Stable, OfId, Own, LinesOfItsOwn, Flatten, IsTag, Tagged, LandsOn, Conflicting, ProjectLands;
    var c, p := g.canon[id], g.proj[id];
    ConflictSides(id, c, p, Lookup(g.base, id), cfg.Synced(), path.CanonFile?);
    TaggedKeepsProject(p);
    DesiredAreClean(cfg, g, path, desired);
    DesiredLines(desired, id);
    DesiredOfConflict(cfg, g, path, desired, id, c, Tagged(p));
    OneProject(desired, id, c.project);
    PairOwn(c, Tagged(p), id, c.project);
    assert Own(desired, id, c.project) == WantedOwn(cfg, g, path, id, c.project);
  }

  /** A conflict within one project puts its pair on both sides. */
  lemma ConflictSides(id: string, c: Task, p: Task, b: Option<SyncBase>, synced: set<string>, canonSide: bool)
    requires Conflicting(id, c, p, b, synced) && c.project == p.project
    ensures SideOf(Resolve(id, Some(c), Some(p), b, synced), canonSide) == [c, Tagged(p)]
  {
    hide Canon;
    ConflictOutcome(id, c, p, b, synced);
    hide Resolve, Conflicting;
  }

  lemma DesiredAreClean(cfg: Config, g: Gathered, path: Path, desired: seq<Task>)
    requires AllSettled(cfg, g) && DesiredAt(cfg, g, path, desired)
    ensures forall t :: t in desired ==> Clean(t) && Wants(cfg, g, path, t.id, t)
  {
    hide Canon, Clean, Wants, AllSettled, AllClean, KeepsVerdictOrder;
    SettledIsClean(cfg, g);
    forall t | t in desired
      ensures Clean(t) && Wants(cfg, g, path, t.id, t)
    {
      var id :| Wants(cfg, g, path, id, t);
      WantedIsClean(cfg, g, path, id, t);
    }
  }

  /** Clean tasks of different ids print different lines. */
  lemma DesiredLines(ts: seq<Task>, id: string)
    requires forall t :: t in ts ==> Clean(t)
    ensures LinesOfItsOwn(ts, id)
  {
    hide Canon, Clean, ReadBack, ReadLine;
    forall t | t in ts
      ensures ReadLine(Canon(t)) == Some(ReadBack(t)) && ReadBack(t).id == t.id
    {
      CanonReadsBack(t);
    }
    forall i, j | 0 <= i < |ts| && 0 <= j < |ts| && ts[i].id != id && ts[j].id == id
      ensures Canon(ts[i]) != Canon(ts[j])
    {
      assert ts[i] in ts && ts[j] in ts;
    }
  }

  lemma DesiredOfConflict(cfg: Config, g: Gathered, path: Path, desired: seq<Task>, id: string, c: Task, copy: Task)
    requires forall t :: t in desired ==> Wants(cfg, g, path, t.id, t)
    requires c.project == copy.project && SideOf(ResolveAt(g, cfg.Synced(), id), path.CanonFile?) == [c, copy]
    ensures forall t :: t in desired && t.id == id ==> t.project == c.project
  {
    hide ResolveAt, LandsOn;
  }

  /** In each of the two files the copy's line is the last of the id. */
  lemma CopyIsLast(cfg: Config, g: Gathered, less: LineOrder, before: Files, files: Files, path: Path, id: string)
    requires cfg.Valid() && AllSettled(cfg, g) && id in g.canon && id in g.proj && g.canon[id].project == g.proj[id].project
    requires Conflicting(id, g.canon[id], g.proj[id], Lookup(g.base, id), cfg.Synced())
    requires ProjectLands(cfg, g.canon[id].project, path) && !Skipped(path) && id != ""
    requires RenderedKnown(cfg, g, less, before, files, path, id)
    ensures LastWith(LinesAt(files, path), id) == Some(ReadBack(Tagged(g.proj[id])))
  {
    hide Canon, ResolveAt, Clean, Stable, OfId, LinesOfItsOwn, Flatten, IsTag, ReadBack, Ordered, LinesOf, DesiredAt, TasksIn, LastWith, Conflicting,
         PriorPos, Deduped, ProjectLands, ReadLine, Skipped, Tagged;
    var c, copy := g.canon[id], Tagged(g.proj[id]);
    var prior := PriorAt(before, path).value;
    KnownInPrior(LinesAt(before, path), prior, id);
    var desired :| DesiredAt(cfg, g, path, desired) && LinesAt(files, path) == LinesOf(Ordered(prior, less, desired));
    DesiredPair(cfg, g, path, desired, id);
    OrderedKeepsId(prior, less, desired, id);
    OrderedAreClean(prior, less, desired);
    LastOfLines(Ordered(prior, less, desired), id);
    TaggedIsClean(g.proj[id]);
    LastOfPair(c, copy);
  }

  lemma OrderedAreClean(prior: seq<Task>, less: LineOrder, desired: seq<Task>)
    requires forall t :: t in desired ==> Clean(t)
    ensures forall t :: t in Ordered(prior, less, desired) ==> Clean(t)
  {
    hide Canon, Clean;
    forall t | t in Ordered(prior, less, desired)
      ensures Clean(t)
    {
      SortedMembers(prior, less, Deduped(desired, {}), t);
      DedupedMembers(desired, {}, t);
    }
  }

  /** Of a pair that prints one line the first is kept; it reads back as the second does. */
  lemma LastOfPair(c: Task, copy: Task)
    requires Clean(c) && Clean(copy)
    ensures var own := Deduped([c, copy], {}); own != [] && ReadBack(own[|own| - 1]) == ReadBack(copy)
  {
    hide Canon, Clean, ReadBack, ReadLine, Deduped;
    CanonReadsBack(c);
    CanonReadsBack(copy);
    TwoDeduped(c, copy);
  }

  /** Every next gather finds the tagged copy on both sides. */
  lemma CopyIsFound(cfg: Config, less: LineOrder, before: Files, g: Gathered, files: Files, g': Gathered, id: string)
    requires OneProjectConflict(cfg, less, before, g, files, g', id)
    ensures id in g'.canon && g'.canon[id] == ReadBack(Tagged(g.proj[id]))
    ensures id in g'.proj && g'.proj[id] == Forced(ReadBack(Tagged(g.proj[id])), g.proj[id].project)
  {
    hide Canon, Clean, ReadBack, Resolve, Stable, Tagged, Written, GathersCanon, GathersProj, Conflicting, Forced, Skipped, Flatten, LastWith,
         Committed, RenderedOver, Wants, OneOf, IsTag;
    var c, p := g.canon[id], g.proj[id];
    CanonPick(cfg, before, g, files, g', id);
    ProjPick(cfg, before, g, files, g', id);
    ConflictWants(cfg, g, id);
    TaggedKeepsProject(p);
    var canonHome, projHome := CanonFile(Flatten(c.project)), ProjFile(cfg.fileOf[c.project]);
    KnownInProjection(cfg, before, g, id);
    CopyIsLast(cfg, g, less, before, files, canonHome, id);
    CopyIsLast(cfg, g, less, before, files, projHome, id);
    var path, t := CanonSourceOf(cfg, g, files, g'.canon, id);
    assert path == canonHome by { WantedLands(cfg, g, path, id, t); }
    var read, u := ProjSourceOf(cfg, g, files, g'.proj, id);
  }

  lemma WantedLands(cfg: Config, g: Gathered, path: Path, id: string, t: Task)
    requires Wants(cfg, g, path, id, t)
    ensures LandsOn(cfg, t, path.CanonFile?, path)
  {
    hide Resolve, LandsOn;
  }

  lemma TaggedKeepsProject(p: Task)
    ensures Tagged(p).project == p.project && Tagged(p).id == p.id
  {
  }

  lemma KnownInProjection(cfg: Config, before: Files, g: Gathered, id: string)
    requires GathersProj(cfg, before, g.proj) && id in g.proj
    ensures Projects(cfg, g.proj[id].project) && LastWith(LinesAt(before, ProjFile(cfg.fileOf[g.proj[id].project])), id).Some?
  {
    hide Reads, Forced, Skipped, LastWith;
    assert InProjection(cfg, before, g.proj[id]);
    var t := ProjSource(cfg, before, g.proj[id]);
  }

  /**
   A conflict between two edits of a line, each in the file of its project, never outlasts the next pass: every next verdict
   keeps exactly the tagged copy's line, and both edits are still there exactly if that line carries canon's as well.
   */
  lemma ConflictEndsInTheCopy(cfg: Config, less: LineOrder, before: Files, g: Gathered, files: Files, g': Gathered, id: string,
                              copy: Task)
    requires OneProjectConflict(cfg, less, before, g, files, g', id) && IsCopy(copy, g.proj[id])
    ensures var o := ResolveAt(g', cfg.Synced(), id);
      && |o.canon| == 1 && Canon(o.canon[0]) == Canon(copy) && o.conflicts == []
      && (BothKept(g.canon[id], g.proj[id], o) <==> Carries(copy, Canon(g.canon[id])))
  {
    TaggedIsCopy(copy, g.proj[id]);
    CopyIsFound(cfg, less, before, g, files, g', id);
    hide Canon, Clean, ReadBack, Resolve, Stable, Tagged, Written, GathersCanon, Conflicting, Forced, Skipped, Flatten,
         Committed, RenderedOver, BothKept, Carries, IsTag, InProjection, IsCopy;
    GatheredHasTag(cfg, before, g, id);
    CopyAlike(cfg, g, id);
    TaggedKeepsProject(g.proj[id]);
    OneLineLeft(id, g.canon[id], g.proj[id], Lookup(g'.base, id), cfg.Synced(), g'.canon[id], g'.proj[id]);
    CarriesLine(ResolveAt(g', cfg.Synced(), id).canon[0], Tagged(g.proj[id]), Canon(g.canon[id]));
  }

  lemma CarriesLine(u: Task, v: Task, line: Line)
    requires Canon(u) == Canon(v)
    ensures Carries(u, line) <==> Carries(v, line)
  {
    hide Canon, IsCopy;
  }

  // ----- a conflict whose canon edit is lost -----

  function OneWord(word: string): Task {
    Task("qi-0000000a", [Word(word), Tag("a")], "a", ["a"], None, None, [], "", "", false, None)
  }

  /** The first token behind the box is the text's own, tagged or not. */
  lemma CarriesFirstWord(u: Task, word: string)
    requires Carries(u, Canon(OneWord(word)))
    ensures |Canon(u)| > 1 && Canon(u)[1] == Word(word)
  {
    FirstToken(OneWord(word));
    if Canon(u) != Canon(OneWord(word)) {
      var s: Task, copy: Task :| IsCopy(copy, s) && Canon(s) == Canon(OneWord(word)) && Canon(u) == Canon(copy);
      TaggedIsCopy(copy, s);
      NoTextNoLine(s);
      FirstToken(s);
      FirstToken(Tagged(s));
    }
  }

  lemma NoTextNoLine(s: Task)
    ensures s.text == [] ==> Canon(s) == []
  {
  }

  lemma FirstToken(s: Task)
    requires s.text != []
    ensures |Canon(s)| > 1
    ensures !s.text[0].Ref? ==> Canon(s)[1] == s.text[0]
    ensures s.text[0].Ref? ==> Canon(s)[1].Ref? || Canon(s)[1].ForeignRef?
  {
    hide Gained, TagTokens, Fields, IsQiId;
    var body := Body(s);
    assert body[1] == s.text[0];
  }

  /** Two edits of one new task: the conflict keeps both, and the next verdict, with the copy on both sides, drops canon's. */
  lemma ConflictLosesAnEdit()
    ensures var c, p, synced := OneWord("x"), OneWord("y"), {"a"};
      && Conflicting(c.id, c, p, None, synced) && BothKept(c, p, Resolve(c.id, Some(c), Some(p), None, synced))
      && !BothKept(c, p, Resolve(c.id, Some(Tagged(p)), Some(Tagged(p)), None, synced))
  {
    ExampleLines();
    hide Canon, Resolve, Carries, Tagged, BothKept, Conflicting;
    NewConflictLosesAnEdit(OneWord("x").id, OneWord("x"), OneWord("y"), {"a"});
  }

  lemma ExampleLines()
    ensures Canon(OneWord("x")) != Canon(OneWord("y")) && !Carries(Tagged(OneWord("y")), Canon(OneWord("x")))
  {
    FirstToken(OneWord("x"));
    FirstToken(OneWord("y"));
    FirstToken(Tagged(OneWord("y")));
    hide Canon, Carries;
    if Carries(Tagged(OneWord("y")), Canon(OneWord("x"))) {
      CarriesFirstWord(Tagged(OneWord("y")), "x");
    }
  }

  lemma NewConflictLosesAnEdit(id: string, c: Task, p: Task, synced: set<string>)
    requires c.project in synced && Canon(c) != Canon(p) && !Carries(Tagged(p), Canon(c))
    ensures Conflicting(id, c, p, None, synced) && BothKept(c, p, Resolve(id, Some(c), Some(p), None, synced))
    ensures !BothKept(c, p, Resolve(id, Some(Tagged(p)), Some(Tagged(p)), None, synced))
  {
    hide Canon, Resolve, Carries, Tagged;
    VerdictOnTwo(id, c, p, None, synced);
    VerdictOnTwo(id, Tagged(p), Tagged(p), None, synced);
    ConflictMeansBothEdited(id, Some(c), Some(p), None, synced);
    var first, second := Resolve(id, Some(c), Some(p), None, synced), Resolve(id, Some(Tagged(p)), Some(Tagged(p)), None, synced);
    TaggedCarries(Tagged(p), p);
    LineCarries(c);
    assert first.canon[0] == c && first.canon[1] == Tagged(p);
    OnlyOne(Tagged(p), second, Canon(c));
  }

  lemma LineCarries(c: Task)
    ensures Carries(c, Canon(c))
  {
  }
}
