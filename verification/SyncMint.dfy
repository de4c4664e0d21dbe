/**
 Lines without an id (internal/sync/reconcile.go:99-117, engine.go:199-204): a new projection line gets an id and comes to
 canon, an interrupted pass may do so twice, and in the main vault such lines share the empty id.
 */
module SyncMint {
  import opened Common
  import opened TaskLine
  import opened TaskLineLaws
  import opened TaskFile
  import opened SyncEngine
  import opened SyncTask
  import opened SyncPaths
  import opened SyncPass
  import opened SyncRecovery
  import opened SyncRuns
  import opened SyncMoves
  import opened SyncIdle
  import opened SyncGather
  import Order

  function ProjHome(cfg: Config, project: string): Path
    requires project in cfg.fileOf
  {
    ProjFile(cfg.fileOf[project])
  }

  /** A pass over files that drew the given ids for new lines; none of the ids drawn was in use. */
  datatype Draw = Draw(mint: nat -> string, drawn: nat, numbers: map<Slot, nat>) {
    ghost predicate For(cfg: Config, files: Files, g: Gathered) {
      && cfg.Valid() && Keyed(g) && GathersCanon(files, g.canon)
      && Unseen(mint, drawn, cfg, files, g.base) && AllDrawn(cfg, files, mint, drawn, numbers, g)
    }

    /** The task that the new line becomes. */
    function Of(cfg: Config, files: Files, slot: Slot): Task
      requires NewLine(cfg, files, slot) && slot in numbers
    {
      NewTask(cfg, files, mint, slot, numbers[slot])
    }
  }

  /** A new line is put on both sides, under its own id and with a row. */
  lemma NewVerdict(cfg: Config, files: Files, g: Gathered, d: Draw, slot: Slot)
    requires d.For(cfg, files, g) && NewLine(cfg, files, slot)
    ensures slot in d.numbers && d.numbers[slot] < d.drawn && slot.project in cfg.fileOf
    ensures var t := d.Of(cfg, files, slot);
      && t.id == d.mint(d.numbers[slot]) && t.project == slot.project && t.id in IdsOf(g) && t.id !in g.base
      && ResolveAt(g, cfg.Synced(), t.id) == Outcome([t], [t], Upsert(RowOf(t)), [])
  {
    hide Canon, WithoutTag, Merge, IsTag, GathersCanon, Unseen, TasksOn;
    ProjectOfNewLine(cfg, files, slot);
  }

  lemma NewIsWanted(cfg: Config, files: Files, g: Gathered, d: Draw, slot: Slot)
    requires d.For(cfg, files, g) && NewLine(cfg, files, slot)
    ensures slot in d.numbers && slot.project in cfg.fileOf
    ensures var t := d.Of(cfg, files, slot);
      && Wants(cfg, g, Home(t), t.id, t) && Wants(cfg, g, ProjHome(cfg, slot.project), t.id, t)
      && (forall path, u :: Wants(cfg, g, path, t.id, u) ==> u == t && (path == Home(t) || path == ProjHome(cfg, slot.project)))
  {
    NewVerdict(cfg, files, g, d, slot);
    hide ResolveAt, NewTask, Flatten, IdsOf;
    var t := d.Of(cfg, files, slot);
    hide NewLine;
    assert t in ResolveAt(g, cfg.Synced(), t.id).canon && t in ResolveAt(g, cfg.Synced(), t.id).proj;
  }

  /** The pass wrote every file it wanted and committed its base. */
  ghost predicate CarriedOut(cfg: Config, g: Gathered, files: Files, files': Files, done: set<Path>, base: map<string, SyncBase>) {
    && Partial(cfg, g, files, files', done) && (forall path :: IsWanted(cfg, g, path) ==> path in done)
    && Committed(cfg, g, base)
  }

  lemma WantedIsThere(cfg: Config, g: Gathered, files: Files, files': Files, done: set<Path>, base: map<string, SyncBase>,
                      path: Path, id: string, t: Task)
    requires CarriedOut(cfg, g, files, files', done, base) && Wants(cfg, g, path, id, t)
    ensures Canon(t) != [] ==> Canon(t) in LinesAt(files', path)
  {
    hide Canon, Wants, KeepsOrder, Committed;
    assert IsWanted(cfg, g, path);
    assert WrittenAt(cfg, g, files', path);
    assert Canon(t) != [] ==> WantsLine(cfg, g, path, Canon(t));
  }

  /**
   After a pass that was carried out, every new line of a projection is in canon and in the projection, under an id that no
   other new line has, with its base row; and a clean one reads back under that id.
   */
  lemma NewLineArrives(cfg: Config, files: Files, g: Gathered, d: Draw, files': Files, done: set<Path>, base: map<string, SyncBase>,
                       slot: Slot)
    requires d.For(cfg, files, g) && NewLine(cfg, files, slot) && CarriedOut(cfg, g, files, files', done, base)
    ensures slot in d.numbers && slot.project in cfg.fileOf
    ensures var t, line := d.Of(cfg, files, slot), TasksOn(cfg, files, slot.project)[slot.index];
      && t.project == slot.project && t.text == line.text && t.completed == line.completed && t.completedAt == line.completedAt
      && t.due == line.due && t.scheduled == line.scheduled && t.recurrence == line.recurrence && t.parentId == line.parentId
      && t.tags != [] && t.tags[0] == slot.project && forall tag :: tag in t.tags <==> tag == slot.project || tag in line.tags
    ensures var t := d.Of(cfg, files, slot);
      && Lookup(base, t.id) == Some(RowOf(t))
      && (Canon(t) != [] ==> Canon(t) in LinesAt(files', CanonFile(Flatten(slot.project))))
      && (Canon(t) != [] ==> Canon(t) in LinesAt(files', ProjFile(cfg.fileOf[slot.project])))
      && (Clean(t) ==> Canon(t) != [] && ReadLine(Canon(t)) == Some(ReadBack(t)) && ReadBack(t).id == t.id)
    ensures forall other :: NewLine(cfg, files, other) && other != slot ==>
              other in d.numbers && d.Of(cfg, files, other).id != d.Of(cfg, files, slot).id
  {
    NewIsWanted(cfg, files, g, d, slot);
    NewVerdict(cfg, files, g, d, slot);
    var t := d.Of(cfg, files, slot);
    SameButOwned(TasksOn(cfg, files, slot.project)[slot.index], t.id, slot.project);
    ApartIds(cfg, files, g, d, slot);
    hide Canon, ResolveAt, NewTask, Flatten, IdsOf, Wants, Partial, Clean, ReadBack, ReadLine, Unseen, AllDrawn, GathersCanon, NewLine, Keyed;
    WantedIsThere(cfg, g, files, files', done, base, Home(t), t.id, t);
    WantedIsThere(cfg, g, files, files', done, base, ProjHome(cfg, slot.project), t.id, t);
    assert Lookup(base, t.id) == ApplyOp(Lookup(g.base, t.id), ResolveAt(g, cfg.Synced(), t.id).base);
    if Clean(t) {
      CanonReadsBack(t);
    }
  }

  /** Under its new id and project a task is the same in all else. */
  lemma SameButOwned(line: Task, id: string, project: string)
    ensures var t := Forced(line.(id := id), project);
      && t.project == project && t.text == line.text && t.completed == line.completed && t.completedAt == line.completedAt
      && t.due == line.due && t.scheduled == line.scheduled && t.recurrence == line.recurrence && t.parentId == line.parentId
      && t.tags != [] && t.tags[0] == project && forall tag :: tag in t.tags <==> tag == project || tag in line.tags
  {
    WithoutTagIs(line.tags, project);
  }

  lemma ApartIds(cfg: Config, files: Files, g: Gathered, d: Draw, slot: Slot)
    requires d.For(cfg, files, g) && NewLine(cfg, files, slot)
    ensures forall other :: NewLine(cfg, files, other) && other != slot ==>
              slot in d.numbers && other in d.numbers && d.Of(cfg, files, other).id != d.Of(cfg, files, slot).id
  {
    hide Canon, WithoutTag, IsTag, GathersCanon, TasksOn, InCanon;
    forall other | NewLine(cfg, files, other) && other != slot
      ensures slot in d.numbers && other in d.numbers && d.Of(cfg, files, other).id != d.Of(cfg, files, slot).id
    {
      assert d.numbers[other] != d.numbers[slot];
    }
  }

  // ----- a cut between the two files of a new line -----

  /** What stands in canon under the drawn id after the cut is the new task, and its canon file was written. */
  lemma DrawnIsFound(cfg: Config, files: Files, g: Gathered, d: Draw, files': Files, done: set<Path>, slot: Slot, found: Task)
    requires d.For(cfg, files, g) && NewLine(cfg, files, slot) && AllClean(g) && Partial(cfg, g, files, files', done)
    requires slot in d.numbers && InCanon(files', found) && found.id == d.Of(cfg, files, slot).id
    ensures var t := d.Of(cfg, files, slot); Home(t) in done && Clean(t) && found == ReadBack(t)
  {
    NewIsWanted(cfg, files, g, d, slot);
    NewVerdict(cfg, files, g, d, slot);
    var path := CanonSource(files', found);
    hide Canon, Wants, NewTask, Flatten, ResolveAt, Clean, ReadBack, ReadLine, AllClean, AllDrawn, GathersCanon, NewLine, Keyed, KeepsOrder,
         LastWith, Skipped, WantsLine;
    if path in done {
      var line :| line in LinesAt(files', path) && ReadLine(line) == Some(found);
      assert WrittenAt(cfg, g, files', path);
      var t := WrittenLineId(cfg, g, path, line, found);
    } else {
      StoodBefore(files, files', path, found);
    }
  }

  lemma StoodBefore(files: Files, files': Files, path: Path, t: Task)
    requires StandsIn(files', path, t) && LinesAt(files', path) == LinesAt(files, path)
    ensures InCanon(files, t)
  {
    assert StandsIn(files, path, t);
  }

  lemma DrawnStands(cfg: Config, files: Files, g: Gathered, d: Draw, files': Files, done: set<Path>, g': Gathered, slot: Slot)
    requires d.For(cfg, files, g) && NewLine(cfg, files, slot) && AllClean(g) && Partial(cfg, g, files, files', done)
    requires GathersCanon(files', g'.canon) && slot in d.numbers && !Skipped(Home(d.Of(cfg, files, slot)))
    requires Home(d.Of(cfg, files, slot)) in done
    ensures d.Of(cfg, files, slot).id in g'.canon && Clean(d.Of(cfg, files, slot))
  {
    NewIsWanted(cfg, files, g, d, slot);
    var t := d.Of(cfg, files, slot);
    hide Canon, Wants, NewTask, Flatten, ResolveAt, Clean, ReadBack, ReadLine, AllClean, AllDrawn, NewLine, Keyed, KeepsOrder,
         Skipped, WantsLine, Unseen, InCanon;
    WantedIsClean(cfg, g, Home(t), t.id, t);
    CanonReadsBack(t);
    assert WantsLine(cfg, g, Home(t), Canon(t)) by {
      WantsItsLine(cfg, g, Home(t), t.id, t);
    }
    assert WrittenAt(cfg, g, files', Home(t));
    assert Reads(files', Home(t), ReadBack(t));
  }

  lemma WantsItsLine(cfg: Config, g: Gathered, path: Path, id: string, t: Task)
    requires Wants(cfg, g, path, id, t) && Canon(t) != []
    ensures WantsLine(cfg, g, path, Canon(t))
  {
    hide Canon, Wants;
  }

  /** A rewritten projection file has no line without an id. */
  lemma NoNewLineLeft(cfg: Config, g: Gathered, files': Files, slot: Slot)
    requires AllClean(g) && Named(g) && slot.project in cfg.fileOf && WrittenAt(cfg, g, files', ProjHome(cfg, slot.project))
    ensures !NewLine(cfg, files', slot)
  {
    hide Canon, Clean, ReadBack, ReadLine, AllClean, Skipped, TasksIn, Wants;
    if NewLine(cfg, files', slot) {
      var path := ProjHome(cfg, slot.project);
      var u := TasksOn(cfg, files', slot.project)[slot.index];
      TasksInAre(LinesAt(files', path), u);
      var line :| line in LinesAt(files', path) && ReadLine(line) == Some(u);
      var t := WrittenLineId(cfg, g, path, line, u);
      WantedId(cfg, g, path, u.id, t);
      assert false;
    }
  }

  lemma SameNewLine(cfg: Config, files: Files, files': Files, slot: Slot)
    requires NewLine(cfg, files, slot) && slot.project in cfg.fileOf
    requires LinesAt(files', ProjHome(cfg, slot.project)) == LinesAt(files, ProjHome(cfg, slot.project))
    ensures NewLine(cfg, files', slot) && TasksOn(cfg, files', slot.project) == TasksOn(cfg, files, slot.project)
  {
    hide TasksIn, Skipped;
  }

  /** After a cut the next gather finds the new task in canon and its line still new, exactly if the cut fell between the two files. */
  lemma NewLineIsDrawnAgain(cfg: Config, files: Files, g: Gathered, d: Draw, files': Files, done: set<Path>, g': Gathered, slot: Slot)
    requires d.For(cfg, files, g) && NewLine(cfg, files, slot) && AllClean(g) && Named(g) && Partial(cfg, g, files, files', done)
    requires GathersCanon(files', g'.canon) && !Skipped(CanonFile(Flatten(slot.project)))
    ensures slot in d.numbers && slot.project in cfg.fileOf
    ensures d.Of(cfg, files, slot).id in g'.canon && NewLine(cfg, files', slot) <==>
            CanonFile(Flatten(slot.project)) in done && ProjFile(cfg.fileOf[slot.project]) !in done
  {
    NewVerdict(cfg, files, g, d, slot);
    var t := d.Of(cfg, files, slot);
    hide Canon, Flatten, ResolveAt, Clean, AllClean, AllDrawn, NewLine, Keyed, KeepsOrder, Skipped, WantsLine, Unseen, InCanon, IdsOf, NewTask,
         TasksOn;
    if t.id in g'.canon {
      GatheredStands(files', g', t.id);
      DrawnIsFound(cfg, files, g, d, files', done, slot, g'.canon[t.id]);
    }
    if ProjHome(cfg, slot.project) in done {
      assert WrittenAt(cfg, g, files', ProjHome(cfg, slot.project));
      NoNewLineLeft(cfg, g, files', slot);
    } else {
      assert LinesAt(files', ProjHome(cfg, slot.project)) == LinesAt(files, ProjHome(cfg, slot.project));
      SameNewLine(cfg, files, files', slot);
    }
    if Home(t) in done {
      DrawnStands(cfg, files, g, d, files', done, g', slot);
    }
  }

  /** Such a cut is possible exactly if the canon file is written before the projection file. */
  lemma NewLineCut(cfg: Config, files: Files, g: Gathered, d: Draw, slot: Slot)
    requires d.For(cfg, files, g) && NewLine(cfg, files, slot)
    ensures slot.project in cfg.fileOf
    ensures var canon, proj := CanonFile(Flatten(slot.project)), ProjFile(cfg.fileOf[slot.project]);
      (exists files', done :: Partial(cfg, g, files, files', done) && canon in done && proj !in done) <==> Earlier(cfg, canon, proj)
  {
    NewIsWanted(cfg, files, g, d, slot);
    var t := d.Of(cfg, files, slot);
    var canon, proj := CanonFile(Flatten(slot.project)), ProjFile(cfg.fileOf[slot.project]);
    assert Home(t) == canon by { NewVerdict(cfg, files, g, d, slot); }
    hide Wants, Flatten, NewLine, NewTask, WrittenAt, Earlier, AllDrawn, Unseen, GathersCanon, Keyed, WantedPaths, Rewritten;
    assert IsWanted(cfg, g, canon) && IsWanted(cfg, g, proj);
    EarlierTotal(cfg, canon, proj);
    if Earlier(cfg, canon, proj) {
      CutIsPartial(cfg, g, files, proj);
      WantedPathsAre(cfg, g, canon);
      EarlierIrreflexive(cfg, proj);
      assert canon in Before(cfg, g, files, proj) && proj !in Before(cfg, g, files, proj);
    }
  }

  lemma FreshKeepsCanon(id: string, c: Task, p: Option<Task>, synced: set<string>)
    ensures c in Resolve(id, Some(c), p, None, synced).canon
  {
    hide Canon, Tagged;
  }

  /**
   After that cut the retry draws another id, and when it is carried out the main vault holds the one new line as two tasks,
   each under its own id.
   */
  lemma OneLineTwoTasks(cfg: Config, files: Files, g: Gathered, d: Draw, files': Files, done: set<Path>, slot: Slot,
                        g': Gathered, d': Draw, final: Files, done': set<Path>, base: map<string, SyncBase>)
    requires d.For(cfg, files, g) && NewLine(cfg, files, slot) && AllClean(g) && Partial(cfg, g, files, files', done)
    requires !Skipped(CanonFile(Flatten(slot.project))) && slot.project in cfg.fileOf
    requires CanonFile(Flatten(slot.project)) in done && ProjFile(cfg.fileOf[slot.project]) !in done
    requires d'.For(cfg, files', g') && g'.base == g.base && AllClean(g') && CarriedOut(cfg, g', files', final, done', base)
    ensures slot in d.numbers && slot in d'.numbers && NewLine(cfg, files', slot)
    ensures var t, again := d.Of(cfg, files, slot), d'.Of(cfg, files', slot);
      && again == t.(id := again.id) && again.id != t.id
      && Canon(t) in LinesAt(final, Home(ReadBack(t))) && Canon(again) in LinesAt(final, Home(again))
      && ReadLine(Canon(t)) == Some(ReadBack(t)) && ReadBack(t).id == t.id
      && ReadLine(Canon(again)) == Some(ReadBack(again)) && ReadBack(again).id == again.id
  {
    NewVerdict(cfg, files, g, d, slot);
    var t := d.Of(cfg, files, slot);
    DrawnStands(cfg, files, g, d, files', done, g', slot);
    GatheredStands(files', g', t.id);
    var c := g'.canon[t.id];
    DrawnIsFound(cfg, files, g, d, files', done, slot, c);
    assert LinesAt(files', ProjHome(cfg, slot.project)) == LinesAt(files, ProjHome(cfg, slot.project));
    SameNewLine(cfg, files, files', slot);
    NewIsWanted(cfg, files', g', d', slot);
    NewVerdict(cfg, files', g', d', slot);
    SecondDrawIsOther(cfg, files', g', d', slot, c);
    var again := d'.Of(cfg, files', slot);
    SameButId(cfg, files, files', d, d', slot);
    hide Canon, Flatten, ResolveAt, Clean, AllClean, AllDrawn, NewLine, Keyed, Partial, Skipped, WantsLine, Unseen, InCanon, IdsOf, NewTask,
         TasksOn, Wants, ReadBack, ReadLine, GathersCanon, CarriedOut;
    WantedIsClean(cfg, g', Home(again), again.id, again);
    CanonReadsBack(t);
    CanonReadsBack(again);
    FoundIsWanted(cfg, g', t.id, c);
    WantedIsThere(cfg, g', files', final, done', base, Home(c), t.id, c);
    WantedIsThere(cfg, g', files', final, done', base, Home(again), again.id, again);
  }

  /** The pair of draws of one line differ in the id alone. */
  lemma SameButId(cfg: Config, files: Files, files': Files, d: Draw, d': Draw, slot: Slot)
    requires NewLine(cfg, files, slot) && NewLine(cfg, files', slot) && slot in d.numbers && slot in d'.numbers
    requires TasksOn(cfg, files', slot.project) == TasksOn(cfg, files, slot.project)
    ensures d'.Of(cfg, files', slot) == d.Of(cfg, files, slot).(id := d'.Of(cfg, files', slot).id)
  {
    hide WithoutTag, TasksOn;
  }

  lemma SecondDrawIsOther(cfg: Config, files: Files, g: Gathered, d: Draw, slot: Slot, c: Task)
    requires d.For(cfg, files, g) && NewLine(cfg, files, slot) && InCanon(files, c)
    ensures slot in d.numbers && d.Of(cfg, files, slot).id != c.id
  {
    NewVerdict(cfg, files, g, d, slot);
    hide InCanon, AllDrawn, ResolveAt, NewLine, NewTask, GathersCanon, TasksOn;
  }

  /** An id in canon without a base row keeps its canon task. */
  lemma FoundIsWanted(cfg: Config, g: Gathered, id: string, c: Task)
    requires Lookup(g.canon, id) == Some(c) && id !in g.base
    ensures Wants(cfg, g, Home(c), id, c)
  {
    hide Resolve, Flatten;
    FreshKeepsCanon(id, c, Lookup(g.proj, id), cfg.Synced());
  }

  // ----- main-vault lines without an id -----

  /** However many lines without an id the main vault has, a pass that is carried out leaves one task of them. */
  lemma NamelessCanonLinesCollapse(cfg: Config, files: Files, g: Gathered, files': Files, path: Path, path': Path, t: Task, t': Task)
    requires AllClean(g) && "" !in g.proj && Written(cfg, g, files')
    requires path.CanonFile? && path'.CanonFile? && !Skipped(path) && !Skipped(path')
    requires Reads(files', path, t) && Reads(files', path', t') && t.id == t'.id == ""
    ensures path == path' && t == t' && "" in g.canon && t == ReadBack(g.canon[""])
  {
    hide Canon, Flatten, Clean, AllClean, Skipped, WantsLine, Wants, ReadBack, ReadLine;
    NamelessIsTheOne(cfg, g, files', path, t);
    NamelessIsTheOne(cfg, g, files', path', t');
  }

  lemma NamelessIsTheOne(cfg: Config, g: Gathered, files': Files, path: Path, t: Task)
    requires AllClean(g) && "" !in g.proj && WrittenAt(cfg, g, files', path) && path.CanonFile? && Reads(files', path, t) && t.id == ""
    ensures "" in g.canon && t == ReadBack(g.canon[""]) && path == Home(g.canon[""])
  {
    hide Canon, Flatten, Clean, AllClean, WantsLine, ReadBack, ReadLine, Resolve;
    var line :| line in LinesAt(files', path) && ReadLine(line) == Some(t);
    var u := WrittenLineId(cfg, g, path, line, t);
    OnlyCanons("", Lookup(g.canon, ""), Lookup(g.base, ""), cfg.Synced(), u);
  }

  lemma OnlyCanons(id: string, c: Option<Task>, b: Option<SyncBase>, synced: set<string>, u: Task)
    requires u in Resolve(id, c, None, b, synced).canon
    ensures c == Some(u)
  {
    hide Canon;
  }

  // ----- an input -----

  const EXAMPLE_CONFIG := Config("/v", map["a" := "/w/a.md"])
  const EXAMPLE_SLOT := Slot("a", 0)
  const EXAMPLE_ID := "qi-0000000a"

  function ExampleTask(id: string): Task {
    Task(id, [Word("w")], "a", ["a"], None, None, [], "", "", false, None)
  }

  /** "- [ ] w #a" is the only line, in a's projection file. */
  function ExampleFiles(): Files {
    map[ProjFile("/w/a.md") := [Canon(ExampleTask(""))]]
  }

  function ExampleDraw(): Draw {
    Draw(n => EXAMPLE_ID, 1, map[EXAMPLE_SLOT := 0])
  }

  lemma ExampleIsTag()
    ensures IsTag("a") && IsQiId(EXAMPLE_ID)
  {
    assert !IsDigit("a"[0]);
  }

  lemma ExampleNames()
    ensures Flatten("a") == "a" && !Skipped(ProjFile("/w/a.md")) && !Skipped(CanonFile("a"))
  {
    assert "a"[1..] == [];
    ShortIsNoConflict("a");
    BaseIsShorter("/w/a.md");
    ShortIsNoConflict(Base("/w/a.md"));
    hide IsSyncConflict, Base;
  }

  lemma ExampleIsClean()
    ensures Clean(ExampleTask(""))
  {
    ExampleIsTag();
    hide IsTag, IsQiId;
  }

  lemma OneLineRead(t: Task)
    requires Clean(t)
    ensures TasksIn([Canon(t)]) == Ok([ReadBack(t)]) && ReadBack(t).id == t.id
  {
    CanonReadsBack(t);
    LineOfClean(t);
    NoTasks();
    TasksInSnoc([], Canon(t));
    hide Canon, ReadBack, Clean, TasksIn;
    assert [] + [Canon(t)] == [Canon(t)] && [] + [ReadBack(t)] == [ReadBack(t)];
  }

  lemma ExampleLines()
    ensures TasksOn(EXAMPLE_CONFIG, ExampleFiles(), "a") == [ReadBack(ExampleTask(""))] && ReadBack(ExampleTask("")).id == ""
    ensures forall project :: project != "a" ==> TasksOn(EXAMPLE_CONFIG, ExampleFiles(), project) == []
  {
    hide Clean, Canon, ReadBack, Skipped, TasksIn;
    ExampleIsClean();
    ExampleNames();
    OneLineRead(ExampleTask(""));
    assert LinesAt(ExampleFiles(), ProjFile(EXAMPLE_CONFIG.fileOf["a"])) == [Canon(ExampleTask(""))];
    hide ExampleTask, ExampleFiles;
  }

  lemma ExampleSlot(slot: Slot)
    ensures NewLine(EXAMPLE_CONFIG, ExampleFiles(), slot) <==> slot == EXAMPLE_SLOT
  {
    hide Canon, ReadBack, TasksOn, ExampleFiles, ExampleTask;
    ExampleLines();
  }

  lemma ExampleIsNew()
    ensures NewLine(EXAMPLE_CONFIG, ExampleFiles(), EXAMPLE_SLOT)
  {
    ExampleSlot(EXAMPLE_SLOT);
  }

  /** Its canon file comes before its projection file, so a cut falls between the two. */
  lemma ExampleCut() returns (g: Gathered, files': Files, done: set<Path>)
    ensures ExampleDraw().For(EXAMPLE_CONFIG, ExampleFiles(), g) && NewLine(EXAMPLE_CONFIG, ExampleFiles(), EXAMPLE_SLOT)
    ensures Partial(EXAMPLE_CONFIG, g, ExampleFiles(), files', done) && CanonFile("a") in done && ProjFile("/w/a.md") !in done
  {
    ExampleLines();
    ExampleNames();
    ExampleIsTag();
    g := ExampleGather();
    ExampleOrder();
    hide IsTag, IsQiId, Flatten, Skipped, Earlier, ExampleFiles, TasksOn, NewLine, Partial;
    NewLineCut(EXAMPLE_CONFIG, ExampleFiles(), g, ExampleDraw(), EXAMPLE_SLOT);
    files', done :| Partial(EXAMPLE_CONFIG, g, ExampleFiles(), files', done) && CanonFile("a") in done && ProjFile("/w/a.md") !in done;
  }

  function ExampleGathered(): Gathered
    requires NewLine(EXAMPLE_CONFIG, ExampleFiles(), EXAMPLE_SLOT)
  {
    Gathered(map[], map[EXAMPLE_ID := NewTask(EXAMPLE_CONFIG, ExampleFiles(), ExampleDraw().mint, EXAMPLE_SLOT, 0)], map[])
  }

  lemma ExampleGather() returns (g: Gathered)
    ensures ExampleDraw().For(EXAMPLE_CONFIG, ExampleFiles(), g) && NewLine(EXAMPLE_CONFIG, ExampleFiles(), EXAMPLE_SLOT)
  {
    hide IsTag, IsQiId, NewLine, Forced, TasksOn, ExampleFiles, Unseen, AllDrawn, GathersCanon;
    ExampleIsNew();
    ExampleIsTag();
    ForcedIs(TasksOn(EXAMPLE_CONFIG, ExampleFiles(), "a")[0].(id := EXAMPLE_ID), "a");
    g := ExampleGathered();
    ExampleCanon(g);
    ExampleUnseen(g);
    ExampleDrawn(g);
  }

  lemma ExampleCanon(g: Gathered)
    requires g.canon == map[]
    ensures GathersCanon(ExampleFiles(), g.canon)
  {
    hide Canon, ReadLine, Skipped;
  }

  lemma NothingInCanon(t: Task)
    ensures !InCanon(ExampleFiles(), t)
  {
    hide Canon, ReadLine, Skipped;
  }

  lemma ExampleUnseen(g: Gathered)
    requires g.base == map[]
    ensures Unseen(ExampleDraw().mint, 1, EXAMPLE_CONFIG, ExampleFiles(), g.base)
  {
    hide Canon, ReadBack, TasksOn, ExampleFiles, ExampleTask, InCanon;
    ExampleLines();
    forall t
      ensures !InCanon(ExampleFiles(), t)
    {
      NothingInCanon(t);
    }
  }

  lemma ExampleDrawn(g: Gathered)
    requires NewLine(EXAMPLE_CONFIG, ExampleFiles(), EXAMPLE_SLOT) && g == ExampleGathered()
    ensures AllDrawn(EXAMPLE_CONFIG, ExampleFiles(), ExampleDraw().mint, 1, ExampleDraw().numbers, g)
  {
    hide NewLine, NewTask, ExampleFiles;
    forall slot | NewLine(EXAMPLE_CONFIG, ExampleFiles(), slot)
      ensures slot == EXAMPLE_SLOT
    {
      ExampleSlot(slot);
    }
  }

  lemma ExampleOrder()
    ensures Earlier(EXAMPLE_CONFIG, CanonFile("a"), ProjFile("/w/a.md"))
  {
    Order.LessBehind("/", "v/a.md", "w/a.md");
    assert EXAMPLE_CONFIG.Text(CanonFile("a")) == "/" + "v/a.md" && "/w/a.md" == "/" + "w/a.md";
  }
}
