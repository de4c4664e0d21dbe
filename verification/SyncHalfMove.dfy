/**
 A move of a canon task that is cut between its two canon files (internal/sync/reconcile.go): the old file is
 rewritten without the task, the new one is not yet written, and the base still has the old row.
 */
module SyncHalfMove {
  import opened Common
  import opened TaskLine
  import opened TaskLineLaws
  import opened SyncEngine
  import opened SyncTask
  import opened SyncPaths
  import opened SyncPass
  import opened SyncRecovery
  import opened SyncMoves
  import Order

  /** A synced task whose line in the main vault was retagged, and the projection that still has the old line. */
  datatype Move = Move(cfg: Config, moved: Task, project: string, left: Task, row: SyncBase) {
    /** The old file is written before the new one, and the scans read the files there are. */
    ghost predicate Valid() {
      && cfg.Valid() && Clean(moved) && Clean(left) && moved.id == left.id == row.id
      && Projects(cfg, project) && project == row.project && ReadBack(moved).project in cfg.fileOf
      && !Skipped(OldFile()) && Earlier(cfg, OldFile(), NewFile())
    }

    function OldFile(): Path {
      CanonFile(Flatten(project))
    }

    function NewFile(): Path {
      Home(ReadBack(moved))
    }

    /** The files before the pass. */
    function Files(): Files
      requires project in cfg.fileOf
    {
      map[OldFile() := [Canon(moved)], ProjFile(cfg.fileOf[project]) := [Canon(left)]]
    }

    function First(): Gathered {
      Gathered(map[moved.id := ReadBack(moved)], map[left.id := Forced(ReadBack(left), project)], map[row.id := row])
    }

    /** A cut between the two files, and a gather of what it left. */
    ghost predicate Halved(files': Files, done: set<Path>, g: Gathered)
      requires project in cfg.fileOf
    {
      Retried(cfg, First(), Files(), files', done, g) && OldFile() in done && NewFile() !in done
    }
  }

  lemma FilesAre(m: Move, path: Path)
    requires m.project in m.cfg.fileOf
    ensures LinesAt(m.Files(), path) == if path == m.OldFile() then [Canon(m.moved)]
            else if path == ProjFile(m.cfg.fileOf[m.project]) then [Canon(m.left)] else []
  {
    hide Canon, Flatten;
  }

  lemma OneLine(t: Task)
    requires Clean(t)
    ensures LastWith([Canon(t)], t.id) == Some(ReadBack(t))
    ensures forall u :: ReadLine(Canon(t)) == Some(u) ==> u == ReadBack(t) && u.id == t.id
  {
    hide Canon, Clean, ReadBack, ReadLine;
    CanonReadsBack(t);
    assert [Canon(t)][0] == Canon(t);
  }

  lemma FirstCanon(m: Move)
    requires m.Valid()
    ensures GathersCanon(m.Files(), m.First().canon)
  {
    hide Canon, Clean, ReadBack, ReadLine, Flatten, Skipped, LastWith, Earlier, Forced, IsTag, Reads;
    OneLine(m.moved);
    FilesAre(m, m.OldFile());
    assert StandsIn(m.Files(), m.OldFile(), ReadBack(m.moved)) by {
      CanonReadsBack(m.moved);
    }
    CanonReadsBack(m.moved);
    forall path: Path, t | path.CanonFile? && !Skipped(path) && Reads(m.Files(), path, t)
      ensures t.id == m.moved.id
    {
      FilesAre(m, path);
      ReadFromOne(m.Files(), path, m.moved, t);
    }
  }

  lemma ReadFromOne(files: Files, path: Path, t: Task, read: Task)
    requires Clean(t) && Reads(files, path, read) && (LinesAt(files, path) == [] || LinesAt(files, path) == [Canon(t)])
    ensures LinesAt(files, path) == [Canon(t)] && read == ReadBack(t) && read.id == t.id
  {
    hide Canon, Clean, ReadBack, ReadLine;
    OneLine(t);
  }

  lemma FirstProj(m: Move)
    requires m.Valid()
    ensures GathersProj(m.cfg, m.Files(), m.First().proj)
  {
    hide Canon, Clean, ReadBack, ReadLine, Flatten, Skipped, LastWith, Earlier, IsTag, Reads, WithoutTag;
    OneLine(m.left);
    CanonReadsBack(m.left);
    FilesAre(m, ProjFile(m.cfg.fileOf[m.project]));
    assert InProjection(m.cfg, m.Files(), Forced(ReadBack(m.left), m.project));
    forall project, t | Projects(m.cfg, project) && Reads(m.Files(), ProjFile(m.cfg.fileOf[project]), t)
      ensures t.id == m.left.id
    {
      FilesAre(m, ProjFile(m.cfg.fileOf[project]));
      ReadFromOne(m.Files(), ProjFile(m.cfg.fileOf[project]), m.left, t);
    }
  }

  lemma FirstVerdict(m: Move)
    requires m.Valid()
    ensures ResolveAt(m.First(), m.cfg.Synced(), m.moved.id).canon == [ReadBack(m.moved)]
    ensures ResolveAt(m.First(), m.cfg.Synced(), m.moved.id).proj == [ReadBack(m.moved)]
    ensures IdsOf(m.First()) == {m.moved.id}
  {
    hide Canon, Clean, Flatten, Forced, Merge, Fresh, Skipped, Earlier, IsTag, ReadBack;
    BackHasId(m.moved);
    EarlierIrreflexive(m.cfg, m.NewFile());
  }

  lemma BackHasId(t: Task)
    ensures ReadBack(t).id == t.id
  {
  }

  /** The pass wants one line, in the new file and in the new projection. */
  lemma FirstWants(m: Move, path: Path, line: Line)
    requires m.Valid() && WantsLine(m.cfg, m.First(), path, line)
    ensures line == Canon(m.moved) && (path.CanonFile? ==> path == m.NewFile())
  {
    hide Canon, Clean, ReadBack, ResolveAt, IdsOf, Forced, Skipped, Earlier, IsTag, Wants, Flatten;
    FirstVerdict(m);
    CanonReadsBack(m.moved);
    var id, t :| Wants(m.cfg, m.First(), path, id, t) && Canon(t) == line;
    OnlyWants(m.cfg, m.First(), path, m.moved.id, ReadBack(m.moved), id, t);
  }

  lemma OnlyWants(cfg: Config, g: Gathered, path: Path, only: string, t: Task, id: string, t': Task)
    requires IdsOf(g) == {only} && ResolveAt(g, cfg.Synced(), only).canon == ResolveAt(g, cfg.Synced(), only).proj == [t]
    requires Wants(cfg, g, path, id, t')
    ensures t' == t && (path.CanonFile? ==> path == Home(t))
  {
    hide Flatten, Resolve, IdsOf;
  }

  /** The files before the pass have the moved task, the pass keeps it, and some cut falls between its two files. */
  lemma HalfMoveHappens(m: Move) returns (files': Files, done: set<Path>, g: Gathered)
    requires m.Valid()
    ensures Gathers(m.cfg, m.Files(), m.First()) && InCanon(m.Files(), ReadBack(m.moved))
    ensures ResolveAt(m.First(), m.cfg.Synced(), m.moved.id).canon == [ReadBack(m.moved)]
    ensures m.Halved(files', done, g)
  {
    hide Canon, Clean, ReadBack, Flatten, Resolve, Partial, Forced, Skipped, Earlier, IsTag, GathersCanon, GathersProj, Rewritten,
         SomeGather, InCanon, WantedPaths, ResolveAt;
    FirstCanon(m);
    FirstProj(m);
    FirstVerdict(m);
    GatheredStands(m.Files(), m.First(), m.moved.id);
    done := Before(m.cfg, m.First(), m.Files(), m.NewFile());
    files' := Rewritten(m.cfg, m.First(), m.Files(), done);
    CutIsPartial(m.cfg, m.First(), m.Files(), m.NewFile());
    g := SomeGather(m.cfg, files', m.First().base);
    SomeGatherGathers(m.cfg, files', m.First().base);
    EarlierIrreflexive(m.cfg, m.NewFile());
  }

  /** Whatever line the cut left is the moved one or the old one, and none is in the main vault. */
  lemma LeftLines(m: Move, files': Files, done: set<Path>, g: Gathered, path: Path, line: Line)
    requires m.Valid() && m.Halved(files', done, g) && line in LinesAt(files', path)
    ensures !path.CanonFile? && (line == Canon(m.moved) || line == Canon(m.left))
  {
    hide Canon, Clean, ReadBack, Flatten, Forced, Skipped, Earlier, IsTag, Gathers, WantsLine, KeepsOrder;
    if path in done {
      assert WrittenAt(m.cfg, m.First(), files', path);
      FirstWants(m, path, line);
    } else {
      assert LinesAt(files', path) == LinesAt(m.Files(), path);
      FilesAre(m, path);
    }
  }

  lemma LeftReads(m: Move, files': Files, done: set<Path>, g: Gathered, path: Path, t: Task)
    requires m.Valid() && m.Halved(files', done, g) && Reads(files', path, t)
    ensures !path.CanonFile? && t.id == m.moved.id
  {
    hide Canon, Clean, ReadBack, ReadLine, Flatten, Forced, Skipped, Earlier, IsTag;
    var line :| line in LinesAt(files', path) && ReadLine(line) == Some(t);
    LeftLines(m, files', done, g, path, line);
    OneLine(m.moved);
    OneLine(m.left);
  }

  lemma SecondIds(m: Move, files': Files, done: set<Path>, g: Gathered, id: string)
    requires m.Valid() && m.Halved(files', done, g)
    ensures id !in g.canon && (id in g.proj ==> id == m.moved.id)
  {
    hide Canon, Clean, ReadBack, ReadLine, Flatten, Forced, Skipped, Earlier, IsTag, Reads, Partial, InCanon, InProjection;
    GathersBoth(m.cfg, files', g);
    if id in g.canon {
      GatheredStands(files', g, id);
      var path := CanonSource(files', g.canon[id]);
      LeftReads(m, files', done, g, path, g.canon[id]);
    }
    if id in g.proj {
      assert InProjection(m.cfg, files', g.proj[id]);
      var t := ProjSource(m.cfg, files', g.proj[id]);
      LeftReads(m, files', done, g, ProjFile(m.cfg.fileOf[g.proj[id].project]), t);
    }
  }

  lemma SecondVerdict(m: Move, files': Files, done: set<Path>, g: Gathered, id: string)
    requires m.Valid() && m.Halved(files', done, g)
    ensures var o := ResolveAt(g, m.cfg.Synced(), id);
      o.canon == [] && o.proj == [] && (id == m.moved.id ==> o == Gone)
  {
    SecondIds(m, files', done, g, id);
    hide Canon, Clean, Flatten, Forced, Merge, Gathers, Partial, Skipped, Earlier, IsTag, ReadBack;
  }

  /** Half a move deletes the task: every pass over what the cut left wants all its lines gone, on both sides. */
  lemma HalfMoveDeletes(m: Move, files': Files, done: set<Path>, g: Gathered, final: Files)
    requires m.Valid() && m.Halved(files', done, g) && Written(m.cfg, g, final)
    ensures ResolveAt(g, m.cfg.Synced(), m.moved.id) == Gone
    ensures forall path :: !Skipped(path) ==> LinesAt(final, path) == []
  {
    hide Skipped, Earlier, Clean, ReadBack, Flatten, Forced, Canon, ResolveAt, Partial, Gathers, WrittenAt;
    SecondVerdict(m, files', done, g, m.moved.id);
    forall path: Path | !Skipped(path)
      ensures LinesAt(final, path) == []
    {
      NothingWanted(m, files', done, g, final, path);
    }
  }

  lemma NothingWanted(m: Move, files': Files, done: set<Path>, g: Gathered, final: Files, path: Path)
    requires m.Valid() && m.Halved(files', done, g) && WrittenAt(m.cfg, g, final, path)
    ensures LinesAt(final, path) == []
  {
    hide Skipped, Earlier, Clean, ReadBack, Flatten, Forced, Canon, ResolveAt, Partial, Gathers;
    var lines := LinesAt(final, path);
    if lines != [] {
      assert lines[0] in lines;
      var id, t :| Wants(m.cfg, g, path, id, t) && Canon(t) == lines[0];
      SecondVerdict(m, files', done, g, id);
    }
  }

  /** "w #a" in a.md has been retagged "w #b". */
  function Example(): Move {
    var left := ExampleLine("a");
    Move(Config("/v", map["a" := "/p/a.md", "b" := "/p/b.md"]), ExampleLine("b"), "a", left, SyncBase(left.id, "a", Canon(left)))
  }

  function ExampleLine(project: string): Task {
    Task("qi-0000000a", [Word("w")], project, [project], None, None, [], "", "", false, None)
  }

  lemma ExampleTask(project: string)
    requires IsTag(project)
    ensures Clean(ExampleLine(project)) && ReadBack(ExampleLine(project)).project == project
  {
    var t := ExampleLine(project);
    assert TagsIn(t.text) == [] && SetOf(TagsIn(t.text)) == {};
    assert NewTags(t.tags, {}) == [project] by {
      assert t.tags[1..] == [];
    }
    assert TagTokens([project]) == [TagToken(project)];
    assert FullText(t) == [Word("w"), Tag(project)];
    assert FullText(t)[1..] == [Tag(project)] && [Tag(project)][1..] == [];
    assert TagsIn([Tag(project)]) == [project];
  }

  lemma ExampleProjects()
    ensures Example().cfg.Valid() && IsTag("a") && IsTag("b")
  {
    hide Canon;
    assert !IsDigit("a"[0]) && !IsDigit("b"[0]);
    assert IsTag("a") && IsTag("b");
    hide IsTag;
    assert "/p/a.md"[3] != "/p/b.md"[3];
  }

  lemma ExampleNames()
    ensures Flatten("a") == "a" && Flatten("b") == "b" && !Skipped(CanonFile("a")) && !Skipped(ProjFile("/p/a.md"))
  {
    assert "a"[1..] == [] && "b"[1..] == [];
    ShortIsNoConflict("a");
    BaseIsShorter("/p/a.md");
    ShortIsNoConflict(Base("/p/a.md"));
    hide IsSyncConflict, Base;
  }

  lemma ExampleOrder()
    ensures Earlier(Example().cfg, CanonFile("a"), CanonFile("b"))
  {
    hide Canon, ExampleLine;
    Order.LessBehind("/v/", "a.md", "b.md");
    assert Example().cfg.Text(CanonFile("a")) == "/v/" + "a.md" && Example().cfg.Text(CanonFile("b")) == "/v/" + "b.md";
  }

  lemma ExampleIsValid()
    ensures Example().Valid()
  {
    ExampleProjects();
    ExampleNames();
    ExampleOrder();
    hide Canon, IsTag, Skipped, Earlier, Flatten;
    ExampleTask("a");
    ExampleTask("b");
    hide Clean, ReadBack;
  }
}
