/**
 A repeated reconcile is a no-op (internal/sync/render.go:14-19): what a settled pass has left,
 the next pass renders byte for byte.
 */
module SyncIdle {
  import opened Common
  import opened TaskLine
  import opened TaskLineLaws
  import opened TaskFile
  import opened SyncEngine
  import opened SyncTask
  import opened SyncPaths
  import opened SyncPass
  import opened SyncRender
  import opened SyncTargets

  /** content is what the pass renders at path over a prior file. */
  ghost predicate RenderedFrom(cfg: Config, g: Gathered, less: LineOrder, path: Path, prior: seq<Task>, content: seq<Line>) {
    exists desired :: DesiredAt(cfg, g, path, desired) && content == LinesOf(Ordered(prior, less, desired))
  }

  ghost predicate Rendered(cfg: Config, g: Gathered, less: LineOrder, path: Path, content: seq<Line>) {
    exists prior :: RenderedFrom(cfg, g, less, path, prior, content)
  }

  /** The tasks a pass knows of the file at path: a file that the scan skips is taken for absent. */
  function PriorAt(files: Files, path: Path): Result<seq<Task>, ParseError> {
    if Skipped(path) then Ok([]) else TasksIn(LinesAt(files, path))
  }

  /** content is what the pass renders over what it knows of the file. */
  ghost predicate RenderedOver(cfg: Config, g: Gathered, less: LineOrder, before: Files, path: Path, content: seq<Line>) {
    PriorAt(before, path).Ok? && RenderedFrom(cfg, g, less, path, PriorAt(before, path).value, content)
  }

  /** No gathered id is empty. */
  predicate Named(g: Gathered) {
    "" !in IdsOf(g)
  }

  ghost predicate Calm(cfg: Config, less: LineOrder, g: Gathered) {
    cfg.Valid() && StrictTotal(less) && AllSettled(cfg, g) && ConflictFree(cfg, g) && AllReadAgain(cfg, g) && Named(g)
  }

  /** Files and base as a settled, conflict-free pass leaves them. */
  ghost predicate LeftBy(cfg: Config, less: LineOrder, g: Gathered, files: Files, base: map<string, SyncBase>) {
    && Calm(cfg, less, g) && Committed(cfg, g, base)
    && forall path :: !Skipped(path) ==> Rendered(cfg, g, less, path, LinesAt(files, path))
  }

  ghost predicate Quiet(cfg: Config, less: LineOrder, files: Files, base: map<string, SyncBase>) {
    exists g :: LeftBy(cfg, less, g, files, base)
  }

  lemma LeftIsWritten(cfg: Config, less: LineOrder, g: Gathered, files: Files, base: map<string, SyncBase>)
    requires LeftBy(cfg, less, g, files, base)
    ensures Written(cfg, g, files)
  {
    hide Calm, DesiredAt, Ordered, LinesOf, Committed, WantsLine, Skipped;
    forall path: Path | !Skipped(path)
      ensures WrittenAt(cfg, g, files, path)
    {
      assert Rendered(cfg, g, less, path, LinesAt(files, path));
      var prior :| RenderedFrom(cfg, g, less, path, prior, LinesAt(files, path));
      var desired :| DesiredAt(cfg, g, path, desired) && LinesAt(files, path) == LinesOf(Ordered(prior, less, desired));
      RenderedIsWanted(cfg, g, path, prior, less, desired);
    }
  }

  // ----- the desired tasks of a calm pass -----

  /** Every task wanted somewhere is clean, named, and the only one of its id there. */
  lemma DesiredIsClean(cfg: Config, less: LineOrder, g: Gathered, path: Path, desired: seq<Task>)
    requires Calm(cfg, less, g) && DesiredAt(cfg, g, path, desired)
    ensures forall t :: t in desired ==> Clean(t) && t.id != "" && Wants(cfg, g, path, t.id, t)
  {
    hide Canon, Clean, Stable, Wants, ResolveAt, StrictTotal, AllReadAgain, KeepsVerdictOrder;
    forall t | t in desired
      ensures Clean(t) && t.id != "" && Wants(cfg, g, path, t.id, t)
    {
      var id :| Wants(cfg, g, path, id, t);
      WantedIsGathered(cfg, g, path, id, t);
      WantedId(cfg, g, path, id, t);
    }
  }

  lemma WantedId(cfg: Config, g: Gathered, path: Path, id: string, t: Task)
    requires Wants(cfg, g, path, id, t) && Named(g)
    ensures id != ""
  {
    hide ResolveAt, LandsOn;
  }

  lemma DesiredIsSingle(cfg: Config, less: LineOrder, g: Gathered, path: Path, desired: seq<Task>)
    requires Calm(cfg, less, g) && DesiredAt(cfg, g, path, desired)
    ensures OneLineEach(desired) && LineHasId(desired)
  {
    DesiredIsClean(cfg, less, g, path, desired);
    CleanLinesHaveIds(desired);
    hide Canon, Clean, Wants, ResolveAt, AllSettled, DesiredAt, StrictTotal, AllReadAgain;
    forall i, j | 0 <= i < |desired| && 0 <= j < |desired| && desired[i].id == desired[j].id
      ensures Canon(desired[i]) == Canon(desired[j])
    {
      WantedIsOnly(cfg, g, path, desired[i].id, desired[i]);
      WantedIsOnly(cfg, g, path, desired[j].id, desired[j]);
    }
  }

  // ----- the second pass -----

  lemma {:induction false} LinesReadBack(ts: seq<Task>)
    requires forall t :: t in ts ==> Clean(t)
    ensures var r := TasksIn(LinesOf(ts));
      r.Ok? && |r.value| == |ts| && forall i :: 0 <= i < |ts| ==> r.value[i].id == ts[i].id
  {
    hide Canon, Clean, TasksIn, LinesOf;
    if ts == [] {
      NoTasks();
      assert LinesOf(ts) == [];
    } else {
      var front, t := ts[..|ts| - 1], ts[|ts| - 1];
      LinesReadBack(front);
      assert ts == front + [t];
      LinesOfAppend(front, t);
      LineOfClean(t);
      TasksInSnoc(LinesOf(front), Canon(t));
    }
  }

  lemma NoTasks()
    ensures TasksIn([]) == Ok([])
  {
    assert Tasks([]) == [];
  }

  lemma LineOfClean(t: Task)
    requires Clean(t)
    ensures Parse(Canon(t)).Ok? && Parse(Canon(t)).value.Some? && Parse(Canon(t)).value.value.id == t.id
  {
    hide Canon, Clean, Parse, ReadBack;
    CanonReadsBack(t);
  }

  /** The rendered tasks are desired ones. */
  lemma OrderedIsDesired(prior: seq<Task>, less: LineOrder, desired: seq<Task>)
    requires forall t :: t in desired ==> Clean(t) && t.id != ""
    ensures forall t :: t in Ordered(prior, less, desired) ==> Clean(t) && t.id != ""
  {
    hide Canon, Clean;
    forall t | t in Ordered(prior, less, desired)
      ensures Clean(t) && t.id != ""
    {
      SortedMembers(prior, less, Deduped(desired, {}), t);
      DedupedMembers(desired, {}, t);
    }
  }

  lemma {:induction false} SortedMembers(prior: seq<Task>, less: LineOrder, s: seq<Task>, t: Task)
    requires t in Sorted(prior, less, s)
    ensures t in s
  {
    hide Before, EntryOf;
    if s != [] {
      InsertMembers(prior, less, s[0], Sorted(prior, less, s[1..]), t);
      if t != s[0] {
        SortedMembers(prior, less, s[1..], t);
      }
    }
  }

  lemma {:induction false} InsertMembers(prior: seq<Task>, less: LineOrder, x: Task, s: seq<Task>, t: Task)
    requires t in Insert(prior, less, x, s)
    ensures t == x || t in s
  {
    hide Before, EntryOf;
    if s != [] && Before(prior, less, EntryOf(s[0]), EntryOf(x)) && t != s[0] {
      InsertMembers(prior, less, x, s[1..], t);
    }
  }

  /** Alike verdicts want tasks that look the same to the renderer. */
  lemma SameDesired(cfg: Config, g: Gathered, g': Gathered, path: Path, desired: seq<Task>, desired': seq<Task>)
    requires DesiredAt(cfg, g, path, desired) && DesiredAt(cfg, g', path, desired')
    requires forall id :: AlikeOutcome(ResolveAt(g, cfg.Synced(), id), ResolveAt(g', cfg.Synced(), id))
    ensures forall t :: t in desired ==> exists u :: u in desired' && Alike(t, u)
  {
    hide Canon, ResolveAt, Alike, KeepsVerdictOrder;
    forall t | t in desired
      ensures exists u :: u in desired' && Alike(t, u)
    {
      var id :| Wants(cfg, g, path, id, t);
      var u := AlikeWanted(cfg, g, g', path, id, t);
      assert u in desired';
    }
  }

  lemma AlikeWanted(cfg: Config, g: Gathered, g': Gathered, path: Path, id: string, t: Task) returns (u: Task)
    requires Wants(cfg, g, path, id, t)
    requires AlikeOutcome(ResolveAt(g, cfg.Synced(), id), ResolveAt(g', cfg.Synced(), id))
    ensures Wants(cfg, g', path, id, u) && Alike(t, u)
  {
    hide Canon, Resolve, ResolveAt;
    NothingKnown(g', cfg.Synced(), id);
    var side, side' := SideOf(ResolveAt(g, cfg.Synced(), id), path.CanonFile?), SideOf(ResolveAt(g', cfg.Synced(), id), path.CanonFile?);
    assert AllAlike(side, side');
    var i :| 0 <= i < |side| && side[i] == t;
    u := side'[i];
    assert Alike(side[i], side'[i]);
  }

  ghost predicate Mirrors(a: seq<Task>, b: seq<Task>) {
    forall t :: t in a ==> exists u :: u in b && Alike(t, u)
  }

  lemma MirrorEntry(a: seq<Task>, b: seq<Task>, e: Entry)
    requires Mirrors(a, b) && HasEntry(a, e)
    ensures HasEntry(b, e)
  {
    hide Canon;
    var i :| 0 <= i < |a| && EntryOf(a[i]) == e;
    assert a[i] in a;
    var u :| u in b && Alike(a[i], u);
    var j :| 0 <= j < |b| && b[j] == u;
    assert EntryOf(b[j]) == e;
  }

  lemma MirrorIsSingle(a: seq<Task>, b: seq<Task>)
    requires Mirrors(b, a) && OneLineEach(a) && LineHasId(a)
    ensures OneLineEach(b) && LineHasId(b)
  {
    hide Canon;
    forall i, j | 0 <= i < |b| && 0 <= j < |b|
      ensures b[i].id == b[j].id ==> Canon(b[i]) == Canon(b[j])
      ensures Canon(b[i]) == Canon(b[j]) && Canon(b[i]) != [] ==> b[i].id == b[j].id
    {
      assert b[i] in b && b[j] in b;
      var t :| t in a && Alike(b[i], t);
      var u :| u in a && Alike(b[j], u);
      var k :| 0 <= k < |a| && a[k] == t;
      var l :| 0 <= l < |a| && a[l] == u;
    }
  }

  /** The same tasks over the file's own tasks render to the same file. */
  lemma RenderedAgain(prior: seq<Task>, less: LineOrder, desired: seq<Task>, desired': seq<Task>)
    requires StrictTotal(less) && OneLineEach(desired) && LineHasId(desired)
    requires forall t :: t in desired ==> Clean(t) && t.id != ""
    requires Mirrors(desired, desired') && Mirrors(desired', desired)
    ensures var lines := LinesOf(Ordered(prior, less, desired));
      TasksIn(lines).Ok? && LinesOf(Ordered(TasksIn(lines).value, less, desired')) == lines
  {
    hide Canon, Clean, Ordered, LinesOf, TasksIn, Mirrors, OneLineEach, LineHasId;
    var sorted := Ordered(prior, less, desired);
    OrderedIsDesired(prior, less, desired);
    LinesReadBack(sorted);
    MirrorIsSingle(desired, desired');
    forall e: Entry
      ensures HasEntry(desired, e) <==> HasEntry(desired', e)
    {
      if HasEntry(desired, e) {
        MirrorEntry(desired, desired', e);
      }
      if HasEntry(desired', e) {
        MirrorEntry(desired', desired, e);
      }
    }
    RenderAgain(prior, less, desired, TasksIn(LinesOf(sorted)).value, desired');
  }

  /** A gather of files that a settled pass left is of its own lines, and reaches alike verdicts. */
  lemma QuietVerdicts(cfg: Config, less: LineOrder, g: Gathered, files: Files, g': Gathered)
    requires LeftBy(cfg, less, g, files, g'.base) && Gathers(cfg, files, g')
    ensures forall id :: AlikeOutcome(ResolveAt(g, cfg.Synced(), id), ResolveAt(g', cfg.Synced(), id))
    ensures forall id :: AlikeOutcome(ResolveAt(g', cfg.Synced(), id), ResolveAt(g, cfg.Synced(), id))
  {
    LeftIsWritten(cfg, less, g, files, g'.base);
    hide ResolveAt, AllSettled, ConflictFree, AllReadAgain, Gathers, Committed, Written, AlikeOutcome, Rendered, Skipped;
    forall id
      ensures AlikeOutcome(ResolveAt(g, cfg.Synced(), id), ResolveAt(g', cfg.Synced(), id))
      ensures AlikeOutcome(ResolveAt(g', cfg.Synced(), id), ResolveAt(g, cfg.Synced(), id))
    {
      VerdictsStay(cfg, g, files, g', id);
      AlikeIsSymmetric(ResolveAt(g, cfg.Synced(), id), ResolveAt(g', cfg.Synced(), id));
    }
  }

  /** Whatever the next pass renders over the file's own tasks is the file. */
  lemma QuietContent(cfg: Config, less: LineOrder, g: Gathered, files: Files, g': Gathered, path: Path,
                     prior: seq<Task>, content: seq<Line>)
    requires LeftBy(cfg, less, g, files, g'.base) && Gathers(cfg, files, g') && !Skipped(path)
    requires TasksIn(LinesAt(files, path)) == Ok(prior) && RenderedFrom(cfg, g', less, path, prior, content)
    ensures content == LinesAt(files, path)
  {
    QuietVerdicts(cfg, less, g, files, g');
    assert Rendered(cfg, g, less, path, LinesAt(files, path));
    var first :| RenderedFrom(cfg, g, less, path, first, LinesAt(files, path));
    var desired :| DesiredAt(cfg, g, path, desired) && LinesAt(files, path) == LinesOf(Ordered(first, less, desired));
    var desired' :| DesiredAt(cfg, g', path, desired') && content == LinesOf(Ordered(prior, less, desired'));
    DesiredIsClean(cfg, less, g, path, desired);
    DesiredIsSingle(cfg, less, g, path, desired);
    hide DesiredAt, ResolveAt, AlikeOutcome, Gathers, LinesOf, Ordered, OneLineEach, LineHasId, TasksIn, AllSettled, ConflictFree,
         AllReadAgain, Skipped;
    SameDesired(cfg, g, g', path, desired, desired');
    SameDesired(cfg, g', g, path, desired', desired);
    RenderedAgain(first, less, desired, desired');
  }
}
