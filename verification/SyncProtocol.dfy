/**
 A reconcile pass interleaved with other writers (internal/sync/reconcile.go, internal/vault/guarded.go).

 Every step of the pass, every write or delete by somebody else and every crash is one event;
 an event may follow any other that its guard allows. Every write of a file, by whom ever, gives
 it an mtime it never had.
 */
module SyncProtocol {
  import opened Common
  import opened TaskLine
  import opened SyncEngine
  import opened SyncPaths
  import opened SyncPass
  import opened SyncGather
  import opened SyncStore

  /** A pass under way: what it read, what it wants, which targets it has dealt with. */
  datatype PassState = PassState(
    mtimes: map<Path, nat>,
    contents: map<Path, seq<Line>>,
    desired: Option<map<Path, seq<Line>>>,
    handled: set<Path>,
    history: seq<Files>)  // the contents of all files at every moment since the pass began

  datatype World = World(disk: Disk, clock: nat, base: map<string, SyncBase>, pass: Option<PassState>)

  datatype Event =
    | OtherWrites(path: Path, lines: seq<Line>)
    | OtherDeletes(path: Path)
    | Begin
    | ReadMtime(path: Path)
    | ReadContent(path: Path)
    | DecideAndRender(desired: map<Path, seq<Line>>)
    | FindEqual(path: Path)     // needsWrite says no
    | Write(path: Path)         // WriteGuarded succeeds
    | Refuse(path: Path)        // WriteGuarded finds another mtime: the pass is abandoned
    | Commit(base': map<string, SyncBase>)
    | Crash

  function Expected(p: PassState, path: Path): nat {
    if path in p.mtimes then p.mtimes[path] else 0
  }

  function GatheredLines(p: PassState, path: Path): seq<Line> {
    if path in p.contents then p.contents[path] else []
  }

  /** Whether e can happen in w. A file is stat'ed before it is read, and all files are read before deciding. */
  predicate Enabled(e: Event, w: World) {
    match e
    case OtherWrites(_, _) => true
    case OtherDeletes(path) => path in w.disk
    case Begin => w.pass.None?
    case ReadMtime(path) => w.pass.Some? && w.pass.value.desired.None? && path !in w.pass.value.mtimes
    case ReadContent(path) =>
      w.pass.Some? && w.pass.value.desired.None? && path in w.pass.value.mtimes && path !in w.pass.value.contents
    case DecideAndRender(desired) =>
      w.pass.Some? && w.pass.value.desired.None? && w.pass.value.contents.Keys == w.pass.value.mtimes.Keys
    case FindEqual(path) => Pending(w, path) && LinesAt(ContentOf(w.disk), path) == w.pass.value.desired.value[path]
    case Write(path) => Pending(w, path) && MtimeOf(w.disk, path) == Expected(w.pass.value, path)
    case Refuse(path) => Pending(w, path) && MtimeOf(w.disk, path) != Expected(w.pass.value, path)
    case Commit(_) =>
      w.pass.Some? && w.pass.value.desired.Some? && w.pass.value.handled == w.pass.value.desired.value.Keys
    case Crash => true
  }

  /** path is a target the pass has still to deal with. */
  predicate Pending(w: World, path: Path) {
    && w.pass.Some? && w.pass.value.desired.Some?
    && path in w.pass.value.desired.value && path !in w.pass.value.handled
  }

  /** The pass remembers the contents after this event too. */
  function Remember(p: PassState, disk: Disk): PassState {
    p.(history := p.history + [ContentOf(disk)])
  }

  function Apply(e: Event, w: World): World
    requires Enabled(e, w)
  {
    var disk :=
      match e
      case OtherWrites(path, lines) => w.disk[path := File(w.clock + 1, lines)]
      case OtherDeletes(path) => w.disk - {path}
      case Write(path) => w.disk[path := File(w.clock + 1, w.pass.value.desired.value[path])]
      case _ => w.disk;
    var clock := if e.OtherWrites? || e.Write? then w.clock + 1 else w.clock;
    var base := if e.Commit? then e.base' else w.base;
    World(disk, clock, base, NextPass(e, w, disk))
  }

  function NextPass(e: Event, w: World, disk: Disk): Option<PassState>
    requires Enabled(e, w)
  {
    match e
    case Begin => Some(PassState(map[], map[], None, {}, [ContentOf(disk)]))
    case Refuse(_) => None
    case Commit(_) => None
    case Crash => None
    case _ =>
      if w.pass.None? then None
      else
        var p := w.pass.value;
        var p' :=
          match e
          case ReadMtime(path) => p.(mtimes := p.mtimes[path := MtimeOf(w.disk, path)])
          case ReadContent(path) => p.(contents := p.contents[path := LinesAt(ContentOf(w.disk), path)])
          case DecideAndRender(desired) => p.(desired := Some(desired))
          case FindEqual(path) => p.(handled := p.handled + {path})
          case Write(path) => p.(handled := p.handled + {path})
          case _ => p;
        Some(Remember(p', disk))
  }

  // ----- the invariant -----

  predicate ClockInv(w: World) {
    forall path :: path in w.disk ==> 1 <= w.disk[path].mtime <= w.clock
  }

  /** A file that still has the mtime read before its content still has the content. */
  predicate ReadInv(w: World) {
    w.pass.Some? ==>
      var p := w.pass.value;
      && p.contents.Keys <= p.mtimes.Keys
      && (p.desired.Some? ==> p.contents.Keys == p.mtimes.Keys)
      && (forall path :: path in p.mtimes ==> p.mtimes[path] <= w.clock)
      && (forall path :: path in p.contents && path in w.disk && w.disk[path].mtime == p.mtimes[path] ==>
            w.disk[path].lines == p.contents[path])
  }

  /** Every handled target held its desired lines at some moment of this pass. */
  predicate HeldAt(history: seq<Files>, path: Path, lines: seq<Line>) {
    exists k :: 0 <= k < |history| && LinesAt(history[k], path) == lines
  }

  predicate HeldInv(w: World) {
    w.pass.Some? ==>
      var p := w.pass.value;
      && (p.desired.None? ==> p.handled == {})
      && (p.desired.Some? ==> forall path :: path in p.handled ==>
            path in p.desired.value && HeldAt(p.history, path, p.desired.value[path]))
  }

  /** The history ends with the present contents. */
  predicate HistoryInv(w: World) {
    w.pass.Some? ==> w.pass.value.history != [] && w.pass.value.history[|w.pass.value.history| - 1] == ContentOf(w.disk)
  }

  predicate Inv(w: World) {
    ClockInv(w) && ReadInv(w) && HeldInv(w) && HistoryInv(w)
  }

  lemma ClockStays(e: Event, w: World)
    requires Enabled(e, w) && ClockInv(w)
    ensures ClockInv(Apply(e, w))
  {
  }

  lemma ReadStays(e: Event, w: World)
    requires Enabled(e, w) && ClockInv(w) && ReadInv(w)
    ensures ReadInv(Apply(e, w))
  {
  }

  lemma HistoryStays(e: Event, w: World)
    requires Enabled(e, w) && HistoryInv(w)
    ensures HistoryInv(Apply(e, w))
  {
  }

  lemma HeldLater(history: seq<Files>, next: Files, path: Path, lines: seq<Line>)
    requires HeldAt(history, path, lines) || LinesAt(next, path) == lines
    ensures HeldAt(history + [next], path, lines)
  {
    var later := history + [next];
    if HeldAt(history, path, lines) {
      var k :| 0 <= k < |history| && LinesAt(history[k], path) == lines;
      assert later[k] == history[k];
    } else {
      assert later[|history|] == next;
    }
  }

  lemma HeldStays(e: Event, w: World)
    requires Enabled(e, w) && HeldInv(w) && HistoryInv(w)
    ensures HeldInv(Apply(e, w))
  {
    hide HeldAt;
    var w' := Apply(e, w);
    if w'.pass.Some? && w.pass.Some? && w'.pass.value.desired.Some? {
      var next := ContentOf(w'.disk);
      forall path | path in w'.pass.value.handled
        ensures path in w'.pass.value.desired.value
        ensures HeldAt(w'.pass.value.history, path, w'.pass.value.desired.value[path])
      {
        HeldLater(w.pass.value.history, next, path, w'.pass.value.desired.value[path]);
      }
    }
  }

  // ----- every run -----

  /** A run from a quiet world: events one after the other, each enabled where it happens. */
  ghost predicate IsRun(worlds: seq<World>, events: seq<Event>) {
    && |worlds| == |events| + 1
    && worlds[0].pass.None? && ClockInv(worlds[0])
    && (forall i :: 0 <= i < |events| ==> Enabled(events[i], worlds[i]) && worlds[i + 1] == Apply(events[i], worlds[i]))
  }

  lemma {:induction false} InvAlongRun(worlds: seq<World>, events: seq<Event>, n: nat)
    requires IsRun(worlds, events) && n < |worlds|
    ensures Inv(worlds[n])
  {
    hide Enabled, Apply, ClockInv, ReadInv, HeldInv, HistoryInv;
    if n == 0 {
      QuietWorld(worlds[0]);
    } else {
      InvAlongRun(worlds, events, n - 1);
      var e, w := events[n - 1], worlds[n - 1];
      ClockStays(e, w);
      ReadStays(e, w);
      HeldStays(e, w);
      HistoryStays(e, w);
      assert worlds[n] == Apply(e, w);
    }
  }

  lemma QuietWorld(w: World)
    requires w.pass.None? && ClockInv(w)
    ensures Inv(w)
  {
  }

  /**
   No write loses an edit: in every run, a write that replaces a file replaces the very lines the
   pass gathered from it, with the mtime it gathered.
   */
  lemma WritesReplaceGathered(worlds: seq<World>, events: seq<Event>, i: nat)
    requires IsRun(worlds, events) && i < |events| && events[i].Write?
    ensures var w, path := worlds[i], events[i].path;
      path in w.disk ==>
        && path in w.pass.value.contents && w.disk[path].lines == w.pass.value.contents[path]
        && path in w.pass.value.mtimes && w.disk[path].mtime == w.pass.value.mtimes[path]
  {
    InvAlongRun(worlds, events, i);
  }

  /**
   Exactly when the written-over contents are the gathered ones: unless the file is absent and lines
   were gathered from it. That takes a file created after its stat and deleted before the write.
   */
  lemma GatheredIsCurrent(worlds: seq<World>, events: seq<Event>, i: nat)
    requires IsRun(worlds, events) && i < |events| && events[i].Write?
    ensures var w, path := worlds[i], events[i].path;
      LinesAt(ContentOf(w.disk), path) == GatheredLines(w.pass.value, path) <==>
      path in w.disk || GatheredLines(w.pass.value, path) == []
  {
    InvAlongRun(worlds, events, i);
  }

  /** The gather of a file that appears between its stat and its read, seen from the world before the pass. */
  lemma GathersLate(path: Path, lines: seq<Line>) returns (worlds: seq<World>, events: seq<Event>)
    ensures IsRun(worlds, events) && |events| == 4 && worlds[0] == World(map[], 0, map[], None)
    ensures worlds[4].disk == map[path := File(1, lines)] && worlds[4].pass.Some?
    ensures var p := worlds[4].pass.value;
      p.mtimes == map[path := 0] && p.contents == map[path := lines] && p.desired.None? && p.handled == {}
  {
    hide ContentOf;
    var w0 := World(map[], 0, map[], None);
    var w1 := Apply(Begin, w0);
    var w2 := Apply(ReadMtime(path), w1);
    var w3 := Apply(OtherWrites(path, lines), w2);
    var w4 := Apply(ReadContent(path), w3);
    assert LinesAt(ContentOf(w3.disk), path) == lines by {
      ContentAt(w3.disk, path);
    }
    worlds := [w0, w1, w2, w3, w4];
    events := [Begin, ReadMtime(path), OtherWrites(path, lines), ReadContent(path)];
  }

  lemma ContentAt(disk: Disk, path: Path)
    ensures LinesAt(ContentOf(disk), path) == if path in disk then disk[path].lines else []
  {
  }

  /** Such a run: the file appears between stat and read, and is deleted before the write. */
  lemma GuardFooled(path: Path, lines: seq<Line>, wanted: seq<Line>) returns (worlds: seq<World>, events: seq<Event>)
    ensures IsRun(worlds, events) && |events| == 7 && events[6] == Write(path)
    ensures LinesAt(ContentOf(worlds[6].disk), path) == [] && GatheredLines(worlds[6].pass.value, path) == lines
  {
    hide ContentOf;
    worlds, events := GathersLate(path, lines);
    var w5 := Apply(OtherDeletes(path), worlds[4]);
    var w6 := Apply(DecideAndRender(map[path := wanted]), w5);
    ContentAt(w6.disk, path);
    var w7 := Apply(Write(path), w6);
    worlds := worlds + [w5, w6, w7];
    events := events + [OtherDeletes(path), DecideAndRender(map[path := wanted]), Write(path)];
  }

  /** e neither ends the pass nor is its write of the file at path; somebody else may edit or delete the file again. */
  predicate Continues(e: Event, path: Path) {
    match e
    case Write(p) => p != path
    case Refuse(_) => false
    case Commit(_) => false
    case Crash => false
    case _ => true
  }

  ghost predicate DeletedBetween(events: seq<Event>, i: nat, j: nat, path: Path)
    requires j <= |events|
  {
    exists k :: i < k < j && events[k] == OtherDeletes(path)
  }

  /**
   A write by somebody else between the stat and the write makes the guard refuse; the guard passes only if the file was
   absent when it was stat'ed and somebody has deleted it since.
   */
  lemma LaterEditIsSeen(worlds: seq<World>, events: seq<Event>, i: nat, j: nat)
    requires IsRun(worlds, events) && i < j < |events|
    requires events[i].OtherWrites? && worlds[i].pass.Some? && events[i].path in worlds[i].pass.value.mtimes
    requires forall k :: i < k < j ==> Continues(events[k], events[i].path)
    ensures events[j] == Write(events[i].path) ==>
              worlds[i].pass.value.mtimes[events[i].path] == 0 && DeletedBetween(events, i, j, events[i].path)
  {
    EditStands(worlds, events, i, j);
  }

  /** The file at path is gone, or newer than the pass took it to be. */
  predicate Changed(w: World, path: Path, mtime: nat) {
    && w.pass.Some? && path in w.pass.value.mtimes && w.pass.value.mtimes[path] == mtime
    && (path in w.disk ==> mtime < w.disk[path].mtime)
  }

  lemma EditIsNewer(e: Event, w: World)
    requires ReadInv(w) && e.OtherWrites? && w.pass.Some? && e.path in w.pass.value.mtimes
    ensures var w' := Apply(e, w); Changed(w', e.path, w.pass.value.mtimes[e.path]) && e.path in w'.disk
  {
    hide ContentOf, LinesAt;
  }

  lemma StaysChanged(e: Event, w: World, path: Path, mtime: nat)
    requires Enabled(e, w) && Changed(w, path, mtime) && Continues(e, path) && mtime <= w.clock
    ensures var w' := Apply(e, w); Changed(w', path, mtime) && (path !in w'.disk && path in w.disk ==> e == OtherDeletes(path))
  {
    hide ContentOf, LinesAt;
  }

  lemma {:induction false} EditStands(worlds: seq<World>, events: seq<Event>, i: nat, j: nat)
    requires IsRun(worlds, events) && i < j <= |events|
    requires events[i].OtherWrites? && worlds[i].pass.Some? && events[i].path in worlds[i].pass.value.mtimes
    requires forall k :: i < k < j ==> Continues(events[k], events[i].path)
    ensures var path := events[i].path;
      && Changed(worlds[j], path, worlds[i].pass.value.mtimes[path])
      && (path !in worlds[j].disk ==> DeletedBetween(events, i, j, path))
  {
    hide Enabled, Apply, Continues, ClockInv, HeldInv, HistoryInv, ReadInv, Changed;
    var path := events[i].path;
    assert Enabled(events[j - 1], worlds[j - 1]) && worlds[j] == Apply(events[j - 1], worlds[j - 1]);
    InvAlongRun(worlds, events, j - 1);
    if j == i + 1 {
      EditIsNewer(events[i], worlds[i]);
    } else {
      EditStands(worlds, events, i, j - 1);
      MtimeIsPast(worlds[j - 1], path, worlds[i].pass.value.mtimes[path]);
      StaysChanged(events[j - 1], worlds[j - 1], path, worlds[i].pass.value.mtimes[path]);
    }
  }

  lemma MtimeIsPast(w: World, path: Path, mtime: nat)
    requires ReadInv(w) && Changed(w, path, mtime)
    ensures mtime <= w.clock
  {
    hide ContentOf, LinesAt;
  }

  /** The base is committed only after every target held its desired lines at some moment of the pass. */
  lemma CommitAfterAllHeld(worlds: seq<World>, events: seq<Event>, i: nat, path: Path)
    requires IsRun(worlds, events) && i < |events| && events[i].Commit?
    requires path in worlds[i].pass.value.desired.value
    ensures HeldAt(worlds[i].pass.value.history, path, worlds[i].pass.value.desired.value[path])
  {
    InvAlongRun(worlds, events, i);
  }

  /** The pass of world n began at event b: it remembers the contents of every world since. */
  predicate Remembers(worlds: seq<World>, events: seq<Event>, b: nat, n: nat)
    requires n < |worlds| == |events| + 1
  {
    && b < n && events[b].Begin? && worlds[n].pass.Some? && |worlds[n].pass.value.history| == n - b
    && forall m :: b < m <= n ==> worlds[n].pass.value.history[m - b - 1] == ContentOf(worlds[m].disk)
  }

  lemma RememberedLater(worlds: seq<World>, events: seq<Event>, b: nat, n: nat)
    requires IsRun(worlds, events) && n < |events| && Remembers(worlds, events, b, n) && worlds[n + 1].pass.Some?
    ensures Remembers(worlds, events, b, n + 1)
  {
    hide ContentOf, MtimeOf, LinesAt;
    assert worlds[n + 1] == Apply(events[n], worlds[n]);
    assert worlds[n + 1].pass.value.history == worlds[n].pass.value.history + [ContentOf(worlds[n + 1].disk)];
  }

  lemma {:induction false} PassBegan(worlds: seq<World>, events: seq<Event>, n: nat) returns (b: nat)
    requires IsRun(worlds, events) && n < |worlds| && worlds[n].pass.Some?
    ensures Remembers(worlds, events, b, n)
  {
    hide ContentOf, MtimeOf, LinesAt;
    assert worlds[n] == Apply(events[n - 1], worlds[n - 1]);
    if worlds[n - 1].pass.None? {
      b := n - 1;
    } else {
      b := PassBegan(worlds, events, n - 1);
      RememberedLater(worlds, events, b, n - 1);
    }
  }

  /** Some world after event b and up to world n has the lines at path. */
  predicate HeldSince(worlds: seq<World>, b: nat, n: nat, path: Path, lines: seq<Line>)
    requires n < |worlds|
  {
    exists m :: b < m <= n && LinesAt(ContentOf(worlds[m].disk), path) == lines
  }

  /** Event k commits a pass that began at event b, and since then every file was as the pass wants it at some moment. */
  predicate CommitsHeld(worlds: seq<World>, events: seq<Event>, b: nat, k: nat)
    requires b < k < |events| < |worlds|
  {
    && events[b].Begin? && events[k].Commit? && worlds[k].pass.Some? && worlds[k].pass.value.desired.Some?
    && forall path :: path in worlds[k].pass.value.desired.value ==>
         HeldSince(worlds, b, k, path, worlds[k].pass.value.desired.value[path])
  }

  lemma CommitHasHeld(worlds: seq<World>, events: seq<Event>, k: nat) returns (b: nat)
    requires IsRun(worlds, events) && k < |events| && events[k].Commit?
    ensures b < k && CommitsHeld(worlds, events, b, k)
  {
    b := PassBegan(worlds, events, k);
    var p := worlds[k].pass.value;
    forall path | path in p.desired.value
      ensures HeldSince(worlds, b, k, path, p.desired.value[path])
    {
      CommitAfterAllHeld(worlds, events, k, path);
      var h :| 0 <= h < |p.history| && LinesAt(p.history[h], path) == p.desired.value[path];
      assert p.history[h] == ContentOf(worlds[b + h + 1].disk);
    }
  }

  /**
   Whenever the base changes between two moments of a run, a pass has committed in between, and
   after that pass began each of its targets held, at some moment of the run, the lines it wants there.
   */
  lemma {:induction false} BaseFollowsFiles(worlds: seq<World>, events: seq<Event>, i: nat, j: nat)
    requires IsRun(worlds, events) && i <= j < |worlds| && worlds[i].base != worlds[j].base
    ensures exists b, k :: 0 <= b < k && i <= k < j && CommitsHeld(worlds, events, b, k)
  {
    hide CommitsHeld;
    if worlds[j - 1].base == worlds[j].base {
      BaseFollowsFiles(worlds, events, i, j - 1);
    } else {
      assert worlds[j] == Apply(events[j - 1], worlds[j - 1]);
      var b := CommitHasHeld(worlds, events, j - 1);
    }
  }
}
