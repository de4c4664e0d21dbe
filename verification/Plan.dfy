/** Time-blocking tasks into the free slots of a day (internal/service/plan_service.go). */
module Plan {
  import opened Inserting
  import opened Text
  import opened Schedule

  /** A task: the words of its text, its project tag still inline, and the project. */
  datatype Task = Task(text: seq<Word>, project: Word)

  /** The case folding used to compare titles is a parameter. */
  datatype PlanInput = PlanInput(
    tasks: seq<Task>,
    existing: seq<Entry>,
    startMin: nat,
    blockMin: nat,
    limit: int,
    fold: seq<Word> -> seq<Word>)

  datatype Interval = Interval(start: nat, end: nat)

  // ----- free slots -----

  /** A block starting at c overlaps the interval. */
  predicate Clashes(c: nat, block: nat, iv: Interval) {
    c < iv.end && iv.start < c + block
  }

  predicate Free(c: nat, block: nat, occupied: seq<Interval>) {
    forall i :: 0 <= i < |occupied| ==> !Clashes(c, block, occupied[i])
  }

  /** The earliest free slot from the cursor on. */
  predicate EarliestFit(cursor: nat, block: nat, occupied: seq<Interval>, c: nat) {
    cursor <= c && Free(c, block, occupied) && forall d :: cursor <= d < c ==> !Free(d, block, occupied)
  }

  /** How many intervals end after c. */
  function EndingAfter(c: nat, occupied: seq<Interval>): nat {
    if occupied == [] then 0
    else EndingAfter(c, occupied[1..]) + if c < occupied[0].end then 1 else 0
  }

  lemma {:induction false} FewerEndAfter(c: nat, d: nat, occupied: seq<Interval>)
    requires c <= d
    ensures EndingAfter(d, occupied) <= EndingAfter(c, occupied)
    ensures (exists i :: 0 <= i < |occupied| && c < occupied[i].end <= d) ==> EndingAfter(d, occupied) < EndingAfter(c, occupied)
  {
    if occupied != [] {
      FewerEndAfter(c, d, occupied[1..]);
      if exists i :: 0 <= i < |occupied| && c < occupied[i].end <= d {
        var i :| 0 <= i < |occupied| && c < occupied[i].end <= d;
        assert i > 0 ==> occupied[1..][i - 1] == occupied[i];
      }
    }
  }

  /** Jumping to the end of whatever is in the way finds the earliest fit, and ends. */
  method NextFreeSlot(cursor: nat, block: nat, occupied: seq<Interval>) returns (c: nat)
    ensures EarliestFit(cursor, block, occupied, c)
  {
    c := cursor;
    while true
      invariant cursor <= c && forall d :: cursor <= d < c ==> !Free(d, block, occupied)
      decreases EndingAfter(c, occupied)
    {
      var moved := false;
      ghost var before := c;
      for i := 0 to |occupied|
        invariant !moved && c == before
        invariant forall j :: 0 <= j < i ==> !Clashes(c, block, occupied[j])
      {
        if Clashes(c, block, occupied[i]) {
          FewerEndAfter(c, occupied[i].end, occupied);
          assert forall d :: c <= d < occupied[i].end ==> Clashes(d, block, occupied[i]);
          c := occupied[i].end;
          moved := true;
          break;
        }
      }
      if !moved {
        return;
      }
    }
  }

  lemma OneEarliestFit(cursor: nat, block: nat, occupied: seq<Interval>, c: nat, d: nat)
    requires EarliestFit(cursor, block, occupied, c) && EarliestFit(cursor, block, occupied, d)
    ensures c == d
  {
  }

  // ----- titles -----

  /** The title without the project tag at the end of the text. */
  function TaskTitle(t: Task): seq<Word> {
    if t.project == "" || t.text == [] || !EndsWith(t.text[|t.text| - 1], HASH + t.project) then t.text
    else
      var rest := TrimSuffix(t.text[|t.text| - 1], HASH + t.project);
      t.text[..|t.text| - 1] + if rest == "" then [] else [rest]
  }

  /** The tag is cut off whether it stands alone or is glued to a word; any other text is the title as it is. */
  lemma TitleDropsTag(words: seq<Word>, last: Word, project: Word)
    requires project != ""
    ensures TaskTitle(Task(words + ["#" + project], project)) == words
    ensures last != "" ==> TaskTitle(Task(words + [last + ("#" + project)], project)) == words + [last]
    ensures !EndsWith(last, "#" + project) ==> TaskTitle(Task(words + [last], project)) == words + [last]
    ensures TaskTitle(Task(words, "")) == words
  {
    var tag := "#" + project;
    var glued := last + tag;
    assert glued[|glued| - |tag|..] == tag && glued[..|glued| - |tag|] == last;
    assert (words + [tag])[..|words|] == words && (words + [glued])[..|words|] == words;
    assert words + [] == words;
  }

  function Span(e: Entry): Interval {
    Interval(e.startMin, e.endMin)
  }

  function Spans(entries: seq<Entry>): (r: seq<Interval>)
    ensures |r| == |entries| && forall i :: 0 <= i < |entries| ==> r[i] == Span(entries[i])
  {
    seq(|entries|, i requires 0 <= i < |entries| => Span(entries[i]))
  }

  function Titles(entries: seq<Entry>, fold: seq<Word> -> seq<Word>): set<seq<Word>> {
    set e | e in entries :: fold(e.title)
  }

  // ----- the plan -----

  predicate Overlap(a: Entry, b: Entry) {
    a.startMin < b.endMin && b.startMin < a.endMin
  }

  predicate LimitReached(input: PlanInput, placed: nat) {
    input.limit > 0 && placed >= input.limit
  }

  /** The entry is a task's block. */
  predicate BlockOf(input: PlanInput, t: Task, e: Entry) {
    e.title == TaskTitle(t) && e.project == t.project && e.endMin == e.startMin + input.blockMin
  }

  /** Blocks follow one another, each in the earliest free slot after the one before it. */
  predicate Packed(input: PlanInput, planned: seq<Entry>) {
    forall k :: 0 <= k < |planned| ==>
      EarliestFit(CursorAt(input, planned, k), input.blockMin, Spans(input.existing) + Spans(planned[..k]), planned[k].startMin)
  }

  function CursorAt(input: PlanInput, planned: seq<Entry>, k: nat): nat
    requires k <= |planned|
  {
    if k == 0 then input.startMin else planned[k - 1].endMin
  }

  /** Every planned block is one of the tasks', in task order. */
  predicate InTaskOrder(input: PlanInput, planned: seq<Entry>, from: seq<nat>) {
    && |from| == |planned|
    && (forall k :: 0 <= k < |from| ==> from[k] < |input.tasks| && BlockOf(input, input.tasks[from[k]], planned[k]))
    && (forall j, k :: 0 <= j < k < |from| ==> from[j] < from[k])
  }

  /** No title comes twice, among the blocks or with an entry that was there. */
  predicate NoTitleTwice(input: PlanInput, planned: seq<Entry>) {
    && (forall k :: 0 <= k < |planned| ==> input.fold(planned[k].title) !in Titles(input.existing, input.fold))
    && (forall j, k :: 0 <= j < k < |planned| ==> input.fold(planned[j].title) != input.fold(planned[k].title))
  }

  /** The tasks before the n-th all have their title on the schedule. */
  predicate AllOn(input: PlanInput, planned: seq<Entry>, n: nat)
    requires n <= |input.tasks|
  {
    forall i :: 0 <= i < n ==>
      input.fold(TaskTitle(input.tasks[i])) in Titles(input.existing, input.fold) + Titles(planned, input.fold)
  }

  /** A task before the one of a block had its title on the schedule by then. */
  predicate NoneSkipped(input: PlanInput, planned: seq<Entry>, from: seq<nat>) {
    forall k :: 0 <= k < |from| ==> |from| == |planned| && from[k] <= |input.tasks| && AllOn(input, planned[..k], from[k])
  }

  predicate WithinLimit(input: PlanInput, planned: seq<Entry>) {
    input.limit > 0 ==> |planned| <= input.limit
  }

  /** Nothing is left out except for the limit. */
  predicate Complete(input: PlanInput, planned: seq<Entry>) {
    AllOn(input, planned, |input.tasks|) || LimitReached(input, |planned|)
  }

  /** What PlanBlocks gives: packed blocks of the tasks, in task order, no title twice, nothing left out but for the limit. */
  predicate PlanFor(input: PlanInput, planned: seq<Entry>, from: seq<nat>) {
    && Packed(input, planned) && InTaskOrder(input, planned, from) && NoneSkipped(input, planned, from)
    && NoTitleTwice(input, planned) && Complete(input, planned) && WithinLimit(input, planned)
  }

  /** How far the plan has come after n tasks. */
  predicate PlannedSoFar(input: PlanInput, planned: seq<Entry>, from: seq<nat>, n: nat) {
    && n <= |input.tasks|
    && Packed(input, planned) && InTaskOrder(input, planned, from) && NoneSkipped(input, planned, from)
    && NoTitleTwice(input, planned) && WithinLimit(input, planned)
    && (forall k :: 0 <= k < |from| ==> from[k] < n)
    && AllOn(input, planned, n)
  }

  method Occupy(input: PlanInput) returns (occupied: seq<Interval>, scheduled: set<seq<Word>>)
    ensures occupied == Spans(input.existing) && scheduled == Titles(input.existing, input.fold)
  {
    hide Titles;
    occupied := [];
    scheduled := {};
    NoTitles(input.fold);
    assert input.existing[..0] == [];
    for i := 0 to |input.existing|
      invariant occupied == Spans(input.existing[..i]) && scheduled == Titles(input.existing[..i], input.fold)
    {
      var e := input.existing[i];
      TitlesGrow(input.existing[..i], e, input.fold);
      assert input.existing[..i + 1] == input.existing[..i] + [e];
      occupied := occupied + [Span(e)];
      scheduled := scheduled + {input.fold(e.title)};
    }
    assert input.existing[..|input.existing|] == input.existing;
  }

  lemma NoTitles(fold: seq<Word> -> seq<Word>)
    ensures Titles([], fold) == {}
  {
  }

  method PlanBlocks(input: PlanInput) returns (planned: seq<Entry>, ghost from: seq<nat>)
    ensures PlanFor(input, planned, from)
    ensures Packed(input, planned) && NoTitleTwice(input, planned) && Complete(input, planned) && WithinLimit(input, planned)
  {
    hide Titles, EarliestFit, PlannedSoFar, Packed, InTaskOrder, NoneSkipped, NoTitleTwice, AllOn;
    var occupied, scheduled := Occupy(input);
    planned := [];
    from := [];
    NoTitles(input.fold);
    NothingPlanned(input);
    var cursor := input.startMin;
    for i := 0 to |input.tasks|
      invariant occupied == Spans(input.existing) + Spans(planned) && cursor == CursorAt(input, planned, |planned|)
      invariant scheduled == Titles(input.existing, input.fold) + Titles(planned, input.fold)
      invariant PlannedSoFar(input, planned, from, i)
    {
      if input.limit > 0 && |planned| >= input.limit {
        PlanCut(input, planned, from, i);
        return;
      }
      var task := input.tasks[i];
      var title := TaskTitle(task);
      if input.fold(title) in scheduled {
        TitleThere(input, planned, from, i);
        continue;
      }
      var start := NextFreeSlot(cursor, input.blockMin, occupied);
      var end := start + input.blockMin;
      var entry := Entry(start, end, title, task.project);
      PlaceOne(input, planned, from, i, entry);
      TitlesGrow(planned, entry, input.fold);
      SpansGrow(input.existing, planned, entry);
      planned := planned + [entry];
      from := from + [i];
      occupied := occupied + [Span(entry)];
      scheduled := scheduled + {input.fold(title)};
      cursor := end;
    }
    PlanDone(input, planned, from);
  }

  lemma SpansGrow(existing: seq<Entry>, planned: seq<Entry>, e: Entry)
    ensures Spans(existing) + Spans(planned + [e]) == Spans(existing) + Spans(planned) + [Span(e)]
  {
    assert Spans(planned + [e]) == Spans(planned) + [Span(e)];
  }

  lemma NothingPlanned(input: PlanInput)
    ensures PlannedSoFar(input, [], [], 0)
  {
  }

  lemma PlanCut(input: PlanInput, planned: seq<Entry>, from: seq<nat>, n: nat)
    requires PlannedSoFar(input, planned, from, n) && LimitReached(input, |planned|)
    ensures PlanFor(input, planned, from)
  {
    hide Packed, InTaskOrder, NoneSkipped, NoTitleTwice, AllOn;
  }

  lemma PlanDone(input: PlanInput, planned: seq<Entry>, from: seq<nat>)
    requires PlannedSoFar(input, planned, from, |input.tasks|)
    ensures PlanFor(input, planned, from)
  {
    hide Packed, InTaskOrder, NoneSkipped, NoTitleTwice, AllOn;
  }

  lemma TitleThere(input: PlanInput, planned: seq<Entry>, from: seq<nat>, n: nat)
    requires PlannedSoFar(input, planned, from, n) && n < |input.tasks|
    requires input.fold(TaskTitle(input.tasks[n])) in Titles(input.existing, input.fold) + Titles(planned, input.fold)
    ensures PlannedSoFar(input, planned, from, n + 1)
  {
    hide Packed, InTaskOrder, NoneSkipped, NoTitleTwice, TaskTitle, Titles;
  }

  lemma PlaceOne(input: PlanInput, planned: seq<Entry>, from: seq<nat>, n: nat, e: Entry)
    requires PlannedSoFar(input, planned, from, n) && n < |input.tasks| && !LimitReached(input, |planned|)
    requires BlockOf(input, input.tasks[n], e)
    requires input.fold(e.title) !in Titles(input.existing, input.fold) + Titles(planned, input.fold)
    requires EarliestFit(CursorAt(input, planned, |planned|), input.blockMin, Spans(input.existing) + Spans(planned), e.startMin)
    ensures PlannedSoFar(input, planned + [e], from + [n], n + 1)
  {
    hide Packed, NoTitleTwice, EarliestFit, TaskTitle, Titles, InTaskOrder, NoneSkipped, AllOn, BlockOf;
    PackOne(input, planned, e);
    SameLengths(input, planned, from);
    NoneSkippedSoFar(input, planned, from, n, e);
    NewTitle(input, planned, e);
    OneMoreBlock(input, planned, from, n, e);
    OneMoreOn(input, planned, n, e);
  }

  lemma OneMoreBlock(input: PlanInput, planned: seq<Entry>, from: seq<nat>, n: nat, e: Entry)
    requires InTaskOrder(input, planned, from) && n < |input.tasks| && BlockOf(input, input.tasks[n], e)
    requires forall k :: 0 <= k < |from| ==> from[k] < n
    ensures InTaskOrder(input, planned + [e], from + [n])
  {
    hide BlockOf;
  }

  lemma SameLengths(input: PlanInput, planned: seq<Entry>, from: seq<nat>)
    requires InTaskOrder(input, planned, from)
    ensures |from| == |planned|
  {
  }

  lemma NoneSkippedSoFar(input: PlanInput, planned: seq<Entry>, from: seq<nat>, n: nat, e: Entry)
    requires |from| == |planned| && NoneSkipped(input, planned, from) && n < |input.tasks| && AllOn(input, planned, n)
    ensures NoneSkipped(input, planned + [e], from + [n])
  {
    hide AllOn;
    var all := planned + [e];
    forall k | 0 <= k < |from + [n]|
      ensures (from + [n])[k] <= |input.tasks| && AllOn(input, all[..k], (from + [n])[k])
    {
      if k < |from| {
        assert all[..k] == planned[..k];
      } else {
        assert all[..k] == planned;
      }
    }
  }

  lemma OneMoreOn(input: PlanInput, planned: seq<Entry>, n: nat, e: Entry)
    requires n < |input.tasks| && AllOn(input, planned, n) && BlockOf(input, input.tasks[n], e)
    ensures AllOn(input, planned + [e], n + 1)
  {
    hide Titles, TaskTitle;
    TitlesGrow(planned, e, input.fold);
  }

  lemma TitlesGrow(entries: seq<Entry>, e: Entry, fold: seq<Word> -> seq<Word>)
    ensures Titles(entries + [e], fold) == Titles(entries, fold) + {fold(e.title)}
  {
    assert e in entries + [e];
    assert forall x :: x in entries + [e] <==> x in entries || x == e;
  }

  lemma PackOne(input: PlanInput, planned: seq<Entry>, e: Entry)
    requires Packed(input, planned)
    requires EarliestFit(CursorAt(input, planned, |planned|), input.blockMin, Spans(input.existing) + Spans(planned), e.startMin)
    ensures Packed(input, planned + [e])
  {
    hide EarliestFit, CursorAt;
    var all := planned + [e];
    forall k | 0 <= k < |all|
      ensures EarliestFit(CursorAt(input, all, k), input.blockMin, Spans(input.existing) + Spans(all[..k]), all[k].startMin)
    {
      PackedBefore(input, planned, e, k);
      hide Packed, Spans;
    }
  }

  /** Adding a block changes nothing about the blocks before it. */
  lemma PackedBefore(input: PlanInput, planned: seq<Entry>, e: Entry, k: nat)
    requires k <= |planned|
    ensures var all := planned + [e];
      CursorAt(input, all, k) == CursorAt(input, planned, k) && all[..k] == planned[..k] && planned[..|planned|] == planned
  {
    hide Packed;
  }

  lemma NewTitle(input: PlanInput, planned: seq<Entry>, e: Entry)
    requires NoTitleTwice(input, planned)
    requires input.fold(e.title) !in Titles(input.existing, input.fold) + Titles(planned, input.fold)
    ensures NoTitleTwice(input, planned + [e])
  {
    assert forall x :: x in planned ==> input.fold(x.title) in Titles(planned, input.fold);
  }

  // ----- what a packed plan is -----

  /** The task of a block has a title that the blocks before it have not. */
  lemma NewBlockTitle(input: PlanInput, planned: seq<Entry>, k: nat)
    requires NoTitleTwice(input, planned) && k < |planned|
    ensures input.fold(planned[k].title) !in Titles(input.existing, input.fold) + Titles(planned[..k], input.fold)
  {
    forall e | e in planned[..k]
      ensures input.fold(e.title) != input.fold(planned[k].title)
    {
      var j :| 0 <= j < k && planned[..k][j] == e;
      assert planned[j] == e;
    }
  }

  /** So no other plan can have passed over that task after the same blocks. */
  lemma NotPassedOver(input: PlanInput, planned: seq<Entry>, from: seq<nat>, k: nat, n: nat)
    requires InTaskOrder(input, planned, from) && NoTitleTwice(input, planned) && k < |planned| && n <= |input.tasks|
    requires AllOn(input, planned[..k], n)
    ensures n <= from[k]
  {
    hide Titles, TaskTitle;
    OnesBlock(input, planned, from, k);
    NewBlockTitle(input, planned, k);
    hide InTaskOrder, NoTitleTwice;
  }

  lemma SameBlock(input: PlanInput, a: seq<Entry>, f: seq<nat>, b: seq<Entry>, g: seq<nat>, k: nat)
    requires Packed(input, a) && InTaskOrder(input, a, f) && Packed(input, b) && InTaskOrder(input, b, g)
    requires k < |a| && k < |b| && a[..k] == b[..k] && f[k] == g[k]
    ensures a[k] == b[k]
  {
    hide TaskTitle, EarliestFit;
    OnesBlock(input, a, f, k);
    OnesBlock(input, b, g, k);
    hide InTaskOrder;
    assert k > 0 ==> a[k - 1] == a[..k][k - 1] == b[k - 1];
    assert CursorAt(input, a, k) == CursorAt(input, b, k);
    OneEarliestFit(CursorAt(input, a, k), input.blockMin, Spans(input.existing) + Spans(a[..k]), a[k].startMin, b[k].startMin);
  }

  lemma PassedOnly(input: PlanInput, planned: seq<Entry>, from: seq<nat>, k: nat)
    requires NoneSkipped(input, planned, from) && k < |from|
    ensures |from| == |planned| && from[k] <= |input.tasks| && AllOn(input, planned[..k], from[k])
  {
  }

  /** What follows the same blocks is the same block. */
  lemma NextAgrees(input: PlanInput, a: seq<Entry>, f: seq<nat>, b: seq<Entry>, g: seq<nat>, k: nat)
    requires PlanFor(input, a, f) && PlanFor(input, b, g) && k < |a| && k < |b| && a[..k] == b[..k]
    ensures |f| == |a| && |g| == |b| && a[k] == b[k] && f[k] == g[k]
  {
    hide Packed, NoTitleTwice, Complete, NoneSkipped, WithinLimit, InTaskOrder, AllOn;
    SameLengths(input, a, f);
    SameLengths(input, b, g);
    PassedOnly(input, a, f, k);
    PassedOnly(input, b, g, k);
    NotPassedOver(input, a, f, k, g[k]);
    NotPassedOver(input, b, g, k, f[k]);
    SameBlock(input, a, f, b, g, k);
  }

  /** Two plans agree as far as both go. */
  lemma {:induction false} PlansAgree(input: PlanInput, a: seq<Entry>, f: seq<nat>, b: seq<Entry>, g: seq<nat>, k: nat)
    requires PlanFor(input, a, f) && PlanFor(input, b, g) && k <= |a| == |f| && k <= |b| == |g|
    ensures a[..k] == b[..k] && f[..k] == g[..k]
  {
    hide PlanFor;
    if k > 0 {
      PlansAgree(input, a, f, b, g, k - 1);
      NextAgrees(input, a, f, b, g, k - 1);
      assert a[..k] == a[..k - 1] + [a[k - 1]] && b[..k] == b[..k - 1] + [b[k - 1]];
      assert f[..k] == f[..k - 1] + [f[k - 1]] && g[..k] == g[..k - 1] + [g[k - 1]];
    }
  }

  lemma NoneLonger(input: PlanInput, a: seq<Entry>, f: seq<nat>, b: seq<Entry>, g: seq<nat>)
    requires PlanFor(input, a, f) && PlanFor(input, b, g)
    ensures |b| <= |a|
  {
    hide Packed, NoTitleTwice, NoneSkipped, AllOn, InTaskOrder;
    SameLengths(input, a, f);
    SameLengths(input, b, g);
    if |a| < |b| {
      PlansAgree(input, a, f, b, g, |a|);
      assert a[..|a|] == a;
      assert !LimitReached(input, |a|);
      NotPassedOver(input, b, g, |a|, |input.tasks|);
      InsideTasks(input, b, g, |a|);
    }
  }

  lemma InsideTasks(input: PlanInput, planned: seq<Entry>, from: seq<nat>, k: nat)
    requires InTaskOrder(input, planned, from) && k < |planned|
    ensures |from| == |planned| && from[k] < |input.tasks|
  {
    hide TaskTitle;
  }

  /** These properties leave no choice: there is one plan for an input. */
  lemma OnePlan(input: PlanInput, a: seq<Entry>, f: seq<nat>, b: seq<Entry>, g: seq<nat>)
    requires PlanFor(input, a, f) && PlanFor(input, b, g)
    ensures a == b && f == g
  {
    hide Packed, NoTitleTwice, Complete, NoneSkipped, WithinLimit, InTaskOrder;
    SameLengths(input, a, f);
    SameLengths(input, b, g);
    NoneLonger(input, a, f, b, g);
    NoneLonger(input, b, g, a, f);
    PlansAgree(input, a, f, b, g, |a|);
    assert a[..|a|] == a && b[..|a|] == b && f[..|a|] == f && g[..|a|] == g;
  }

  lemma PackedFree(input: PlanInput, planned: seq<Entry>, from: seq<nat>, k: nat)
    requires Packed(input, planned) && InTaskOrder(input, planned, from) && k < |planned|
    ensures CursorAt(input, planned, k) <= planned[k].startMin
    ensures Free(planned[k].startMin, input.blockMin, Spans(input.existing) + Spans(planned[..k]))
    ensures planned[k].endMin == planned[k].startMin + input.blockMin
  {
    hide InTaskOrder, TaskTitle, Free;
    assert EarliestFit(CursorAt(input, planned, k), input.blockMin, Spans(input.existing) + Spans(planned[..k]), planned[k].startMin);
    OnesBlock(input, planned, from, k);
  }

  lemma OnesBlock(input: PlanInput, planned: seq<Entry>, from: seq<nat>, k: nat)
    requires InTaskOrder(input, planned, from) && k < |planned|
    ensures from[k] < |input.tasks| && BlockOf(input, input.tasks[from[k]], planned[k])
  {
    hide TaskTitle;
  }

  /** Blocks come in order: each starts where the one before has ended or later. */
  lemma {:induction false} PackedInOrder(input: PlanInput, planned: seq<Entry>, from: seq<nat>, j: nat, k: nat)
    requires Packed(input, planned) && InTaskOrder(input, planned, from) && j < k < |planned|
    ensures planned[j].endMin <= planned[k].startMin
  {
    hide Packed, InTaskOrder;
    PackedFree(input, planned, from, k);
    if j < k - 1 {
      PackedFree(input, planned, from, k - 1);
      PackedInOrder(input, planned, from, j, k - 1);
    }
  }

  lemma {:induction false} PackedStart(input: PlanInput, planned: seq<Entry>, from: seq<nat>, k: nat)
    requires Packed(input, planned) && InTaskOrder(input, planned, from) && k < |planned|
    ensures input.startMin <= planned[k].startMin
  {
    hide Packed, InTaskOrder;
    PackedFree(input, planned, from, k);
    if k > 0 {
      PackedFree(input, planned, from, k - 1);
      PackedStart(input, planned, from, k - 1);
    }
  }

  /** No planned block overlaps an entry that was there, and no two planned blocks overlap. */
  lemma PlanIsDisjoint(input: PlanInput, planned: seq<Entry>, from: seq<nat>)
    requires Packed(input, planned) && InTaskOrder(input, planned, from)
    ensures forall k, e :: 0 <= k < |planned| && e in input.existing ==> !Overlap(planned[k], e)
    ensures forall j, k :: 0 <= j < k < |planned| ==> !Overlap(planned[j], planned[k])
    ensures forall k :: 0 <= k < |planned| ==> input.startMin <= planned[k].startMin
  {
    forall k, e | 0 <= k < |planned| && e in input.existing
      ensures !Overlap(planned[k], e)
    {
      PackedFree(input, planned, from, k);
      var i :| 0 <= i < |input.existing| && input.existing[i] == e;
      var all := Spans(input.existing) + Spans(planned[..k]);
      assert all[i] == Span(e);
      assert !Clashes(planned[k].startMin, input.blockMin, all[i]);
    }
    hide Packed, InTaskOrder;
    forall j, k | 0 <= j < k < |planned|
      ensures !Overlap(planned[j], planned[k])
    {
      PackedInOrder(input, planned, from, j, k);
    }
    forall k | 0 <= k < |planned|
      ensures input.startMin <= planned[k].startMin
    {
      PackedStart(input, planned, from, k);
    }
  }

  // ----- merging -----

  function InsertByStart(sorted: seq<Entry>, e: Entry): seq<Entry> {
    if sorted != [] && e.startMin < sorted[|sorted| - 1].startMin
    then InsertByStart(sorted[..|sorted| - 1], e) + [sorted[|sorted| - 1]]
    else sorted + [e]
  }

  /** The stable sort by start time. */
  function SortByStart(entries: seq<Entry>): seq<Entry> {
    if entries == [] then []
    else InsertByStart(SortByStart(entries[..|entries| - 1]), entries[|entries| - 1])
  }

  function RenderAll(entries: seq<Entry>): (r: seq<Line>)
    ensures |r| == |entries| && forall i :: 0 <= i < |entries| ==> r[i] == Render(entries[i])
  {
    seq(|entries|, i requires 0 <= i < |entries| => Render(entries[i]))
  }

  /** All entries, each once, by their start; those that start together stay in the order they had. */
  ghost predicate SortedAt(entries: seq<Entry>, sorted: seq<Entry>, at: seq<nat>) {
    && |at| == |sorted| == |entries|
    && (forall k :: 0 <= k < |at| ==> at[k] < |entries| && sorted[k] == entries[at[k]])
    && (forall i :: 0 <= i < |entries| ==> i in at)
    && (forall j, k :: 0 <= j < k < |at| ==> NoLater(sorted, at, j, k))
  }

  predicate NoLater(sorted: seq<Entry>, at: seq<nat>, j: nat, k: nat)
    requires j < k < |at| == |sorted|
  {
    sorted[j].startMin < sorted[k].startMin || (sorted[j].startMin == sorted[k].startMin && at[j] < at[k])
  }

  lemma {:induction false} InsertedWhere(sorted: seq<Entry>, e: Entry) returns (p: nat)
    ensures p <= |sorted| && InsertByStart(sorted, e) == sorted[..p] + [e] + sorted[p..]
    ensures forall m :: p <= m < |sorted| ==> e.startMin < sorted[m].startMin
    ensures p > 0 ==> sorted[p - 1].startMin <= e.startMin
  {
    p := |sorted|;
    if sorted != [] && e.startMin < sorted[|sorted| - 1].startMin {
      var front, last := sorted[..|sorted| - 1], sorted[|sorted| - 1];
      p := InsertedWhere(front, e);
      assert front[..p] + [e] + front[p..] + [last] == sorted[..p] + [e] + sorted[p..];
      assert forall m :: p <= m < |front| ==> front[m] == sorted[m];
    }
  }

  lemma InsertedSorted(entries: seq<Entry>, sorted: seq<Entry>, at: seq<nat>, e: Entry, p: nat)
    requires SortedAt(entries, sorted, at) && p <= |sorted|
    requires forall m :: p <= m < |sorted| ==> e.startMin < sorted[m].startMin
    requires p > 0 ==> sorted[p - 1].startMin <= e.startMin
    ensures SortedAt(entries + [e], Inserted(sorted, p, e), Inserted(at, p, |entries|))
  {
    hide NoLater;
    var all, places := entries + [e], Inserted(at, p, |entries|);
    forall i: nat | i < |all|
      ensures i in places
    {
      InsertedHolds(at, p, |entries|, i);
    }
    InsertedPairs(entries, sorted, at, e, p);
    InsertedOrder(entries, sorted, at, e, p);
  }

  lemma InsertedOrder(entries: seq<Entry>, sorted: seq<Entry>, at: seq<nat>, e: Entry, p: nat)
    requires SortedAt(entries, sorted, at) && p <= |sorted|
    requires forall m :: p <= m < |sorted| ==> e.startMin < sorted[m].startMin
    requires p > 0 ==> sorted[p - 1].startMin <= e.startMin
    ensures var places, more := Inserted(at, p, |entries|), Inserted(sorted, p, e);
      forall j, k :: 0 <= j < k < |places| ==> NoLater(more, places, j, k)
  {
    hide NoLater;
    var places, more := Inserted(at, p, |entries|), Inserted(sorted, p, e);
    forall j: nat, k: nat | j < k < |places|
      ensures NoLater(more, places, j, k)
    {
      if k == p {
        NewBehind(entries, sorted, at, e, p, j);
      } else if j == p {
        NewInFront(sorted, at, e, |entries|, p, k);
      } else {
        OldPair(entries, sorted, at, e, p, j, k);
      }
    }
  }

  lemma NewBehind(entries: seq<Entry>, sorted: seq<Entry>, at: seq<nat>, e: Entry, p: nat, j: nat)
    requires SortedAt(entries, sorted, at) && j < p <= |sorted| && sorted[p - 1].startMin <= e.startMin
    ensures NoLater(Inserted(sorted, p, e), Inserted(at, p, |entries|), j, p)
  {
    if j < p - 1 {
      assert NoLater(sorted, at, j, p - 1);
    }
  }

  lemma NewInFront(sorted: seq<Entry>, at: seq<nat>, e: Entry, n: nat, p: nat, k: nat)
    requires |at| == |sorted| && p < k <= |sorted| && e.startMin < sorted[k - 1].startMin
    ensures NoLater(Inserted(sorted, p, e), Inserted(at, p, n), p, k)
  {
  }

  lemma OldPair(entries: seq<Entry>, sorted: seq<Entry>, at: seq<nat>, e: Entry, p: nat, j: nat, k: nat)
    requires SortedAt(entries, sorted, at) && p <= |sorted| && j < k <= |sorted| && j != p && k != p
    ensures NoLater(Inserted(sorted, p, e), Inserted(at, p, |entries|), j, k)
  {
    var j0: nat, k0: nat := if j < p then j else j - 1, if k < p then k else k - 1;
    assert NoLater(sorted, at, j0, k0);
  }

  lemma {:induction false} SortIsStable(entries: seq<Entry>) returns (at: seq<nat>)
    ensures SortedAt(entries, SortByStart(entries), at)
  {
    hide SortedAt;
    at := [];
    if entries == [] {
      NothingSorted();
    } else {
      var front, e := entries[..|entries| - 1], entries[|entries| - 1];
      assert front + [e] == entries;
      at := SortIsStable(front);
      at := SortOneMore(front, SortByStart(front), at, e);
    }
  }

  lemma SortOneMore(entries: seq<Entry>, sorted: seq<Entry>, at: seq<nat>, e: Entry) returns (places: seq<nat>)
    requires SortedAt(entries, sorted, at)
    ensures SortedAt(entries + [e], InsertByStart(sorted, e), places)
  {
    hide InsertByStart, NoLater;
    var p := InsertedWhere(sorted, e);
    InsertedSorted(entries, sorted, at, e, p);
    places := Inserted(at, p, |entries|);
  }

  lemma NothingSorted()
    ensures SortedAt([], [], [])
  {
  }

  method MergeAndRender(existing: seq<Entry>, planned: seq<Entry>) returns (lines: seq<Line>, ghost at: seq<nat>)
    ensures lines == RenderAll(SortByStart(existing + planned))
    ensures SortedAt(existing + planned, SortByStart(existing + planned), at)
    ensures |lines| == |at| && forall k :: 0 <= k < |at| ==> lines[k] == Render((existing + planned)[at[k]])
  {
    at := SortIsStable(existing + planned);
    hide Render, SortByStart, SortedAt;
    var all := SortByStart(existing + planned);
    lines := [];
    for i := 0 to |all|
      invariant lines == RenderAll(all[..i])
    {
      lines := lines + [Render(all[i])];
      assert all[..i + 1] == all[..i] + [all[i]];
    }
    assert all[..|all|] == all;
    RenderedFrom(existing + planned, all, at);
  }

  lemma RenderedFrom(entries: seq<Entry>, sorted: seq<Entry>, at: seq<nat>)
    requires SortedAt(entries, sorted, at)
    ensures |sorted| == |at| && forall k :: 0 <= k < |at| ==> at[k] < |entries| && RenderAll(sorted)[k] == Render(entries[at[k]])
  {
    hide NoLater, Render;
  }

  predicate Ascending(entries: seq<Entry>) {
    forall i, j :: 0 <= i < j < |entries| ==> entries[i].startMin <= entries[j].startMin
  }

  lemma AscendingSnoc(sorted: seq<Entry>, e: Entry)
    requires Ascending(sorted) && forall x :: x in sorted ==> x.startMin <= e.startMin
    ensures Ascending(sorted + [e])
  {
  }

  lemma {:induction false} InsertKeeps(sorted: seq<Entry>, e: Entry)
    ensures multiset(InsertByStart(sorted, e)) == multiset(sorted) + multiset{e}
  {
    if sorted != [] && e.startMin < sorted[|sorted| - 1].startMin {
      InsertKeeps(sorted[..|sorted| - 1], e);
      assert sorted == sorted[..|sorted| - 1] + [sorted[|sorted| - 1]];
    }
  }

  lemma {:induction false} InsertSorts(sorted: seq<Entry>, e: Entry)
    requires Ascending(sorted)
    ensures Ascending(InsertByStart(sorted, e))
  {
    if sorted == [] {
    } else {
      var front, last := sorted[..|sorted| - 1], sorted[|sorted| - 1];
      assert forall x :: x in sorted ==> x.startMin <= last.startMin;
      if e.startMin < last.startMin {
        InsertSorts(front, e);
        InsertKeeps(front, e);
        forall x | x in InsertByStart(front, e)
          ensures x.startMin <= last.startMin
        {
          assert x in multiset(InsertByStart(front, e));
        }
        AscendingSnoc(InsertByStart(front, e), last);
      } else {
        AscendingSnoc(sorted, e);
      }
    }
  }

  lemma {:induction false} SortSorts(entries: seq<Entry>)
    ensures Ascending(SortByStart(entries)) && multiset(SortByStart(entries)) == multiset(entries)
  {
    hide Ascending, InsertByStart;
    if entries == [] {
      NothingAscends();
    } else {
      var front, last := entries[..|entries| - 1], entries[|entries| - 1];
      SortSorts(front);
      InsertSorts(SortByStart(front), last);
      InsertKeeps(SortByStart(front), last);
      assert multiset(entries) == multiset(front) + multiset{last} by {
        assert entries == front + [last];
      }
    }
  }

  lemma NothingAscends()
    ensures Ascending([])
  {
  }

  lemma InsertLast(sorted: seq<Entry>, e: Entry)
    requires forall x :: x in sorted ==> x.startMin <= e.startMin
    ensures InsertByStart(sorted, e) == sorted + [e]
  {
    assert sorted != [] ==> sorted[|sorted| - 1] in sorted;
  }

  lemma {:induction false} SortOfSorted(entries: seq<Entry>)
    requires Ascending(entries)
    ensures SortByStart(entries) == entries
  {
    if entries != [] {
      var front, last := entries[..|entries| - 1], entries[|entries| - 1];
      SortOfSorted(front);
      InsertLast(front, last);
      hide InsertByStart;
      assert entries == front + [last];
    }
  }

  lemma ParseSnoc(lines: seq<Line>, line: Line)
    ensures Parse(lines + [line]) == Parse(lines) + if ParseLine(line).Some? then [ParseLine(line).value] else []
  {
    hide ParseLine;
    assert (lines + [line])[..|lines|] == lines;
  }

  /** Every entry of a body of renderable entries reads back, in place. */
  lemma {:induction false} ParseOfRendered(entries: seq<Entry>)
    requires forall e :: e in entries ==> Renderable(e)
    ensures Parse(RenderAll(entries)) == entries
  {
    hide Render, ParseLine, Renderable;
    if entries != [] {
      var front, last := entries[..|entries| - 1], entries[|entries| - 1];
      ParseOfRendered(front);
      RenderRoundTrip(last);
      assert RenderAll(entries) == RenderAll(front) + [Render(last)];
      ParseSnoc(RenderAll(front), Render(last));
      assert entries == front + [last];
    }
  }

  /** The merged body reads back as all the entries, sorted; merging that again gives the same body. */
  lemma MergedReadsBack(existing: seq<Entry>, planned: seq<Entry>)
    requires forall e :: e in existing + planned ==> Renderable(e)
    ensures var body := RenderAll(SortByStart(existing + planned));
      && multiset(Parse(body)) == multiset(existing + planned)
      && Ascending(Parse(body))
      && RenderAll(SortByStart(Parse(body) + [])) == body
  {
    hide Renderable, Parse, Render, SortByStart, Ascending;
    var sorted := SortByStart(existing + planned);
    SortSorts(existing + planned);
    forall e | e in sorted
      ensures Renderable(e)
    {
      assert e in multiset(existing + planned);
    }
    ParseOfRendered(sorted);
    SortOfSorted(sorted);
    assert sorted + [] == sorted;
  }

  // ----- planning again -----

  /**
   Once a plan has been merged, rendered and read back, planning again places nothing
   exactly when the limit had not cut the first plan.
   */
  lemma ReplanPlacesNothing(input: PlanInput, planned: seq<Entry>, again: seq<Entry>, from: seq<nat>)
    requires forall e :: e in input.existing + planned ==> Renderable(e)
    requires PlanFor(input.(existing := Parse(RenderAll(SortByStart(input.existing + planned)))), again, from)
    ensures again == [] <==> AllOn(input, planned, |input.tasks|)
  {
    MergedReadsBack(input.existing, planned);
    hide Renderable, Parse, RenderAll, SortByStart, Ascending, TaskTitle, Titles;
    var parsed := Parse(RenderAll(SortByStart(input.existing + planned)));
    SameTitles(parsed, input.existing + planned, input.fold);
    TitlesOfBoth(input.existing, planned, input.fold);
    NoTitles(input.fold);
    if again != [] && AllOn(input, planned, |input.tasks|) {
      FirstTitle(input.(existing := parsed), again, from);
    }
  }

  /** Planning, merging and planning again places nothing unless the first plan stopped at its limit. */
  lemma ReplanAfterPlan(input: PlanInput, planned: seq<Entry>, first: seq<nat>, again: seq<Entry>, second: seq<nat>)
    requires PlanFor(input, planned, first)
    requires forall e :: e in input.existing + planned ==> Renderable(e)
    requires PlanFor(input.(existing := Parse(RenderAll(SortByStart(input.existing + planned)))), again, second)
    ensures !LimitReached(input, |planned|) ==> again == []
  {
    hide Parse, RenderAll, SortByStart, Renderable, Packed, InTaskOrder, NoneSkipped, NoTitleTwice, AllOn;
    assert Complete(input, planned);
    ReplanPlacesNothing(input, planned, again, second);
    hide PlanFor;
  }

  lemma FirstTitle(input: PlanInput, planned: seq<Entry>, from: seq<nat>)
    requires planned != [] && InTaskOrder(input, planned, from)
    requires forall i :: 0 <= i < |input.tasks| ==> input.fold(TaskTitle(input.tasks[i])) in Titles(input.existing, input.fold)
    ensures input.fold(planned[0].title) in Titles(input.existing, input.fold)
  {
    OnesBlock(input, planned, from, 0);
    hide TaskTitle, Titles;
  }

  lemma SameTitles(a: seq<Entry>, b: seq<Entry>, fold: seq<Word> -> seq<Word>)
    requires multiset(a) == multiset(b)
    ensures Titles(a, fold) == Titles(b, fold)
  {
    assert forall e :: e in a <==> e in multiset(a);
    assert forall e :: e in b <==> e in multiset(b);
  }

  lemma TitlesOfBoth(a: seq<Entry>, b: seq<Entry>, fold: seq<Word> -> seq<Word>)
    ensures Titles(a + b, fold) == Titles(a, fold) + Titles(b, fold)
  {
    assert forall e :: e in a + b <==> e in a || e in b;
  }
}
