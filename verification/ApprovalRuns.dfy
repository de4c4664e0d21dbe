/**
 Whole runs of the approval queue: any operations in any order, with crashes at any byte of an append
 and restarts from the log (internal/approval/queue.go, restore.go, cmd/qid/main.go:122-135).
 */
module ApprovalRuns {
  import opened Common
  import opened AuditLog
  import opened Approval

  /** A crash happens during an operation's append, after `written` bytes of its line. */
  datatype Step = Call(op: Op) | Crash(op: Op, written: nat) | Close | Restart

  /** A process that has just replayed the log. */
  function Reborn(s: Setting, log: seq<AuditEntry>, size: nat): World {
    World(RestoreInto(s.hash, NOTHING_HELD, log), log, Ledger(size, |log|, {}), true)
  }

  /** Whether the record of a crashed operation was complete but for its newline. */
  predicate Kept(s: Setting, w: World, op: Op, written: nat) {
    Attempt(s, w, op).Ok? && written >= |s.codec.encode(Proposed(s, w.queue, op).value.record)|
  }

  function Next(s: Setting, w: World, step: Step): World {
    match step
    case Call(op) => Perform(s, w, op)
    case Crash(op, written) =>
      var last := if Kept(s, w, op, written) then Perform(s, w, op) else w;
      Reborn(s, last.log, last.sizes.size)
    case Close => w.(open := false)
    case Restart => Reborn(s, w.log, w.sizes.size)
  }

  function Run(s: Setting, w: World, steps: seq<Step>): World {
    if steps == [] then w else Next(s, Run(s, w, steps[..|steps| - 1]), steps[|steps| - 1])
  }

  /** A queue over an empty log. */
  const START := World(NOTHING_HELD, [], Ledger(0, 0, {}), true)

  // ----- what a restart would find -----

  /** What a restart makes of an entry: an approval is forgotten, and replay clears the reason of a finished call. */
  function Forget(p: Entry): Entry {
    if Live(p) then p.(status := Status.Pending, decidedAt := None)
    else if p.status.Denied? then p
    else p.(reason := "")
  }

  function ForgetAll(q: Held): Held {
    Held(
      map id | id in q.items.Keys + q.history.Keys && Live(Find(q, id).value) :: Forget(Find(q, id).value),
      map id | id in q.items.Keys + q.history.Keys && !Live(Find(q, id).value) :: Forget(Find(q, id).value))
  }

  /** The enqueue record carries what no transition changes. */
  predicate Enrolled(enqueue: Option<AuditEntry>, p: Entry) {
    && enqueue.Some?
    && Requeued(enqueue.value) == EnqueuedAs(p, enqueue.value.reason)
    && (Live(p) ==> p.reason == enqueue.value.reason)
  }

  function EnqueuedAs(p: Entry, reason: string): Entry {
    Entry(p.id, p.caller, p.callId, p.tool, p.params, Status.Pending, reason, p.createdAt, None, None, [], "")
  }

  /** The log's latest record tells the entry's state. */
  predicate Told(hash: Bytes -> string, latest: Option<AuditEntry>, p: Entry) {
    && latest.Some?
    && match p.status
       case Pending => (latest.value.event.Enqueue? || latest.value.event.Approve?) && Fresh(p) && p.decidedAt == None
       case Approved => latest.value.event.Approve? && Fresh(p)
       case _ =>
         && TerminalOutcomeMatches(latest.value.event, p.status)
         && latest.value.caller == p.caller && latest.value.callId == p.callId && latest.value.tool == p.tool
         && latest.value.paramsHash == hash(p.params)
         && latest.value.outcome == Some(TerminalOutcome(p.status, p.result, if p.status.Denied? then p.reason else "", p.err,
                                                         p.decidedAt, p.executedAt))
  }

  predicate Fresh(p: Entry) {
    p.executedAt == None && p.result == [] && p.err == ""
  }

  /** An id that was never given out has no record; any other is enrolled and told. */
  predicate Known(hash: Bytes -> string, log: seq<AuditEntry>, id: string, found: Option<Entry>) {
    match found
    case None => LastEnqueue(log, id) == None && Latest(log, id) == None
    case Some(p) => p.id == id && id != "" && Enrolled(LastEnqueue(log, id), p) && Told(hash, Latest(log, id), p)
  }

  ghost predicate AllKnown(s: Setting, w: World) {
    forall id :: Known(s.hash, w.log, id, Find(w.queue, id))
  }

  /** Which ids hold a reservation. */
  predicate Reserves(q: Held, id: string) {
    id in q.items && q.items[id].status.Approved?
  }

  ghost predicate Inv(s: Setting, w: World) {
    && AllKnown(s, w)
    && w.queue.items.Keys !! w.queue.history.Keys
    && (forall id :: id in w.queue.history ==> !Live(w.queue.history[id]))
    && (forall id :: id in w.sizes.reserved <==> Reserves(w.queue, id))
    && w.sizes.count == |w.log|
    && Backed(w.sizes)
  }

  lemma ReplayedKnown(s: Setting, log: seq<AuditEntry>, id: string, found: Option<Entry>)
    requires Sound(s) && Known(s.hash, log, id, found)
    ensures ReplayedId(s.hash, log, id) == if found.None? then None else Some(Forget(found.value))
  {
    if found.Some? {
      var p := found.value;
      assert s.hash(p.params) != "";
    }
  }

  // ----- every step keeps the invariant -----

  /** The entry and record of a proposed move fit together. */
  lemma MoveIsKnown(s: Setting, w: World, op: Op)
    requires AllKnown(s, w) && Proposed(s, w.queue, op).Ok?
    ensures var m := Proposed(s, w.queue, op).value;
      m.record.id == op.id && Known(s.hash, w.log + [m.record], op.id, Some(m.entry))
  {
    var m := Proposed(s, w.queue, op).value;
    Appended(w.log, m.record, op.id);
    hide LastEnqueue, Latest, TextOk, BoundedText;
    assert Known(s.hash, w.log, op.id, Find(w.queue, op.id));
  }

  lemma OthersStayKnown(s: Setting, log: seq<AuditEntry>, e: AuditEntry, id: string, found: Option<Entry>)
    requires Known(s.hash, log, id, found) && e.id != id
    ensures Known(s.hash, log + [e], id, found)
  {
    Appended(log, e, id);
    hide Latest, LastEnqueue;
  }

  lemma PerformKnows(s: Setting, w: World, op: Op)
    requires AllKnown(s, w)
    ensures AllKnown(s, Perform(s, w, op))
  {
    var after := Perform(s, w, op);
    if Attempt(s, w, op).Ok? {
      MoveIsKnown(s, w, op);
      hide Known, Proposed, Admitted;
      var m := Proposed(s, w.queue, op).value;
      forall id
        ensures Known(s.hash, after.log, id, Find(after.queue, id))
      {
        assert Known(s.hash, w.log, id, Find(w.queue, id));
        if id != op.id {
          OthersStayKnown(s, w.log, m.record, id, Find(w.queue, id));
        }
      }
    }
  }

  /** How an operation changes who holds a reservation. */
  lemma MoveReserves(s: Setting, w: World, op: Op)
    requires Proposed(s, w.queue, op).Ok?
    ensures var m := Proposed(s, w.queue, op).value;
      && (op.id in w.queue.history ==> op.id in w.queue.items)
      && (m.record.event.Approve? <==> m.entry.status.Approved?)
      && (Reserves(w.queue, op.id) <==> m.record.event.Execute? || m.record.event.Fail?)
  {
    hide TextOk, BoundedText;
  }

  /** What an accepted operation makes of the world. */
  lemma PerformIs(s: Setting, w: World, op: Op)
    requires Attempt(s, w, op).Ok?
    ensures Proposed(s, w.queue, op).Ok?
    ensures var m, w' := Proposed(s, w.queue, op).value, Perform(s, w, op);
      && w'.queue == w.queue.(items := w.queue.items[op.id := m.entry]) && w'.log == w.log + [m.record]
      && Admit(w.sizes, m.record.event, m.record.id, |s.codec.encode(m.record)|) == Ok(w'.sizes)
  {
    hide Proposed, Admit;
  }

  lemma MoveKeepsReserves(q: Held, l: Ledger, id: string, entry: Entry, event: Event, size: nat, other: string)
    requires Admit(l, event, id, size).Ok? && (other in l.reserved <==> Reserves(q, other))
    requires event.Approve? <==> entry.status.Approved?
    requires Reserves(q, id) <==> event.Execute? || event.Fail?
    ensures other in Admit(l, event, id, size).value.reserved <==> Reserves(q.(items := q.items[id := entry]), other)
  {
    AdmittedIffBacked(l, event, id, size);
    hide Backed, Admit;
  }

  lemma MoveKeepsInv(s: Setting, w: World, w': World, id: string, entry: Entry, event: Event, size: nat)
    requires Inv(s, w) && AllKnown(s, w') && |w'.log| == |w.log| + 1
    requires w'.queue == w.queue.(items := w.queue.items[id := entry])
    requires Admit(w.sizes, event, id, size) == Ok(w'.sizes)
    requires id in w.queue.history ==> id in w.queue.items
    requires event.Approve? <==> entry.status.Approved?
    requires Reserves(w.queue, id) <==> event.Execute? || event.Fail?
    ensures Inv(s, w')
  {
    AdmitKeepsBacked(w.sizes, event, id, size);
    AdmittedIffBacked(w.sizes, event, id, size);
    hide AllKnown, Backed, Admit, Reserves, Live, Others;
    forall other
      ensures other in w'.sizes.reserved <==> Reserves(w'.queue, other)
    {
      MoveKeepsReserves(w.queue, w.sizes, id, entry, event, size, other);
    }
  }

  lemma PerformKeepsInv(s: Setting, w: World, op: Op)
    requires Inv(s, w)
    ensures Inv(s, Perform(s, w, op))
  {
    hide Proposed, Known, Admit, Reserves, Backed;
    PerformKnows(s, w, op);
    hide AllKnown;
    if Attempt(s, w, op).Ok? {
      PerformIs(s, w, op);
      var m := Proposed(s, w.queue, op).value;
      MoveReserves(s, w, op);
      MoveNamesItsId(s, w.queue, op);
      hide Perform, Attempt;
      MoveKeepsInv(s, w, Perform(s, w, op), op.id, m.entry, m.record.event, |s.codec.encode(m.record)|);
    }
  }

  lemma MoveNamesItsId(s: Setting, q: Held, op: Op)
    requires Proposed(s, q, op).Ok?
    ensures Proposed(s, q, op).value.record.id == op.id
  {
  }

  lemma ForgetIsTold(hash: Bytes -> string, log: seq<AuditEntry>, id: string, p: Entry)
    requires Known(hash, log, id, Some(p))
    ensures Known(hash, log, id, Some(Forget(p)))
  {
  }

  /** A reborn process finds for every id what its predecessor held, approvals and cleared reasons aside. */
  lemma RebornFinds(s: Setting, w: World, size: nat, id: string)
    requires Sound(s) && AllKnown(s, w)
    ensures var found := Find(Reborn(s, w.log, size).queue, id);
      && found == (if Find(w.queue, id).None? then None else Some(Forget(Find(w.queue, id).value)))
      && Known(s.hash, w.log, id, found)
  {
    hide AllKnown, Known, ReplayedId, RestoreInto, Sound, Forget;
    RestoredFind(s.hash, NOTHING_HELD, w.log, id);
    KnownOf(s, w, id);
    ReplayedKnown(s, w.log, id, Find(w.queue, id));
    if Find(w.queue, id).Some? {
      ForgetIsTold(s.hash, w.log, id, Find(w.queue, id).value);
    }
  }

  lemma KnownOf(s: Setting, w: World, id: string)
    requires AllKnown(s, w)
    ensures Known(s.hash, w.log, id, Find(w.queue, id))
  {
  }

  lemma RebornKeepsInv(s: Setting, w: World)
    requires Sound(s) && Inv(s, w)
    ensures Inv(s, Reborn(s, w.log, w.sizes.size))
  {
    var r := Reborn(s, w.log, w.sizes.size);
    hide Known, ReplayedId, RestoreInto, Sound;
    forall id
      ensures Known(s.hash, w.log, id, Find(r.queue, id))
      ensures id in r.queue.items ==> id !in r.queue.history && Live(r.queue.items[id]) && r.queue.items[id].status.Pending?
      ensures id in r.queue.history ==> !Live(r.queue.history[id])
    {
      RebornFinds(s, w, w.sizes.size, id);
      RestoredFind(s.hash, NOTHING_HELD, w.log, id);
    }
  }

  lemma CloseKnows(s: Setting, w: World)
    requires AllKnown(s, w)
    ensures AllKnown(s, w.(open := false))
  {
  }

  lemma StepKeepsInv(s: Setting, w: World, step: Step)
    requires Sound(s) && Inv(s, w)
    ensures Inv(s, Next(s, w, step))
  {
    hide Sound, Reborn, Perform, AllKnown;
    CloseKnows(s, w);
    match step
    case Call(op) => PerformKeepsInv(s, w, op);
    case Crash(op, written) =>
      PerformKeepsInv(s, w, op);
      RebornKeepsInv(s, w);
      RebornKeepsInv(s, Perform(s, w, op));
    case Close =>
    case Restart => RebornKeepsInv(s, w);
  }

  lemma StartInv(s: Setting)
    ensures Inv(s, START)
  {
  }

  lemma {:induction false} RunKeepsInv(s: Setting, w: World, steps: seq<Step>)
    requires Sound(s) && Inv(s, w)
    ensures Inv(s, Run(s, w, steps))
  {
    if steps != [] {
      RunKeepsInv(s, w, steps[..|steps| - 1]);
      hide Inv, Next;
      StepKeepsInv(s, Run(s, w, steps[..|steps| - 1]), steps[|steps| - 1]);
    }
  }

  // ----- the main results -----

  /**
   At every point of every run, across any restarts and crashes, replaying the log gives the live queue
   with approvals forgotten and finished entries kept field for field, but for the reason of an executed or failed one.
   */
  lemma RestartSimulation(s: Setting, steps: seq<Step>)
    requires Sound(s)
    ensures var w := Run(s, START, steps);
      RestoreInto(s.hash, NOTHING_HELD, w.log) == ForgetAll(w.queue)
  {
    StartInv(s);
    RunKeepsInv(s, START, steps);
    RestoreIsForget(s, Run(s, START, steps));
  }

  lemma RestoreIsForget(s: Setting, w: World)
    requires Sound(s) && Inv(s, w)
    ensures RestoreInto(s.hash, NOTHING_HELD, w.log) == ForgetAll(w.queue)
  {
    var r, f := RestoreInto(s.hash, NOTHING_HELD, w.log), ForgetAll(w.queue);
    hide RestoreInto, Known, Sound, ReplayedId;
    forall id
      ensures id in r.items <==> id in f.items
      ensures id in r.items ==> r.items[id] == f.items[id]
      ensures id in r.history <==> id in f.history
      ensures id in r.history ==> r.history[id] == f.history[id]
    {
      RebornFinds(s, w, w.sizes.size, id);
      RestoredFind(s.hash, NOTHING_HELD, w.log, id);
    }
    assert r.items == f.items;
    assert r.history == f.history;
  }

  /** The events of one id, in log order. */
  function EventsOf(log: seq<AuditEntry>, id: string): seq<Event> {
    if log == [] then []
    else
      var e := log[|log| - 1];
      EventsOf(log[..|log| - 1], id) + if e.id == id then [e.event] else []
  }

  predicate Ending(e: Event) {
    e.Deny? || e.Execute? || e.Fail?
  }

  /** Enqueue first, then approvals, then at most one ending with nothing after it. */
  predicate Story(events: seq<Event>) {
    && (events != [] ==> events[0].Enqueue?)
    && (forall i :: 1 <= i < |events| ==> events[i].Approve? || (Ending(events[i]) && i == |events| - 1))
  }

  /** The latest record gives the last event. */
  lemma {:induction false} LastEvent(log: seq<AuditEntry>, id: string)
    ensures Latest(log, id).None? <==> EventsOf(log, id) == []
    ensures Latest(log, id).Some? ==> EventsOf(log, id)[|EventsOf(log, id)| - 1] == Latest(log, id).value.event
  {
    if log != [] {
      LastEvent(log[..|log| - 1], id);
    }
  }

  /** What an operation's event may follow. */
  lemma MoveFollows(s: Setting, w: World, op: Op)
    requires AllKnown(s, w) && Proposed(s, w.queue, op).Ok?
    ensures var e := Proposed(s, w.queue, op).value.record.event;
      var latest := Latest(w.log, op.id);
      && (e.Enqueue? <==> latest.None?)
      && (latest.Some? ==> (e.Approve? || Ending(e)) && (latest.value.event.Enqueue? || latest.value.event.Approve?))
  {
    KnownOf(s, w, op.id);
    hide TextOk, BoundedText, Latest, LastEnqueue, AllKnown;
  }

  lemma EventsSnoc(log: seq<AuditEntry>, e: AuditEntry, id: string)
    ensures EventsOf(log + [e], id) == EventsOf(log, id) + if e.id == id then [e.event] else []
  {
    assert (log + [e])[..|log|] == log;
  }

  /** A story goes on with an event that may follow its last one. */
  lemma StoryGoesOn(events: seq<Event>, e: Event)
    requires Story(events) && (e.Enqueue? <==> events == [])
    requires events != [] ==> (e.Approve? || Ending(e)) && !Ending(events[|events| - 1])
    ensures Story(events + [e])
  {
  }

  lemma PerformKeepsStory(s: Setting, w: World, op: Op, id: string)
    requires Inv(s, w) && Story(EventsOf(w.log, id))
    ensures Story(EventsOf(Perform(s, w, op).log, id))
  {
    hide Known, Proposed, Latest, EventsOf, Story, AllKnown;
    if Attempt(s, w, op).Ok? {
      PerformIs(s, w, op);
      hide Perform, Attempt;
      MoveFollows(s, w, op);
      MoveNamesItsId(s, w.queue, op);
      LastEvent(w.log, id);
      var e := Proposed(s, w.queue, op).value.record;
      EventsSnoc(w.log, e, id);
      if id == op.id {
        StoryGoesOn(EventsOf(w.log, id), e.event);
      } else {
        assert EventsOf(w.log, id) + [] == EventsOf(w.log, id);
      }
    }
  }

  lemma {:induction false} StoryKept(s: Setting, w: World, steps: seq<Step>, id: string)
    requires Sound(s) && Inv(s, w) && Story(EventsOf(w.log, id))
    ensures Story(EventsOf(Run(s, w, steps).log, id))
  {
    if steps != [] {
      var before, step := Run(s, w, steps[..|steps| - 1]), steps[|steps| - 1];
      StoryKept(s, w, steps[..|steps| - 1], id);
      RunKeepsInv(s, w, steps[..|steps| - 1]);
      hide Inv, Story, Perform, Sound;
      if step.Call? || step.Crash? {
        PerformKeepsStory(s, before, step.op, id);
      }
    }
  }

  /** Over every run, each id's records read: enqueue, approve any number of times, then at most one ending. */
  lemma EveryHistoryIsAStory(s: Setting, steps: seq<Step>, id: string)
    requires Sound(s)
    ensures Story(EventsOf(Run(s, START, steps).log, id))
  {
    StartInv(s);
    StoryKept(s, START, steps, id);
  }

  // ----- at most once -----

  /** The step approves the id and returns to the caller, which then runs the tool (internal/daemon/server.go:314-318). */
  predicate Approves(s: Setting, w: World, step: Step, id: string) {
    step.Call? && step.op.DoApprove? && step.op.id == id && Attempt(s, w, step.op).Ok?
  }

  /** How often the tool of an id is run. */
  function ToolRuns(s: Setting, w: World, steps: seq<Step>, id: string): nat {
    if steps == [] then 0
    else
      var front := steps[..|steps| - 1];
      ToolRuns(s, w, front, id) + if Approves(s, Run(s, w, front), steps[|steps| - 1], id) then 1 else 0
  }

  /** Restarts, counting crashes. */
  function Rebirths(steps: seq<Step>): nat {
    if steps == [] then 0
    else Rebirths(steps[..|steps| - 1]) + if steps[|steps| - 1].Crash? || steps[|steps| - 1].Restart? then 1 else 0
  }

  /** One more approval is possible: the id is new, or waits. */
  function Chance(q: Held, id: string): nat {
    var found := Find(q, id);
    if found.None? || found.value.status.Pending? then 1 else 0
  }

  /** Only a new entry waits, and only a waiting one is approved. */
  lemma MoveChance(s: Setting, q: Held, op: Op)
    requires Proposed(s, q, op).Ok?
    ensures var p := Proposed(s, q, op).value.entry;
      && (p.status.Pending? ==> Chance(q, op.id) == 1)
      && (op.DoApprove? ==> Chance(q, op.id) == 1 && !p.status.Pending?)
  {
    hide TextOk, BoundedText, EnqueueRecord, ApproveRecord, DenyRecord, OutcomeRecord;
  }

  lemma CallChance(s: Setting, w: World, op: Op, id: string)
    requires Inv(s, w)
    ensures (if Approves(s, w, Call(op), id) then 1 else 0) + Chance(Perform(s, w, op).queue, id) <= Chance(w.queue, id)
  {
    hide Inv, Proposed, Admit;
    if Attempt(s, w, op).Ok? {
      PerformIs(s, w, op);
      MoveChance(s, w.queue, op);
      hide Perform, Attempt;
    }
  }

  /**
   The tool of an id runs at most once in each process: at most once, plus once for each restart in between.
   With no restart it runs at most once, and not at all for an id that is already decided.
   */
  lemma {:induction false} ToolRunsAtMostOncePerProcess(s: Setting, w: World, steps: seq<Step>, id: string)
    requires Sound(s) && Inv(s, w)
    ensures ToolRuns(s, w, steps, id) + Chance(Run(s, w, steps).queue, id) <= Chance(w.queue, id) + Rebirths(steps)
  {
    if steps != [] {
      var front, step := steps[..|steps| - 1], steps[|steps| - 1];
      ToolRunsAtMostOncePerProcess(s, w, front, id);
      RunKeepsInv(s, w, front);
      hide Inv, Perform, Sound;
      if step.Call? {
        CallChance(s, Run(s, w, front), step.op, id);
      }
    }
  }

  // ----- outcomes are final -----

  /** The same finished entry; only the reason of an executed or failed call may have been cleared. */
  predicate SameOutcome(p: Entry, q: Entry) {
    q == p || (!p.status.Denied? && q == p.(reason := ""))
  }

  /** Once an outcome is recorded, no call, crash or restart changes it. */
  lemma {:induction false} OutcomesAreFinal(s: Setting, w: World, steps: seq<Step>, id: string)
    requires Sound(s) && Inv(s, w) && Find(w.queue, id).Some? && !Live(Find(w.queue, id).value)
    ensures var found := Find(Run(s, w, steps).queue, id);
      found.Some? && SameOutcome(Find(w.queue, id).value, found.value)
  {
    if steps != [] {
      var before, step := Run(s, w, steps[..|steps| - 1]), steps[|steps| - 1];
      OutcomesAreFinal(s, w, steps[..|steps| - 1], id);
      RunKeepsInv(s, w, steps[..|steps| - 1]);
      hide Perform, Sound;
      if step.Call? || step.Crash? {
        FinishedStays(s, before, step.op, id);
        PerformKeepsInv(s, before, step.op);
        RebornFinds(s, Perform(s, before, step.op), Perform(s, before, step.op).sizes.size, id);
      }
      RebornFinds(s, before, before.sizes.size, id);
    }
  }

  lemma FinishedStays(s: Setting, w: World, op: Op, id: string)
    requires Find(w.queue, id).Some? && !Live(Find(w.queue, id).value)
    ensures Find(Perform(s, w, op).queue, id) == Find(w.queue, id)
  {
    hide TextOk, BoundedText, Admitted, EnqueueRecord, ApproveRecord, DenyRecord, OutcomeRecord;
  }

  // ----- the outcome of an approved call can be recorded -----

  /** In every reachable state an approved call's outcome is refused only if its own record is too large. */
  lemma OutcomeIsRecorded(s: Setting, steps: seq<Step>, id: string, result: Bytes, execErr: Option<string>, now: Time)
    requires Sound(s) && (execErr.None? ==> |result| <= MAX_TERMINAL_RESULT_BYTES)
    requires Reserves(Run(s, START, steps).queue, id) && Run(s, START, steps).open
    ensures var w := Run(s, START, steps);
      var op := DoRecord(id, result, execErr, now);
      && Proposed(s, w.queue, op).Ok?
      && (|s.codec.encode(Proposed(s, w.queue, op).value.record)| < MAX_AUDIT_RECORD_BYTES ==> Attempt(s, w, op).Ok?)
  {
    StartInv(s);
    RunKeepsInv(s, START, steps);
    var w, op := Run(s, START, steps), DoRecord(id, result, execErr, now);
    KnownOf(s, w, id);
    hide AllKnown, BoundedText;
    var e := Proposed(s, w.queue, op).value.record;
    if |s.codec.encode(e)| < MAX_AUDIT_RECORD_BYTES {
      TerminalAdmitted(w.sizes, e.event, e.id, |s.codec.encode(e)|);
    }
  }

  /**
   In every reachable state a recorded outcome is executed exactly if the tool gave no error. It then has the tool's result and
   an empty error text, and otherwise an error text and an empty result; all else is as it was approved.
   */
  lemma OutcomeTells(s: Setting, steps: seq<Step>, id: string, result: Bytes, execErr: Option<string>, now: Time)
    requires Sound(s) && Attempt(s, Run(s, START, steps), DoRecord(id, result, execErr, now)).Ok?
    ensures var before := Find(Run(s, START, steps).queue, id);
      var after := Find(Attempt(s, Run(s, START, steps), DoRecord(id, result, execErr, now)).value.queue, id);
      && before.Some? && before.value.status.Approved? && after.Some?
      && var p, q := before.value, after.value;
      && q == p.(status := q.status, executedAt := Some(now), result := q.result, err := q.err)
      && (if execErr.None? then q.status == Status.Executed && q.result == result && q.err == ""
          else q.status == Status.Failed && q.result == [] && q.err == BoundedText(s, execErr.value))
  {
    hide AllKnown, BoundedText, Admitted, Sound, Run;
    StartInv(s);
    RunKeepsInv(s, START, steps);
    KnownOf(s, Run(s, START, steps), id);
    hide Inv;
  }

  // ----- the file behind a run -----

  /** The closed file from which exactly this log is read. */
  ghost predicate OnDisk(s: Setting, w: World, file: Bytes) {
    Terminated(file) && Read(s.codec, file) == Ok(w.log) && |file| == w.sizes.size
  }

  function Reopened(c: Codec, file: Bytes): Bytes {
    if Repaired(c, file).Ok? then Repaired(c, file).value else file
  }

  /** The file once a step is over, the crashed process's torn line having been repaired at the next start. */
  function FileNext(s: Setting, w: World, file: Bytes, step: Step): Bytes {
    match step
    case Call(op) => if Attempt(s, w, op).Ok? then file + Line(s.codec, Proposed(s, w.queue, op).value.record) else file
    case Crash(op, written) =>
      if Attempt(s, w, op).Ok? then
        var e := Proposed(s, w.queue, op).value.record;
        var line := Line(s.codec, e);
        Reopened(s.codec, Torn(s.codec, file, e, if written < |line| then written else |line|))
      else Reopened(s.codec, file)
    case Close => file
    case Restart => Reopened(s.codec, file)
  }

  function FileRun(s: Setting, w: World, file: Bytes, steps: seq<Step>): Bytes {
    if steps == [] then file
    else
      var front := steps[..|steps| - 1];
      FileNext(s, Run(s, w, front), FileRun(s, w, file, front), steps[|steps| - 1])
  }

  lemma RecordIsSmall(s: Setting, w: World, op: Op)
    requires AllKnown(s, w) && Proposed(s, w.queue, op).Ok?
    ensures SmallOutcome(Proposed(s, w.queue, op).value.record)
  {
    KnownOf(s, w, op.id);
    hide AllKnown, BoundedText, TextOk, LastEnqueue, Latest;
  }

  /** An admitted record fits the file. */
  lemma AdmittedFits(s: Setting, w: World, op: Op, file: Bytes)
    requires Inv(s, w) && OnDisk(s, w, file) && Attempt(s, w, op).Ok?
    ensures var e := Proposed(s, w.queue, op).value.record;
      Fits(s.codec, file, w.log, e) && SmallOutcome(e)
      && Perform(s, w, op).sizes.size == |file + Line(s.codec, e)| && Perform(s, w, op).log == w.log + [e]
  {
    RecordIsSmall(s, w, op);
    hide Proposed, SmallOutcome, Read, AllKnown;
  }

  lemma FileFollowsStep(s: Setting, w: World, file: Bytes, step: Step)
    requires Sound(s) && Inv(s, w) && OnDisk(s, w, file)
    ensures OnDisk(s, Next(s, w, step), FileNext(s, w, file, step))
  {
    hide Inv, Read, Proposed, SmallOutcome, Admitted, RestoreInto, ReadFrom, Fits, Lawful;
    if (step.Call? || step.Crash?) && Attempt(s, w, step.op).Ok? {
      var e := Proposed(s, w.queue, step.op).value.record;
      AdmittedFits(s, w, step.op, file);
      AppendReadsBack(s.codec, file, w.log, e);
      if step.Crash? {
        var k := if step.written < |Line(s.codec, e)| then step.written else |Line(s.codec, e)|;
        CrashAtomicAppend(s.codec, file, w.log, e, k);
      }
    }
  }

  /**
   Along every run the file on disk reads back as exactly the run's log, whatever bytes the crashes cut,
   and its length is the size the capacity checks count with.
   */
  lemma {:induction false} FileFollowsRun(s: Setting, steps: seq<Step>)
    requires Sound(s)
    ensures OnDisk(s, Run(s, START, steps), FileRun(s, START, [], steps))
  {
    if steps != [] {
      var front := steps[..|steps| - 1];
      FileFollowsRun(s, front);
      StartInv(s);
      RunKeepsInv(s, START, front);
      hide Inv, OnDisk, Next, FileNext, Sound;
      FileFollowsStep(s, Run(s, START, front), FileRun(s, START, [], front), steps[|steps| - 1]);
    }
  }
}
