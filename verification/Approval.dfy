/**
 What the approval queue does, on values: the entries it holds, the record each operation appends,
 and what replay makes of a log (internal/approval/queue.go, internal/approval/restore.go).
 */
module Approval {
  import opened Common
  import opened AuditLog

  const MAX_APPROVAL_CALLER_BYTES: nat := 0x2000
  const MAX_APPROVAL_CALL_ID_BYTES: nat := 0x400
  const MAX_APPROVAL_TOOL_BYTES: nat := 0x2000
  const MAX_TERMINAL_TEXT_BYTES: nat := 0x8000

  /** The parts of the program that are parameters here: the codec, the parameter hash, and UTF-8 validity and repair. */
  datatype Setting = Setting(codec: Codec, hash: Bytes -> string, utf8: string -> bool, scrub: string -> string)

  ghost predicate Sound(s: Setting) {
    && Lawful(s.codec)
    && (forall b :: s.hash(b) != "")
  }

  /** One queued call. An empty result stands for a missing one. */
  datatype Entry = Entry(
    id: string,
    caller: string,
    callId: string,
    tool: string,
    params: Bytes,
    status: Status,
    reason: string,
    createdAt: Time,
    decidedAt: Option<Time>,
    executedAt: Option<Time>,
    result: Bytes,
    err: string)

  predicate Live(p: Entry) {
    p.status.Pending? || p.status.Approved?
  }

  /** The queue's two maps: entries of this process, and finished entries replayed from the log. */
  datatype Held = Held(items: map<string, Entry>, history: map<string, Entry>)

  const NOTHING_HELD := Held(map[], map[])

  function Find(q: Held, id: string): Option<Entry> {
    if id in q.items then Some(q.items[id]) else if id in q.history then Some(q.history[id]) else None
  }

  // ----- operations -----

  datatype QueueError = Invalid | ResultTooLong | UnknownId | IllegalTransition(from: Status) | IdTaken | NotRecorded

  datatype Op =
    | DoEnqueue(id: string, caller: string, callId: string, tool: string, params: Bytes, reason: string, now: Time)
    | DoApprove(id: string, now: Time)
    | DoDeny(id: string, reason: string, now: Time)
    | DoRecord(id: string, result: Bytes, execErr: Option<string>, now: Time)

  predicate TextOk(s: Setting, text: string, limit: nat) {
    s.utf8(text) && |text| <= limit
  }

  /** The longest prefix that is valid UTF-8. */
  function ValidPrefix(s: Setting, text: string): (r: string)
    ensures r <= text && (r == "" || s.utf8(r))
    ensures forall n :: |r| < n <= |text| ==> !s.utf8(text[..n])
  {
    if text == "" || s.utf8(text) then text
    else
      var r := ValidPrefix(s, text[..|text| - 1]);
      assert forall n :: |r| < n <= |text| - 1 ==> text[..|text| - 1][..n] == text[..n];
      assert text[..|text|] == text;
      r
  }

  function BoundedText(s: Setting, text: string): (r: string)
    ensures |r| <= MAX_TERMINAL_TEXT_BYTES
  {
    var clean := s.scrub(text);
    if |clean| <= MAX_TERMINAL_TEXT_BYTES then clean else ValidPrefix(s, clean[..MAX_TERMINAL_TEXT_BYTES])
  }

  function ForTransition(q: Held, id: string): Result<Entry, QueueError> {
    match Find(q, id)
    case None => Err(UnknownId)
    case Some(p) => if p.status.Pending? && id in q.items then Ok(p) else Err(IllegalTransition(p.status))
  }

  function ForResult(q: Held, id: string): Result<Entry, QueueError> {
    match Find(q, id)
    case None => Err(UnknownId)
    case Some(p) => if p.status.Approved? && id in q.items then Ok(p) else Err(IllegalTransition(p.status))
  }

  function Enqueued(op: Op): Entry
    requires op.DoEnqueue?
  {
    Entry(op.id, op.caller, op.callId, op.tool, op.params, Status.Pending, op.reason, op.now, None, None, [], "")
  }

  function EnqueueRecord(p: Entry): AuditEntry {
    AuditEntry(p.createdAt, Enqueue, p.id, p.caller, p.callId, p.tool, p.reason, p.params, "", None)
  }

  function Approved(p: Entry, now: Time): Entry {
    p.(status := Status.Approved, decidedAt := Some(now))
  }

  function ApproveRecord(id: string, p: Entry, now: Time): AuditEntry {
    AuditEntry(now, Approve, id, p.caller, p.callId, p.tool, "", [], "", None)
  }

  function Denied(p: Entry, reason: string, now: Time): Entry {
    p.(status := Status.Denied, reason := reason, decidedAt := Some(now))
  }

  function DenyRecord(s: Setting, id: string, p: Entry, reason: string, now: Time): AuditEntry {
    AuditEntry(now, Deny, id, p.caller, p.callId, p.tool, "", [], s.hash(p.params),
               Some(TerminalOutcome(Status.Denied, [], reason, "", Some(now), None)))
  }

  function Finished(s: Setting, p: Entry, result: Bytes, execErr: Option<string>, now: Time): Entry {
    match execErr
    case None => p.(status := Status.Executed, executedAt := Some(now), result := result)
    case Some(text) => p.(status := Status.Failed, executedAt := Some(now), err := BoundedText(s, text))
  }

  /** The outcome record names the finished entry's fields, all but its reason. */
  function OutcomeRecord(s: Setting, id: string, p: Entry, now: Time): AuditEntry {
    AuditEntry(now, if p.status.Failed? then Fail else Execute, id, p.caller, p.callId, p.tool, "", [], s.hash(p.params),
               Some(TerminalOutcome(p.status, p.result, "", p.err, p.decidedAt, p.executedAt)))
  }

  /** What an operation wants to append, and the entry it leaves once that is durable. */
  datatype Move = Move(record: AuditEntry, entry: Entry)

  function Proposed(s: Setting, q: Held, op: Op): Result<Move, QueueError> {
    match op
    case DoEnqueue(id, caller, callId, tool, params, reason, now) =>
      if caller == "" || tool == "" then Err(Invalid)
      else if !TextOk(s, caller, MAX_APPROVAL_CALLER_BYTES) || !TextOk(s, callId, MAX_APPROVAL_CALL_ID_BYTES)
              || !TextOk(s, tool, MAX_APPROVAL_TOOL_BYTES) || !TextOk(s, reason, MAX_TERMINAL_TEXT_BYTES) then Err(Invalid)
      else if id == "" || Find(q, id).Some? then Err(IdTaken)
      else Ok(Move(EnqueueRecord(Enqueued(op)), Enqueued(op)))
    case DoApprove(id, now) =>
      var p := ForTransition(q, id);
      if p.Err? then Err(p.error) else Ok(Move(ApproveRecord(id, p.value, now), Approved(p.value, now)))
    case DoDeny(id, reason, now) =>
      if !TextOk(s, reason, MAX_TERMINAL_TEXT_BYTES) then Err(Invalid)
      else
        var p := ForTransition(q, id);
        if p.Err? then Err(p.error) else Ok(Move(DenyRecord(s, id, p.value, reason, now), Denied(p.value, reason, now)))
    case DoRecord(id, result, execErr, now) =>
      if execErr.None? && |result| > MAX_TERMINAL_RESULT_BYTES then Err(ResultTooLong)
      else
        var p := ForResult(q, id);
        if p.Err? then Err(p.error)
        else
          var done := Finished(s, p.value, result, execErr, now);
          Ok(Move(OutcomeRecord(s, id, done, now), done))
  }

  /** Everything an operation can see: the queue, the log, the audit's sizes and whether it is open. */
  datatype World = World(queue: Held, log: seq<AuditEntry>, sizes: Ledger, open: bool)

  function Admitted(s: Setting, w: World, e: AuditEntry): Option<Ledger> {
    var l := Admit(w.sizes, e.event, e.id, |s.codec.encode(e)|);
    if w.open && l.Ok? then Some(l.value) else None
  }

  /** An operation takes effect exactly when its record was appended. */
  function Attempt(s: Setting, w: World, op: Op): Result<World, QueueError> {
    var m := Proposed(s, w.queue, op);
    if m.Err? then Err(m.error)
    else
      var sizes := Admitted(s, w, m.value.record);
      if sizes.None? then Err(NotRecorded)
      else Ok(World(w.queue.(items := w.queue.items[op.id := m.value.entry]), w.log + [m.value.record], sizes.value, w.open))
  }

  function Perform(s: Setting, w: World, op: Op): World {
    var r := Attempt(s, w, op);
    if r.Ok? then r.value else w
  }

  // ----- replay -----

  function LastEnqueue(log: seq<AuditEntry>, id: string): (r: Option<AuditEntry>)
    ensures r.Some? ==> r.value.id == id && r.value.event.Enqueue?
  {
    if log == [] then None
    else
      var e := log[|log| - 1];
      if e.id == id && e.event.Enqueue? then Some(e) else LastEnqueue(log[..|log| - 1], id)
  }

  function Latest(log: seq<AuditEntry>, id: string): (r: Option<AuditEntry>)
    ensures r.Some? ==> r.value.id == id
  {
    if log == [] then None
    else if log[|log| - 1].id == id then Some(log[|log| - 1])
    else Latest(log[..|log| - 1], id)
  }

  predicate TerminalOutcomeMatches(event: Event, status: Status) {
    || (event.Deny? && status.Denied?)
    || (event.Execute? && status.Executed?)
    || (event.Fail? && status.Failed?)
  }

  predicate TerminalAuditMatchesEnqueue(hash: Bytes -> string, terminal: AuditEntry, enqueue: AuditEntry) {
    && terminal.caller == enqueue.caller
    && terminal.callId == enqueue.callId
    && terminal.tool == enqueue.tool
    && terminal.paramsHash != ""
    && terminal.paramsHash == hash(enqueue.params)
  }

  function Requeued(enqueue: AuditEntry): Entry {
    Entry(enqueue.id, enqueue.caller, enqueue.callId, enqueue.tool, enqueue.params, Status.Pending, enqueue.reason,
          enqueue.time, None, None, [], "")
  }

  /** The entry replay makes from an id's last enqueue record and its latest record. */
  function Replayed(hash: Bytes -> string, enqueue: Option<AuditEntry>, latest: Option<AuditEntry>): Option<Entry> {
    if enqueue.None? || latest.None? then None
    else
      var p := Requeued(enqueue.value);
      match latest.value.event
      case Enqueue | Approve => Some(p)
      case Other(_) => None
      case _ =>
        var outcome := latest.value.outcome;
        if outcome.None? || !TerminalOutcomeMatches(latest.value.event, outcome.value.status)
           || !TerminalAuditMatchesEnqueue(hash, latest.value, enqueue.value) then None
        else
          var o := outcome.value;
          Some(p.(status := o.status, result := o.result, reason := o.reason, err := o.err,
                  decidedAt := o.decidedAt, executedAt := o.executedAt))
  }

  function ReplayedId(hash: Bytes -> string, log: seq<AuditEntry>, id: string): Option<Entry> {
    if id == "" then None else Replayed(hash, LastEnqueue(log, id), Latest(log, id))
  }

  /** The latest record of an id is the last one in the log that carries it. */
  lemma {:induction false} LatestIsLast(log: seq<AuditEntry>, id: string)
    ensures Latest(log, id).None? ==> forall i :: 0 <= i < |log| ==> log[i].id != id
    ensures Latest(log, id).Some? ==>
      exists i :: 0 <= i < |log| && log[i] == Latest(log, id).value && log[i].id == id && forall j :: i < j < |log| ==> log[j].id != id
  {
    if log != [] {
      var front := log[..|log| - 1];
      LatestIsLast(front, id);
      if log[|log| - 1].id == id {
        assert log[|log| - 1] == Latest(log, id).value;
      } else if Latest(front, id).Some? {
        var i :| 0 <= i < |front| && front[i] == Latest(front, id).value && front[i].id == id && forall j :: i < j < |front| ==> front[j].id != id;
        assert log[i] == front[i];
        forall j | i < j < |log|
          ensures log[j].id != id
        {
          assert j < |front| ==> log[j] == front[j];
        }
      } else {
        forall i | 0 <= i < |log|
          ensures log[i].id != id
        {
          assert i < |front| ==> log[i] == front[i];
        }
      }
    }
  }

  /** The last enqueue record of an id is the last one in the log of that event and id. */
  lemma {:induction false} LastEnqueueIsLast(log: seq<AuditEntry>, id: string)
    ensures LastEnqueue(log, id).None? ==> forall i :: 0 <= i < |log| ==> log[i].id != id || log[i].event != Enqueue
    ensures LastEnqueue(log, id).Some? ==>
      exists i :: 0 <= i < |log| && log[i] == LastEnqueue(log, id).value && log[i].id == id && log[i].event == Enqueue
                  && forall j :: i < j < |log| ==> log[j].id != id || log[j].event != Enqueue
  {
    if log != [] {
      var front := log[..|log| - 1];
      LastEnqueueIsLast(front, id);
      if log[|log| - 1].id == id && log[|log| - 1].event.Enqueue? {
        assert log[|log| - 1] == LastEnqueue(log, id).value;
      } else if LastEnqueue(front, id).Some? {
        var i :| 0 <= i < |front| && front[i] == LastEnqueue(front, id).value && front[i].id == id && front[i].event == Enqueue
                 && forall j :: i < j < |front| ==> front[j].id != id || front[j].event != Enqueue;
        assert log[i] == front[i];
        forall j | i < j < |log|
          ensures log[j].id != id || log[j].event != Enqueue
        {
          assert j < |front| ==> log[j] == front[j];
        }
      } else {
        forall i | 0 <= i < |log|
          ensures log[i].id != id || log[i].event != Enqueue
        {
          assert i < |front| ==> log[i] == front[i];
        }
      }
    }
  }

  /** The record ends the call that was enqueued: its event and status fit, and it names the same caller, call, tool and parameters. */
  predicate EndsCall(hash: Bytes -> string, end: AuditEntry, enqueue: AuditEntry) {
    && end.outcome.Some?
    && (match end.event
        case Deny => end.outcome.value.status == Status.Denied
        case Execute => end.outcome.value.status == Status.Executed
        case Fail => end.outcome.value.status == Status.Failed
        case _ => false)
    && end.caller == enqueue.caller && end.callId == enqueue.callId && end.tool == enqueue.tool
    && end.paramsHash != "" && end.paramsHash == hash(enqueue.params)
  }

  /**
   Replay gives an id an entry exactly if it has an enqueue record and its latest record is an enqueue or an approval, or ends
   the enqueued call. An approval without an outcome is pending again; an outcome is taken over field for field.
   */
  lemma ReplayTells(hash: Bytes -> string, log: seq<AuditEntry>, id: string)
    ensures var enqueue, last, r := LastEnqueue(log, id), Latest(log, id), ReplayedId(hash, log, id);
      && (r.Some? <==> id != "" && enqueue.Some? && last.Some?
                       && (last.value.event == Enqueue || last.value.event == Approve || EndsCall(hash, last.value, enqueue.value)))
      && (r.Some? ==>
            var e, p := enqueue.value, r.value;
            && p.id == id && p.caller == e.caller && p.callId == e.callId && p.tool == e.tool && p.params == e.params && p.createdAt == e.time
            && if last.value.event == Enqueue || last.value.event == Approve then
                 p.status == Status.Pending && p.reason == e.reason && p.result == [] && p.err == "" && p.decidedAt == p.executedAt == None
               else
                 last.value.outcome == Some(TerminalOutcome(p.status, p.result, p.reason, p.err, p.decidedAt, p.executedAt)))
  {
    hide LastEnqueue, Latest;
  }

  function Ids(log: seq<AuditEntry>): set<string> {
    set e | e in log :: e.id
  }

  lemma Appended(log: seq<AuditEntry>, e: AuditEntry, id: string)
    ensures Latest(log + [e], id) == if e.id == id then Some(e) else Latest(log, id)
    ensures LastEnqueue(log + [e], id) == if e.id == id && e.event.Enqueue? then Some(e) else LastEnqueue(log, id)
  {
    assert (log + [e])[..|log|] == log;
  }

  /** The entry replay adds for an id: none for an id that the queue already holds. */
  function Added(hash: Bytes -> string, q: Held, log: seq<AuditEntry>, id: string): Option<Entry> {
    if Find(q, id).Some? then None else ReplayedId(hash, log, id)
  }

  /** Whether replay adds the id to the live entries, or else to the history. */
  predicate AddsTo(hash: Bytes -> string, q: Held, log: seq<AuditEntry>, id: string, live: bool) {
    var p := Added(hash, q, log, id);
    p.Some? && Live(p.value) == live
  }

  function AddedAmong(hash: Bytes -> string, q: Held, log: seq<AuditEntry>, ids: set<string>, live: bool): map<string, Entry> {
    map id | id in ids && AddsTo(hash, q, log, id, live) :: Added(hash, q, log, id).value
  }

  /** Of the given ids, pending entries go to the live map, finished ones to the history. */
  function RestoreIds(hash: Bytes -> string, q: Held, log: seq<AuditEntry>, ids: set<string>): Held {
    Held(q.items + AddedAmong(hash, q, log, ids, true), q.history + AddedAmong(hash, q, log, ids, false))
  }

  function RestoreInto(hash: Bytes -> string, q: Held, log: seq<AuditEntry>): Held {
    RestoreIds(hash, q, log, Ids(log))
  }

  lemma AddOneMore(hash: Bytes -> string, q: Held, log: seq<AuditEntry>, ids: set<string>, id: string, live: bool, m: map<string, Entry>)
    ensures m + AddedAmong(hash, q, log, ids + {id}, live) ==
            if AddsTo(hash, q, log, id, live) then (m + AddedAmong(hash, q, log, ids, live))[id := Added(hash, q, log, id).value]
            else m + AddedAmong(hash, q, log, ids, live)
  {
    hide Added;
  }

  /** One more id. */
  lemma RestoreOneMore(hash: Bytes -> string, q: Held, log: seq<AuditEntry>, ids: set<string>, id: string)
    requires id !in ids
    ensures var before, after := RestoreIds(hash, q, log, ids), RestoreIds(hash, q, log, ids + {id});
      && (Find(before, id).Some? <==> Find(q, id).Some?)
      && after.items == (if AddsTo(hash, q, log, id, true) then before.items[id := Added(hash, q, log, id).value] else before.items)
      && after.history == (if AddsTo(hash, q, log, id, false) then before.history[id := Added(hash, q, log, id).value]
                           else before.history)
  {
    AddOneMore(hash, q, log, ids, id, true, q.items);
    AddOneMore(hash, q, log, ids, id, false, q.history);
    hide Added, AddsTo;
  }

  /** Records without an id are as good as absent. */
  lemma RestoreSkipsNoId(hash: Bytes -> string, q: Held, log: seq<AuditEntry>)
    ensures RestoreIds(hash, q, log, Ids(log) - {""}) == RestoreInto(hash, q, log)
  {
    assert !AddsTo(hash, q, log, "", true) && !AddsTo(hash, q, log, "", false);
    hide Added, AddsTo;
    assert AddedAmong(hash, q, log, Ids(log) - {""}, true) == AddedAmong(hash, q, log, Ids(log), true);
    assert AddedAmong(hash, q, log, Ids(log) - {""}, false) == AddedAmong(hash, q, log, Ids(log), false);
  }

  lemma {:induction false} LatestIsLogged(log: seq<AuditEntry>, id: string)
    ensures Latest(log, id).Some? <==> id in Ids(log)
  {
    if log != [] {
      var front, e := log[..|log| - 1], log[|log| - 1];
      LatestIsLogged(front, id);
      assert log == front + [e];
      if id in Ids(log) && e.id != id {
        var x :| x in log && x.id == id;
        assert x in front;
      }
      if id in Ids(front) {
        var x :| x in front && x.id == id;
        assert x in log;
      }
      assert e in log;
    }
  }

  /** Which entry an id has after replay. */
  lemma RestoredFind(hash: Bytes -> string, q: Held, log: seq<AuditEntry>, id: string)
    ensures Find(RestoreInto(hash, q, log), id) ==
            if Find(q, id).Some? then Find(q, id) else ReplayedId(hash, log, id)
    ensures id in RestoreInto(hash, q, log).items <==>
            id in q.items || (Added(hash, q, log, id).Some? && Live(Added(hash, q, log, id).value))
    ensures id in RestoreInto(hash, q, log).history <==>
            id in q.history || (Added(hash, q, log, id).Some? && !Live(Added(hash, q, log, id).value))
  {
    LatestIsLogged(log, id);
    hide Replayed, Latest, LastEnqueue;
    ReplayedNeedsLatest(hash, log, id);
  }

  lemma ReplayedNeedsLatest(hash: Bytes -> string, log: seq<AuditEntry>, id: string)
    ensures ReplayedId(hash, log, id).Some? ==> Latest(log, id).Some?
  {
  }
}
