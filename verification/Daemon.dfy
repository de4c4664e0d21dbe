/** How the daemon starts the queue and runs an approved call (cmd/qid/main.go:122-135, internal/daemon/server.go:309-327). */
module Daemon {
  import opened Common
  import opened AuditLog
  import opened Approval
  import opened ApprovalRuns
  import Queue

  /** A start: open and repair the log, read it, replay it. */
  method Boot(setting: Setting, file: LogFile) returns (r: Result<Queue.Queue, ReadError>)
    modifies file
    ensures r.Ok? <==> Read(setting.codec, old(file.data)).Ok? && Repaired(setting.codec, old(file.data)).Ok?
    ensures r.Ok? ==> r.value.Valid() && r.value.setting == setting && fresh(r.value)
    ensures r.Ok? ==> r.value.View() == Reborn(setting, Read(setting.codec, old(file.data)).value, |file.data|)
  {
    hide RestoreInto;
    var audit := OpenAudit(setting.codec, file);
    if audit.Err? {
      return Err(audit.error);
    }
    var queue := new Queue.Queue(setting, audit.value);
    var past := ReadAuditLog(setting.codec, file.data);
    // Repair has kept the log readable, so the second read cannot fail.
    assert past.Ok?;
    var stats := queue.Restore(past.value);
    assert audit.value.Sizes().reserved == {};
    r := Ok(queue);
  }

  /** What running the tool gave. */
  datatype Ran = Ran(result: Bytes, execErr: Option<string>)

  /** after is the call once the tool has run: executed with its result exactly if it gave no error, else failed with the error's text. */
  ghost predicate Ends(s: Setting, handed: Entry, ran: Ran, finished: Time, after: Entry) {
    && after.id == handed.id && after.caller == handed.caller && after.callId == handed.callId && after.tool == handed.tool
    && after.params == handed.params && after.reason == handed.reason
    && after.createdAt == handed.createdAt && after.decidedAt == handed.decidedAt && after.executedAt == Some(finished)
    && match ran.execErr
       case None => after.status.Executed? && after.result == ran.result && after.err == handed.err
       case Some(text) => after.status.Failed? && after.result == handed.result && Queue.LongestPart(s, s.scrub(text), after.err)
  }

  /** The record of the approval. */
  function ApprovalOf(handed: Entry, id: string, decided: Time): AuditEntry {
    AuditEntry(decided, Approve, id, handed.caller, handed.callId, handed.tool, "", [], "", None)
  }

  /** The record of the outcome: execute exactly if the tool gave no error. */
  function EndOf(s: Setting, after: Entry, id: string, ran: Ran, finished: Time): AuditEntry {
    AuditEntry(finished, if ran.execErr.None? then Execute else Fail, id, after.caller, after.callId, after.tool, "", [], s.hash(after.params),
               Some(TerminalOutcome(after.status, after.result, "", after.err, after.decidedAt, Some(finished))))
  }

  /**
   Approve, run the tool, record. The tool runs exactly when the approval was recorded, and from a state of a run
   its outcome is then recorded too, if its record leaves room for the newline in the reservation.
   */
  method ApprovalApprove(q: Queue.Queue, id: string, tool: Entry -> Ran, decided: Time, finished: Time)
    returns (r: Result<Entry, QueueError>, ran: bool)
    requires q.Valid() && id != ""
    modifies q, q.audit, q.audit.file
    ensures q.Valid()
    ensures ran <==> Attempt(q.setting, old(q.View()), DoApprove(id, decided)).Ok?
    ensures !ran ==> q.View() == old(q.View()) && r.Err?
    ensures ran ==> q.View() == AfterTool(q.setting, old(q.View()), id, tool, decided, finished)
    ensures ran && Inv(q.setting, old(q.View())) && OutcomeFits(q.setting, old(q.View()), id, tool, decided, finished)
            ==> r.Ok? && id in q.items && q.items[id] == r.value && !Live(r.value)
    ensures ran ==> id in old(q.items) && old(q.items)[id].status.Pending? && q.history == old(q.history)
    ensures ran && r.Ok? ==>
      var handed := old(q.items)[id].(status := Status.Approved, decidedAt := Some(decided));
      && q.items == old(q.items)[id := r.value]
      && Ends(q.setting, handed, tool(handed), finished, r.value)
      && q.audit.log == old(q.audit.log) + [ApprovalOf(handed, id, decided)] + [EndOf(q.setting, r.value, id, tool(handed), finished)]
    ensures ran && r.Err? ==>
      var handed := old(q.items)[id].(status := Status.Approved, decidedAt := Some(decided));
      q.items == old(q.items)[id := handed] && q.audit.log == old(q.audit.log) + [ApprovalOf(handed, id, decided)]
  {
    hide Attempt, Perform, Inv;
    ghost var before := q.View();
    var approved := q.Approve(id, decided);
    PerformIsAttempt(q.setting, before, DoApprove(id, decided));
    ghost var between := q.View();
    if approved.Err? {
      return approved, false;
    }
    var outcome := tool(approved.value);
    ghost var op := DoRecord(id, outcome.result, outcome.execErr, finished);
    r := q.RecordResult(id, outcome.result, outcome.execErr, finished);
    ran := true;
    PerformIsAttempt(q.setting, between, op);
    if Inv(q.setting, before) && OutcomeFits(q.setting, before, id, tool, decided, finished) {
      RecordedAfterApproval(q.setting, before, id, decided, op);
    }
  }

  /** The entry a successful approval hands to the tool. */
  function Handed(s: Setting, w: World, id: string, decided: Time): Option<Entry> {
    Find(Perform(s, w, DoApprove(id, decided)).queue, id)
  }

  function Recording(s: Setting, w: World, id: string, tool: Entry -> Ran, decided: Time, finished: Time): Op {
    match Handed(s, w, id, decided)
    case None => DoApprove(id, decided)
    case Some(p) => DoRecord(id, tool(p).result, tool(p).execErr, finished)
  }

  function AfterTool(s: Setting, w: World, id: string, tool: Entry -> Ran, decided: Time, finished: Time): World {
    Perform(s, Perform(s, w, DoApprove(id, decided)), Recording(s, w, id, tool, decided, finished))
  }

  predicate OutcomeFits(s: Setting, w: World, id: string, tool: Entry -> Ran, decided: Time, finished: Time) {
    var m := Proposed(s, Perform(s, w, DoApprove(id, decided)).queue, Recording(s, w, id, tool, decided, finished));
    m.Ok? && |s.codec.encode(m.value.record)| < MAX_AUDIT_RECORD_BYTES
  }

  lemma PerformIsAttempt(s: Setting, w: World, op: Op)
    ensures Perform(s, w, op) == if Attempt(s, w, op).Ok? then Attempt(s, w, op).value else w
    ensures Attempt(s, w, op).Ok? ==>
              && op.id in Attempt(s, w, op).value.queue.items
              && Find(Attempt(s, w, op).value.queue, op.id) == Some(Attempt(s, w, op).value.queue.items[op.id])
  {
    hide Proposed, Admitted;
  }

  lemma RecordedAfterApproval(s: Setting, w: World, id: string, decided: Time, op: Op)
    requires Inv(s, w) && Attempt(s, w, DoApprove(id, decided)).Ok? && op.DoRecord? && op.id == id
    requires var m := Proposed(s, Perform(s, w, DoApprove(id, decided)).queue, op);
      m.Ok? && |s.codec.encode(m.value.record)| < MAX_AUDIT_RECORD_BYTES
    ensures var between := Perform(s, w, DoApprove(id, decided));
      Attempt(s, between, op).Ok? && !Live(Attempt(s, between, op).value.queue.items[id])
  {
    PerformKeepsInv(s, w, DoApprove(id, decided));
    var between := Perform(s, w, DoApprove(id, decided));
    StaysOpen(s, w, DoApprove(id, decided));
    hide AllKnown, BoundedText, Perform, Known;
    var e := Proposed(s, between.queue, op).value.record;
    TerminalAdmitted(between.sizes, e.event, e.id, |s.codec.encode(e)|);
  }

  lemma StaysOpen(s: Setting, w: World, op: Op)
    requires Attempt(s, w, op).Ok?
    ensures Perform(s, w, op).open
  {
    hide Proposed;
  }
}
