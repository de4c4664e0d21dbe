/** The planner as an object: runs, stops at the gate, resumes (internal/ai/planner_loop.go:26-99, planner_resume.go:13-108). */
module Planner {
  import opened Common
  import opened Sessions
  import opened PlannerGate
  import opened PlannerTurns
  import Text
  import AuditLog
  import opened Approval
  import opened ApprovalRuns

  // ----- resolving an approval -----

  const DENIED_TEXT: string := "the user denied this action"
  const FAILED_TEXT: string := "the approved action failed to execute"
  const COLON: string := ": "

  function Explained(what: string, why: string): string {
    if why != "" then what + COLON + why else what
  }

  /** The approval record is the one this call asked for. */
  predicate Bound(r: Rules, caller: string, call: ToolCall, pending: PendingCall, record: Entry) {
    && record.id == pending.approvalId
    && record.caller == caller
    && record.callId == call.id
    && record.tool == pending.tool
    && r.canonical(call.input).Some?
    && r.canonical(call.input) == r.canonical(record.params)
  }

  /** The approval record that settles this call: fetched, decided, and of the same id, caller, call, tool and canonical parameters. */
  predicate Settles(r: Rules, caller: string, call: ToolCall, pending: PendingCall, record: Option<Entry>) {
    && record.Some?
    && var p := record.value;
    && p.status != AuditLog.Status.Pending && p.status != AuditLog.Status.Approved
    && p.id == pending.approvalId && p.caller == caller && p.callId == call.id && p.tool == pending.tool
    && r.canonical(call.input) != None && r.canonical(p.params) == r.canonical(call.input)
  }

  /**
   What the model is told of such a record: the stored result if the call was executed, and otherwise an error with the
   record's reason or error text, if it has one.
   */
  predicate Tells(r: Rules, p: Entry, t: ToolResult) {
    && (t.isError <==> p.status != AuditLog.Status.Executed)
    && t.content == match p.status
                    case Denied => if p.reason == "" then "the user denied this action" else "the user denied this action" + ": " + p.reason
                    case Failed => if p.err == "" then "the approved action failed to execute" else "the approved action failed to execute" + ": " + p.err
                    case _ => r.text(p.result)
  }

  /** The result of a decided approval; none while it is undecided or bound to something else. */
  function ResolveApproval(r: Rules, caller: string, call: ToolCall, pending: PendingCall, record: Option<Entry>): (t: Option<ToolResult>)
    ensures t.Some? <==> Settles(r, caller, call, pending, record)
    ensures t.Some? ==> t.value.callId == call.id && Tells(r, record.value, t.value)
  {
    if record.None? || !Bound(r, caller, call, pending, record.value) then None
    else
      match record.value.status
      case Executed => Some(ToolResult(call.id, r.text(record.value.result), false))
      case Denied => Some(ToolResult(call.id, Explained(DENIED_TEXT, record.value.reason), true))
      case Failed => Some(ToolResult(call.id, Explained(FAILED_TEXT, record.value.err), true))
      case Pending | Approved => None
  }

  /** Whatever the queue has been through, a restart changes no answer that the planner gets on resumption. */
  lemma ResumeSurvivesRestart(s: Setting, steps: seq<Step>, r: Rules, caller: string, call: ToolCall, pending: PendingCall)
    requires Sound(s)
    ensures var w := Run(s, START, steps);
      ResolveApproval(r, caller, call, pending, Find(w.queue, pending.approvalId)) ==
      ResolveApproval(r, caller, call, pending, Find(Next(s, w, Restart).queue, pending.approvalId))
  {
    StartInv(s);
    RunKeepsInv(s, START, steps);
    var w := Run(s, START, steps);
    RebornFinds(s, w, w.sizes.size, pending.approvalId);
    hide Sound, AllKnown, Known, Run, RestoreInto, ResolveApproval, Forget, Find;
    if Find(w.queue, pending.approvalId).Some? {
      ResolveForgets(r, caller, call, pending, Find(w.queue, pending.approvalId).value);
    }
  }

  lemma ResolveForgets(r: Rules, caller: string, call: ToolCall, pending: PendingCall, p: Entry)
    ensures ResolveApproval(r, caller, call, pending, Some(p)) == ResolveApproval(r, caller, call, pending, Some(Forget(p)))
  {
    hide Explained;
  }

  // ----- the results turn -----

  /** The result of a call on resumption comes from exactly one side: stored, or from its approval. */
  predicate FromOneSide(r: Rules, caller: string, s: Session, fetch: string -> Option<Entry>, call: ToolCall, t: ToolResult) {
    && t.callId == call.id
    && (call.id in ResultIds(s.results) <==> call.id !in PendingIds(s.pending))
    && (call.id in ResultIds(s.results) ==> t in s.results)
    && (forall k :: 0 <= k < |s.pending| && s.pending[k].callId == call.id ==>
          var record := fetch(s.pending[k].approvalId);
          Settles(r, caller, call, s.pending[k], record) && Tells(r, record.value, t))
  }

  /** Some call waits for an approval that is not decided, or not its own. */
  predicate Stuck(r: Rules, caller: string, s: Session, fetch: string -> Option<Entry>) {
    exists i, k :: 0 <= i < |LastCalls(s.messages)| && 0 <= k < |s.pending| && s.pending[k].callId == LastCalls(s.messages)[i].id
                   && !Settles(r, caller, LastCalls(s.messages)[i], s.pending[k], fetch(s.pending[k].approvalId))
  }

  /** The results turn: one result for each call, in call order, each from one side; or nothing if some approval is open. */
  method ResultsTurn(r: Rules, caller: string, s: Session, fetch: string -> Option<Entry>)
    returns (results: Option<seq<ToolResult>>)
    requires ValidSession(r, s)
    ensures results.None? <==> Stuck(r, caller, s, fetch)
    ensures results.Some? ==> ResultIds(results.value) == CallIds(LastCalls(s.messages))
    ensures results.Some? ==> forall i :: 0 <= i < |results.value| ==>
      FromOneSide(r, caller, s, fetch, LastCalls(s.messages)[i], results.value[i])
  {
    hide CallsOk, PendingOk, Gated, ResolveApproval, Settles, Tells;
    var calls := LastCalls(s.messages);
    var resultsByCall := ByResultId(s.results);
    var pendingByCall := ByPendingId(s.pending);
    var out: seq<ToolResult> := [];
    for i := 0 to |calls|
      invariant |out| == i
      invariant forall j :: 0 <= j < i ==> FromOneSide(r, caller, s, fetch, calls[j], out[j])
      invariant forall j, k :: 0 <= j < i && 0 <= k < |s.pending| && s.pending[k].callId == calls[j].id ==>
        Settles(r, caller, calls[j], s.pending[k], fetch(s.pending[k].approvalId))
    {
      var call := calls[i];
      CoveredOnce(r, s, call, i);
      if call.id in resultsByCall {
        out := out + [resultsByCall[call.id]];
      } else {
        var pending := pendingByCall[call.id];
        var result := ResolveApproval(r, caller, call, pending, fetch(pending.approvalId));
        if result.None? {
          var k :| 0 <= k < |s.pending| && s.pending[k] == pending;
          return None;
        }
        out := out + [result.value];
      }
    }
    results := Some(out);
  }

  lemma CoveredOnce(r: Rules, s: Session, call: ToolCall, i: nat)
    requires ValidSession(r, s) && i < |LastCalls(s.messages)| && LastCalls(s.messages)[i] == call
    ensures call.id in ResultIds(s.results) <==> call.id !in PendingIds(s.pending)
  {
    hide CallsOk, PendingOk, Gated, ResultOk;
    assert call.id in Elements(ResultIds(s.results)) + Elements(PendingIds(s.pending));
    if call.id in PendingIds(s.pending) {
      var k :| 0 <= k < |s.pending| && PendingIds(s.pending)[k] == call.id;
      assert s.pending[k].callId !in Elements(ResultIds(s.results));
    }
  }

  method ByResultId(results: seq<ToolResult>) returns (byId: map<string, ToolResult>)
    requires Distinct(ResultIds(results))
    ensures byId.Keys == Elements(ResultIds(results))
    ensures forall id :: id in byId ==> byId[id] in results && byId[id].callId == id
  {
    byId := map[];
    for i := 0 to |results|
      invariant byId.Keys == Elements(ResultIds(results[..i]))
      invariant forall id :: id in byId ==> byId[id] in results && byId[id].callId == id
    {
      assert ResultIds(results[..i + 1]) == ResultIds(results[..i]) + [results[i].callId];
      byId := byId[results[i].callId := results[i]];
    }
    assert results[..|results|] == results;
  }

  method ByPendingId(pending: seq<PendingCall>) returns (byId: map<string, PendingCall>)
    requires Distinct(PendingIds(pending))
    ensures byId.Keys == Elements(PendingIds(pending))
    ensures forall k :: 0 <= k < |pending| ==> byId[pending[k].callId] == pending[k]
    ensures forall id :: id in byId ==> byId[id] in pending && byId[id].callId == id
  {
    byId := map[];
    for i := 0 to |pending|
      invariant byId.Keys == Elements(PendingIds(pending[..i]))
      invariant forall k :: 0 <= k < i ==> pending[k].callId in byId && byId[pending[k].callId] == pending[k]
      invariant forall id :: id in byId ==> byId[id] in pending && byId[id].callId == id
    {
      assert PendingIds(pending[..i + 1]) == PendingIds(pending[..i]) + [pending[i].callId];
      assert forall k :: 0 <= k < i ==> PendingIds(pending)[k] != PendingIds(pending)[i];
      byId := byId[pending[i].callId := pending[i]];
    }
    assert pending[..|pending|] == pending;
  }

  // ----- the planner -----

  class Planner {
    const rules: Rules
    const callerPrefix: string
    const maxIterations: nat
    var model: string
    var sessionId: string

    constructor (rules: Rules, callerPrefix: string, sessionId: string, maxIterations: nat)
      ensures this.rules == rules && this.callerPrefix == callerPrefix && this.maxIterations == maxIterations
      ensures model == "" && this.sessionId == sessionId
    {
      this.rules := rules;
      this.callerPrefix := callerPrefix;
      this.sessionId := sessionId;
      this.maxIterations := maxIterations;
      model := "";
    }

    /** Some calls of the turn wait: store the session, or deny their approvals. */
    method AtGate(conversation: seq<Message>, nameMap: map<string, string>, turn: Turn, calls: seq<ToolCall>,
                  results: seq<ToolResult>, pendings: seq<PendingCall>)
      returns (end: RunEnd)
      requires turn.Turn? && Acceptable(rules, turn.calls) && calls == CanonicalCalls(rules, turn.calls) && Acceptable(rules, calls)
      requires Gated(conversation) && LastCalls(conversation) == calls
      requires results == AllResults(rules, calls, turn.replies) && pendings == Waiting(nameMap, calls, turn.replies) != []
      ensures EndsAtGate(rules, sessionId, model, nameMap, turn, end)
      ensures end.Stored? || end.NotStored?
      ensures end.Stored? ==> end.session.messages == conversation
    {
      hide Acceptable, GateOk, ValidSession, AllResults, Waiting, Settled, CanonicalCalls, Without;
      var resolved := ResolvedResults(results, pendings);
      ResolvedIsSettled(rules, nameMap, calls, turn.replies);
      if turn.provider.None? {
        var denied := DenyUnpersistedApprovals(pendings);
        return NotStored(denied);
      }
      var session := Session(SESSION_VERSION, sessionId, model, turn.provider.value, conversation, resolved, pendings);
      GateSessionValid(rules, sessionId, model, turn.provider.value, conversation, nameMap, calls, turn.replies);
      var valid := ValidateStoredSession(rules, session);
      if !valid || turn.storeFails {
        var denied := DenyUnpersistedApprovals(pendings);
        return NotStored(denied);
      }
      end := Stored(session);
    }

    /**
     Runs the conversation until the model stops, an approval is needed, or the iterations are used up.
     `asked` collects the conversations the model was shown.
     */
    method Loop(messages: seq<Message>, nameMap: map<string, string>, turns: seq<Turn>)
      returns (end: RunEnd, ghost asked: seq<seq<Message>>)
      requires LawfulRules(rules) && |turns| >= maxIterations
      ensures RunsTo(rules, sessionId, model, nameMap, turns, maxIterations, messages, asked, end)
      ensures WellFormed(messages) ==> forall i :: 0 <= i < |asked| ==> WellFormed(asked[i])
      ensures end.Stored? && WellFormed(messages) ==> PlannerGate.Open(end.session.messages)
    {
      hide WellFormed, PlannerGate.Open, EndsAtGate, EndsHere, Shown, Follows, Acceptable, CanonicalOf, Replied, RecordedAt, Settled, Waiting,
        GoesOn, GoodCalls, StopsAtGate, Text.Trim, LawfulRules, Distinct, CanonicalCalls;
      var conversation := messages;
      asked := [];
      ShownNone(rules, turns);
      for i := 0 to maxIterations
        invariant |asked| == i && (i > 0 ==> asked[0] == messages)
        invariant i == 0 ==> conversation == messages
        invariant i > 0 ==> GoesOn(rules, turns[i - 1]) && Follows(rules, turns[i - 1], asked[i - 1], conversation)
        invariant Shown(rules, turns, asked)
        invariant WellFormed(messages) ==> WellFormed(conversation) && forall j :: 0 <= j < |asked| ==> WellFormed(asked[j])
      {
        ghost var before := conversation;
        ShowOne(rules, turns, asked, conversation);
        asked := asked + [conversation];
        EndsAtOnce(rules, sessionId, model, nameMap, turns[i], conversation);
        if turns[i].GenerateFails? {
          return GenerateError, asked;
        }
        var turn := turns[i];
        if turn.calls == [] {
          return Final(Text.Trim(turn.text), turn.stop), asked;
        }
        var canonical := CanonicalToolCalls(rules, turn.calls);
        if canonical.None? {
          return InvalidCalls, asked;
        }
        var calls := canonical.value;
        GoodIsAcceptable(rules, turn.calls);
        CanonicalAcceptable(rules, turn.calls);
        assert calls == CanonicalCalls(rules, turn.calls);
        StopsWhen(rules, nameMap, turn);
        var results, pendings, at, sent := RunToolCalls(rules, calls, nameMap, turn.replies);
        if WellFormed(messages) {
          AcceptableDistinct(rules, calls);
          OpenTurn(conversation, turn.text, calls);
        }
        conversation := conversation + [CallTurn(turn.text, calls)];
        if pendings != [] {
          end := AtGate(conversation, nameMap, turn, calls, results, pendings);
          GateEndsHere(rules, sessionId, model, nameMap, turn, before, end);
          EndsNowhereElse(rules, sessionId, model, nameMap, turn, before, end);
          return end, asked;
        }
        if WellFormed(messages) {
          assert ResultIds(results) == CallIds(calls);
          CloseTurn(conversation, results);
        }
        GoesOnUnless(rules, turn);
        TurnFollows(rules, turn, before, calls, results);
        conversation := conversation + [ResultTurn(results)];
      }
      end := OutOfIterations;
    }

    /**
     Continues a stored session once every approval is decided: the model is shown the stored conversation
     followed by one result for each call.
     */
    method Resume(session: Session, fetch: string -> Option<Entry>, catalog: Option<seq<string>>, turns: seq<Turn>)
      returns (end: RunEnd, ghost asked: seq<seq<Message>>)
      requires LawfulRules(rules) && |turns| >= maxIterations
      modifies this
      ensures end.InvalidSession? <==> !ValidSession(rules, session)
      ensures end.InvalidSession? ==> sessionId == old(sessionId) && model == old(model)
      ensures ValidSession(rules, session) ==> sessionId == session.sessionId
      ensures ValidSession(rules, session) ==> model == if session.model != "" then session.model else old(model)
      ensures end.Unresolved? <==> ValidSession(rules, session) && Stuck(rules, callerPrefix + session.sessionId, session, fetch)
      ensures end.NoTools? <==>
        && ValidSession(rules, session) && !Stuck(rules, callerPrefix + session.sessionId, session, fetch)
        && (catalog.None? || !Distinct(SanitizedNames(catalog.value)))
      ensures if end.InvalidSession? || end.Unresolved? || end.NoTools? then asked == []
              else exists nameMap, first ::
                     && catalog.Some? && Names(catalog.value, nameMap)
                     && Continues(rules, callerPrefix + session.sessionId, session, fetch, first)
                     && RunsTo(rules, session.sessionId, model, nameMap, turns, maxIterations, first, asked, end)
      ensures PlannerGate.Open(session.messages) ==> forall i :: 0 <= i < |asked| ==> WellFormed(asked[i])
      ensures end.Stored? && PlannerGate.Open(session.messages) ==> PlannerGate.Open(end.session.messages)
    {
      asked := [];
      var valid := ValidateStoredSession(rules, session);
      if !valid {
        return InvalidSession, asked;
      }
      hide ValidSession, WellFormed, PlannerGate.Open, Stuck, FromOneSide, RunsTo, Names, SanitizeToolName;
      sessionId := session.sessionId;
      if session.model != "" {
        model := session.model;
      }
      var results := ResultsTurn(rules, callerPrefix + sessionId, session, fetch);
      if results.None? {
        return Unresolved, asked;
      }
      if catalog.None? {
        return NoTools, asked;
      }
      var nameMap := BuildToolDefs(catalog.value);
      if nameMap.None? {
        return NoTools, asked;
      }
      if PlannerGate.Open(session.messages) {
        OpenIsNotEmpty(session.messages);
        CloseTurn(session.messages, results.value);
      }
      var messages := session.messages + [ResultTurn(results.value)];
      end, asked := Loop(messages, nameMap.value, turns);
      assert Continues(rules, callerPrefix + sessionId, session, fetch, messages);
      RunsOnly(rules, sessionId, model, nameMap.value, turns, maxIterations, messages, asked, end);
    }
  }

  lemma OpenIsNotEmpty(messages: seq<Message>)
    requires PlannerGate.Open(messages)
    ensures messages != [] && LastCalls(messages) == messages[|messages| - 1].toolCalls
  {
  }

  /** The stored conversation and a results turn that answers it call by call, each from one side. */
  predicate Continues(r: Rules, caller: string, s: Session, fetch: string -> Option<Entry>, messages: seq<Message>) {
    && |messages| == |s.messages| + 1
    && messages[..|s.messages|] == s.messages
    && var results := messages[|s.messages|].toolResults;
    && messages[|s.messages|] == Message(User, "", [], results)
    && ResultIds(results) == CallIds(LastCalls(s.messages))
    && forall i :: 0 <= i < |results| ==> FromOneSide(r, caller, s, fetch, LastCalls(s.messages)[i], results[i])
  }
}
