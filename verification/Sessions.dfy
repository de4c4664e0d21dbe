/** Planner sessions stored at an approval gate, and their validation (internal/ai/session.go, types.go). */
module Sessions {
  import opened Common
  import AuditLog
  import opened Text

  const SESSION_VERSION := 1

  datatype Role = User | Assistant

  /** The input is JSON text. */
  datatype ToolCall = ToolCall(id: string, name: string, input: AuditLog.Bytes)

  datatype ToolResult = ToolResult(callId: string, content: string, isError: bool)

  datatype Message = Message(role: Role, text: string, toolCalls: seq<ToolCall>, toolResults: seq<ToolResult>)

  datatype PendingCall = PendingCall(callId: string, approvalId: string, tool: string, reason: string)

  datatype Session = Session(
    version: nat,
    sessionId: string,
    model: string,
    provider: string,
    messages: seq<Message>,
    results: seq<ToolResult>,
    pending: seq<PendingCall>)

  /**
   Checks that are parameters here: call ids, session ids, provider states, canonical JSON (None when it does not parse),
   and the text of raw bytes.
   */
  datatype Rules = Rules(
    callIdOk: string -> bool,
    sessionIdOk: string -> bool,
    providerOk: string -> bool,
    canonical: AuditLog.Bytes -> Option<AuditLog.Bytes>,
    text: AuditLog.Bytes -> string)

  ghost predicate LawfulRules(r: Rules) {
    forall x :: r.canonical(x).Some? ==> r.canonical(r.canonical(x).value) == r.canonical(x)
  }

  function SanitizeToolName(name: string): (r: string)
    ensures |r| == |name|
    ensures forall i :: 0 <= i < |name| ==> r[i] == if name[i] == '.' then '_' else name[i]
  {
    if name == "" then ""
    else [if name[0] == '.' then '_' else name[0]] + SanitizeToolName(name[1..])
  }

  /** A blank tool name stays blank, and no other name becomes blank. */
  lemma SanitizeKeepsBlank(name: string)
    ensures Blank(SanitizeToolName(name)) <==> Blank(name)
  {
    var r := SanitizeToolName(name);
    forall i | 0 <= i < |name|
      ensures Space(r[i]) <==> Space(name[i])
    {
    }
  }

  // ----- ids -----

  function CallIds(calls: seq<ToolCall>): (r: seq<string>)
    ensures |r| == |calls| && forall i :: 0 <= i < |calls| ==> r[i] == calls[i].id
  {
    seq(|calls|, i requires 0 <= i < |calls| => calls[i].id)
  }

  function ResultIds(results: seq<ToolResult>): (r: seq<string>)
    ensures |r| == |results| && forall i :: 0 <= i < |results| ==> r[i] == results[i].callId
  {
    seq(|results|, i requires 0 <= i < |results| => results[i].callId)
  }

  function PendingIds(pending: seq<PendingCall>): (r: seq<string>)
    ensures |r| == |pending| && forall i :: 0 <= i < |pending| ==> r[i] == pending[i].callId
  {
    seq(|pending|, i requires 0 <= i < |pending| => pending[i].callId)
  }

  function ApprovalIds(pending: seq<PendingCall>): (r: seq<string>)
    ensures |r| == |pending| && forall i :: 0 <= i < |pending| ==> r[i] == pending[i].approvalId
  {
    seq(|pending|, i requires 0 <= i < |pending| => pending[i].approvalId)
  }

  // ----- a valid session -----

  predicate CallOk(r: Rules, call: ToolCall) {
    r.callIdOk(call.id) && !Blank(call.name) && r.canonical(call.input).Some?
  }

  predicate CallsOk(r: Rules, calls: seq<ToolCall>) {
    Distinct(CallIds(calls)) && forall i :: 0 <= i < |calls| ==> CallOk(r, calls[i])
  }

  /** The pending entry belongs to one of the calls and names its tool. */
  predicate PendingOk(r: Rules, calls: seq<ToolCall>, p: PendingCall) {
    && r.callIdOk(p.callId) && !Blank(p.approvalId) && !Blank(p.tool)
    && exists i :: 0 <= i < |calls| && calls[i].id == p.callId && SanitizeToolName(p.tool) == calls[i].name
  }

  predicate ResultOk(r: Rules, calls: seq<ToolCall>, result: ToolResult) {
    r.callIdOk(result.callId) && result.callId in CallIds(calls)
  }

  predicate ResultsOk(r: Rules, calls: seq<ToolCall>, results: seq<ToolResult>) {
    Distinct(ResultIds(results)) && forall i :: 0 <= i < |results| ==> ResultOk(r, calls, results[i])
  }

  predicate PendingsOk(r: Rules, calls: seq<ToolCall>, taken: set<string>, pending: seq<PendingCall>) {
    && Distinct(PendingIds(pending))
    && Distinct(ApprovalIds(pending))
    && (forall i :: 0 <= i < |pending| ==> pending[i].callId !in taken)
    && (forall i :: 0 <= i < |pending| ==> PendingOk(r, calls, pending[i]))
  }

  predicate Covered(calls: seq<ToolCall>, ids: set<string>) {
    forall i :: 0 <= i < |calls| ==> calls[i].id in ids
  }

  predicate Gated(messages: seq<Message>) {
    messages != [] && messages[|messages| - 1].role.Assistant? && messages[|messages| - 1].toolCalls != []
  }

  function LastCalls(messages: seq<Message>): seq<ToolCall> {
    if messages == [] then [] else messages[|messages| - 1].toolCalls
  }

  predicate ValidSession(r: Rules, s: Session) {
    && s.version == SESSION_VERSION
    && r.sessionIdOk(s.sessionId)
    && r.providerOk(s.provider)
    && Gated(s.messages)
    && var calls := LastCalls(s.messages);
    && CallsOk(r, calls)
    && var withResult := Elements(ResultIds(s.results));
    && ResultsOk(r, calls, s.results)
    && PendingsOk(r, calls, withResult, s.pending)
    && Covered(calls, withResult + Elements(PendingIds(s.pending)))
  }

  // ----- the validator -----

  method IndexCalls(r: Rules, list: seq<ToolCall>) returns (ok: bool, calls: map<string, ToolCall>)
    ensures ok <==> CallsOk(r, list)
    ensures ok ==> Indexed(list, calls)
  {
    calls := map[];
    for i := 0 to |list|
      invariant CallsOk(r, list[..i]) && Indexed(list[..i], calls)
    {
      var call := list[i];
      assert list[..i + 1] == list[..i] + [call];
      assert CallIds(list[..i + 1]) == CallIds(list[..i]) + [call.id];
      assert list[i] == list[..i + 1][i];
      if !r.callIdOk(call.id) || call.id in calls || Blank(call.name) || r.canonical(call.input).None? {
        BadCall(r, list, i);
        return false, calls;
      }
      calls := calls[call.id := call];
    }
    assert list[..|list|] == list;
    ok := true;
  }

  /** The map finds exactly the listed calls by their ids. */
  predicate Indexed(list: seq<ToolCall>, calls: map<string, ToolCall>) {
    && (forall i :: 0 <= i < |list| ==> list[i].id in calls && calls[list[i].id] == list[i])
    && (forall id :: id in calls ==> id in CallIds(list))
  }

  lemma BadCall(r: Rules, list: seq<ToolCall>, i: nat)
    requires i < |list| && (!CallOk(r, list[i]) || list[i].id in CallIds(list[..i]))
    ensures !CallsOk(r, list)
  {
    if list[i].id in CallIds(list[..i]) {
      var j :| 0 <= j < i && CallIds(list[..i])[j] == list[i].id;
      assert CallIds(list)[j] == CallIds(list)[i];
    }
  }

  /** Which side of the partition a call is on. */
  datatype Side = Result | Pending

  method CheckResults(r: Rules, list: seq<ToolCall>, calls: map<string, ToolCall>, results: seq<ToolResult>)
    returns (ok: bool, partition: map<string, Side>)
    requires Indexed(list, calls)
    ensures ok <==> ResultsOk(r, list, results)
    ensures ok ==> partition.Keys == Elements(ResultIds(results))
  {
    partition := map[];
    for i := 0 to |results|
      invariant ResultsOk(r, list, results[..i])
      invariant partition.Keys == Elements(ResultIds(results[..i]))
    {
      var result := results[i];
      var ids := ResultIds(results[..i]);
      assert ResultIds(results[..i + 1]) == ids + [result.callId];
      assert results[..i + 1] == results[..i] + [result];
      if !r.callIdOk(result.callId) || result.callId !in calls || result.callId in partition {
        if result.callId in partition {
          var j :| 0 <= j < i && ids[j] == result.callId;
          assert ResultIds(results)[j] == ResultIds(results)[i];
        }
        assert !ResultsOk(r, list, results) || ResultOk(r, list, results[i]);
        return false, partition;
      }
      partition := partition[result.callId := Result];
    }
    assert results[..|results|] == results;
    ok := true;
  }

  method CheckPending(r: Rules, list: seq<ToolCall>, calls: map<string, ToolCall>, partition: map<string, Side>,
                      pending: seq<PendingCall>)
    returns (ok: bool, both: map<string, Side>)
    requires Indexed(list, calls) && CallsOk(r, list)
    ensures ok <==> PendingsOk(r, list, partition.Keys, pending)
    ensures ok ==> both.Keys == partition.Keys + Elements(PendingIds(pending))
  {
    hide PendingsOk, PendingOk, CallsOk, Indexed, Blank, Distinct;
    NoPending(r, list, partition.Keys, pending);
    both := partition;
    var approvals: set<string> := {};
    for i := 0 to |pending|
      invariant PendingsOk(r, list, partition.Keys, pending[..i])
      invariant both.Keys == partition.Keys + Elements(PendingIds(pending[..i]))
      invariant approvals == Elements(ApprovalIds(pending[..i]))
    {
      var p := pending[i];
      PendingNames(r, list, calls, p);
      OneMorePending(r, list, partition.Keys, pending, i);
      if !r.callIdOk(p.callId) || p.callId !in calls || p.callId in both || Blank(p.approvalId) || Blank(p.tool)
         || p.approvalId in approvals || SanitizeToolName(p.tool) != calls[p.callId].name {
        return false, both;
      }
      both := both[p.callId := Pending];
      approvals := approvals + {p.approvalId};
    }
    assert pending[..|pending|] == pending;
    ok := true;
  }

  lemma NoPending(r: Rules, list: seq<ToolCall>, taken: set<string>, pending: seq<PendingCall>)
    ensures PendingsOk(r, list, taken, pending[..0])
    ensures PendingIds(pending[..0]) == [] && ApprovalIds(pending[..0]) == []
  {
  }

  lemma OneMorePending(r: Rules, list: seq<ToolCall>, taken: set<string>, pending: seq<PendingCall>, i: nat)
    requires i < |pending| && PendingsOk(r, list, taken, pending[..i])
    ensures PendingIds(pending[..i + 1]) == PendingIds(pending[..i]) + [pending[i].callId]
    ensures ApprovalIds(pending[..i + 1]) == ApprovalIds(pending[..i]) + [pending[i].approvalId]
    ensures PendingsOk(r, list, taken, pending[..i + 1]) <==>
            && PendingOk(r, list, pending[i]) && pending[i].callId !in taken
            && pending[i].callId !in PendingIds(pending[..i]) && pending[i].approvalId !in ApprovalIds(pending[..i])
    ensures !PendingsOk(r, list, taken, pending[..i + 1]) ==> !PendingsOk(r, list, taken, pending)
  {
    hide PendingOk;
    RepeatedPending(pending, i);
    RepeatedPending(pending[..i + 1], i);
    assert pending[..i + 1][..i] == pending[..i];
    assert pending[..i + 1][i] == pending[i];
  }

  lemma PendingNames(r: Rules, list: seq<ToolCall>, calls: map<string, ToolCall>, p: PendingCall)
    requires Indexed(list, calls) && CallsOk(r, list)
    ensures PendingOk(r, list, p) <==>
            r.callIdOk(p.callId) && !Blank(p.approvalId) && !Blank(p.tool)
            && p.callId in calls && SanitizeToolName(p.tool) == calls[p.callId].name
  {
    if p.callId in calls {
      var i :| 0 <= i < |list| && CallIds(list)[i] == p.callId;
      assert list[i].id == p.callId;
    }
  }

  lemma RepeatedPending(pending: seq<PendingCall>, i: nat)
    requires i < |pending|
    ensures pending[i].callId in PendingIds(pending[..i]) ==> !Distinct(PendingIds(pending))
    ensures pending[i].approvalId in ApprovalIds(pending[..i]) ==> !Distinct(ApprovalIds(pending))
  {
    if pending[i].callId in PendingIds(pending[..i]) {
      var j :| 0 <= j < i && PendingIds(pending[..i])[j] == pending[i].callId;
      assert PendingIds(pending)[j] == PendingIds(pending)[i];
    }
    if pending[i].approvalId in ApprovalIds(pending[..i]) {
      var j :| 0 <= j < i && ApprovalIds(pending[..i])[j] == pending[i].approvalId;
      assert ApprovalIds(pending)[j] == ApprovalIds(pending)[i];
    }
  }

  /** The validator accepts exactly the valid sessions. */
  method ValidateStoredSession(r: Rules, s: Session) returns (ok: bool)
    ensures ok <==> ValidSession(r, s)
    ensures ok ==> s.version == 1 && r.sessionIdOk(s.sessionId) && r.providerOk(s.provider) && s.messages != []
    ensures ok ==> var last := s.messages[|s.messages| - 1];
      && last.role.Assistant? && last.toolCalls != []
      && (forall i :: 0 <= i < |s.results| ==> s.results[i].callId in CallIds(last.toolCalls))
      && (forall i :: 0 <= i < |last.toolCalls| ==> AnsweredOnce(s, last.toolCalls[i].id))
  {
    if s.version != SESSION_VERSION || !r.sessionIdOk(s.sessionId) || !r.providerOk(s.provider) || s.messages == [] {
      return false;
    }
    var last := s.messages[|s.messages| - 1];
    if !last.role.Assistant? || last.toolCalls == [] {
      return false;
    }
    var callsOk, calls := IndexCalls(r, last.toolCalls);
    if !callsOk {
      return false;
    }
    var resultsOk, partition := CheckResults(r, last.toolCalls, calls, s.results);
    if !resultsOk {
      return false;
    }
    var pendingOk, both := CheckPending(r, last.toolCalls, calls, partition, s.pending);
    if !pendingOk {
      return false;
    }
    hide PendingsOk, ResultsOk;
    IndexCovers(last.toolCalls, calls, both.Keys);
    ok := calls.Keys <= both.Keys;
    if ok {
      ValidAnswersOnce(r, s);
    }
  }

  /** The call has one stored result and no pending entry, or one pending entry and no stored result. */
  predicate AnsweredOnce(s: Session, id: string) {
    if id in ResultIds(s.results) then OneIn(ResultIds(s.results), id) && id !in PendingIds(s.pending)
    else OneIn(PendingIds(s.pending), id)
  }

  predicate OneIn(ids: seq<string>, id: string) {
    exists i :: 0 <= i < |ids| && ids[i] == id && forall j :: 0 <= j < |ids| && ids[j] == id ==> j == i
  }

  lemma DistinctIsOne(ids: seq<string>, id: string)
    requires Distinct(ids) && id in ids
    ensures OneIn(ids, id)
  {
    var i :| 0 <= i < |ids| && ids[i] == id;
    assert forall j :: 0 <= j < |ids| && ids[j] == id ==> j == i;
  }

  lemma ValidAnswersOnce(r: Rules, s: Session)
    requires ValidSession(r, s)
    ensures var last := s.messages[|s.messages| - 1];
      && (forall i :: 0 <= i < |s.results| ==> s.results[i].callId in CallIds(last.toolCalls))
      && (forall i :: 0 <= i < |last.toolCalls| ==> AnsweredOnce(s, last.toolCalls[i].id))
  {
    hide CallsOk, PendingOk, OneIn;
    var calls := s.messages[|s.messages| - 1].toolCalls;
    forall i | 0 <= i < |s.results|
      ensures s.results[i].callId in CallIds(calls)
    {
      assert ResultOk(r, calls, s.results[i]);
    }
    forall i | 0 <= i < |calls|
      ensures AnsweredOnce(s, calls[i].id)
    {
      var id := calls[i].id;
      assert id in Elements(ResultIds(s.results)) + Elements(PendingIds(s.pending));
      if id in ResultIds(s.results) {
        DistinctIsOne(ResultIds(s.results), id);
        assert forall k :: 0 <= k < |s.pending| ==> PendingIds(s.pending)[k] != id;
      } else {
        DistinctIsOne(PendingIds(s.pending), id);
      }
    }
  }

  lemma IndexCovers(list: seq<ToolCall>, calls: map<string, ToolCall>, ids: set<string>)
    requires Indexed(list, calls)
    ensures calls.Keys <= ids <==> Covered(list, ids)
  {
    forall id | id in calls
      ensures Covered(list, ids) ==> id in ids
    {
      var i :| 0 <= i < |list| && CallIds(list)[i] == id;
    }
  }
}
