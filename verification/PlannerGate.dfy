/** The planner's tool loop, its stop at the approval gate and its resumption (internal/ai/planner_loop.go, planner_resume.go). */
module PlannerGate {
  import opened Common
  import opened Sessions
  import opened Text
  import opened AuditLog

  /** qid's answer to one tool call. */
  datatype Reply = Failed(err: string) | Awaiting(approvalId: string, reason: string) | Done(raw: Bytes)

  const ERROR_PREFIX: string := "error: "
  const AWAITING_PREFIX: string := "awaiting approval "

  // ----- tool names -----

  /** Every API name stands for a tool whose sanitized name it is. */
  predicate NamesMatch(nameMap: map<string, string>) {
    forall n :: n in nameMap ==> SanitizeToolName(nameMap[n]) == n
  }

  function SanitizedNames(catalog: seq<string>): (r: seq<string>)
    ensures |r| == |catalog| && forall i :: 0 <= i < |catalog| ==> r[i] == SanitizeToolName(catalog[i])
  {
    seq(|catalog|, i requires 0 <= i < |catalog| => SanitizeToolName(catalog[i]))
  }

  /** Every tool is found under its sanitized name, and nothing else is. */
  predicate Names(catalog: seq<string>, nameMap: map<string, string>) {
    && (forall i :: 0 <= i < |catalog| ==> SanitizeToolName(catalog[i]) in nameMap && nameMap[SanitizeToolName(catalog[i])] == catalog[i])
    && (forall n :: n in nameMap ==> nameMap[n] in catalog && SanitizeToolName(nameMap[n]) == n)
  }

  /** Refuses a catalog exactly when two tools share a sanitized name; otherwise every tool is found under its own. */
  method BuildToolDefs(catalog: seq<string>) returns (r: Option<map<string, string>>)
    ensures r.Some? <==> Distinct(SanitizedNames(catalog))
    ensures r.Some? ==> NamesMatch(r.value) && r.value.Keys == Elements(SanitizedNames(catalog))
    ensures r.Some? ==> Names(catalog, r.value)
  {
    hide SanitizeToolName;
    var nameMap: map<string, string> := map[];
    for i := 0 to |catalog|
      invariant NamesMatch(nameMap) && Distinct(SanitizedNames(catalog[..i]))
      invariant nameMap.Keys == Elements(SanitizedNames(catalog[..i]))
      invariant forall n :: n in nameMap ==> nameMap[n] in catalog
      invariant forall j :: 0 <= j < i ==>
        SanitizeToolName(catalog[j]) in nameMap && nameMap[SanitizeToolName(catalog[j])] == catalog[j]
    {
      var apiName := SanitizeToolName(catalog[i]);
      var names := SanitizedNames(catalog[..i]);
      assert SanitizedNames(catalog[..i + 1]) == names + [apiName];
      if apiName in nameMap {
        var j :| 0 <= j < i && names[j] == apiName;
        assert SanitizedNames(catalog)[j] == SanitizedNames(catalog)[i];
        return None;
      }
      nameMap := nameMap[apiName := catalog[i]];
    }
    assert catalog[..|catalog|] == catalog;
    r := Some(nameMap);
  }

  function QidName(nameMap: map<string, string>, call: ToolCall): string {
    if call.name in nameMap then nameMap[call.name] else call.name
  }

  // ----- one turn's calls -----

  function Canonical(r: Rules, call: ToolCall): ToolCall {
    match r.canonical(call.input)
    case Some(input) => call.(input := input)
    case None => call
  }

  predicate Acceptable(r: Rules, calls: seq<ToolCall>) {
    Distinct(CallIds(calls)) && forall i :: 0 <= i < |calls| ==> r.callIdOk(calls[i].id) && r.canonical(calls[i].input).Some?
  }

  /** The same call with its input in canonical form. */
  predicate CanonicalOf(r: Rules, call: ToolCall, c: ToolCall) {
    c.id == call.id && c.name == call.name && r.canonical(call.input) == Some(c.input)
  }

  /** Accepts the turn's calls exactly when their ids are good and distinct and their inputs parse, and makes the inputs canonical. */
  method CanonicalToolCalls(r: Rules, calls: seq<ToolCall>) returns (canonical: Option<seq<ToolCall>>)
    ensures canonical.Some? <==> Acceptable(r, calls)
    ensures canonical.Some? ==> |canonical.value| == |calls|
    ensures canonical.Some? ==> forall i :: 0 <= i < |calls| ==> canonical.value[i] == Canonical(r, calls[i])
    ensures canonical.Some? ==> forall i :: 0 <= i < |calls| ==> CanonicalOf(r, calls[i], canonical.value[i])
  {
    var out: seq<ToolCall> := [];
    var taken: set<string> := {};
    for i := 0 to |calls|
      invariant Acceptable(r, calls[..i]) && taken == Elements(CallIds(calls[..i]))
      invariant |out| == i && forall j :: 0 <= j < i ==> out[j] == Canonical(r, calls[j])
    {
      var call := calls[i];
      var ids := CallIds(calls[..i]);
      assert CallIds(calls[..i + 1]) == ids + [call.id];
      assert calls[..i + 1] == calls[..i] + [call];
      if !r.callIdOk(call.id) || call.id in taken || r.canonical(call.input).None? {
        if call.id in taken {
          var j :| 0 <= j < i && ids[j] == call.id;
          assert CallIds(calls)[j] == CallIds(calls)[i];
        }
        return None;
      }
      out := out + [Canonical(r, call)];
      taken := taken + {call.id};
    }
    assert calls[..|calls|] == calls;
    canonical := Some(out);
  }

  function ResultOf(r: Rules, call: ToolCall, reply: Reply): (t: ToolResult)
    ensures t.callId == call.id
  {
    match reply
    case Failed(err) => ToolResult(call.id, ERROR_PREFIX + err, true)
    case Awaiting(approvalId, _) => ToolResult(call.id, AWAITING_PREFIX + approvalId, true)
    case Done(raw) => ToolResult(call.id, r.text(raw), false)
  }

  /** A result for every call, also for those that wait. */
  function AllResults(r: Rules, calls: seq<ToolCall>, replies: string -> Reply): (t: seq<ToolResult>)
    ensures |t| == |calls| && forall i :: 0 <= i < |calls| ==> t[i] == ResultOf(r, calls[i], replies(calls[i].id))
  {
    seq(|calls|, i requires 0 <= i < |calls| => ResultOf(r, calls[i], replies(calls[i].id)))
  }

  function PendingOf(nameMap: map<string, string>, call: ToolCall, reply: Reply): PendingCall
    requires reply.Awaiting?
  {
    PendingCall(call.id, reply.approvalId, QidName(nameMap, call), reply.reason)
  }

  /** The calls that wait for an approval, in order. */
  function Waiting(nameMap: map<string, string>, calls: seq<ToolCall>, replies: string -> Reply): seq<PendingCall> {
    if calls == [] then []
    else
      var call := calls[|calls| - 1];
      var reply := replies(call.id);
      Waiting(nameMap, calls[..|calls| - 1], replies) + if reply.Awaiting? then [PendingOf(nameMap, call, reply)] else []
  }

  /** The results of the calls that do not wait, in order. */
  function Settled(r: Rules, calls: seq<ToolCall>, replies: string -> Reply): seq<ToolResult> {
    if calls == [] then []
    else
      var call := calls[|calls| - 1];
      var reply := replies(call.id);
      Settled(r, calls[..|calls| - 1], replies) + if reply.Awaiting? then [] else [ResultOf(r, call, reply)]
  }

  lemma NoCallsYet(r: Rules, nameMap: map<string, string>, replies: string -> Reply)
    ensures AllResults(r, [], replies) == [] && Waiting(nameMap, [], replies) == []
  {
  }

  lemma OneMoreCall(r: Rules, nameMap: map<string, string>, calls: seq<ToolCall>, call: ToolCall, replies: string -> Reply)
    ensures AllResults(r, calls + [call], replies) == AllResults(r, calls, replies) + [ResultOf(r, call, replies(call.id))]
    ensures Waiting(nameMap, calls + [call], replies) ==
            Waiting(nameMap, calls, replies) + if replies(call.id).Awaiting? then [PendingOf(nameMap, call, replies(call.id))] else []
  {
    hide ResultOf, PendingOf;
    assert (calls + [call])[..|calls|] == calls;
  }

  /** What the model is told of a reply. */
  predicate Replied(r: Rules, call: ToolCall, reply: Reply, t: ToolResult) {
    && t.callId == call.id
    && (t.isError <==> !reply.Done?)
    && t.content == match reply
                    case Failed(err) => "error: " + err
                    case Awaiting(approvalId, _) => "awaiting approval " + approvalId
                    case Done(raw) => r.text(raw)
  }

  /** What goes to qid for one call. */
  datatype Sent = Sent(callId: string, tool: string, input: Bytes)

  /** The call's pending entry: its id, the approval and its reason, and the name under which qid knows the tool. */
  predicate Recorded(nameMap: map<string, string>, call: ToolCall, reply: Reply, p: PendingCall) {
    && reply == Awaiting(p.approvalId, p.reason) && p.callId == call.id
    && p.tool == if call.name in nameMap then nameMap[call.name] else call.name
  }

  /** The places of the calls that wait, or of those that do not, in order. */
  ghost predicate Places(calls: seq<ToolCall>, replies: string -> Reply, waiting: bool, at: seq<nat>) {
    && (forall j, k :: 0 <= j < k < |at| ==> at[j] < at[k])
    && (forall k :: 0 <= k < |at| ==> at[k] < |calls| && replies(calls[at[k]].id).Awaiting? == waiting)
    && (forall i :: 0 <= i < |calls| && replies(calls[i].id).Awaiting? == waiting ==> i in at)
  }

  /** One entry for each waiting call, in order. */
  ghost predicate RecordedAt(nameMap: map<string, string>, calls: seq<ToolCall>, replies: string -> Reply, pendings: seq<PendingCall>,
                             at: seq<nat>) {
    && Places(calls, replies, true, at) && |at| == |pendings|
    && forall k :: 0 <= k < |at| ==> Recorded(nameMap, calls[at[k]], replies(calls[at[k]].id), pendings[k])
  }

  /** One result for each call that does not wait, in order. */
  ghost predicate SettledAt(r: Rules, calls: seq<ToolCall>, replies: string -> Reply, results: seq<ToolResult>, at: seq<nat>) {
    && Places(calls, replies, false, at) && |at| == |results|
    && forall k :: 0 <= k < |at| ==> Replied(r, calls[at[k]], replies(calls[at[k]].id), results[k])
  }

  lemma PlaceOne(calls: seq<ToolCall>, replies: string -> Reply, waiting: bool, at: seq<nat>, call: ToolCall)
    requires Places(calls, replies, waiting, at)
    ensures Places(calls + [call], replies, waiting, if replies(call.id).Awaiting? == waiting then at + [|calls|] else at)
  {
    PlacesStay(calls, replies, waiting, at, call);
    if replies(call.id).Awaiting? == waiting {
      PlaceMore(calls + [call], replies, waiting, at);
    }
  }

  /** The places among the first calls. */
  ghost predicate PlacesUpTo(calls: seq<ToolCall>, replies: string -> Reply, waiting: bool, n: nat, at: seq<nat>)
    requires n <= |calls|
  {
    && (forall j, k :: 0 <= j < k < |at| ==> at[j] < at[k])
    && (forall k :: 0 <= k < |at| ==> at[k] < n && replies(calls[at[k]].id).Awaiting? == waiting)
    && (forall i :: 0 <= i < n && replies(calls[i].id).Awaiting? == waiting ==> i in at)
  }

  lemma PlacesStay(calls: seq<ToolCall>, replies: string -> Reply, waiting: bool, at: seq<nat>, call: ToolCall)
    requires Places(calls, replies, waiting, at)
    ensures PlacesUpTo(calls + [call], replies, waiting, |calls|, at)
    ensures replies(call.id).Awaiting? != waiting ==> Places(calls + [call], replies, waiting, at)
  {
    var all := calls + [call];
    assert forall i :: 0 <= i < |calls| ==> all[i] == calls[i];
    assert forall k :: 0 <= k < |at| ==> all[at[k]] == calls[at[k]];
  }

  lemma PlaceMore(calls: seq<ToolCall>, replies: string -> Reply, waiting: bool, at: seq<nat>)
    requires calls != [] && PlacesUpTo(calls, replies, waiting, |calls| - 1, at)
    requires replies(calls[|calls| - 1].id).Awaiting? == waiting
    ensures Places(calls, replies, waiting, at + [|calls| - 1])
  {
    var more := at + [|calls| - 1];
    assert more[|at|] == |calls| - 1;
    assert forall i :: i in at ==> i in more;
  }

  lemma RecordOne(nameMap: map<string, string>, calls: seq<ToolCall>, replies: string -> Reply, pendings: seq<PendingCall>, at: seq<nat>,
                  call: ToolCall, p: PendingCall)
    requires RecordedAt(nameMap, calls, replies, pendings, at)
    requires replies(call.id).Awaiting? && Recorded(nameMap, call, replies(call.id), p)
    ensures RecordedAt(nameMap, calls + [call], replies, pendings + [p], at + [|calls|])
  {
    hide Recorded, Places;
    PlaceOne(calls, replies, true, at, call);
    PlacesInRange(calls, replies, true, at);
    var all, more := calls + [call], at + [|calls|];
    forall k | 0 <= k < |more|
      ensures more[k] < |all| && Recorded(nameMap, all[more[k]], replies(all[more[k]].id), (pendings + [p])[k])
    {
      if k < |at| {
        assert all[at[k]] == calls[at[k]];
      }
    }
    PlacesInRange(all, replies, true, more);
  }

  lemma RecordNone(nameMap: map<string, string>, calls: seq<ToolCall>, replies: string -> Reply, pendings: seq<PendingCall>, at: seq<nat>,
                   call: ToolCall)
    requires RecordedAt(nameMap, calls, replies, pendings, at)
    requires !replies(call.id).Awaiting?
    ensures RecordedAt(nameMap, calls + [call], replies, pendings, at)
  {
    hide Recorded, Places;
    PlaceOne(calls, replies, true, at, call);
    PlacesInRange(calls, replies, true, at);
    assert forall k :: 0 <= k < |at| ==> (calls + [call])[at[k]] == calls[at[k]];
  }

  lemma PlacesInRange(calls: seq<ToolCall>, replies: string -> Reply, waiting: bool, at: seq<nat>)
    requires Places(calls, replies, waiting, at)
    ensures forall k :: 0 <= k < |at| ==> at[k] < |calls|
  {
  }

  lemma NothingRecorded(nameMap: map<string, string>, replies: string -> Reply)
    ensures RecordedAt(nameMap, [], replies, [], [])
  {
  }

  method RunToolCalls(r: Rules, calls: seq<ToolCall>, nameMap: map<string, string>, replies: string -> Reply)
    returns (results: seq<ToolResult>, pendings: seq<PendingCall>, ghost at: seq<nat>, ghost sent: seq<Sent>)
    ensures results == AllResults(r, calls, replies)
    ensures pendings == Waiting(nameMap, calls, replies)
    ensures |results| == |calls| && forall i :: 0 <= i < |calls| ==> Replied(r, calls[i], replies(calls[i].id), results[i])
    ensures RecordedAt(nameMap, calls, replies, pendings, at)
    ensures |sent| == |calls| && forall i :: 0 <= i < |calls| ==>
      sent[i] == Sent(calls[i].id, if calls[i].name in nameMap then nameMap[calls[i].name] else calls[i].name, calls[i].input)
  {
    hide AllResults, Waiting, RecordedAt;
    results := [];
    pendings := [];
    at, sent := [], [];
    NoCallsYet(r, nameMap, replies);
    NothingRecorded(nameMap, replies);
    for i := 0 to |calls|
      invariant results == AllResults(r, calls[..i], replies)
      invariant pendings == Waiting(nameMap, calls[..i], replies)
      invariant |results| == i && forall j :: 0 <= j < i ==> Replied(r, calls[j], replies(calls[j].id), results[j])
      invariant RecordedAt(nameMap, calls[..i], replies, pendings, at)
      invariant |sent| == i && forall j :: 0 <= j < i ==>
        sent[j] == Sent(calls[j].id, if calls[j].name in nameMap then nameMap[calls[j].name] else calls[j].name, calls[j].input)
    {
      var call := calls[i];
      OneMoreCall(r, nameMap, calls[..i], call, replies);
      assert calls[..i + 1] == calls[..i] + [call];
      var qidName := if call.name in nameMap then nameMap[call.name] else call.name;
      sent := sent + [Sent(call.id, qidName, call.input)];
      if !replies(call.id).Awaiting? {
        RecordNone(nameMap, calls[..i], replies, pendings, at, call);
      }
      match replies(call.id) {
        case Failed(err) =>
          results := results + [ToolResult(call.id, ERROR_PREFIX + err, true)];
        case Awaiting(approvalId, reason) =>
          RecordOne(nameMap, calls[..i], replies, pendings, at, call, PendingCall(call.id, approvalId, qidName, reason));
          pendings := pendings + [PendingCall(call.id, approvalId, qidName, reason)];
          at := at + [i];
          results := results + [ToolResult(call.id, AWAITING_PREFIX + approvalId, true)];
        case Done(raw) =>
          results := results + [ToolResult(call.id, r.text(raw), false)];
      }
    }
    assert calls[..|calls|] == calls;
  }

  /** The results whose call is not among the given ids. */
  function Without(results: seq<ToolResult>, ids: set<string>): seq<ToolResult> {
    if results == [] then []
    else
      var last := results[|results| - 1];
      Without(results[..|results| - 1], ids) + if last.callId in ids then [] else [last]
  }

  method ResolvedResults(results: seq<ToolResult>, pendings: seq<PendingCall>) returns (resolved: seq<ToolResult>)
    ensures resolved == Without(results, Elements(PendingIds(pendings)))
  {
    var pending: set<string> := {};
    for i := 0 to |pendings|
      invariant pending == Elements(PendingIds(pendings[..i]))
    {
      assert PendingIds(pendings[..i + 1]) == PendingIds(pendings[..i]) + [pendings[i].callId];
      pending := pending + {pendings[i].callId};
    }
    assert pendings[..|pendings|] == pendings;
    resolved := [];
    for i := 0 to |results|
      invariant resolved == Without(results[..i], pending)
    {
      assert results[..i + 1][..i] == results[..i];
      if results[i].callId !in pending {
        resolved := resolved + [results[i]];
      }
    }
    assert results[..|results|] == results;
  }

  /** The call at this place waits. */
  predicate Waits(calls: seq<ToolCall>, replies: string -> Reply, i: nat)
    requires i < |calls|
  {
    replies(calls[i].id).Awaiting?
  }

  /** Which ids are on which side. */
  lemma {:induction false} SidesById(r: Rules, nameMap: map<string, string>, calls: seq<ToolCall>, replies: string -> Reply, id: string)
    ensures id in PendingIds(Waiting(nameMap, calls, replies)) <==> id in CallIds(calls) && replies(id).Awaiting?
    ensures id in ResultIds(Settled(r, calls, replies)) <==> id in CallIds(calls) && !replies(id).Awaiting?
  {
    if calls != [] {
      var front, call := calls[..|calls| - 1], calls[|calls| - 1];
      SidesById(r, nameMap, front, replies, id);
      assert CallIds(calls) == CallIds(front) + [call.id];
      var w, t := Waiting(nameMap, front, replies), Settled(r, front, replies);
      hide ResultOf, PendingOf;
      if replies(call.id).Awaiting? {
        assert PendingIds(w + [PendingOf(nameMap, call, replies(call.id))]) == PendingIds(w) + [PendingOf(nameMap, call, replies(call.id)).callId];
        PendingCallId(nameMap, call, replies(call.id));
        assert t + [] == t;
      } else {
        assert ResultIds(t + [ResultOf(r, call, replies(call.id))]) == ResultIds(t) + [call.id];
        assert w + [] == w;
      }
    }
  }

  lemma PendingCallId(nameMap: map<string, string>, call: ToolCall, reply: Reply)
    requires reply.Awaiting?
    ensures PendingOf(nameMap, call, reply).callId == call.id && PendingOf(nameMap, call, reply).approvalId == reply.approvalId
  {
  }

  /** With distinct ids, dropping the pending ids' results leaves the settled ones. */
  lemma {:induction false} WithoutIsSettled(r: Rules, calls: seq<ToolCall>, replies: string -> Reply, ids: set<string>)
    requires forall i :: 0 <= i < |calls| ==> (calls[i].id in ids <==> replies(calls[i].id).Awaiting?)
    ensures Without(AllResults(r, calls, replies), ids) == Settled(r, calls, replies)
  {
    if calls != [] {
      var front, call := calls[..|calls| - 1], calls[|calls| - 1];
      WithoutIsSettled(r, front, replies, ids);
      var all := AllResults(r, calls, replies);
      assert all[..|calls| - 1] == AllResults(r, front, replies);
      assert call.id in ids <==> replies(call.id).Awaiting?;
    }
  }

  // ----- the approval gate -----

  /** The call's pending entry passes validation: its approval id is not blank, and qid's tool name sanitizes back to the call's. */
  predicate PassesGate(nameMap: map<string, string>, call: ToolCall, reply: Reply) {
    reply.Awaiting? ==>
      && !Blank(reply.approvalId) && !Blank(QidName(nameMap, call))
      && SanitizeToolName(QidName(nameMap, call)) == call.name
  }

  predicate GateOk(nameMap: map<string, string>, calls: seq<ToolCall>, replies: string -> Reply) {
    && (forall i :: 0 <= i < |calls| ==> !Blank(calls[i].name) && PassesGate(nameMap, calls[i], replies(calls[i].id)))
    && Distinct(ApprovalIds(Waiting(nameMap, calls, replies)))
  }

  predicate IsPendingOf(nameMap: map<string, string>, calls: seq<ToolCall>, replies: string -> Reply, i: nat, p: PendingCall)
    requires i < |calls|
  {
    Waits(calls, replies, i) && p == PendingOf(nameMap, calls[i], replies(calls[i].id))
  }

  /** The pending entry of some waiting call. */
  predicate ComesFrom(nameMap: map<string, string>, calls: seq<ToolCall>, replies: string -> Reply, p: PendingCall) {
    exists i :: 0 <= i < |calls| && IsPendingOf(nameMap, calls, replies, i, p)
  }

  /** The pending entries are those of the waiting calls. */
  lemma {:induction false} WaitingOf(nameMap: map<string, string>, calls: seq<ToolCall>, replies: string -> Reply, p: PendingCall)
    ensures p in Waiting(nameMap, calls, replies) <==> ComesFrom(nameMap, calls, replies, p)
  {
    hide PendingOf;
    if calls != [] {
      var front, last := calls[..|calls| - 1], |calls| - 1;
      WaitingOf(nameMap, front, replies, p);
      assert IsPendingOf(nameMap, calls, replies, last, p) <==>
             replies(calls[last].id).Awaiting? && p == PendingOf(nameMap, calls[last], replies(calls[last].id));
      assert forall i :: 0 <= i < last ==>
        (IsPendingOf(nameMap, calls, replies, i, p) <==> IsPendingOf(nameMap, front, replies, i, p));
    }
  }

  /** No call id is pending twice, and none settled twice. */
  lemma {:induction false} SidesDistinct(r: Rules, nameMap: map<string, string>, calls: seq<ToolCall>, replies: string -> Reply)
    requires Distinct(CallIds(calls))
    ensures Distinct(PendingIds(Waiting(nameMap, calls, replies)))
    ensures Distinct(ResultIds(Settled(r, calls, replies)))
  {
    if calls != [] {
      var front, call := calls[..|calls| - 1], calls[|calls| - 1];
      assert CallIds(calls) == CallIds(front) + [call.id];
      assert forall i :: 0 <= i < |front| ==> CallIds(calls)[i] == CallIds(front)[i];
      SidesDistinct(r, nameMap, front, replies);
      SidesById(r, nameMap, front, replies, call.id);
      hide ResultOf, PendingOf;
      assert call.id !in CallIds(front);
      if replies(call.id).Awaiting? {
        PendingCallId(nameMap, call, replies(call.id));
      }
    }
  }

  /** A pending entry passes validation exactly when its call passes the gate. */
  lemma PendingOkIsGate(r: Rules, nameMap: map<string, string>, calls: seq<ToolCall>, replies: string -> Reply, i: nat)
    requires Acceptable(r, calls) && i < |calls| && Waits(calls, replies, i)
    ensures PendingOk(r, calls, PendingOf(nameMap, calls[i], replies(calls[i].id)))
            <==> PassesGate(nameMap, calls[i], replies(calls[i].id))
  {
    hide SanitizeToolName, Blank, QidName;
    var p := PendingOf(nameMap, calls[i], replies(calls[i].id));
    if PendingOk(r, calls, p) {
      var j :| 0 <= j < |calls| && calls[j].id == p.callId && SanitizeToolName(p.tool) == calls[j].name;
      assert CallIds(calls)[j] == CallIds(calls)[i];
      assert i == j;
    }
  }

  lemma PendingsOkIsGate(r: Rules, nameMap: map<string, string>, calls: seq<ToolCall>, replies: string -> Reply)
    requires Acceptable(r, calls)
    ensures PendingsOk(r, calls, Elements(ResultIds(Settled(r, calls, replies))), Waiting(nameMap, calls, replies))
            <==> (forall i :: 0 <= i < |calls| ==> PassesGate(nameMap, calls[i], replies(calls[i].id)))
                 && Distinct(ApprovalIds(Waiting(nameMap, calls, replies)))
  {
    var w := Waiting(nameMap, calls, replies);
    SidesDistinct(r, nameMap, calls, replies);
    forall k | 0 <= k < |w|
      ensures w[k].callId !in Elements(ResultIds(Settled(r, calls, replies)))
    {
      SidesById(r, nameMap, calls, replies, w[k].callId);
      assert PendingIds(w)[k] == w[k].callId;
    }
    hide PendingOk, PassesGate, PendingOf, Acceptable, Waiting, Settled, IsPendingOf;
    forall k | 0 <= k < |w|
      ensures exists i :: 0 <= i < |calls| && IsPendingOf(nameMap, calls, replies, i, w[k])
    {
      WaitingOf(nameMap, calls, replies, w[k]);
    }
    forall i | 0 <= i < |calls|
      ensures GateAt(r, nameMap, calls, replies, i)
    {
      GateHere(r, nameMap, calls, replies, i);
    }
    if forall k :: 0 <= k < |w| ==> PendingOk(r, calls, w[k]) {
      forall i | 0 <= i < |calls|
        ensures PassesGate(nameMap, calls[i], replies(calls[i].id))
      {
        assert GateAt(r, nameMap, calls, replies, i);
        if Waits(calls, replies, i) {
          var p := PendingOf(nameMap, calls[i], replies(calls[i].id));
          PendingIsPendingOf(nameMap, calls, replies, i);
          WaitingOf(nameMap, calls, replies, p);
        }
      }
    }
    if forall i :: 0 <= i < |calls| ==> PassesGate(nameMap, calls[i], replies(calls[i].id)) {
      forall k | 0 <= k < |w|
        ensures PendingOk(r, calls, w[k])
      {
        var i :| 0 <= i < |calls| && IsPendingOf(nameMap, calls, replies, i, w[k]);
        assert GateAt(r, nameMap, calls, replies, i);
        PendingIsPendingOf(nameMap, calls, replies, i);
        EntryOf(nameMap, calls, replies, i, w[k]);
      }
    }
  }

  /** Validation and gate agree on the call at this place. */
  predicate GateAt(r: Rules, nameMap: map<string, string>, calls: seq<ToolCall>, replies: string -> Reply, i: nat)
    requires i < |calls|
  {
    if Waits(calls, replies, i) then
      PendingOk(r, calls, PendingOf(nameMap, calls[i], replies(calls[i].id))) <==> PassesGate(nameMap, calls[i], replies(calls[i].id))
    else PassesGate(nameMap, calls[i], replies(calls[i].id))
  }

  lemma GateHere(r: Rules, nameMap: map<string, string>, calls: seq<ToolCall>, replies: string -> Reply, i: nat)
    requires Acceptable(r, calls) && i < |calls|
    ensures GateAt(r, nameMap, calls, replies, i)
  {
    GateOfCall(nameMap, calls[i], replies(calls[i].id));
    if Waits(calls, replies, i) {
      PendingOkIsGate(r, nameMap, calls, replies, i);
    }
  }

  lemma PendingIsPendingOf(nameMap: map<string, string>, calls: seq<ToolCall>, replies: string -> Reply, i: nat)
    requires i < |calls| && Waits(calls, replies, i)
    ensures IsPendingOf(nameMap, calls, replies, i, PendingOf(nameMap, calls[i], replies(calls[i].id)))
    ensures ComesFrom(nameMap, calls, replies, PendingOf(nameMap, calls[i], replies(calls[i].id)))
  {
    assert IsPendingOf(nameMap, calls, replies, i, PendingOf(nameMap, calls[i], replies(calls[i].id)));
  }

  lemma EntryOf(nameMap: map<string, string>, calls: seq<ToolCall>, replies: string -> Reply, i: nat, p: PendingCall)
    requires i < |calls| && IsPendingOf(nameMap, calls, replies, i, p)
    ensures Waits(calls, replies, i) && p == PendingOf(nameMap, calls[i], replies(calls[i].id))
  {
  }

  lemma GateOfCall(nameMap: map<string, string>, call: ToolCall, reply: Reply)
    ensures !reply.Awaiting? ==> PassesGate(nameMap, call, reply)
  {
  }

  /** Each call has its result or its pending entry. */
  lemma SidesCover(r: Rules, nameMap: map<string, string>, calls: seq<ToolCall>, replies: string -> Reply)
    requires Acceptable(r, calls)
    ensures ResultsOk(r, calls, Settled(r, calls, replies))
    ensures Covered(calls, Elements(ResultIds(Settled(r, calls, replies))) + Elements(PendingIds(Waiting(nameMap, calls, replies))))
  {
    SidesDistinct(r, nameMap, calls, replies);
    var t := Settled(r, calls, replies);
    forall i | 0 <= i < |t|
      ensures ResultOk(r, calls, t[i])
    {
      SidesById(r, nameMap, calls, replies, t[i].callId);
      assert ResultIds(t)[i] == t[i].callId;
      var j :| 0 <= j < |calls| && CallIds(calls)[j] == t[i].callId;
    }
    forall i | 0 <= i < |calls|
      ensures calls[i].id in Elements(ResultIds(t)) + Elements(PendingIds(Waiting(nameMap, calls, replies)))
    {
      SidesById(r, nameMap, calls, replies, calls[i].id);
      assert CallIds(calls)[i] == calls[i].id;
    }
  }

  function CallTurn(text: string, calls: seq<ToolCall>): Message {
    Message(Assistant, text, calls, [])
  }

  function ResultTurn(results: seq<ToolResult>): Message {
    Message(User, "", [], results)
  }

  /** What the loop wants to store at the gate. */
  function GateSession(r: Rules, id: string, model: string, provider: string, messages: seq<Message>,
                       nameMap: map<string, string>, calls: seq<ToolCall>, replies: string -> Reply): Session {
    Session(SESSION_VERSION, id, model, provider, messages, Settled(r, calls, replies), Waiting(nameMap, calls, replies))
  }

  /** The session built at the gate is valid exactly when the ids, names and approval ids that qid and the model gave are usable. */
  lemma GateSessionValid(r: Rules, id: string, model: string, provider: string, messages: seq<Message>,
                         nameMap: map<string, string>, calls: seq<ToolCall>, replies: string -> Reply)
    requires Acceptable(r, calls) && calls != []
    requires messages != [] && messages[|messages| - 1].role.Assistant? && messages[|messages| - 1].toolCalls == calls
    ensures ValidSession(r, GateSession(r, id, model, provider, messages, nameMap, calls, replies))
            <==> r.sessionIdOk(id) && r.providerOk(provider) && GateOk(nameMap, calls, replies)
  {
    hide PendingsOk, ResultsOk, Covered, PassesGate, Blank, Waiting, Settled, CallsOk, Acceptable;
    PendingsOkIsGate(r, nameMap, calls, replies);
    SidesCover(r, nameMap, calls, replies);
    NamedCallsOk(r, calls);
  }

  lemma NamedCallsOk(r: Rules, calls: seq<ToolCall>)
    requires Acceptable(r, calls)
    ensures CallsOk(r, calls) <==> forall i :: 0 <= i < |calls| ==> !Blank(calls[i].name)
  {
    hide Blank;
    if CallsOk(r, calls) {
      forall i | 0 <= i < |calls|
        ensures !Blank(calls[i].name)
      {
        assert CallOk(r, calls[i]);
      }
    }
  }

  /** With every call's name in a map of matching names, and good distinct approval ids, the gate always passes. */
  lemma NamedCallsPass(nameMap: map<string, string>, calls: seq<ToolCall>, replies: string -> Reply)
    requires NamesMatch(nameMap)
    requires forall i :: 0 <= i < |calls| ==> calls[i].name in nameMap && !Blank(calls[i].name)
    requires forall i :: 0 <= i < |calls| && Waits(calls, replies, i) ==> !Blank(replies(calls[i].id).approvalId)
    requires Distinct(ApprovalIds(Waiting(nameMap, calls, replies)))
    ensures GateOk(nameMap, calls, replies)
  {
    hide SanitizeToolName, Blank;
    forall i | 0 <= i < |calls|
      ensures PassesGate(nameMap, calls[i], replies(calls[i].id))
    {
      var name := calls[i].name;
      SanitizeKeepsBlank(nameMap[name]);
      assert Waits(calls, replies, i) <==> replies(calls[i].id).Awaiting?;
      NameFound(nameMap, name);
    }
  }

  lemma NameFound(nameMap: map<string, string>, name: string)
    requires NamesMatch(nameMap) && name in nameMap
    ensures SanitizeToolName(nameMap[name]) == name
  {
  }

  // ----- conversations -----

  /** The assistant turn at i is answered by one result for each of its calls, in order. */
  predicate Answered(messages: seq<Message>, i: nat)
    requires i < |messages|
  {
    && messages[i].role.Assistant?
    && Distinct(CallIds(messages[i].toolCalls))
    && i + 1 < |messages|
    && messages[i + 1].role.User?
    && ResultIds(messages[i + 1].toolResults) == CallIds(messages[i].toolCalls)
  }

  predicate WellFormed(messages: seq<Message>) {
    forall i :: 0 <= i < |messages| && messages[i].toolCalls != [] ==> Answered(messages, i)
  }

  /** All but the last turn is answered. */
  predicate Open(messages: seq<Message>) {
    && messages != []
    && WellFormed(messages[..|messages| - 1])
    && messages[|messages| - 1].role.Assistant?
    && Distinct(CallIds(messages[|messages| - 1].toolCalls))
  }

  lemma OpenTurn(messages: seq<Message>, text: string, calls: seq<ToolCall>)
    requires WellFormed(messages) && Distinct(CallIds(calls))
    ensures Open(messages + [CallTurn(text, calls)])
  {
    assert (messages + [CallTurn(text, calls)])[..|messages|] == messages;
  }

  /** Answering the last turn call by call closes the conversation. */
  lemma CloseTurn(messages: seq<Message>, results: seq<ToolResult>)
    requires Open(messages) && ResultIds(results) == CallIds(messages[|messages| - 1].toolCalls)
    ensures WellFormed(messages + [ResultTurn(results)])
  {
    var all, last := messages + [ResultTurn(results)], |messages| - 1;
    forall i | 0 <= i < |all| && all[i].toolCalls != []
      ensures Answered(all, i)
    {
      if i < last {
        assert messages[..last][i] == all[i];
        assert Answered(messages[..last], i);
        assert messages[..last][i + 1] == all[i + 1];
      }
    }
  }

  // ----- the loop -----

  /** What the model and qid do in one iteration. */
  datatype Turn =
    | GenerateFails
    | Turn(text: string, calls: seq<ToolCall>, stop: string, replies: string -> Reply, provider: Option<string>, storeFails: bool)

  datatype RunEnd =
    | Final(text: string, stop: string)
    | OutOfIterations
    | GenerateError
    | InvalidCalls
    | Stored(session: Session)
    | NotStored(denied: seq<string>)
    | Unresolved
    | InvalidSession
    | NoTools

  /** Every approval is asked to be denied, whatever becomes of the others. */
  method DenyUnpersistedApprovals(pendings: seq<PendingCall>) returns (denied: seq<string>)
    ensures denied == ApprovalIds(pendings)
  {
    denied := [];
    for i := 0 to |pendings|
      invariant denied == ApprovalIds(pendings[..i])
    {
      denied := denied + [pendings[i].approvalId];
      assert ApprovalIds(pendings[..i + 1]) == ApprovalIds(pendings[..i]) + [pendings[i].approvalId];
    }
    assert pendings[..|pendings|] == pendings;
  }

  function CanonicalCalls(r: Rules, calls: seq<ToolCall>): (c: seq<ToolCall>)
    ensures |c| == |calls| && forall i :: 0 <= i < |calls| ==> c[i] == Canonical(r, calls[i])
  {
    seq(|calls|, i requires 0 <= i < |calls| => Canonical(r, calls[i]))
  }

  lemma CanonicalAcceptable(r: Rules, calls: seq<ToolCall>)
    requires LawfulRules(r) && Acceptable(r, calls)
    ensures Acceptable(r, CanonicalCalls(r, calls)) && CallIds(CanonicalCalls(r, calls)) == CallIds(calls)
  {
    var c := CanonicalCalls(r, calls);
    assert CallIds(c) == CallIds(calls);
    forall i | 0 <= i < |c|
      ensures r.callIdOk(c[i].id) && r.canonical(c[i].input).Some?
    {
      assert c[i] == Canonical(r, calls[i]);
    }
  }

  lemma ResolvedIsSettled(r: Rules, nameMap: map<string, string>, calls: seq<ToolCall>, replies: string -> Reply)
    ensures Without(AllResults(r, calls, replies), Elements(PendingIds(Waiting(nameMap, calls, replies)))) == Settled(r, calls, replies)
  {
    forall i | 0 <= i < |calls|
      ensures calls[i].id in Elements(PendingIds(Waiting(nameMap, calls, replies))) <==> replies(calls[i].id).Awaiting?
    {
      SidesById(r, nameMap, calls, replies, calls[i].id);
      assert CallIds(calls)[i] == calls[i].id;
    }
    WithoutIsSettled(r, calls, replies, Elements(PendingIds(Waiting(nameMap, calls, replies))));
  }

  /** The turn's session can be stored: the provider's state is at hand and good, the store works, and the gate passes. */
  predicate Storable(r: Rules, sessionId: string, nameMap: map<string, string>, turn: Turn, calls: seq<ToolCall>)
    requires turn.Turn?
  {
    && turn.provider.Some? && !turn.storeFails
    && r.sessionIdOk(sessionId) && r.providerOk(turn.provider.value)
    && GateOk(nameMap, calls, turn.replies)
  }

  /** What becomes of a turn some of whose calls wait: its session is stored, or all its approvals are denied. */
  predicate EndsAtGate(r: Rules, sessionId: string, model: string, nameMap: map<string, string>, turn: Turn, end: RunEnd) {
    && turn.Turn? && Acceptable(r, turn.calls)
    && var calls := CanonicalCalls(r, turn.calls);
    && var waiting := Waiting(nameMap, calls, turn.replies);
    && waiting != []
    && if Storable(r, sessionId, nameMap, turn, calls) then
         && end.Stored?
         && LastCalls(end.session.messages) == calls
         && end.session == GateSession(r, sessionId, model, turn.provider.value, end.session.messages, nameMap, calls, turn.replies)
         && ValidSession(r, end.session)
       else end == NotStored(ApprovalIds(waiting))
  }
}
