/** What one turn of the loop leads to, told in the fields of messages, results and entries (internal/ai/planner_loop.go:26-99). */
module PlannerTurns {
  import opened Common
  import opened Sessions
  import opened PlannerGate
  import opened Text

  /** The calls' ids are good and no two are the same, and their inputs parse. */
  predicate GoodCalls(r: Rules, calls: seq<ToolCall>) {
    && (forall i, j :: 0 <= i < j < |calls| ==> calls[i].id != calls[j].id)
    && (forall i :: 0 <= i < |calls| ==> r.callIdOk(calls[i].id) && r.canonical(calls[i].input) != None)
  }

  /** The model calls tools, all of them are run, and none waits for an approval. */
  predicate GoesOn(r: Rules, turn: Turn) {
    && turn.Turn? && turn.calls != [] && GoodCalls(r, turn.calls)
    && forall i :: 0 <= i < |turn.calls| ==> !turn.replies(turn.calls[i].id).Awaiting?
  }

  /** The assistant's message of the turn: its text as it is, and its calls with canonical inputs. */
  predicate IsCallTurn(r: Rules, turn: Turn, m: Message)
    requires turn.Turn?
  {
    && m.role.Assistant? && m.text == turn.text && m.toolResults == []
    && |m.toolCalls| == |turn.calls|
    && forall i :: 0 <= i < |turn.calls| ==> CanonicalOf(r, turn.calls[i], m.toolCalls[i])
  }

  /** The message that answers the turn's calls one by one. */
  predicate IsResultTurn(r: Rules, turn: Turn, m: Message)
    requires turn.Turn?
  {
    && m.role.User? && m.text == "" && m.toolCalls == []
    && |m.toolResults| == |turn.calls|
    && forall i :: 0 <= i < |turn.calls| ==> Replied(r, turn.calls[i], turn.replies(turn.calls[i].id), m.toolResults[i])
  }

  /** The conversation the model is shown next. */
  predicate Follows(r: Rules, turn: Turn, before: seq<Message>, after: seq<Message>) {
    && turn.Turn?
    && |after| == |before| + 2 && after[..|before|] == before
    && IsCallTurn(r, turn, after[|before|]) && IsResultTurn(r, turn, after[|before| + 1])
  }

  /** Some call of the turn waits for an approval. */
  predicate StopsAtGate(r: Rules, turn: Turn) {
    && turn.Turn? && GoodCalls(r, turn.calls)
    && exists i :: 0 <= i < |turn.calls| && turn.replies(turn.calls[i].id).Awaiting?
  }

  // ----- at the gate -----

  /** One entry for each waiting call, in order. */
  ghost predicate KeptPending(nameMap: map<string, string>, turn: Turn, pending: seq<PendingCall>)
    requires turn.Turn?
  {
    exists at :: RecordedAt(nameMap, turn.calls, turn.replies, pending, at)
  }

  /** One result for each call that does not wait, in order. */
  ghost predicate KeptResults(r: Rules, turn: Turn, results: seq<ToolResult>)
    requires turn.Turn?
  {
    exists at :: SettledAt(r, turn.calls, turn.replies, results, at)
  }

  /** The approvals of the waiting calls, in order. */
  ghost predicate AllDenied(turn: Turn, denied: seq<string>)
    requires turn.Turn?
  {
    exists at :: Places(turn.calls, turn.replies, true, at) && |at| == |denied|
                 && forall k :: 0 <= k < |at| ==> turn.replies(turn.calls[at[k]].id).approvalId == denied[k]
  }

  /** The stored session, field by field. */
  ghost predicate StoredAs(r: Rules, sessionId: string, model: string, nameMap: map<string, string>, turn: Turn, before: seq<Message>,
                           s: Session) {
    && s.version == 1 && s.sessionId == sessionId && s.model == model
    && turn.Turn? && turn.provider == Some(s.provider)
    && |s.messages| == |before| + 1 && s.messages[..|before|] == before && IsCallTurn(r, turn, s.messages[|before|])
    && KeptPending(nameMap, turn, s.pending)
    && KeptResults(r, turn, s.results)
  }

  /**
   The turn's session can be stored: the provider's state is at hand and good, the store works, the calls have names, and each
   approval has an id of its own and a tool name that sanitizes to the call's.
   */
  predicate CanStore(r: Rules, sessionId: string, nameMap: map<string, string>, turn: Turn) {
    && turn.Turn? && turn.provider.Some? && !turn.storeFails
    && r.sessionIdOk(sessionId) && r.providerOk(turn.provider.value)
    && (forall i :: 0 <= i < |turn.calls| ==> !Blank(turn.calls[i].name))
    && (forall i :: 0 <= i < |turn.calls| ==> NamedApproval(nameMap, turn.calls[i], turn.replies(turn.calls[i].id)))
    && OwnApprovals(turn.calls, turn.replies)
  }

  predicate NamedApproval(nameMap: map<string, string>, call: ToolCall, reply: Reply) {
    reply.Awaiting? ==>
      var tool := if call.name in nameMap then nameMap[call.name] else call.name;
      && !Blank(reply.approvalId) && !Blank(tool) && |tool| == |call.name|
      && forall i :: 0 <= i < |tool| ==> call.name[i] == if tool[i] == '.' then '_' else tool[i]
  }

  predicate OtherApproval(a: Reply, b: Reply) {
    a.Awaiting? && b.Awaiting? ==> a.approvalId != b.approvalId
  }

  /** No two waiting calls share an approval. */
  predicate OwnApprovals(calls: seq<ToolCall>, replies: string -> Reply) {
    forall i, j :: 0 <= i < j < |calls| ==> OtherApproval(replies(calls[i].id), replies(calls[j].id))
  }

  /** How the run ends on this turn, if it does; `before` is what the model was shown. */
  ghost predicate EndsHere(r: Rules, sessionId: string, model: string, nameMap: map<string, string>, turn: Turn, before: seq<Message>,
                           end: RunEnd) {
    if turn.GenerateFails? then end == GenerateError
    else if turn.calls == [] then end == Final(Trim(turn.text), turn.stop)
    else if !GoodCalls(r, turn.calls) then end == InvalidCalls
    else if !StopsAtGate(r, turn) then false
    else if CanStore(r, sessionId, nameMap, turn) then
      end.Stored? && StoredAs(r, sessionId, model, nameMap, turn, before, end.session) && ValidSession(r, end.session)
    else end.NotStored? && AllDenied(turn, end.denied)
  }

  /** The model is shown what follows from what it was shown before, for as long as every turn goes on. */
  predicate Shown(r: Rules, turns: seq<Turn>, asked: seq<seq<Message>>) {
    |asked| <= |turns| && forall i :: 0 <= i < |asked| - 1 ==> GoesOn(r, turns[i]) && ShownNext(r, turns[i], asked, i)
  }

  predicate ShownNext(r: Rules, turn: Turn, asked: seq<seq<Message>>, i: nat)
    requires i + 1 < |asked|
  {
    Follows(r, turn, asked[i], asked[i + 1])
  }

  /**
   A whole run: the model is shown `first` and then what follows, and the run ends on its first turn that does not go on, or
   when as many turns as allowed have gone on.
   */
  ghost predicate RunsTo(r: Rules, sessionId: string, model: string, nameMap: map<string, string>, turns: seq<Turn>, limit: nat,
                         first: seq<Message>, asked: seq<seq<Message>>, end: RunEnd) {
    && |asked| <= limit && (limit > 0 ==> asked != [] && asked[0] == first)
    && Shown(r, turns, asked)
    && if asked == [] || GoesOn(r, turns[|asked| - 1]) then |asked| == limit && end == OutOfIterations
       else EndsHere(r, sessionId, model, nameMap, turns[|asked| - 1], asked[|asked| - 1], end)
  }

  // ----- the gate meets its description -----

  lemma {:induction false} WaitingPlaces(nameMap: map<string, string>, calls: seq<ToolCall>, replies: string -> Reply) returns (at: seq<nat>)
    ensures RecordedAt(nameMap, calls, replies, Waiting(nameMap, calls, replies), at)
  {
    hide RecordedAt;
    if calls == [] {
      at := [];
      NothingRecorded(nameMap, replies);
    } else {
      var front, call := calls[..|calls| - 1], calls[|calls| - 1];
      assert front + [call] == calls;
      at := WaitingPlaces(nameMap, front, replies);
      var w, reply := Waiting(nameMap, front, replies), replies(call.id);
      if reply.Awaiting? {
        RecordOne(nameMap, front, replies, w, at, call, PendingOf(nameMap, call, reply));
        at := at + [|front|];
      } else {
        RecordNone(nameMap, front, replies, w, at, call);
        assert w + [] == w;
      }
    }
  }

  lemma {:induction false} SettledPlaces(r: Rules, calls: seq<ToolCall>, replies: string -> Reply) returns (at: seq<nat>)
    ensures SettledAt(r, calls, replies, Settled(r, calls, replies), at)
  {
    hide SettledAt;
    if calls == [] {
      at := [];
      NothingSettled(r, replies);
    } else {
      var front, call := calls[..|calls| - 1], calls[|calls| - 1];
      assert front + [call] == calls;
      at := SettledPlaces(r, front, replies);
      var t, reply := Settled(r, front, replies), replies(call.id);
      SettleOne(r, front, replies, t, at, call);
      if reply.Awaiting? {
        assert t + [] == t;
      } else {
        at := at + [|front|];
      }
    }
  }

  lemma NothingSettled(r: Rules, replies: string -> Reply)
    ensures SettledAt(r, [], replies, [], [])
  {
  }

  lemma SettleOne(r: Rules, calls: seq<ToolCall>, replies: string -> Reply, t: seq<ToolResult>, at: seq<nat>, call: ToolCall)
    requires SettledAt(r, calls, replies, t, at)
    ensures var reply := replies(call.id);
      if reply.Awaiting? then SettledAt(r, calls + [call], replies, t, at)
      else SettledAt(r, calls + [call], replies, t + [ResultOf(r, call, reply)], at + [|calls|])
  {
    hide Replied, ResultOf;
    PlaceOne(calls, replies, false, at, call);
    ResultIsReplied(r, call, replies(call.id));
  }

  lemma ResultIsReplied(r: Rules, call: ToolCall, reply: Reply)
    ensures Replied(r, call, reply, ResultOf(r, call, reply))
  {
  }

  /** The same calls but for the form of their inputs. */
  predicate SameNames(a: seq<ToolCall>, b: seq<ToolCall>) {
    |a| == |b| && forall i :: 0 <= i < |a| ==> a[i].id == b[i].id && a[i].name == b[i].name
  }

  lemma SamePlaces(r: Rules, nameMap: map<string, string>, a: seq<ToolCall>, b: seq<ToolCall>, replies: string -> Reply, at: seq<nat>)
    requires SameNames(a, b)
    ensures forall w :: Places(a, replies, w, at) ==> Places(b, replies, w, at)
    ensures forall w: seq<PendingCall> :: RecordedAt(nameMap, a, replies, w, at) ==> RecordedAt(nameMap, b, replies, w, at)
    ensures forall t: seq<ToolResult> :: SettledAt(r, a, replies, t, at) ==> SettledAt(r, b, replies, t, at)
  {
  }

  lemma SanitizedIs(tool: string, name: string)
    ensures SanitizeToolName(tool) == name <==>
            |tool| == |name| && forall i :: 0 <= i < |tool| ==> name[i] == if tool[i] == '.' then '_' else tool[i]
  {
  }

  lemma RecordedApprovals(nameMap: map<string, string>, calls: seq<ToolCall>, replies: string -> Reply, w: seq<PendingCall>, at: seq<nat>)
    requires RecordedAt(nameMap, calls, replies, w, at)
    ensures forall k :: 0 <= k < |at| ==> replies(calls[at[k]].id).Awaiting? && replies(calls[at[k]].id).approvalId == ApprovalIds(w)[k]
  {
  }

  /** The approvals of the waiting entries differ exactly when those of the waiting calls do. */
  lemma ApprovalsDiffer(nameMap: map<string, string>, calls: seq<ToolCall>, replies: string -> Reply, w: seq<PendingCall>, at: seq<nat>)
    requires RecordedAt(nameMap, calls, replies, w, at)
    ensures Distinct(ApprovalIds(w)) <==> OwnApprovals(calls, replies)
  {
    hide Recorded;
    RecordedApprovals(nameMap, calls, replies, w, at);
    if Distinct(ApprovalIds(w)) {
      forall i, j | 0 <= i < j < |calls|
        ensures OtherApproval(replies(calls[i].id), replies(calls[j].id))
      {
        if replies(calls[i].id).Awaiting? && replies(calls[j].id).Awaiting? {
          var k :| 0 <= k < |at| && at[k] == i;
          var l :| 0 <= l < |at| && at[l] == j;
          assert k < l;
          assert ApprovalIds(w)[k] != ApprovalIds(w)[l];
        }
      }
    } else {
      var k, l :| 0 <= k < l < |w| && ApprovalIds(w)[k] == ApprovalIds(w)[l];
      assert !OtherApproval(replies(calls[at[k]].id), replies(calls[at[l]].id));
    }
  }

  lemma GateNames(r: Rules, nameMap: map<string, string>, turn: Turn)
    requires turn.Turn?
    ensures var calls := CanonicalCalls(r, turn.calls);
      (forall i :: 0 <= i < |calls| ==> !Blank(calls[i].name) && PassesGate(nameMap, calls[i], turn.replies(calls[i].id))) <==>
      && (forall i :: 0 <= i < |turn.calls| ==> !Blank(turn.calls[i].name))
      && (forall i :: 0 <= i < |turn.calls| ==> NamedApproval(nameMap, turn.calls[i], turn.replies(turn.calls[i].id)))
  {
    hide Blank, SanitizeToolName, PassesGate, NamedApproval, CanonicalCalls;
    var calls := CanonicalCalls(r, turn.calls);
    SameCalls(r, turn.calls);
    forall i | 0 <= i < |calls|
      ensures PassesGate(nameMap, calls[i], turn.replies(calls[i].id)) <==>
              NamedApproval(nameMap, turn.calls[i], turn.replies(turn.calls[i].id))
    {
      GateName(nameMap, calls[i], turn.calls[i], turn.replies(calls[i].id));
    }
  }

  lemma SameCalls(r: Rules, calls: seq<ToolCall>)
    ensures SameNames(CanonicalCalls(r, calls), calls)
  {
  }

  lemma GateName(nameMap: map<string, string>, c: ToolCall, call: ToolCall, reply: Reply)
    requires c.name == call.name
    ensures PassesGate(nameMap, c, reply) <==> NamedApproval(nameMap, call, reply)
  {
    hide Blank, SanitizeToolName;
    SanitizedIs(QidName(nameMap, c), call.name);
  }

  /** Storing is possible exactly when the calls as the model gave them allow it. */
  lemma StorableWhen(r: Rules, sessionId: string, nameMap: map<string, string>, turn: Turn)
    requires turn.Turn?
    ensures Storable(r, sessionId, nameMap, turn, CanonicalCalls(r, turn.calls)) <==> CanStore(r, sessionId, nameMap, turn)
  {
    var calls := CanonicalCalls(r, turn.calls);
    SameCalls(r, turn.calls);
    hide Blank, PassesGate, NamedApproval, Distinct, OtherApproval, Waiting, RecordedAt, CanonicalCalls;
    GateNames(r, nameMap, turn);
    var at := WaitingPlaces(nameMap, calls, turn.replies);
    ApprovalsDiffer(nameMap, calls, turn.replies, Waiting(nameMap, calls, turn.replies), at);
    SameApprovals(calls, turn.calls, turn.replies);
  }

  lemma SameApprovals(a: seq<ToolCall>, b: seq<ToolCall>, replies: string -> Reply)
    requires SameNames(a, b)
    ensures OwnApprovals(a, replies) <==> OwnApprovals(b, replies)
  {
    hide OtherApproval;
    assert forall i :: 0 <= i < |a| ==> replies(a[i].id) == replies(b[i].id);
  }

  /** What the gate keeps of a turn, told in the model's own calls. */
  lemma GateKeeps(r: Rules, nameMap: map<string, string>, turn: Turn)
    requires turn.Turn?
    ensures var calls := CanonicalCalls(r, turn.calls);
      && KeptPending(nameMap, turn, Waiting(nameMap, calls, turn.replies))
      && KeptResults(r, turn, Settled(r, calls, turn.replies))
      && AllDenied(turn, ApprovalIds(Waiting(nameMap, calls, turn.replies)))
  {
    var calls := CanonicalCalls(r, turn.calls);
    SameCalls(r, turn.calls);
    hide CanonicalCalls, Waiting, Settled, Replied, SameNames;
    var w, t := Waiting(nameMap, calls, turn.replies), Settled(r, calls, turn.replies);
    var at := WaitingPlaces(nameMap, calls, turn.replies);
    SamePlaces(r, nameMap, calls, turn.calls, turn.replies, at);
    assert RecordedAt(nameMap, turn.calls, turn.replies, w, at);
    assert AllDenied(turn, ApprovalIds(w)) by {
      assert forall k :: 0 <= k < |at| ==> turn.replies(turn.calls[at[k]].id).approvalId == ApprovalIds(w)[k];
    }
    var rest := SettledPlaces(r, calls, turn.replies);
    SamePlaces(r, nameMap, calls, turn.calls, turn.replies, rest);
    assert SettledAt(r, turn.calls, turn.replies, t, rest);
  }

  lemma GoodIsAcceptable(r: Rules, calls: seq<ToolCall>)
    ensures GoodCalls(r, calls) <==> Acceptable(r, calls)
  {
    if Acceptable(r, calls) {
      forall i, j | 0 <= i < j < |calls|
        ensures calls[i].id != calls[j].id
      {
        assert CallIds(calls)[i] != CallIds(calls)[j];
      }
    }
  }

  lemma CanonicalIsOf(r: Rules, calls: seq<ToolCall>)
    requires GoodCalls(r, calls)
    ensures forall i :: 0 <= i < |calls| ==> CanonicalOf(r, calls[i], CanonicalCalls(r, calls)[i])
  {
  }

  /** A turn's calls wait exactly when one of them does. */
  lemma StopsWhen(r: Rules, nameMap: map<string, string>, turn: Turn)
    requires turn.Turn? && GoodCalls(r, turn.calls)
    ensures Waiting(nameMap, CanonicalCalls(r, turn.calls), turn.replies) != [] <==> StopsAtGate(r, turn)
  {
    var calls := CanonicalCalls(r, turn.calls);
    SameCalls(r, turn.calls);
    hide CanonicalCalls, Waiting, GoodCalls;
    var at := WaitingPlaces(nameMap, calls, turn.replies);
    if StopsAtGate(r, turn) {
      var i :| 0 <= i < |turn.calls| && turn.replies(turn.calls[i].id).Awaiting?;
      assert i in at;
    }
    if at != [] {
      assert turn.replies(turn.calls[at[0]].id).Awaiting?;
    }
  }

  /** What happens at the gate is what is described for it. */
  lemma GateEndsHere(r: Rules, sessionId: string, model: string, nameMap: map<string, string>, turn: Turn, before: seq<Message>, end: RunEnd)
    requires EndsAtGate(r, sessionId, model, nameMap, turn, end)
    requires end.Stored? ==> end.session.messages == before + [CallTurn(turn.text, CanonicalCalls(r, turn.calls))]
    ensures EndsHere(r, sessionId, model, nameMap, turn, before, end)
  {
    hide GoodCalls, CanonicalCalls, Acceptable, Waiting, Settled, Storable, CanStore, ValidSession, AllDenied, StopsAtGate, StoredAs,
      GateSession;
    GoodIsAcceptable(r, turn.calls);
    StorableWhen(r, sessionId, nameMap, turn);
    StopsWhen(r, nameMap, turn);
    NoCallsNoGate(r, nameMap, turn);
    var calls := CanonicalCalls(r, turn.calls);
    if Storable(r, sessionId, nameMap, turn, calls) {
      assert turn.provider.Some? by {
        NeedsProvider(r, sessionId, nameMap, turn, calls);
      }
      GateSessionIs(r, sessionId, model, nameMap, turn, before, end.session);
    } else {
      GateKeeps(r, nameMap, turn);
    }
  }

  lemma NeedsProvider(r: Rules, sessionId: string, nameMap: map<string, string>, turn: Turn, calls: seq<ToolCall>)
    requires turn.Turn? && Storable(r, sessionId, nameMap, turn, calls)
    ensures turn.provider.Some?
  {
  }

  lemma GateSessionIs(r: Rules, sessionId: string, model: string, nameMap: map<string, string>, turn: Turn, before: seq<Message>, s: Session)
    requires turn.Turn? && turn.provider.Some? && GoodCalls(r, turn.calls)
    requires var calls := CanonicalCalls(r, turn.calls);
      s == GateSession(r, sessionId, model, turn.provider.value, before + [CallTurn(turn.text, calls)], nameMap, calls, turn.replies)
    ensures StoredAs(r, sessionId, model, nameMap, turn, before, s)
  {
    CanonicalIsOf(r, turn.calls);
    hide GoodCalls, CanonicalCalls, Waiting, Settled, KeptPending, KeptResults, AllDenied, CanonicalOf;
    GateKeeps(r, nameMap, turn);
  }

  lemma NoCallsNoGate(r: Rules, nameMap: map<string, string>, turn: Turn)
    requires turn.Turn?
    ensures turn.calls == [] ==> Waiting(nameMap, CanonicalCalls(r, turn.calls), turn.replies) == []
  {
  }

  /** A turn that goes on adds its two messages. */
  lemma TurnFollows(r: Rules, turn: Turn, before: seq<Message>, calls: seq<ToolCall>, results: seq<ToolResult>)
    requires turn.Turn? && |calls| == |turn.calls| == |results|
    requires forall i :: 0 <= i < |calls| ==> CanonicalOf(r, turn.calls[i], calls[i])
    requires forall i :: 0 <= i < |calls| ==> Replied(r, calls[i], turn.replies(calls[i].id), results[i])
    ensures Follows(r, turn, before, before + [CallTurn(turn.text, calls)] + [ResultTurn(results)])
  {
    hide Replied;
    forall i | 0 <= i < |calls|
      ensures Replied(r, turn.calls[i], turn.replies(turn.calls[i].id), results[i])
    {
      RepliedById(r, calls[i], turn.calls[i], turn.replies(calls[i].id), results[i]);
    }
  }

  lemma RepliedById(r: Rules, c: ToolCall, call: ToolCall, reply: Reply, t: ToolResult)
    requires c.id == call.id && Replied(r, c, reply, t)
    ensures Replied(r, call, reply, t)
  {
  }

  /** The ends that need no gate. */
  lemma EndsAtOnce(r: Rules, sessionId: string, model: string, nameMap: map<string, string>, turn: Turn, before: seq<Message>)
    ensures turn.GenerateFails? ==> EndsHere(r, sessionId, model, nameMap, turn, before, GenerateError)
    ensures turn.Turn? && turn.calls == [] ==>
              EndsHere(r, sessionId, model, nameMap, turn, before, Final(Trim(turn.text), turn.stop))
    ensures turn.Turn? && turn.calls != [] && !Acceptable(r, turn.calls) ==>
              EndsHere(r, sessionId, model, nameMap, turn, before, InvalidCalls)
    ensures GoesOn(r, turn) ==> turn.Turn? && turn.calls != [] && Acceptable(r, turn.calls)
  {
    hide Trim, GoodCalls, Acceptable, StoredAs, CanStore, StopsAtGate, AllDenied, ValidSession;
    if turn.Turn? {
      GoodIsAcceptable(r, turn.calls);
    }
  }

  lemma GoesOnUnless(r: Rules, turn: Turn)
    requires turn.Turn? && turn.calls != [] && GoodCalls(r, turn.calls) && !StopsAtGate(r, turn)
    ensures GoesOn(r, turn)
  {
  }

  lemma AcceptableDistinct(r: Rules, calls: seq<ToolCall>)
    requires Acceptable(r, calls)
    ensures Distinct(CallIds(calls))
  {
  }

  lemma ShownNone(r: Rules, turns: seq<Turn>)
    ensures Shown(r, turns, [])
  {
  }

  lemma ShowOne(r: Rules, turns: seq<Turn>, asked: seq<seq<Message>>, conversation: seq<Message>)
    requires Shown(r, turns, asked) && |asked| < |turns|
    requires asked != [] ==> GoesOn(r, turns[|asked| - 1]) && Follows(r, turns[|asked| - 1], asked[|asked| - 1], conversation)
    ensures Shown(r, turns, asked + [conversation])
  {
    hide GoesOn, Follows;
    var all := asked + [conversation];
    forall i: nat | i < |all| - 1
      ensures GoesOn(r, turns[i]) && ShownNext(r, turns[i], all, i)
    {
      if i < |asked| - 1 {
        assert ShownNext(r, turns[i], asked, i);
      }
    }
  }

  lemma EndsNowhereElse(r: Rules, sessionId: string, model: string, nameMap: map<string, string>, turn: Turn, before: seq<Message>, end: RunEnd)
    requires EndsHere(r, sessionId, model, nameMap, turn, before, end)
    ensures !GoesOn(r, turn)
  {
    hide GoodCalls, StoredAs, CanStore, AllDenied, ValidSession, Trim;
  }

  /** A run ends in none of the ways a resumption can fail. */
  lemma RunsOnly(r: Rules, sessionId: string, model: string, nameMap: map<string, string>, turns: seq<Turn>, limit: nat,
                 first: seq<Message>, asked: seq<seq<Message>>, end: RunEnd)
    requires RunsTo(r, sessionId, model, nameMap, turns, limit, first, asked, end)
    ensures !end.InvalidSession? && !end.Unresolved? && !end.NoTools?
  {
    hide GoodCalls, StoredAs, CanStore, AllDenied, ValidSession, Trim, ShownNext;
  }
}
