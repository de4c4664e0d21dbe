/** The approval queue as the daemon runs it (internal/approval/queue.go, restore.go). */
module Queue {
  import opened Common
  import opened AuditLog
  import opened Approval

  /** r is the whole text if it fits, and otherwise the longest part of its first bytes that is valid UTF-8. */
  ghost predicate LongestPart(s: Setting, clean: string, r: string) {
    if |clean| <= 0x8000 then r == clean
    else |r| <= 0x8000 && r <= clean && (r == "" || s.utf8(r)) && forall n :: |r| < n <= 0x8000 ==> !s.utf8(clean[..n])
  }

  lemma PartOf(s: Setting, text: string)
    ensures LongestPart(s, s.scrub(text), BoundedText(s, text))
  {
    var clean := s.scrub(text);
    if |clean| > 0x8000 {
      var cut := clean[..0x8000];
      assert forall n :: 0 <= n <= 0x8000 ==> cut[..n] == clean[..n];
    }
  }

  /** The part of an over-long error text that is kept. */
  method BoundedTerminalText(s: Setting, text: string) returns (r: string)
    ensures r == BoundedText(s, text)
    ensures LongestPart(s, s.scrub(text), r)
  {
    PartOf(s, text);
    r := s.scrub(text);
    if |r| <= MAX_TERMINAL_TEXT_BYTES {
      return;
    }
    r := r[..MAX_TERMINAL_TEXT_BYTES];
    ghost var cut := r;
    while r != "" && !s.utf8(r)
      invariant ValidPrefix(s, r) == ValidPrefix(s, cut)
      decreases |r|
    {
      r := r[..|r| - 1];
    }
  }

  predicate AllInUse(q: Held, ids: seq<string>) {
    forall i :: 0 <= i < |ids| ==> Find(q, ids[i]).Some?
  }

  /** What replay has collected about one id. */
  datatype Accumulator = Accumulator(enqueue: Option<AuditEntry>, latest: AuditEntry)

  datatype RestoreStats = RestoreStats(pending: nat, terminal: nat)

  class Queue {
    const setting: Setting
    const audit: Audit
    var items: map<string, Entry>
    var history: map<string, Entry>

    ghost predicate Valid()
      reads this, audit, audit.file
    {
      && audit.Valid()
      && audit.codec == setting.codec
    }

    ghost function View(): World
      reads this, audit, audit.file
    {
      World(Held(items, history), audit.log, audit.Sizes(), audit.open)
    }

    constructor (setting: Setting, audit: Audit)
      requires audit.Valid() && audit.codec == setting.codec
      ensures Valid() && this.setting == setting && this.audit == audit
      ensures View() == World(NOTHING_HELD, audit.log, audit.Sizes(), audit.open)
    {
      this.setting := setting;
      this.audit := audit;
      items := map[];
      history := map[];
    }

    method Get(id: string) returns (r: Option<Entry>)
      ensures r == Find(Held(items, history), id)
      ensures r == if id in items then Some(items[id]) else if id in history then Some(history[id]) else None
    {
      if id in items {
        return Some(items[id]);
      }
      if id in history {
        return Some(history[id]);
      }
      return None;
    }

    /** The first of the ids drawn that is not in use. */
    method NewId(draws: seq<string>) returns (id: string)
      requires exists i :: 0 <= i < |draws| && Find(Held(items, history), draws[i]).None?
      ensures Find(Held(items, history), id).None? && id in draws
      ensures exists i :: 0 <= i < |draws| && id == draws[i] && AllInUse(Held(items, history), draws[..i])
    {
      var i := 0;
      id := draws[0];
      while id in items || id in history
        invariant 0 <= i < |draws| && id == draws[i]
        invariant AllInUse(Held(items, history), draws[..i])
        decreases |draws| - i
      {
        i := i + 1;
        id := draws[i];
      }
    }

    /** The id drawn; a call that is refused leaves nothing behind. */
    method EnqueueWithCallID(draws: seq<string>, caller: string, callId: string, tool: string, params: Bytes, reason: string,
                             now: Time)
      returns (r: Result<string, QueueError>, ghost drawn: string)
      requires Valid() && "" !in draws
      requires exists i :: 0 <= i < |draws| && Find(Held(items, history), draws[i]).None?
      modifies this, audit, audit.file
      ensures Valid()
      ensures Find(Held(old(items), old(history)), drawn).None? && drawn in draws
      ensures var op := DoEnqueue(drawn, caller, callId, tool, params, reason, now);
        && View() == Perform(setting, old(View()), op)
        && r == match Attempt(setting, old(View()), op) { case Ok(_) => Ok(drawn) case Err(e) => Err(e) }
      ensures r.Ok? ==> caller != "" && tool != "" && r.value == drawn && history == old(history)
      ensures r.Ok? ==> items == old(items)[drawn := Entry(drawn, caller, callId, tool, params, Status.Pending, reason, now, None, None, [], "")]
      ensures r.Ok? ==> audit.log == old(audit.log) + [AuditEntry(now, Enqueue, drawn, caller, callId, tool, reason, params, "", None)]
      ensures r.Err? ==> items == old(items) && history == old(history) && audit.log == old(audit.log)
      ensures r == Err(Invalid) <==> caller == "" || tool == ""
                                     || !setting.utf8(caller) || |caller| > 0x2000 || !setting.utf8(callId) || |callId| > 0x400
                                     || !setting.utf8(tool) || |tool| > 0x2000 || !setting.utf8(reason) || |reason| > 0x8000
    {
      hide SmallOutcome, Read, Lawful, Admit;
      drawn :| drawn in draws && Find(Held(items, history), drawn).None?;
      if caller == "" || tool == "" {
        return Err(Invalid), drawn;
      }
      if !TextOk(setting, caller, MAX_APPROVAL_CALLER_BYTES) || !TextOk(setting, callId, MAX_APPROVAL_CALL_ID_BYTES)
         || !TextOk(setting, tool, MAX_APPROVAL_TOOL_BYTES) || !TextOk(setting, reason, MAX_TERMINAL_TEXT_BYTES) {
        return Err(Invalid), drawn;
      }
      hide TextOk;
      var id := NewId(draws);
      drawn := id;
      var p := Entry(id, caller, callId, tool, params, Status.Pending, reason, now, None, None, [], "");
      ghost var before := items;
      items := items[id := p];
      var appended := audit.Append(AuditEntry(now, Enqueue, id, caller, callId, tool, reason, params, "", None));
      if appended.Err? {
        items := items - {id};
        assert items == before;
        return Err(NotRecorded), drawn;
      }
      r := Ok(id);
    }

    method PendingForTransition(id: string) returns (r: Result<Entry, QueueError>)
      ensures r == ForTransition(Held(items, history), id)
      ensures r.Ok? <==> id in items && items[id].status.Pending?
      ensures r.Ok? ==> r.value == items[id]
      ensures r == Err(UnknownId) <==> id !in items && id !in history
    {
      if id !in items {
        if id in history {
          return Err(IllegalTransition(history[id].status));
        }
        return Err(UnknownId);
      }
      if !items[id].status.Pending? {
        return Err(IllegalTransition(items[id].status));
      }
      return Ok(items[id]);
    }

    method Approve(id: string, now: Time) returns (r: Result<Entry, QueueError>)
      requires Valid()
      modifies this, audit, audit.file
      ensures Valid()
      ensures View() == Perform(setting, old(View()), DoApprove(id, now))
      ensures r == Answer(Attempt(setting, old(View()), DoApprove(id, now)), id)
      ensures r.Ok? ==> id in old(items) && old(items)[id].status.Pending?
      ensures r.Ok? ==> r.value == old(items)[id].(status := Status.Approved, decidedAt := Some(now))
      ensures r.Ok? ==> items == old(items)[id := r.value] && history == old(history)
      ensures r.Ok? ==> var p := r.value;
        audit.log == old(audit.log) + [AuditEntry(now, Event.Approve, id, p.caller, p.callId, p.tool, "", [], "", None)]
      ensures r.Err? ==> items == old(items) && history == old(history) && audit.log == old(audit.log)
    {
      hide SmallOutcome, Read, Lawful, Admit;
      var found := PendingForTransition(id);
      if found.Err? {
        return found;
      }
      var p := found.value;
      var appended := audit.Append(AuditEntry(now, Event.Approve, id, p.caller, p.callId, p.tool, "", [], "", None));
      if appended.Err? {
        return Err(NotRecorded);
      }
      items := items[id := p.(status := Status.Approved, decidedAt := Some(now))];
      r := Ok(items[id]);
    }

    method Deny(id: string, reason: string, now: Time) returns (r: Result<Entry, QueueError>)
      requires Valid()
      modifies this, audit, audit.file
      ensures Valid()
      ensures View() == Perform(setting, old(View()), DoDeny(id, reason, now))
      ensures r == Answer(Attempt(setting, old(View()), DoDeny(id, reason, now)), id)
      ensures r.Ok? ==> id in old(items) && old(items)[id].status.Pending?
      ensures r.Ok? ==> r.value == old(items)[id].(status := Status.Denied, reason := reason, decidedAt := Some(now))
      ensures r.Ok? ==> items == old(items)[id := r.value] && history == old(history)
      ensures r.Ok? ==> var p := r.value;
        audit.log == old(audit.log) + [AuditEntry(now, Event.Deny, id, p.caller, p.callId, p.tool, "", [], setting.hash(p.params),
                                                  Some(TerminalOutcome(Status.Denied, [], reason, "", Some(now), None)))]
      ensures r.Err? ==> items == old(items) && history == old(history) && audit.log == old(audit.log)
      ensures r == Err(Invalid) <==> !setting.utf8(reason) || |reason| > 0x8000
    {
      hide SmallOutcome, Read, Lawful, Admit;
      if !TextOk(setting, reason, MAX_TERMINAL_TEXT_BYTES) {
        return Err(Invalid);
      }
      var found := PendingForTransition(id);
      if found.Err? {
        return found;
      }
      var p := found.value;
      var outcome := TerminalOutcome(Status.Denied, [], reason, "", Some(now), None);
      var appended := audit.Append(AuditEntry(now, Event.Deny, id, p.caller, p.callId, p.tool, "", [],
                                              setting.hash(p.params), Some(outcome)));
      if appended.Err? {
        return Err(NotRecorded);
      }
      items := items[id := p.(status := Status.Denied, reason := reason, decidedAt := Some(now))];
      r := Ok(items[id]);
    }

    method RecordResult(id: string, result: Bytes, execErr: Option<string>, now: Time) returns (r: Result<Entry, QueueError>)
      requires Valid()
      modifies this, audit, audit.file
      ensures Valid()
      ensures View() == Perform(setting, old(View()), DoRecord(id, result, execErr, now))
      ensures r == Answer(Attempt(setting, old(View()), DoRecord(id, result, execErr, now)), id)
      ensures r.Ok? ==> id in old(items) && old(items)[id].status.Approved?
      ensures r.Ok? && execErr.None? ==>
        r.value == old(items)[id].(status := Status.Executed, executedAt := Some(now), result := result)
      ensures r.Ok? && execErr.Some? ==>
        && r.value == old(items)[id].(status := Status.Failed, executedAt := Some(now), err := r.value.err)
        && LongestPart(setting, setting.scrub(execErr.value), r.value.err)
      ensures r.Ok? ==> items == old(items)[id := r.value] && history == old(history)
      ensures r.Ok? ==> var p := r.value;
        audit.log == old(audit.log) + [AuditEntry(now, if execErr.None? then Execute else Fail, id, p.caller, p.callId, p.tool, "", [],
                                                  setting.hash(p.params),
                                                  Some(TerminalOutcome(p.status, p.result, "", p.err, p.decidedAt, Some(now))))]
      ensures r.Err? ==> items == old(items) && history == old(history) && audit.log == old(audit.log)
      ensures r == Err(ResultTooLong) <==> execErr.None? && |result| > 0x40_0000
    {
      hide SmallOutcome, Read, Lawful, Admit, BoundedText;
      if execErr.None? && |result| > MAX_TERMINAL_RESULT_BYTES {
        return Err(ResultTooLong);
      }
      if id !in items {
        if id in history {
          return Err(IllegalTransition(history[id].status));
        }
        return Err(UnknownId);
      }
      var p := items[id];
      if !p.status.Approved? {
        return Err(IllegalTransition(p.status));
      }
      var snap := p.(executedAt := Some(now));
      var event := Event.Execute;
      match execErr {
        case Some(text) =>
          var bounded := BoundedTerminalText(setting, text);
          snap := snap.(status := Status.Failed, err := bounded);
          event := Event.Fail;
        case None =>
          snap := snap.(status := Status.Executed, result := result);
      }
      var outcome := TerminalOutcome(snap.status, snap.result, "", snap.err, snap.decidedAt, snap.executedAt);
      var appended := audit.Append(AuditEntry(now, event, id, snap.caller, snap.callId, snap.tool, "", [],
                                              setting.hash(snap.params), Some(outcome)));
      if appended.Err? {
        return Err(NotRecorded);
      }
      items := items[id := snap];
      r := Ok(snap);
    }

    /** A replayed entry goes to the live entries or to the history. */
    method AddReplayed(id: string, p: Entry) returns (live: bool)
      requires id !in items && id !in history
      modifies this`items, this`history
      ensures live <==> Live(p)
      ensures Held(items, history) == WithReplayed(Held(old(items), old(history)), id, Some(p))
      ensures |items| == |old(items)| + (if live then 1 else 0) && |history| == |old(history)| + if live then 0 else 1
    {
      live := Live(p);
      if live {
        items := items[id := p];
      } else {
        history := history[id := p];
      }
    }

    /** Replays a log: no tool is run and nothing is appended. */
    method Restore(entries: seq<AuditEntry>) returns (stats: RestoreStats)
      requires Valid()
      modifies this`items, this`history
      ensures Valid() && audit.log == old(audit.log)
      ensures Held(items, history) == RestoreInto(setting.hash, Held(old(items), old(history)), entries)
      ensures stats.pending == |items| - |old(items)| && stats.terminal == |history| - |old(history)|
    {
      hide Replayed, RestoreIds, RestoreInto, LastEnqueue, Latest, Elements, Distinct, Live, Ids, Backed, Terminated;
      var byId, order := Accumulate(entries);
      ghost var q := Held(items, history);
      RestoreNone(setting.hash, q, entries);
      AllElements(order);
      var pending, terminal := 0, 0;
      for i := 0 to |order|
        invariant Held(items, history) == RestoreIds(setting.hash, q, entries, Elements(order[..i]))
        invariant pending == |items| - |q.items| && terminal == |history| - |q.history|
      {
        var id := order[i];
        assert id in Elements(order) && id in byId && id != "" by {
          OneMoreElement(order, i);
        }
        var a := byId[id];
        assert a.enqueue == LastEnqueue(entries, id) && Some(a.latest) == Latest(entries, id);
        var p := Replayed(setting.hash, a.enqueue, Some(a.latest));
        RestoreStep(setting.hash, q, entries, order, i, Held(items, history), p);
        if id !in items && id !in history && p.Some? {
          var live := AddReplayed(id, p.value);
          pending, terminal := pending + (if live then 1 else 0), terminal + (if live then 0 else 1);
        }
      }
      AllElements(order);
      RestoreSkipsNoId(setting.hash, q, entries);
      stats := RestoreStats(pending, terminal);
    }
  }

  lemma AddsReplayed(hash: Bytes -> string, q: Held, log: seq<AuditEntry>, id: string)
    requires id != ""
    ensures var p := Replayed(hash, LastEnqueue(log, id), Latest(log, id));
      var added := Find(q, id).None? && p.Some?;
      && (AddsTo(hash, q, log, id, true) <==> added && Live(p.value))
      && (AddsTo(hash, q, log, id, false) <==> added && !Live(p.value))
      && (added ==> Added(hash, q, log, id) == p)
  {
    hide Replayed;
  }

  /** What is held once a replayed entry was added, unless its id is held already. */
  function WithReplayed(now: Held, id: string, p: Option<Entry>): Held
  {
    if id in now.items || id in now.history || p.None? then now
    else if Live(p.value) then now.(items := now.items[id := p.value])
    else now.(history := now.history[id := p.value])
  }

  lemma RestoreStep(hash: Bytes -> string, q: Held, log: seq<AuditEntry>, order: seq<string>, i: nat,
                    now: Held, p: Option<Entry>)
    requires Distinct(order) && i < |order| && order[i] != ""
    requires now == RestoreIds(hash, q, log, Elements(order[..i]))
    requires p == Replayed(hash, LastEnqueue(log, order[i]), Latest(log, order[i]))
    ensures RestoreIds(hash, q, log, Elements(order[..i + 1])) == WithReplayed(now, order[i], p)
  {
    hide Replayed, RestoreIds, LastEnqueue, Latest, Elements, Distinct, Live;
    OneMoreElement(order, i);
    RestoreOneMore(hash, q, log, Elements(order[..i]), order[i]);
    AddsReplayed(hash, q, log, order[i]);
    hide AddsTo, Added;
  }

  lemma OneMoreElement(order: seq<string>, i: nat)
    requires Distinct(order) && i < |order|
    ensures Elements(order[..0]) == {} && order[i] in Elements(order)
    ensures order[i] !in Elements(order[..i]) && Elements(order[..i + 1]) == Elements(order[..i]) + {order[i]}
  {
    assert order[..i + 1] == order[..i] + [order[i]];
  }

  lemma AllElements(order: seq<string>)
    ensures Elements(order[..|order|]) == Elements(order) && Elements(order[..0]) == {}
  {
    assert order[..|order|] == order;
  }

  lemma RestoreNone(hash: Bytes -> string, q: Held, log: seq<AuditEntry>)
    ensures RestoreIds(hash, q, log, {}) == q
  {
    assert AddedAmong(hash, q, log, {}, true) == map[] == AddedAmong(hash, q, log, {}, false);
    assert q.items + map[] == q.items && q.history + map[] == q.history;
  }

  /** byId and order as the entries give them. */
  ghost predicate Accumulated(entries: seq<AuditEntry>, byId: map<string, Accumulator>, order: seq<string>) {
    && Distinct(order) && Elements(order) == byId.Keys == Ids(entries) - {""}
    && forall id :: id in byId ==> byId[id].enqueue == LastEnqueue(entries, id) && Some(byId[id].latest) == Latest(entries, id)
  }

  function EnqueueAfter(byId: map<string, Accumulator>, e: AuditEntry): Option<AuditEntry> {
    if e.event.Enqueue? then Some(e) else if e.id in byId then byId[e.id].enqueue else None
  }

  lemma IdsSnoc(front: seq<AuditEntry>, e: AuditEntry)
    ensures Ids(front + [e]) == Ids(front) + {e.id}
  {
  }

  lemma ElementsSnoc(order: seq<string>, id: string)
    requires Distinct(order) && id !in Elements(order)
    ensures Distinct(order + [id]) && Elements(order + [id]) == Elements(order) + {id}
  {
  }

  lemma EntriesSnoc(front: seq<AuditEntry>, e: AuditEntry, byId: map<string, Accumulator>, id: string)
    requires id in byId && byId[id].enqueue == LastEnqueue(front, id) && Some(byId[id].latest) == Latest(front, id) && id != e.id
    ensures byId[id].enqueue == LastEnqueue(front + [e], id) && Some(byId[id].latest) == Latest(front + [e], id)
  {
    hide LastEnqueue, Latest;
    Appended(front, e, id);
  }

  /** The entry's own id, known or not. */
  lemma OwnEntry(front: seq<AuditEntry>, e: AuditEntry, byId: map<string, Accumulator>, order: seq<string>)
    requires Accumulated(front, byId, order) && e.id != ""
    ensures EnqueueAfter(byId, e) == LastEnqueue(front + [e], e.id) && Some(e) == Latest(front + [e], e.id)
  {
    hide LastEnqueue, Latest, Ids;
    Appended(front, e, e.id);
    if e.id !in byId {
      NeverEnqueued(front, e.id);
    }
  }

  lemma NextAccumulated(front: seq<AuditEntry>, e: AuditEntry, byId: map<string, Accumulator>, order: seq<string>)
    requires Accumulated(front, byId, order)
    ensures e.id == "" ==> Accumulated(front + [e], byId, order)
    ensures e.id != "" ==> Accumulated(front + [e], byId[e.id := Accumulator(EnqueueAfter(byId, e), e)],
                                       if e.id in byId then order else order + [e.id])
  {
    hide LastEnqueue, Latest, Ids, Elements, Distinct, EnqueueAfter;
    IdsSnoc(front, e);
    forall id | id in byId && id != e.id
      ensures byId[id].enqueue == LastEnqueue(front + [e], id) && Some(byId[id].latest) == Latest(front + [e], id)
    {
      EntriesSnoc(front, e, byId, id);
    }
    if e.id != "" {
      OwnEntry(front, e, byId, order);
      if e.id !in byId {
        ElementsSnoc(order, e.id);
      }
    }
  }

  lemma NoneAccumulated()
    ensures Accumulated([], map[], [])
  {
  }

  /** For each id, in order of first appearance, its last enqueue record and its latest record. */
  method Accumulate(entries: seq<AuditEntry>) returns (byId: map<string, Accumulator>, order: seq<string>)
    ensures Distinct(order) && Elements(order) == byId.Keys == Ids(entries) - {""}
    ensures forall id :: id in byId ==> byId[id].enqueue == LastEnqueue(entries, id) && Some(byId[id].latest) == Latest(entries, id)
  {
    hide LastEnqueue, Latest, Ids, Elements, Distinct;
    NoneAccumulated();
    byId := map[];
    order := [];
    for i := 0 to |entries|
      invariant Accumulated(entries[..i], byId, order)
    {
      var e := entries[i];
      assert entries[..i + 1] == entries[..i] + [e];
      NextAccumulated(entries[..i], e, byId, order);
      hide Accumulated;
      if e.id == "" {
        continue;
      }
      var enqueue := None;
      if e.id in byId {
        enqueue := byId[e.id].enqueue;
      } else {
        order := order + [e.id];
      }
      if e.event.Enqueue? {
        enqueue := Some(e);
      }
      byId := byId[e.id := Accumulator(enqueue, e)];
    }
    assert entries[..|entries|] == entries;
  }

  lemma {:induction false} NeverEnqueued(log: seq<AuditEntry>, id: string)
    requires id !in Ids(log)
    ensures LastEnqueue(log, id) == None
  {
    if log != [] {
      var front, e := log[..|log| - 1], log[|log| - 1];
      assert e in log && e.id in Ids(log);
      assert forall x :: x in front ==> x in log;
      NeverEnqueued(front, id);
    }
  }

  /** The snapshot a caller gets of a transition. */
  function Answer(r: Result<World, QueueError>, id: string): Result<Entry, QueueError> {
    match r
    case Err(e) => Err(e)
    case Ok(w) => if id in w.queue.items then Ok(w.queue.items[id]) else Err(UnknownId)
  }
}
