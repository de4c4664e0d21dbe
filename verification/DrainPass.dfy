/** One pass of the drain as the program runs it (internal/service/drain_service.go:65-177, task_service.go:90-180). */
module DrainPass {
  import opened Common
  import opened Text
  import opened Drain

  // ----- what is asked of a task -----

  /** This is the first listed task with the id. */
  predicate FirstWithId(tasks: seq<Stored>, id: string, k: nat) {
    && k < |tasks| && tasks[k].Stored? && tasks[k].id == id
    && forall j :: 0 <= j < k ==> !(tasks[j].Stored? && tasks[j].id == id)
  }

  /** The first task with the id has the text. */
  predicate AlreadyThere(v: Vault, id: string, text: string) {
    id != "" && exists k :: 0 <= k < |v.listed| && FirstWithId(v.listed, id, k) && TaskTextMatches(v.listed[k], text)
  }

  predicate Taken(v: Vault, id: string) {
    exists k :: 0 <= k < |v.listed| && v.listed[k].Stored? && v.listed[k].id == id
  }

  /** The task cannot be written: its project is a number, the vault must be searched and is unreadable, or the write fails. */
  predicate CannotCreate(v: Vault, input: NewTask, w: Write) {
    || NumericTag(Trim(input.project))
    || (input.id != "" && exists i :: 0 <= i < |v.listed| && v.listed[i].Unreadable?)
    || (!AlreadyThere(v, input.id, Trim(input.text)) && w.fails)
  }

  predicate OneMore(was: seq<Stored>, t: Stored, now: seq<Stored>, k: nat) {
    k <= |was| && now == was[..k] + [t] + was[k..]
  }

  /** One line more, in the file of the task's project, reading back as the rules say; all other lines stay. */
  ghost predicate WritesOne(r: Rules, v: Vault, n: NewTask, after: Vault) {
    if r.listed(n.project) then after.hidden == v.hidden && exists k :: OneMore(v.listed, r.readBack(n), after.listed, k)
    else after.listed == v.listed && exists k :: OneMore(v.hidden, r.readBack(n), after.hidden, k)
  }

  /** The vault after CreateTask: as it was if the task is there, and otherwise with one line more; the id is minted if it is empty or taken. */
  ghost predicate TaskCreated(r: Rules, v: Vault, input: NewTask, w: Write, after: Option<Vault>) {
    if CannotCreate(v, input, w) then after == None
    else if AlreadyThere(v, input.id, Trim(input.text)) then after == Some(v)
    else
      && after.Some?
      && WritesOne(r, v, NewTask(if input.id == "" || Taken(v, input.id) then w.minted else input.id,
                                 Trim(input.text), Trim(input.project), input.due, input.scheduled), after.value)
  }

  lemma FoundIsFirst(tasks: seq<Stored>, id: string) returns (k: nat)
    ensures FindById(tasks, id).Some? ==> FirstWithId(tasks, id, k) && tasks[k] == FindById(tasks, id).value
    ensures FindById(tasks, id).None? ==> forall j :: 0 <= j < |tasks| ==> !(tasks[j].Stored? && tasks[j].id == id)
  {
    k := 0;
    if tasks != [] && !(tasks[0].Stored? && tasks[0].id == id) {
      k := FoundIsFirst(tasks[1..], id);
      k := k + 1;
      assert forall j :: 1 <= j < |tasks| ==> tasks[j] == tasks[1..][j - 1];
    }
  }

  lemma OneFirst(tasks: seq<Stored>, id: string, k: nat, l: nat)
    requires FirstWithId(tasks, id, k) && FirstWithId(tasks, id, l)
    ensures k == l
  {
  }

  lemma AlreadyThereIs(v: Vault, id: string, text: string)
    ensures AlreadyThere(v, id, text) <==> Existing(v, id).Some? && TaskTextMatches(Existing(v, id).value, text)
    ensures id != "" ==> (Taken(v, id) <==> Existing(v, id).Some?)
  {
    hide TaskTextMatches;
    if id != "" {
      var k := FoundIsFirst(v.listed, id);
      if l :| 0 <= l < |v.listed| && FirstWithId(v.listed, id, l) && TaskTextMatches(v.listed[l], text) {
        OneFirst(v.listed, id, k, l);
      }
    }
  }

  lemma AppendedIsOneMore(r: Rules, v: Vault, n: NewTask, place: nat)
    ensures WritesOne(r, v, n, Appended(r, v, n, place))
  {
    var tasks := if r.listed(n.project) then v.listed else v.hidden;
    var at := if place <= |tasks| then place else |tasks|;
    assert OneMore(tasks, r.readBack(n), Inserted(tasks, r.readBack(n), place), at);
  }

  lemma CreatedIsTold(r: Rules, v: Vault, input: NewTask, w: Write)
    ensures TaskCreated(r, v, input, w, Created(r, v, input, w))
  {
    hide Trim, TaskTextMatches, NumericTag, Appended, Existing, AlreadyThere, Taken, WritesOne;
    AlreadyThereIs(v, input.id, Trim(input.text));
    var n := Normal(input);
    AppendedIsOneMore(r, v, if n.id == "" || Existing(v, input.id).Some? then n.(id := w.minted) else n, w.place);
    assert Listable(v) <==> !exists i :: 0 <= i < |v.listed| && v.listed[i].Unreadable?;
  }

  method FindByIdIn(tasks: seq<Stored>, id: string) returns (found: Option<Stored>)
    ensures found == if id == "" then None else FindById(tasks, id)
  {
    if id == "" {
      return None;
    }
    for i := 0 to |tasks|
      invariant FindById(tasks, id) == FindById(tasks[i..], id)
    {
      if tasks[i].Stored? && tasks[i].id == id {
        return Some(tasks[i]);
      }
      assert tasks[i..][1..] == tasks[i + 1..];
    }
    found := None;
  }

  method CreateTask(r: Rules, v: Vault, input: NewTask, w: Write) returns (after: Option<Vault>)
    ensures after == Created(r, v, input, w)
    ensures TaskCreated(r, v, input, w, after)
  {
    CreatedIsTold(r, v, input, w);
    hide Trim, NumericTag, TaskTextMatches, Listable, FindById, TaskCreated;
    var n := input.(text := Trim(input.text), project := Trim(input.project));
    if NumericTag(n.project) {
      return None;
    }
    if n.id != "" {
      if !Listable(v) {
        return None;
      }
      var existing := FindByIdIn(v.listed, n.id);
      if existing.Some? {
        if TaskTextMatches(existing.value, n.text) {
          return Some(v);
        }
        n := n.(id := "");
      }
    }
    if n.id == "" {
      n := n.(id := w.minted);
    }
    if w.fails {
      return None;
    }
    after := Some(Appended(r, v, n, w.place));
  }

  // ----- what becomes of a row -----

  predicate TaskRow(row: Row) {
    Trim(row.kind) == "" || Trim(row.kind) == "task"
  }

  /** A task with an empty text, a control character, both a project and a client, a bad or unknown one, or a bad date; or an unknown kind. */
  predicate Refused(r: Rules, row: Row) {
    if TaskRow(row) then
      || Trim(row.text) == ""
      || (exists i :: 0 <= i < |row.text| && (row.text[i] < ' ' || row.text[i] == '\U{7F}'))
      || (Trim(row.project) != "" && Trim(row.client) != "")
      || (Trim(row.project) != "" && (!r.tagOk(Trim(row.project)) || NumericTag(Trim(row.project))))
      || (Trim(row.client) != "" && !r.isClient(Trim(row.client)))
      || (row.due != "" && !r.dateOk(row.due))
      || (row.scheduled != "" && !r.dateOk(row.scheduled))
    else Trim(row.kind) != "note" && Trim(row.kind) != "capture"
  }

  /** The task that is asked for: the row's id, text and dates, under its client if it has one and else under its project. */
  function TaskOfRow(row: Row): (n: NewTask)
    ensures n.id == row.id && n.text == row.text && n.due == row.due && n.scheduled == row.scheduled
    ensures Trim(row.client) != "" ==> n.project == Trim(row.client)
    ensures Trim(row.client) == "" ==> n.project == Trim(row.project)
  {
    NewTask(row.id, row.text, if Trim(row.client) != "" then Trim(row.client) else Trim(row.project), row.due, row.scheduled)
  }

  /** One row: refused rows are put aside; a task is created and anything else written, or the pass stops. */
  ghost predicate RowDone(r: Rules, env: Env, row: Row, a: Progress, b: Progress) {
    && !a.stopped
    && if Refused(r, row) then b == Progress(a.vault, a.sunk, a.written, a.failures + [row.id], false)
       else
         && b.failures == a.failures
         && b.written == (if b.stopped then a.written else a.written + [row.id])
         && if TaskRow(row) then
              && b.sunk == a.sunk && (b.stopped ==> b.vault == a.vault)
              && TaskCreated(r, a.vault, TaskOfRow(row), env.writes(row), if b.stopped then None else Some(b.vault))
            else
              && b.vault == a.vault && b.stopped == env.writes(row).fails
              && b.sunk == if b.stopped then a.sunk else a.sunk + [row]
  }

  lemma RefusedIs(r: Rules, row: Row)
    ensures Rejected(r, row) <==> Refused(r, row)
    ensures KindOf(row).TaskKind? <==> TaskRow(row)
  {
    hide Trim, NumericTag;
    assert (exists i :: 0 <= i < |row.text| && Control(row.text[i])) <==> !(forall i :: 0 <= i < |row.text| ==> !Control(row.text[i]));
  }

  lemma AskedIs(row: Row)
    ensures Asked(row) == TaskOfRow(row)
  {
    hide Trim;
  }

  lemma HandleIsTold(r: Rules, env: Env, row: Row, p: Progress)
    requires !p.stopped
    ensures RowDone(r, env, row, p, Handle(r, env, p, row))
  {
    RefusedIs(r, row);
    AskedIs(row);
    CreatedIsTold(r, p.vault, TaskOfRow(row), env.writes(row));
    hide Trim, Rejected, Refused, KindOf, TaskRow, Asked, TaskOfRow, Created, TaskCreated;
  }

  /** The rows one by one, until a write fails. */
  ghost predicate Goes(r: Rules, env: Env, rows: seq<Row>, trace: seq<Progress>) {
    && 1 <= |trace| <= |rows| + 1
    && (forall k :: 0 <= k < |trace| - 1 ==> Step(r, env, rows, trace, k))
    && (|trace| <= |rows| ==> trace[|trace| - 1].stopped)
  }

  ghost predicate Step(r: Rules, env: Env, rows: seq<Row>, trace: seq<Progress>, k: nat)
    requires k < |rows| && k + 1 < |trace|
  {
    RowDone(r, env, rows[k], trace[k], trace[k + 1])
  }

  lemma {:induction false} AllGo(r: Rules, env: Env, v: Vault, sunk: seq<Row>, rows: seq<Row>) returns (trace: seq<Progress>)
    ensures Goes(r, env, rows, trace)
    ensures trace[0] == Progress(v, sunk, [], [], false)
    ensures trace[|trace| - 1] == HandleAll(r, env, v, sunk, rows)
  {
    hide Handle, RowDone;
    if rows == [] {
      trace := [Progress(v, sunk, [], [], false)];
    } else {
      var front, row := rows[..|rows| - 1], rows[|rows| - 1];
      assert front + [row] == rows;
      trace := AllGo(r, env, v, sunk, front);
      var p := HandleAll(r, env, v, sunk, front);
      if p.stopped {
        StoppedGoes(r, env, front, row, trace);
      } else {
        HandleIsTold(r, env, row, p);
        OneMoreGoes(r, env, front, row, trace, Handle(r, env, p, row));
        trace := trace + [Handle(r, env, p, row)];
      }
    }
  }

  lemma StoppedGoes(r: Rules, env: Env, rows: seq<Row>, row: Row, trace: seq<Progress>)
    requires Goes(r, env, rows, trace) && trace[|trace| - 1].stopped
    ensures Goes(r, env, rows + [row], trace)
  {
    hide RowDone;
    forall k: nat | k < |trace| - 1
      ensures Step(r, env, rows + [row], trace, k)
    {
      assert Step(r, env, rows, trace, k);
    }
  }

  lemma OneMoreGoes(r: Rules, env: Env, rows: seq<Row>, row: Row, trace: seq<Progress>, p: Progress)
    requires Goes(r, env, rows, trace) && RowDone(r, env, row, trace[|trace| - 1], p)
    requires !trace[|trace| - 1].stopped
    ensures Goes(r, env, rows + [row], trace + [p])
  {
    hide RowDone;
    var all, more := rows + [row], trace + [p];
    assert |trace| == |rows| + 1;
    forall k: nat | k < |more| - 1
      ensures Step(r, env, all, more, k)
    {
      if k < |rows| {
        assert Step(r, env, rows, trace, k);
      }
    }
  }

  // ----- what leaves the queue -----

  /** The rows with these ids are gone, and the others stay in their order. */
  ghost predicate Remain(was: seq<Row>, ids: seq<string>, now: seq<Row>, at: seq<nat>) {
    && |at| == |now|
    && (forall j, k :: 0 <= j < k < |at| ==> at[j] < at[k])
    && (forall k :: 0 <= k < |at| ==> at[k] < |was| && now[k] == was[at[k]])
    && (forall i :: 0 <= i < |was| ==> (i in at <==> was[i].id !in ids))
  }

  lemma {:induction false} RemovedRemain(queue: seq<Row>, ids: seq<string>) returns (at: seq<nat>)
    ensures Remain(queue, ids, RemoveIds(queue, ids), at)
  {
    at := [];
    if queue != [] {
      var front, row := queue[..|queue| - 1], queue[|queue| - 1];
      assert front + [row] == queue;
      at := RemovedRemain(front, ids);
      if row.id !in ids {
        OneMoreRemains(front, ids, RemoveIds(front, ids), at, row);
        at := at + [|front|];
      } else {
        assert |front| !in at;
      }
    }
  }

  lemma OneMoreRemains(was: seq<Row>, ids: seq<string>, now: seq<Row>, at: seq<nat>, row: Row)
    requires Remain(was, ids, now, at) && row.id !in ids
    ensures Remain(was + [row], ids, now + [row], at + [|was|])
  {
    var all, more := was + [row], at + [|was|];
    assert more[|at|] == |was|;
    forall i | 0 <= i < |all|
      ensures i in more <==> all[i].id !in ids
    {
      assert i < |was| ==> all[i] == was[i] && (i in more <==> i in at);
    }
  }

  lemma {:induction false} RemoveBoth(queue: seq<Row>, a: seq<string>, b: seq<string>)
    ensures RemoveIds(RemoveIds(queue, a), b) == RemoveIds(queue, a + b)
  {
    if queue != [] {
      var front, row := queue[..|queue| - 1], queue[|queue| - 1];
      RemoveBoth(front, a, b);
      var rest := RemoveIds(front, a);
      assert (rest + [row])[..|rest|] == rest;
    }
  }

  /** What the calls that were made took out of the queue. */
  function TakenOut(env: Env, p: Progress): seq<string> {
    if p.stopped then []
    else
      var acked := if p.written != [] && !env.ack.NotDone? then p.written else [];
      if p.written != [] && !env.ack.Answered? then acked
      else acked + if p.failures != [] && !env.deadletter.NotDone? then p.failures else []
  }

  lemma PassTakesOut(r: Rules, w: World, pulled: seq<Row>, env: Env)
    ensures Pass(r, w, pulled, env).queue == RemoveIds(w.queue, TakenOut(env, HandleAll(r, env, w.vault, w.sunk, pulled)))
  {
    hide HandleAll, RemoveIds;
    var p := HandleAll(r, env, w.vault, w.sunk, pulled);
    RemoveNone(w.queue);
    RemoveBoth(w.queue, p.written, p.failures);
    RemoveBoth(w.queue, [], p.failures);
    RemoveNone(RemoveIds(w.queue, p.written));
    assert [] + p.failures == p.failures;
    assert p.written + [] == p.written;
  }

  datatype Summary = Summary(drained: nat, rejected: nat, failures: seq<string>)

  class DrainService {
    const rules: Rules
    var queue: seq<Row>
    var vault: Vault
    var sunk: seq<Row>
    var dead: seq<string>

    function State(): World
      reads this
    {
      World(queue, vault, sunk, dead)
    }

    constructor (rules: Rules, queue: seq<Row>, vault: Vault)
      ensures this.rules == rules && State() == World(queue, vault, [], [])
    {
      this.rules := rules;
      this.queue := queue;
      this.vault := vault;
      sunk := [];
      dead := [];
    }

    method Ack(ids: seq<string>, call: Remote) returns (ok: bool)
      modifies this`queue
      ensures queue == Acked(old(queue), ids, call) && (ok <==> Reported(ids, call))
      ensures ok <==> ids == [] || call == Answered
      ensures forall row :: row in queue <==> row in old(queue) && (call == NotDone || row.id !in ids)
    {
      if ids == [] {
        RemoveNone(queue);
        return true;
      }
      if !call.NotDone? {
        queue := RemoveIds(queue, ids);
      }
      ok := call.Answered?;
    }

    method Deadletter(ids: seq<string>, call: Remote) returns (ok: bool)
      requires ids != []
      modifies this`queue, this`dead
      ensures queue == Acked(old(queue), ids, call) && (ok <==> Reported(ids, call))
      ensures dead == if call.NotDone? then old(dead) else old(dead) + ids
      ensures ok <==> call == Answered
      ensures forall row :: row in queue <==> row in old(queue) && (call == NotDone || row.id !in ids)
    {
      if !call.NotDone? {
        queue := RemoveIds(queue, ids);
        dead := dead + ids;
      }
      ok := call.Answered?;
    }

    /** One pass over the rows pulled: write, then ack, then deadletter. */
    method Drain(pulled: seq<Row>, env: Env) returns (summary: Summary, ok: bool, ghost trace: seq<Progress>, ghost left: seq<nat>)
      modifies this
      ensures State() == Pass(rules, old(State()), pulled, env)
      ensures ok <==> Succeeds(rules, old(State()), pulled, env)
      ensures ok ==> summary.drained + summary.rejected == |pulled|
      ensures summary.failures == HandleAll(rules, env, old(vault), old(sunk), pulled).failures
      ensures ok ==> summary.rejected == |summary.failures|
      ensures Goes(rules, env, pulled, trace) && trace[0] == Progress(old(vault), old(sunk), [], [], false)
      ensures var p := trace[|trace| - 1];
        && vault == p.vault && sunk == p.sunk && summary.failures == p.failures
        && Remain(old(queue), TakenOut(env, p), queue, left)
        && (forall row :: row in queue <==>
              && row in old(queue)
              && !(!p.stopped && env.ack != NotDone && row.id in p.written)
              && !(!p.stopped && (p.written == [] || env.ack == Answered) && env.deadletter != NotDone && row.id in p.failures))
        && (ok <==> !p.stopped && (p.written == [] || env.ack == Answered) && (p.failures == [] || env.deadletter == Answered))
        && dead == old(dead) + (if !p.stopped && (p.written == [] || env.ack == Answered) && env.deadletter != NotDone then p.failures else [])
        && summary.drained == (if !p.stopped && (p.written == [] || env.ack == Answered) then |p.written| else 0)
        && summary.rejected == (if ok then |p.failures| else 0)
    {
      hide Create, Rejected, KindOf, Trim, Asked, HandleAll, RemoveIds, TaskCreated, Goes, Remain;
      ghost var before := State();
      trace := AllGo(rules, env, vault, sunk, pulled);
      left := RemovedRemain(queue, TakenOut(env, HandleAll(rules, env, vault, sunk, pulled)));
      PassTakesOut(rules, before, pulled, env);
      NothingHandled(rules, env, vault, sunk);
      var written: seq<string> := [];
      summary := Summary(0, 0, []);
      for i := 0 to |pulled|
        invariant HandleAll(rules, env, before.vault, before.sunk, pulled[..i]) == Progress(vault, sunk, written, summary.failures, false)
        invariant queue == before.queue && dead == before.dead
        invariant |written| + |summary.failures| == i && summary.drained == summary.rejected == 0
      {
        var row := pulled[i];
        LoopStep(rules, env, before.vault, before.sunk, pulled, i);
        if Rejected(rules, row) {
          summary := summary.(failures := summary.failures + [row.id]);
          continue;
        }
        if KindOf(row).TaskKind? {
          var created := CreateTask(rules, vault, Asked(row), env.writes(row));
          assert created == Create(rules, vault, row, env.writes(row)) by { CreateIs(rules, vault, row, env.writes(row)); }
          if created.None? {
            StaysStopped(rules, env, before.vault, before.sunk, pulled, i + 1);
            ok := false;
            return;
          }
          vault := created.value;
        } else {
          if env.writes(row).fails {
            StaysStopped(rules, env, before.vault, before.sunk, pulled, i + 1);
            ok := false;
            return;
          }
          sunk := sunk + [row];
        }
        written := written + [row.id];
      }
      assert pulled[..|pulled|] == pulled;
      hide Handle;
      ok := Ack(written, env.ack);
      if !ok {
        return;
      }
      summary := summary.(drained := |written|);
      if summary.failures != [] {
        ok := Deadletter(summary.failures, env.deadletter);
        if !ok {
          return;
        }
        summary := summary.(rejected := |summary.failures|);
      } else {
        RemoveNone(queue);
        assert dead + [] == dead;
      }
    }
  }

  lemma CreateIs(r: Rules, v: Vault, row: Row, w: Write)
    ensures Create(r, v, row, w) == Created(r, v, Asked(row), w)
  {
  }
}
