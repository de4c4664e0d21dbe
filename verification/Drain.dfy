/** Draining the remote queue into the vault (internal/service/drain_service.go, task_service.go, validate.go). */
module Drain {
  import opened Common
  import opened Text

  datatype Row = Row(id: string, text: string, kind: string, project: string, client: string, due: string, scheduled: string)

  /** A task line as the vault's parser reads it; a line with a date that does not exist makes its file unreadable. */
  datatype Stored = Stored(id: string, text: string, project: string) | Unreadable

  /** The lines in the files that ListAllTasks sees, in its order, and those in files it skips. */
  datatype Vault = Vault(listed: seq<Stored>, hidden: seq<Stored>)

  /** A task as it is handed to the printer. */
  datatype NewTask = NewTask(id: string, text: string, project: string, due: string, scheduled: string)

  /**
   The parts of the program that are parameters here: the tag charset, the configured clients, dates, whether the file
   of a project is among those listed, and what the parser makes of a printed line.
   */
  datatype Rules = Rules(
    tagOk: string -> bool,
    isClient: string -> bool,
    dateOk: string -> bool,
    listed: string -> bool,
    readBack: NewTask -> Stored)

  predicate Control(c: char) {
    c < ' ' || c == '\U{7F}'
  }

  datatype Kind = TaskKind | NoteKind | CaptureKind | UnknownKind

  const TASK_KIND: string := "task"
  const NOTE_KIND: string := "note"
  const CAPTURE_KIND: string := "capture"

  function KindOf(row: Row): Kind {
    var kind := Trim(row.kind);
    if kind == "" || kind == TASK_KIND then TaskKind
    else if kind == NOTE_KIND then NoteKind
    else if kind == CAPTURE_KIND then CaptureKind
    else UnknownKind
  }

  predicate ValidInput(r: Rules, row: Row) {
    var project, client := Trim(row.project), Trim(row.client);
    && Trim(row.text) != ""
    && (forall i :: 0 <= i < |row.text| ==> !Control(row.text[i]))
    && (project == "" || client == "")
    && (project == "" || (r.tagOk(project) && !NumericTag(project)))
    && (client == "" || r.isClient(client))
  }

  predicate ValidDate(r: Rules, date: string) {
    date == "" || r.dateOk(date)
  }

  /** The row is refused for good: an unknown kind, or a task that fails validation. */
  predicate Rejected(r: Rules, row: Row) {
    match KindOf(row)
    case TaskKind => !ValidInput(r, row) || !ValidDate(r, row.due) || !ValidDate(r, row.scheduled)
    case UnknownKind => true
    case _ => false
  }

  /** The tag a task row is filed under. */
  function Tag(row: Row): string {
    var client := Trim(row.client);
    if client != "" then client else Trim(row.project)
  }

  // ----- creating a task -----

  const HASH: string := "#"

  predicate TaskTextMatches(existing: Stored, text: string)
    requires existing.Stored?
  {
    var stored := Trim(existing.text);
    stored == text || (existing.project != "" && Trim(TrimSuffix(stored, HASH + existing.project)) == text)
  }

  /** ListAllTasks fails as a whole when one line cannot be read. */
  predicate Listable(v: Vault) {
    forall i :: 0 <= i < |v.listed| ==> v.listed[i].Stored?
  }

  function FindById(tasks: seq<Stored>, id: string): (r: Option<Stored>)
    ensures r.Some? ==> r.value in tasks && r.value.Stored? && r.value.id == id
    ensures r.None? ==> forall i :: 0 <= i < |tasks| && tasks[i].Stored? ==> tasks[i].id != id
  {
    if tasks == [] then None
    else if tasks[0].Stored? && tasks[0].id == id then Some(tasks[0])
    else FindById(tasks[1..], id)
  }

  /** What happens outside during a write: whether it fails, the id minted if one is needed, and where the line comes in the listing. */
  datatype Write = Write(fails: bool, minted: string, place: nat)

  function Inserted(tasks: seq<Stored>, t: Stored, place: nat): seq<Stored> {
    var at := if place <= |tasks| then place else |tasks|;
    tasks[..at] + [t] + tasks[at..]
  }

  function Appended(r: Rules, v: Vault, n: NewTask, place: nat): Vault {
    var t := r.readBack(n);
    if r.listed(n.project) then v.(listed := Inserted(v.listed, t, place)) else v.(hidden := Inserted(v.hidden, t, place))
  }

  /** The input of CreateTask as it is written, under the given id. */
  function Normal(input: NewTask): NewTask {
    input.(text := Trim(input.text), project := Trim(input.project))
  }

  /** The task that the vault is searched for. */
  function Existing(v: Vault, id: string): Option<Stored> {
    if id == "" then None else FindById(v.listed, id)
  }

  /** The vault after CreateTask, or None when it fails. */
  function Created(r: Rules, v: Vault, input: NewTask, w: Write): Option<Vault> {
    var n, found := Normal(input), Existing(v, input.id);
    if NumericTag(n.project) || (n.id != "" && !Listable(v)) then None
    else if found.Some? && TaskTextMatches(found.value, n.text) then Some(v)
    else if w.fails then None
    else Some(Appended(r, v, if n.id == "" || found.Some? then n.(id := w.minted) else n, w.place))
  }

  // ----- copies of an id -----

  function IdOf(t: Stored): Option<string> {
    if t.Stored? then Some(t.id) else None
  }

  function IdsOf(tasks: seq<Stored>): (r: seq<Option<string>>)
    ensures |r| == |tasks| && forall i :: 0 <= i < |tasks| ==> r[i] == IdOf(tasks[i])
  {
    seq(|tasks|, i requires 0 <= i < |tasks| => IdOf(tasks[i]))
  }

  /** How many tasks of the vault carry the id. */
  function Copies(v: Vault, id: string): nat {
    multiset(IdsOf(v.listed))[Some(id)] + multiset(IdsOf(v.hidden))[Some(id)]
  }

  lemma InsertedIds(tasks: seq<Stored>, t: Stored, place: nat)
    ensures multiset(IdsOf(Inserted(tasks, t, place))) == multiset(IdsOf(tasks)) + multiset{IdOf(t)}
  {
    hide IdOf;
    var at := if place <= |tasks| then place else |tasks|;
    IdsBehind(tasks[..at], [t]);
    IdsBehind(tasks[..at] + [t], tasks[at..]);
    IdsBehind(tasks[..at], tasks[at..]);
    assert tasks[..at] + tasks[at..] == tasks;
    assert IdsOf([t]) == [IdOf(t)];
  }

  lemma IdsBehind(a: seq<Stored>, b: seq<Stored>)
    ensures IdsOf(a + b) == IdsOf(a) + IdsOf(b)
  {
    hide IdOf;
  }

  lemma AppendedCopies(r: Rules, v: Vault, n: NewTask, place: nat, other: string)
    ensures Copies(Appended(r, v, n, place), other) == Copies(v, other) + if IdOf(r.readBack(n)) == Some(other) then 1 else 0
  {
    InsertedIds(v.listed, r.readBack(n), place);
    InsertedIds(v.hidden, r.readBack(n), place);
  }

  // ----- when a second write is a no-op -----

  /** What a task row asks CreateTask for. */
  function Asked(row: Row): NewTask {
    NewTask(row.id, row.text, Tag(row), row.due, row.scheduled)
  }

  /** The task is found again: its file is listed, and its line can be read and gives back its id and its text. */
  predicate Faithful(r: Rules, row: Row) {
    var n := Normal(Asked(row));
    var t := r.readBack(n);
    row.id != "" && r.listed(n.project) && t.Stored? && t.id == row.id && TaskTextMatches(t, n.text)
  }

  function Create(r: Rules, v: Vault, row: Row, w: Write): Option<Vault> {
    Created(r, v, Asked(row), w)
  }

  /**
   Re-draining a row whose ack was lost leaves the vault alone exactly when the row is faithful.
   Otherwise the second pass writes a second task, or finds the vault unreadable.
   */
  lemma RedrainIsNoop(r: Rules, v: Vault, row: Row, w: Write, again: Write)
    requires Copies(v, row.id) == 0 && Create(r, v, row, w).Some? && !again.fails
    ensures Create(r, Create(r, v, row, w).value, row, again) == Create(r, v, row, w) <==> Faithful(r, row)
  {
    hide Trim, TaskTextMatches, NumericTag, Listable;
    NoCopies(v, row.id);
    var n := Normal(Asked(row));
    var written := if row.id == "" then n.(id := w.minted) else n;
    var first := Appended(r, v, written, w.place);
    OnlyInserted(v.listed, r.readBack(written), w.place, row.id);
    if Faithful(r, row) {
      StillListable(v, r.readBack(written), w.place);
    }
    AppendedLonger(r, first, if row.id == "" || Existing(first, row.id).Some? then n.(id := again.minted) else n, again.place);
  }

  lemma StillListable(v: Vault, t: Stored, place: nat)
    ensures Listable(v.(listed := Inserted(v.listed, t, place))) <==> Listable(v) && t.Stored?
  {
    var at := if place <= |v.listed| then place else |v.listed|;
    var all := Inserted(v.listed, t, place);
    assert all[at] == t;
    assert forall i :: 0 <= i < |v.listed| ==> v.listed[i] == all[if i < at then i else i + 1];
  }

  lemma AppendedLonger(r: Rules, v: Vault, n: NewTask, place: nat)
    ensures Appended(r, v, n, place) != v
  {
    var a := Appended(r, v, n, place);
    assert |a.listed| + |a.hidden| == |v.listed| + |v.hidden| + 1;
  }

  lemma NoCopies(v: Vault, id: string)
    requires Copies(v, id) == 0
    ensures FindById(v.listed, id) == None
    ensures forall i :: 0 <= i < |v.listed| ==> IdOf(v.listed[i]) != Some(id)
  {
    forall i | 0 <= i < |v.listed|
      ensures IdOf(v.listed[i]) != Some(id)
    {
      assert IdsOf(v.listed)[i] in multiset(IdsOf(v.listed));
    }
  }

  /** The only task with its id is found. */
  lemma OnlyInserted(tasks: seq<Stored>, t: Stored, place: nat, id: string)
    requires forall i :: 0 <= i < |tasks| ==> IdOf(tasks[i]) != Some(id)
    ensures FindById(Inserted(tasks, t, place), id) == if IdOf(t) == Some(id) then Some(t) else None
  {
    var at := if place <= |tasks| then place else |tasks|;
    var all := Inserted(tasks, t, place);
    assert all[at] == t;
    assert forall x :: x in all ==> x == t || x in tasks;
  }

  /** A trimmed text that comes back with its tag behind it still matches. */
  lemma TaggedTextMatches(id: string, text: string, project: string)
    requires Trimmed(text) && text != "" && project != "" && !Space(project[|project| - 1])
    ensures TaskTextMatches(Stored(id, text + " " + (HASH + project), project), text)
  {
    var tag := HASH + project;
    var stored := text + " " + tag;
    assert Trimmed(stored);
    TrimmedStays(stored);
    assert stored[|stored| - |tag|..] == tag;
    var bare := text + " ";
    assert stored[..|stored| - |tag|] == bare;
    assert bare[..|bare| - 1] == text;
    assert TrimLeft(bare) == bare;
    assert TrimRight(bare) == TrimRight(text);
  }

  // ----- a pass -----

  /** How a call to the remote queue goes: answered, done but the answer lost, or not done. */
  datatype Remote = Answered | Lost | NotDone

  /** What happens outside during a pass. */
  datatype Env = Env(writes: Row -> Write, ack: Remote, deadletter: Remote)

  /** How far the loop over the pulled rows has come. */
  datatype Progress = Progress(vault: Vault, sunk: seq<Row>, written: seq<string>, failures: seq<string>, stopped: bool)

  function Handle(r: Rules, env: Env, p: Progress, row: Row): Progress {
    if Rejected(r, row) then p.(failures := p.failures + [row.id])
    else if KindOf(row).TaskKind? then
      var v := Create(r, p.vault, row, env.writes(row));
      if v.None? then p.(stopped := true) else p.(vault := v.value, written := p.written + [row.id])
    else if env.writes(row).fails then p.(stopped := true)
    else p.(sunk := p.sunk + [row], written := p.written + [row.id])
  }

  /** The loop: a failing write stops it. */
  function HandleAll(r: Rules, env: Env, v: Vault, sunk: seq<Row>, rows: seq<Row>): Progress {
    if rows == [] then Progress(v, sunk, [], [], false)
    else
      var p := HandleAll(r, env, v, sunk, rows[..|rows| - 1]);
      if p.stopped then p else Handle(r, env, p, rows[|rows| - 1])
  }

  /** The queue's rows that wait, the vault, the notes and captures written so far, and the ids kept for review. */
  datatype World = World(queue: seq<Row>, vault: Vault, sunk: seq<Row>, dead: seq<string>)

  function RemoveIds(queue: seq<Row>, ids: seq<string>): (rest: seq<Row>)
    ensures forall row :: row in rest <==> row in queue && row.id !in ids
    ensures |rest| <= |queue|
  {
    if queue == [] then []
    else
      var rest := RemoveIds(queue[..|queue| - 1], ids);
      if queue[|queue| - 1].id in ids then rest else rest + [queue[|queue| - 1]]
  }

  /** A call with no ids is not made, and always succeeds. */
  predicate Reported(ids: seq<string>, call: Remote) {
    ids == [] || call.Answered?
  }

  function Acked(queue: seq<Row>, ids: seq<string>, call: Remote): seq<Row> {
    if call.NotDone? then queue else RemoveIds(queue, ids)
  }

  function Pass(r: Rules, w: World, pulled: seq<Row>, env: Env): World {
    var p := HandleAll(r, env, w.vault, w.sunk, pulled);
    if p.stopped then World(w.queue, p.vault, p.sunk, w.dead)
    else
      var queue := Acked(w.queue, p.written, env.ack);
      if !Reported(p.written, env.ack) || env.deadletter.NotDone? then World(queue, p.vault, p.sunk, w.dead)
      else World(RemoveIds(queue, p.failures), p.vault, p.sunk, w.dead + p.failures)
  }

  /** A pass that reports success. */
  predicate Succeeds(r: Rules, w: World, pulled: seq<Row>, env: Env) {
    var p := HandleAll(r, env, w.vault, w.sunk, pulled);
    !p.stopped && Reported(p.written, env.ack) && Reported(p.failures, env.deadletter)
  }

  lemma {:induction false} RemoveNone(queue: seq<Row>)
    ensures RemoveIds(queue, []) == queue
  {
    if queue != [] {
      RemoveNone(queue[..|queue| - 1]);
    }
  }

  lemma LoopStep(r: Rules, env: Env, v: Vault, sunk: seq<Row>, rows: seq<Row>, i: nat)
    requires i < |rows|
    ensures var p := HandleAll(r, env, v, sunk, rows[..i]);
      HandleAll(r, env, v, sunk, rows[..i + 1]) == if p.stopped then p else Handle(r, env, p, rows[i])
  {
    hide Handle;
    assert rows[..i + 1][..i] == rows[..i];
  }

  lemma NothingHandled(r: Rules, env: Env, v: Vault, sunk: seq<Row>)
    ensures HandleAll(r, env, v, sunk, []) == Progress(v, sunk, [], [], false)
  {
  }

  /** Once a write has failed nothing more happens. */
  lemma {:induction false} StaysStopped(r: Rules, env: Env, v: Vault, sunk: seq<Row>, rows: seq<Row>, i: nat)
    requires i <= |rows| && HandleAll(r, env, v, sunk, rows[..i]).stopped
    ensures HandleAll(r, env, v, sunk, rows) == HandleAll(r, env, v, sunk, rows[..i])
  {
    hide Handle;
    if i == |rows| {
      assert rows[..i] == rows;
    } else {
      assert rows[..|rows| - 1][..i] == rows[..i];
      StaysStopped(r, env, v, sunk, rows[..|rows| - 1], i);
    }
  }
}
