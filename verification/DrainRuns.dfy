/** Whole runs of the drain: rows arrive, passes fail at any write, ack or deadletter, and are repeated. */
module DrainRuns {
  import opened Common
  import opened Drain
  import opened Text

  datatype Step = Arrive(row: Row) | DrainPass(pulled: seq<Row>, env: Env)

  /** The rows that ever arrived, and the world. */
  datatype Run = Run(arrived: seq<Row>, world: World)

  /** A pull gives waiting rows, none twice. */
  predicate Pullable(w: World, pulled: seq<Row>) {
    && (forall i :: 0 <= i < |pulled| ==> pulled[i] in w.queue)
    && (forall i, j :: 0 <= i < j < |pulled| ==> pulled[i].id != pulled[j].id)
  }

  predicate Possible(r: Rules, run: Run, step: Step) {
    match step
    case Arrive(row) => Welcome(r, run, row)
    case DrainPass(pulled, _) => Pullable(run.world, pulled)
  }

  /**
   A row that may arrive: its id is new to the queue and to the vault, and if it is a task that will be accepted,
   it is faithful.
   */
  predicate Welcome(r: Rules, run: Run, row: Row) {
    && (forall i :: 0 <= i < |run.arrived| ==> run.arrived[i].id != row.id)
    && Copies(run.world.vault, row.id) == 0
    && (AcceptedTask(r, row) ==> Faithful(r, row))
  }

  predicate AcceptedTask(r: Rules, row: Row) {
    KindOf(row).TaskKind? && !Rejected(r, row)
  }

  function After(r: Rules, run: Run, step: Step): Run {
    match step
    case Arrive(row) => Run(run.arrived + [row], run.world.(queue := run.world.queue + [row]))
    case DrainPass(pulled, env) => run.(world := Pass(r, run.world, pulled, env))
  }

  function AfterAll(r: Rules, run: Run, steps: seq<Step>): Run {
    if steps == [] then run else After(r, AfterAll(r, run, steps[..|steps| - 1]), steps[|steps| - 1])
  }

  predicate Orderly(r: Rules, run: Run, steps: seq<Step>) {
    forall i :: 0 <= i < |steps| ==> Possible(r, AfterAll(r, run, steps[..i]), steps[i])
  }

  /** No row has arrived yet; the vault is whatever it is. */
  function Begin(v: Vault): Run {
    Run([], World([], v, [], []))
  }

  // ----- the invariant -----

  /** At most one task carries the row's id, it is listed, and its text is the row's. */
  predicate Clean(v: Vault, row: Row) {
    && Copies(v, row.id) <= 1
    && (forall i :: 0 <= i < |v.hidden| ==> IdOf(v.hidden[i]) != Some(row.id))
    && (forall i :: 0 <= i < |v.listed| && IdOf(v.listed[i]) == Some(row.id) ==> TaskTextMatches(v.listed[i], Trim(row.text)))
  }

  /** The row is safe: its task is in the vault, its note was written, or it is kept for review. */
  predicate Safe(r: Rules, v: Vault, sunk: seq<Row>, dead: seq<string>, row: Row) {
    if Rejected(r, row) then row.id in dead
    else if KindOf(row).TaskKind? then Copies(v, row.id) == 1
    else row in sunk
  }

  predicate VaultOk(r: Rules, v: Vault, row: Row) {
    if AcceptedTask(r, row) then Faithful(r, row) && Clean(v, row) else Copies(v, row.id) == 0
  }

  predicate DistinctRows(rows: seq<Row>) {
    forall i, j :: 0 <= i < j < |rows| ==> rows[i].id != rows[j].id
  }

  ghost predicate Inv(r: Rules, run: Run) {
    && DistinctRows(run.arrived)
    && (forall row :: row in run.world.queue ==> row in run.arrived)
    && (forall row :: row in run.arrived ==> VaultOk(r, run.world.vault, row))
    && (forall row :: row in run.arrived && row !in run.world.queue ==>
          Safe(r, run.world.vault, run.world.sunk, run.world.dead, row))
  }

  // ----- one write -----

  lemma CreateOnce(r: Rules, v: Vault, row: Row, w: Write)
    requires Faithful(r, row) && Clean(v, row) && Create(r, v, row, w).Some?
    ensures var after := Create(r, v, row, w).value;
      Copies(after, row.id) == 1 && Clean(after, row)
  {
    hide TaskTextMatches, NumericTag, Listable;
    var n := Normal(Asked(row));
    if FindById(v.listed, row.id).Some? {
      FoundIsCounted(v, row.id);
    } else {
      CreatedIsAppended(r, v, row, w);
      AppendedCopies(r, v, n, w.place, row.id);
      UncountedIsZero(v, row.id);
      InsertedMembers(v.listed, r.readBack(n), w.place);
    }
  }

  lemma CreatedIsAppended(r: Rules, v: Vault, row: Row, w: Write)
    requires row.id != "" && FindById(v.listed, row.id).None? && Create(r, v, row, w).Some?
    ensures Create(r, v, row, w).value == Appended(r, v, Normal(Asked(row)), w.place)
  {
  }

  lemma FoundIsCounted(v: Vault, id: string)
    requires FindById(v.listed, id).Some? && Copies(v, id) <= 1
    ensures Copies(v, id) == 1
  {
    var i :| 0 <= i < |v.listed| && v.listed[i] == FindById(v.listed, id).value;
    assert IdsOf(v.listed)[i] in multiset(IdsOf(v.listed));
  }

  lemma UncountedIsZero(v: Vault, id: string)
    requires FindById(v.listed, id).None? && (forall i :: 0 <= i < |v.hidden| ==> IdOf(v.hidden[i]) != Some(id))
    ensures Copies(v, id) == 0
  {
    assert Some(id) !in IdsOf(v.listed) && Some(id) !in IdsOf(v.hidden);
  }

  lemma InsertedMembers(tasks: seq<Stored>, t: Stored, place: nat)
    ensures forall x :: x in Inserted(tasks, t, place) <==> x == t || x in tasks
  {
    var at := if place <= |tasks| then place else |tasks|;
    assert tasks == tasks[..at] + tasks[at..];
  }

  /** Writing a faithful row changes nothing about other ids. */
  lemma OthersKept(r: Rules, v: Vault, row: Row, w: Write, other: Row)
    requires Faithful(r, row) && Clean(v, row) && Create(r, v, row, w).Some? && other.id != row.id
    requires VaultOk(r, v, other)
    ensures VaultOk(r, Create(r, v, row, w).value, other)
    ensures Copies(Create(r, v, row, w).value, other.id) == Copies(v, other.id)
  {
    if FindById(v.listed, row.id).Some? {
      FoundMatches(r, v, row, w);
    } else {
      CreatedIsAppended(r, v, row, w);
      FaithfulId(r, row);
      hide Create, Faithful, Copies, Clean;
      AppendKeepsOthers(r, v, Normal(Asked(row)), w.place, other);
    }
  }

  lemma FaithfulId(r: Rules, row: Row)
    requires Faithful(r, row)
    ensures IdOf(r.readBack(Normal(Asked(row)))) == Some(row.id)
  {
    hide TaskTextMatches, Trim;
  }

  lemma AppendKeepsOthers(r: Rules, v: Vault, n: NewTask, place: nat, other: Row)
    requires IdOf(r.readBack(n)) != Some(other.id)
    ensures Copies(Appended(r, v, n, place), other.id) == Copies(v, other.id)
    ensures Clean(v, other) ==> Clean(Appended(r, v, n, place), other)
  {
    hide TaskTextMatches, Copies, Trim;
    AppendedCopies(r, v, n, place, other.id);
    InsertedMembers(v.listed, r.readBack(n), place);
    InsertedMembers(v.hidden, r.readBack(n), place);
  }

  lemma FoundMatches(r: Rules, v: Vault, row: Row, w: Write)
    requires Faithful(r, row) && Clean(v, row) && FindById(v.listed, row.id).Some? && Create(r, v, row, w).Some?
    ensures Create(r, v, row, w).value == v
  {
    hide TaskTextMatches, NumericTag, Listable, Trim;
    var i :| 0 <= i < |v.listed| && v.listed[i] == FindById(v.listed, row.id).value;
  }

  // ----- one pass -----

  /** After some rows of a pass: the vault is in order, and every written or refused row is accounted for. */
  ghost predicate Accounted(r: Rules, arrived: seq<Row>, sunk: seq<Row>, p: Progress) {
    && (forall row :: row in arrived ==> VaultOk(r, p.vault, row))
    && (forall row :: row in arrived && row.id in p.written ==> !Rejected(r, row) && Safe(r, p.vault, p.sunk, [], row))
    && (forall row :: row in arrived && row.id in p.failures ==> Rejected(r, row))
    && (forall row :: row in sunk ==> row in p.sunk)
  }

  lemma SameRow(arrived: seq<Row>, a: Row, b: Row)
    requires DistinctRows(arrived) && a in arrived && b in arrived && a.id == b.id
    ensures a == b
  {
    var i :| 0 <= i < |arrived| && arrived[i] == a;
    var j :| 0 <= j < |arrived| && arrived[j] == b;
    assert i == j;
  }

  /** A single copy stays a single copy. */
  predicate NoFewer(before: Vault, after: Vault, id: string) {
    Copies(before, id) == 1 ==> Copies(after, id) == 1
  }

  lemma HandleAccounted(r: Rules, env: Env, arrived: seq<Row>, sunk: seq<Row>, p: Progress, row: Row)
    requires DistinctRows(arrived) && row in arrived && Accounted(r, arrived, sunk, p) && !p.stopped
    ensures Accounted(r, arrived, sunk, Handle(r, env, p, row))
    ensures forall other :: other in arrived ==> NoFewer(p.vault, Handle(r, env, p, row).vault, other.id)
  {
    hide Create, Faithful, Clean, Rejected, KindOf, Copies;
    var w := env.writes(row);
    var after := Handle(r, env, p, row);
    forall other | other in arrived
      ensures VaultOk(r, after.vault, other)
      ensures other.id in after.written ==> !Rejected(r, other) && Safe(r, after.vault, after.sunk, [], other)
      ensures other.id in after.failures ==> Rejected(r, other)
      ensures NoFewer(p.vault, after.vault, other.id)
    {
      assert VaultOk(r, p.vault, other) && VaultOk(r, p.vault, row);
      if AcceptedTask(r, row) && Create(r, p.vault, row, w).Some? {
        if other.id == row.id {
          SameRow(arrived, other, row);
          CreateOnce(r, p.vault, row, w);
        } else {
          OthersKept(r, p.vault, row, w, other);
        }
      } else if other.id == row.id {
        SameRow(arrived, other, row);
      }
    }
  }

  lemma {:induction false} AllAccounted(r: Rules, env: Env, arrived: seq<Row>, v: Vault, sunk: seq<Row>, rows: seq<Row>)
    requires DistinctRows(arrived)
    requires forall row :: row in arrived ==> VaultOk(r, v, row)
    requires forall i :: 0 <= i < |rows| ==> rows[i] in arrived
    ensures Accounted(r, arrived, sunk, HandleAll(r, env, v, sunk, rows))
    ensures forall row :: row in arrived ==> NoFewer(v, HandleAll(r, env, v, sunk, rows).vault, row.id)
  {
    if rows != [] {
      var front, row := rows[..|rows| - 1], rows[|rows| - 1];
      AllAccounted(r, env, arrived, v, sunk, front);
      var p := HandleAll(r, env, v, sunk, front);
      hide Accounted, Handle, VaultOk, Copies;
      if !p.stopped {
        HandleAccounted(r, env, arrived, sunk, p, row);
      }
    }
  }

  lemma PassKeepsInv(r: Rules, run: Run, pulled: seq<Row>, env: Env)
    requires Inv(r, run) && Pullable(run.world, pulled)
    ensures Inv(r, After(r, run, DrainPass(pulled, env)))
  {
    var w := run.world;
    var p := HandleAll(r, env, w.vault, w.sunk, pulled);
    AllAccounted(r, env, run.arrived, w.vault, w.sunk, pulled);
    var after := Pass(r, w, pulled, env);
    hide HandleAll, VaultOk, Copies, Rejected, KindOf;
    forall row | row in run.arrived && row !in after.queue
      ensures Safe(r, after.vault, after.sunk, after.dead, row)
    {
      if row !in w.queue {
        assert Safe(r, w.vault, w.sunk, w.dead, row);
        assert NoFewer(w.vault, p.vault, row.id);
      }
    }
  }

  lemma ArrivalKeepsInv(r: Rules, run: Run, row: Row)
    requires Inv(r, run) && Welcome(r, run, row)
    ensures Inv(r, After(r, run, Arrive(row)))
  {
    var after := After(r, run, Arrive(row));
    assert VaultOk(r, run.world.vault, row) by {
      NoneCarries(run.world.vault, row.id);
    }
    hide VaultOk, Faithful, Copies, Rejected, KindOf;
    assert forall other :: other in after.arrived <==> other in run.arrived || other == row;
  }

  lemma NoneCarries(v: Vault, id: string)
    requires Copies(v, id) == 0
    ensures forall i :: 0 <= i < |v.listed| ==> IdOf(v.listed[i]) != Some(id)
    ensures forall i :: 0 <= i < |v.hidden| ==> IdOf(v.hidden[i]) != Some(id)
  {
    forall i | 0 <= i < |v.listed|
      ensures IdOf(v.listed[i]) != Some(id)
    {
      assert IdsOf(v.listed)[i] in multiset(IdsOf(v.listed));
    }
    forall i | 0 <= i < |v.hidden|
      ensures IdOf(v.hidden[i]) != Some(id)
    {
      assert IdsOf(v.hidden)[i] in multiset(IdsOf(v.hidden));
    }
  }

  lemma {:induction false} InvAlongRun(r: Rules, v: Vault, steps: seq<Step>)
    requires Orderly(r, Begin(v), steps)
    ensures Inv(r, AfterAll(r, Begin(v), steps))
  {
    if steps != [] {
      var front, step := steps[..|steps| - 1], steps[|steps| - 1];
      assert forall i :: 0 <= i < |front| ==> front[..i] == steps[..i];
      assert Possible(r, AfterAll(r, Begin(v), steps[..|steps| - 1]), steps[|steps| - 1]);
      InvAlongRun(r, v, front);
      hide Inv, After, Orderly;
      match step
      case Arrive(row) => ArrivalKeepsInv(r, AfterAll(r, Begin(v), front), row);
      case DrainPass(pulled, env) => PassKeepsInv(r, AfterAll(r, Begin(v), front), pulled, env);
    }
  }

  /**
   Exactly once: whatever writes, acks and deadletters fail on the way, a row leaves the queue only when it is safe,
   an accepted task is in the vault at most once at any time and exactly once after it has left, and a rejected one never.
   */
  lemma ExactlyOnce(r: Rules, v: Vault, steps: seq<Step>, row: Row)
    requires Orderly(r, Begin(v), steps) && row in AfterAll(r, Begin(v), steps).arrived
    ensures var w := AfterAll(r, Begin(v), steps).world;
      && Copies(w.vault, row.id) <= (if AcceptedTask(r, row) then 1 else 0)
      && (row !in w.queue ==> Safe(r, w.vault, w.sunk, w.dead, row))
      && (row !in w.queue && AcceptedTask(r, row) ==> Copies(w.vault, row.id) == 1)
  {
    InvAlongRun(r, v, steps);
    hide Faithful, Copies, AfterAll, KindOf;
    assert VaultOk(r, AfterAll(r, Begin(v), steps).world.vault, row);
  }

  /** A pass that succeeds empties the queue of what it pulled: every such row is safe. */
  lemma SuccessSettles(r: Rules, v: Vault, steps: seq<Step>, pulled: seq<Row>, env: Env, row: Row)
    requires Orderly(r, Begin(v), steps) && Pullable(AfterAll(r, Begin(v), steps).world, pulled)
    requires Succeeds(r, AfterAll(r, Begin(v), steps).world, pulled, env) && row in pulled
    ensures row !in Pass(r, AfterAll(r, Begin(v), steps).world, pulled, env).queue
  {
    var w := AfterAll(r, Begin(v), steps).world;
    AllListed(r, env, w.vault, w.sunk, pulled, row);
    hide HandleAll, AfterAll;
  }

  lemma {:induction false} AllListed(r: Rules, env: Env, v: Vault, sunk: seq<Row>, rows: seq<Row>, row: Row)
    requires row in rows && !HandleAll(r, env, v, sunk, rows).stopped
    ensures var p := HandleAll(r, env, v, sunk, rows); row.id in p.written || row.id in p.failures
  {
    hide Create, Rejected, KindOf;
    if row != rows[|rows| - 1] {
      AllListed(r, env, v, sunk, rows[..|rows| - 1], row);
    }
  }
}
