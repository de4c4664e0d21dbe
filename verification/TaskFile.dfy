/** Reading a task file and rewriting one of its lines (internal/vault/tasks.go:186-270). */
module TaskFile {
  import opened Common
  import opened TaskLine
  import opened TaskLineLaws
  import opened TaskLineReading

  /** A task and the line it stands on, counted from 1. */
  datatype Found = Found(lineNo: nat, task: Task)

  datatype UpdateError = BadLineNumber | OutOfRange | Unreadable | NotATask | Changed | Unwritable

  function TasksOf(lines: seq<Line>): Result<seq<Found>, ParseError> {
    if lines == [] then Ok([])
    else
      var before := TasksOf(lines[..|lines| - 1]);
      var last := Parse(lines[|lines| - 1]);
      if before.Err? then before
      else if last.Err? then Err(last.error)
      else if last.value.None? then before
      else Ok(before.value + [Found(|lines|, last.value.value)])
  }

  /** The tasks without their line numbers. */
  function TasksIn(lines: seq<Line>): Result<seq<Task>, ParseError> {
    match TasksOf(lines)
    case Err(e) => Err(e)
    case Ok(found) => Ok(Tasks(found))
  }

  function Tasks(found: seq<Found>): (r: seq<Task>)
    ensures |r| == |found| && forall i :: 0 <= i < |found| ==> r[i] == found[i].task
  {
    seq(|found|, i requires 0 <= i < |found| => found[i].task)
  }

  /** Line by line. */
  lemma TasksInSnoc(lines: seq<Line>, line: Line)
    ensures var before, last := TasksIn(lines), Parse(line);
      TasksIn(lines + [line]) ==
      if before.Err? then before
      else if last.Err? then Err(last.error)
      else if last.value.None? then before
      else Ok(before.value + [last.value.value])
  {
    hide Parse;
    assert (lines + [line])[..|lines|] == lines;
    var before, last := TasksOf(lines), Parse(line);
    if before.Ok? && last.Ok? && last.value.Some? {
      assert Tasks(before.value + [Found(|lines| + 1, last.value.value)]) == Tasks(before.value) + [last.value.value];
    }
  }

  /** The line of that number begins with a box, has something behind it, and reads as the task. */
  predicate StandsOn(lines: seq<Line>, f: Found) {
    && 1 <= f.lineNo <= |lines|
    && var line := lines[f.lineNo - 1];
    && |line| > 1 && line[0].Box? && Parse(line) == Ok(Some(f.task))
  }

  /** A file is read exactly if each of its lines can be. */
  lemma {:induction false} ReadFails(lines: seq<Line>)
    ensures TasksOf(lines).Err? <==> exists i :: 0 <= i < |lines| && Parse(lines[i]).Err?
  {
    hide Parse;
    if lines != [] {
      var front := lines[..|lines| - 1];
      ReadFails(front);
      if i :| 0 <= i < |front| && Parse(front[i]).Err? {
        assert lines[i] == front[i];
      }
      if i :| 0 <= i < |lines| && Parse(lines[i]).Err? {
        assert i < |front| ==> front[i] == lines[i];
      }
    }
  }

  /** Every task listed stands on the line of its number, and the numbers ascend. */
  lemma {:induction false} ReadStands(lines: seq<Line>)
    requires TasksOf(lines).Ok?
    ensures forall k :: 0 <= k < |TasksOf(lines).value| ==> StandsOn(lines, TasksOf(lines).value[k])
    ensures forall j, k :: 0 <= j < k < |TasksOf(lines).value| ==> TasksOf(lines).value[j].lineNo < TasksOf(lines).value[k].lineNo
  {
    if lines != [] {
      var front, last := lines[..|lines| - 1], lines[|lines| - 1];
      ReadStands(front);
      BoxDecides(last);
      hide Parse, StandsOn;
      forall f | f in TasksOf(front).value
        ensures StandsOn(lines, f) && f.lineNo < |lines|
      {
        StandsLonger(lines, f);
      }
      if Parse(last).value.Some? {
        LastStands(lines);
      }
    }
  }

  lemma StandsLonger(lines: seq<Line>, f: Found)
    requires lines != [] && StandsOn(lines[..|lines| - 1], f)
    ensures StandsOn(lines, f) && f.lineNo < |lines|
  {
    hide Parse;
  }

  lemma LastStands(lines: seq<Line>)
    requires lines != [] && Parse(lines[|lines| - 1]).Ok? && Parse(lines[|lines| - 1]).value.Some?
    ensures StandsOn(lines, Found(|lines|, Parse(lines[|lines| - 1]).value.value))
  {
    BoxDecides(lines[|lines| - 1]);
    hide Parse;
  }

  /** And every line with a box is listed. */
  lemma {:induction false} ReadMissesNothing(lines: seq<Line>, i: nat)
    requires TasksOf(lines).Ok? && i < |lines| && |lines[i]| > 1 && lines[i][0].Box?
    ensures exists k :: 0 <= k < |TasksOf(lines).value| && TasksOf(lines).value[k].lineNo == i + 1
  {
    hide Parse;
    BoxDecides(lines[i]);
    var front, found := lines[..|lines| - 1], TasksOf(lines).value;
    if i < |front| {
      assert front[i] == lines[i];
      ReadMissesNothing(front, i);
      var k :| 0 <= k < |TasksOf(front).value| && TasksOf(front).value[k].lineNo == i + 1;
      StaysListed(lines, k);
    } else {
      LastListed(lines);
    }
  }

  lemma StaysListed(lines: seq<Line>, k: nat)
    requires lines != [] && TasksOf(lines).Ok? && TasksOf(lines[..|lines| - 1]).Ok? && k < |TasksOf(lines[..|lines| - 1]).value|
    ensures k < |TasksOf(lines).value| && TasksOf(lines).value[k] == TasksOf(lines[..|lines| - 1]).value[k]
  {
    hide Parse;
  }

  lemma LastListed(lines: seq<Line>)
    requires lines != [] && TasksOf(lines).Ok? && Parse(lines[|lines| - 1]) != Ok(None)
    ensures var found := TasksOf(lines).value; found != [] && found[|found| - 1].lineNo == |lines|
  {
    hide Parse;
  }

  /** found are the lines of a file that begin with a box and have something behind it, each under its number, in order. */
  ghost predicate Lists(lines: seq<Line>, found: seq<Found>) {
    && (forall k :: 0 <= k < |found| ==> StandsOn(lines, found[k]))
    && (forall j, k :: 0 <= j < k < |found| ==> found[j].lineNo < found[k].lineNo)
    && (forall i :: 0 <= i < |lines| && |lines[i]| > 1 && lines[i][0].Box? ==> exists k :: 0 <= k < |found| && found[k].lineNo == i + 1)
  }

  lemma ReadLists(lines: seq<Line>)
    requires TasksOf(lines).Ok?
    ensures Lists(lines, TasksOf(lines).value)
  {
    hide Parse, StandsOn, TasksOf;
    ReadStands(lines);
    forall i | 0 <= i < |lines| && |lines[i]| > 1 && lines[i][0].Box?
      ensures exists k :: 0 <= k < |TasksOf(lines).value| && TasksOf(lines).value[k].lineNo == i + 1
    {
      ReadMissesNothing(lines, i);
    }
  }

  method ReadTasks(lines: seq<Line>) returns (r: Result<seq<Found>, ParseError>)
    ensures r == TasksOf(lines)
    ensures r.Err? <==> exists i :: 0 <= i < |lines| && Parse(lines[i]).Err?
    ensures r.Ok? ==> Lists(lines, r.value)
  {
    hide Lists;
    ReadFails(lines);
    if TasksOf(lines).Ok? {
      ReadLists(lines);
    }
    hide Parse, StandsOn;
    var tasks: seq<Found> := [];
    for i := 0 to |lines|
      invariant TasksOf(lines[..i]) == Ok(tasks)
    {
      assert lines[..i + 1][..i] == lines[..i];
      var parsed := ParseTaskLine(lines[i]);
      if parsed.Err? {
        FirstError(lines, i + 1);
        return Err(parsed.error);
      }
      if parsed.value.Some? {
        tasks := tasks + [Found(i + 1, parsed.value.value)];
      }
    }
    assert lines[..|lines|] == lines;
    r := Ok(tasks);
  }

  lemma {:induction false} FirstError(lines: seq<Line>, n: nat)
    requires n <= |lines| && TasksOf(lines[..n]).Err?
    ensures TasksOf(lines) == TasksOf(lines[..n])
  {
    hide Parse;
    if n == |lines| {
      assert lines[..n] == lines;
    } else {
      assert lines[..|lines| - 1][..n] == lines[..n];
      FirstError(lines[..|lines| - 1], n);
    }
  }

  /** The line still shows the task: the same id, or the same text when the task has none. */
  predicate StillThere(existing: Task, task: Task) {
    if task.id != "" then existing.id == task.id else existing.text == task.text
  }

  function Updated(lines: seq<Line>, lineNo: int, task: Task): Result<seq<Line>, UpdateError> {
    if lineNo < 1 then Err(BadLineNumber)
    else if lineNo > |lines| then Err(OutOfRange)
    else
      var existing := Parse(lines[lineNo - 1]);
      if existing.Err? then Err(Unreadable)
      else if existing.value.None? then Err(NotATask)
      else if !StillThere(existing.value.value, task) then Err(Changed)
      else if Format(task).Err? then Err(Unwritable)
      else Ok(lines[lineNo - 1 := Format(task).value])
  }

  class TaskFile {
    var lines: seq<Line>

    constructor (lines: seq<Line>)
      ensures this.lines == lines
    {
      this.lines := lines;
    }

    method UpdateTaskLine(lineNo: int, task: Task) returns (error: Option<UpdateError>)
      modifies this
      ensures lines == match Updated(old(lines), lineNo, task) { case Ok(after) => after case Err(_) => old(lines) }
      ensures error == match Updated(old(lines), lineNo, task) { case Ok(_) => None case Err(e) => Some(e) }
      ensures error == Some(BadLineNumber) <==> lineNo < 1
      ensures error == Some(OutOfRange) <==> lineNo > |old(lines)| && lineNo >= 1
      ensures 1 <= lineNo <= |old(lines)| ==>
                var there := Parse(old(lines)[lineNo - 1]);
                && (error == Some(Unreadable) <==> there.Err?)
                && (error == Some(NotATask) <==> there == Ok(None))
                && (there.Ok? && there.value.Some? ==>
                      var same := if task.id != "" then there.value.value.id == task.id else there.value.value.text == task.text;
                      && (error == Some(Changed) <==> !same) && (error == Some(Unwritable) <==> same && task.text == [])
                      && (error == None <==> same && task.text != []))
      ensures error == None ==> Format(task).Ok? && lines == old(lines)[lineNo - 1 := Format(task).value]
      ensures error != None ==> lines == old(lines)
    {
      hide Parse, Format;
      if lineNo < 1 {
        return Some(BadLineNumber);
      }
      var index := lineNo - 1;
      if index >= |lines| {
        return Some(OutOfRange);
      }
      var existing := ParseTaskLine(lines[index]);
      if existing.Err? {
        return Some(Unreadable);
      }
      if existing.value.None? {
        return Some(NotATask);
      }
      if task.id != "" {
        if existing.value.value.id != task.id {
          return Some(Changed);
        }
      } else if existing.value.value.text != task.text {
        return Some(Changed);
      }
      var newLine := FormatTaskLine(task);
      if newLine.Err? {
        return Some(Unwritable);
      }
      lines := lines[index := newLine.value];
      error := None;
    }
  }

  // ----- what an update keeps -----

  /** The task on a line, if there is one. */
  function TaskAt(lines: seq<Line>, i: nat): Option<Task>
    requires i < |lines|
  {
    var p := Parse(lines[i]);
    if p.Ok? then p.value else None
  }

  function IdAt(lines: seq<Line>, i: nat): string
    requires i < |lines|
  {
    var t := TaskAt(lines, i);
    if t.Some? then t.value.id else ""
  }

  /** After an accepted update the line reads back as the task with its tags shown, and every other line is as it was. */
  lemma UpdateReadsBack(lines: seq<Line>, lineNo: int, task: Task)
    requires Clean(task) && Updated(lines, lineNo, task).Ok?
    ensures var after := Updated(lines, lineNo, task).value;
      && |after| == |lines|
      && TaskAt(after, lineNo - 1) == Some(ReadBack(task))
      && forall i :: 0 <= i < |lines| && i != lineNo - 1 ==> after[i] == lines[i]
  {
    hide Parse, Format, Clean, ReadBack;
    FormatThenParse(task);
  }

  /**
   However the file has changed since the line number was taken, no id moves or disappears with an accepted update,
   exactly when the task carries the id that stands on the line. A task without an id wipes the id of a line with its text.
   */
  lemma UpdateKeepsIds(lines: seq<Line>, lineNo: int, task: Task)
    requires Clean(task) && Updated(lines, lineNo, task).Ok?
    ensures (forall i :: 0 <= i < |lines| ==> IdAt(Updated(lines, lineNo, task).value, i) == IdAt(lines, i))
            <==> task.id == IdAt(lines, lineNo - 1)
    ensures task.id != "" ==> task.id == IdAt(lines, lineNo - 1)
  {
    hide Parse, Format, Clean, Updated, ReadBack, TaskAt, IdAt;
    OwnIdStands(lines, lineNo, task);
    UpdateReadsBack(lines, lineNo, task);
    IdOfTask(Updated(lines, lineNo, task).value, lineNo - 1);
    BackHasId(task);
    OneIdMatters(lines, Updated(lines, lineNo, task).value, lineNo - 1, task.id);
  }

  /** When one line alone is replaced, all ids stay exactly when its own stays. */
  lemma OneIdMatters(lines: seq<Line>, after: seq<Line>, k: nat, id: string)
    requires k < |lines| == |after| && IdAt(after, k) == id
    requires forall i :: 0 <= i < |lines| && i != k ==> after[i] == lines[i]
    ensures (forall i :: 0 <= i < |lines| ==> IdAt(after, i) == IdAt(lines, i)) <==> id == IdAt(lines, k)
  {
    hide IdAt;
    forall i | 0 <= i < |lines| && i != k
      ensures IdAt(after, i) == IdAt(lines, i)
    {
      SameIds(after, lines, i);
    }
  }

  lemma OwnIdStands(lines: seq<Line>, lineNo: int, task: Task)
    requires Updated(lines, lineNo, task).Ok?
    ensures 1 <= lineNo <= |lines| && (task.id != "" ==> task.id == IdAt(lines, lineNo - 1))
  {
    hide Parse, Format;
  }

  lemma IdOfTask(lines: seq<Line>, i: nat)
    requires i < |lines|
    ensures TaskAt(lines, i).Some? ==> IdAt(lines, i) == TaskAt(lines, i).value.id
  {
  }

  lemma BackHasId(t: Task)
    ensures ReadBack(t).id == t.id
  {
  }

  lemma SameIds(after: seq<Line>, lines: seq<Line>, i: nat)
    requires i < |lines| == |after| && after[i] == lines[i]
    ensures IdAt(after, i) == IdAt(lines, i)
  {
    hide Parse;
  }

  /** The line of any task with an id, updated with that task less its id, is accepted and loses the id. */
  lemma UpdateWipesId(t: Task, line: Line)
    requires Clean(t) && t.id != "" && Format(t) == Ok(line)
    ensures var after := Updated([line], 1, ReadBack(t).(id := ""));
      IdAt([line], 0) == t.id && after.Ok? && |after.value| == 1 && IdAt(after.value, 0) == ""
  {
    hide Parse, Format, Clean, ReadBack, Updated, TaskAt, IdAt;
    FormatThenParse(t);
    FormatIsFixpoint(t);
    var task := ReadBack(t).(id := "");
    WithoutIdIsClean(ReadBack(t));
    FormatThenParse(task);
    BackHasId(task);
    BackHasId(t);
    TextUpdateIsAccepted(line, ReadBack(t), Format(task).value, ReadBack(task));
  }

  lemma TextUpdateIsAccepted(line: Line, t: Task, next: Line, task: Task)
    requires Parse(line) == Ok(Some(t)) && Format(t.(id := "")) == Ok(next) && Parse(next) == Ok(Some(task))
    ensures Updated([line], 1, t.(id := "")) == Ok([next]) && IdAt([line], 0) == t.id && IdAt([next], 0) == task.id
  {
    hide Parse, Format;
    assert [line][0] == line && [next][0] == next;
    assert [line][0 := next] == [next];
  }

  lemma WithoutIdIsClean(t: Task)
    requires Clean(t)
    ensures Clean(t.(id := ""))
  {
  }

  /** For one, the line "w ^qi-0000000a". */
  lemma WipedIdExample(line: Line)
    requires line == [Box(false), Word("w"), Ref("qi-0000000a")]
    ensures var after := Updated([line], 1, Task("", [Word("w")], "", [], None, None, [], "", "", false, None));
      IdAt([line], 0) == "qi-0000000a" && after.Ok? && |after.value| == 1 && IdAt(after.value, 0) == ""
  {
    var t := Task("qi-0000000a", [Word("w")], "", [], None, None, [], "", "", false, None);
    assert TagsIn(t.text) == [] && FullText(t) == t.text;
    assert ReadBack(t) == t;
    ExampleLine(t, line);
    hide Parse, Format, ReadBack;
    UpdateWipesId(t, line);
  }

  lemma ExampleLine(t: Task, line: Line)
    requires t == Task("qi-0000000a", [Word("w")], "", [], None, None, [], "", "", false, None)
    requires line == [Box(false), Word("w"), Ref("qi-0000000a")]
    ensures Format(t) == Ok(line)
  {
    assert TagsIn(t.text) == [] && Gained(t) == [] && Fields(t) == [];
    assert Body(t) == [Box(false), Word("w")];
    assert RefToken(t.id) == Ref(t.id);
    assert [Box(false), Word("w")] + [Ref(t.id)] == line;
  }
}
