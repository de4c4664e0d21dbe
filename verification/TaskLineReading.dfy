/** What a line says, marker by marker, wherever the markers stand (internal/vault/tasks.go:49-146). */
module TaskLineReading {
  import opened Common
  import opened TaskLine
  import opened TaskLineLaws

  // ----- the alphabets and the calendar -----

  lemma MonthLengths(year: nat, month: nat)
    ensures DaysIn(year, 1) == DaysIn(year, 3) == DaysIn(year, 5) == DaysIn(year, 7) == 31
    ensures DaysIn(year, 8) == DaysIn(year, 10) == DaysIn(year, 12) == 31
    ensures DaysIn(year, 4) == DaysIn(year, 6) == DaysIn(year, 9) == DaysIn(year, 11) == 30
    ensures RealDate(Date(year, 2, 29)) <==> (year % 4 == 0 && year % 100 != 0) || year % 400 == 0
    ensures RealDate(Date(year, 2, 28)) && !RealDate(Date(year, 2, 30))
    ensures month == 0 || month > 12 ==> forall day :: !RealDate(Date(year, month, day))
    ensures !RealDate(Date(year, month, 0))
    ensures 1 <= month <= 12 ==> forall day :: 1 <= day <= 28 ==> RealDate(Date(year, month, day))
  {
  }

  /** A qi id is "qi-" and eight characters from 0 to 9 and a to f. */
  lemma QiIdLetters(s: string)
    ensures IsQiId(s) <==> |s| == 11 && s[..3] == "qi-" && forall c :: c in s[3..] ==> c in "0123456789abcdef"
  {
    HexLetters();
    if |s| == 11 {
      assert s[..3] == [s[0], s[1], s[2]];
      forall i | 3 <= i < 11
        ensures s[i] in s[3..]
      {
        assert s[3..][i - 3] == s[i];
      }
      forall c | c in s[3..]
        ensures exists i :: 3 <= i < 11 && s[i] == c
      {
        var k :| 0 <= k < 8 && s[3..][k] == c;
        assert s[k + 3] == c;
      }
    }
    hide IsHex;
  }

  lemma HexLetters()
    ensures forall c :: IsHex(c) <==> c in "0123456789abcdef"
  {
  }

  // ----- what is no task -----

  /** A line is a task line exactly if it begins with a box and has something behind it; the box says whether it is done. */
  lemma BoxDecides(line: Line)
    ensures Parse(line) == Ok(None) <==> line == [] || !line[0].Box? || |line| == 1
    ensures Parse(line).Ok? && Parse(line).value.Some? ==>
      var t, last := Parse(line).value.value, line[|line| - 1];
      t.completed == line[0].done && t.id == if last.Ref? then last.id else ""
  {
    hide DateError, NoDates, First, FirstRule, WithoutRules, Without, TagsIn;
  }

  // ----- dates -----

  lemma {:induction false} FirstIs(k: Kind, s: Line)
    ensures First(k, s).None? ==> forall i :: 0 <= i < |s| ==> KindOf(s[i]) != k
    ensures First(k, s).Some? ==>
      exists i :: 0 <= i < |s| && s[i] == First(k, s).value && KindOf(s[i]) == k && forall j :: 0 <= j < i ==> KindOf(s[j]) != k
  {
    hide KindOf;
    if s != [] && KindOf(s[0]) != k {
      FirstIs(k, s[1..]);
      if First(k, s[1..]).Some? {
        var i :| 0 <= i < |s[1..]| && s[1..][i] == First(k, s).value && KindOf(s[1..][i]) == k && forall j :: 0 <= j < i ==> KindOf(s[1..][j]) != k;
        assert s[i + 1] == s[1..][i];
        forall j | 0 <= j < i + 1
          ensures KindOf(s[j]) != k
        {
          assert j > 0 ==> s[j] == s[1..][j - 1];
        }
      }
    }
  }

  /** The first marker of its kind behind the box. */
  predicate FirstDue(line: Line, i: nat) {
    0 < i < |line| && line[i].Due? && forall j :: 0 < j < i ==> !line[j].Due?
  }

  predicate FirstSched(line: Line, i: nat) {
    0 < i < |line| && line[i].Sched? && forall j :: 0 < j < i ==> !line[j].Sched?
  }

  predicate FirstDone(line: Line, i: nat) {
    0 < i < |line| && line[i].Done? && forall j :: 0 < j < i ==> !line[j].Done?
  }

  /** The first of a kind, seen in the whole line; an id at its end is none of them. */
  lemma FirstBehindBox(line: Line, k: Kind, i: nat)
    requires |line| > 1 && k != KRef
    requires 0 < i < |line| && KindOf(line[i]) == k && forall j :: 0 < j < i ==> KindOf(line[j]) != k
    ensures First(k, Content(line)) == Some(line[i])
  {
    hide KindOf;
    var content := Content(line);
    assert line[|line| - 1].Ref? ==> KindOf(line[|line| - 1]) == KRef by { RefKind(line[|line| - 1]); }
    assert i - 1 < |content| && content[i - 1] == line[i];
    FirstIs(k, content);
    if First(k, content).Some? {
      var m :| 0 <= m < |content| && content[m] == First(k, content).value && KindOf(content[m]) == k && forall j :: 0 <= j < m ==> KindOf(content[j]) != k;
      assert content[m] == line[m + 1];
    }
  }

  lemma RefKind(t: Token)
    ensures t.Ref? <==> KindOf(t) == KRef
  {
  }

  lemma NoneBehindBox(line: Line, k: Kind)
    requires |line| > 1 && forall j :: 0 < j < |line| ==> KindOf(line[j]) != k
    ensures First(k, Content(line)).None?
  {
    hide KindOf;
    FirstIs(k, Content(line));
    forall i | 0 <= i < |Content(line)|
      ensures KindOf(Content(line)[i]) != k
    {
      assert Content(line)[i] == line[i + 1];
    }
  }

  /** The due date is that of the first due marker; the line is refused for it exactly if no calendar has that date. */
  lemma DueAsItStands(line: Line, i: nat)
    requires |line| > 1 && line[0].Box? && FirstDue(line, i)
    ensures Parse(line) == Err(BadDue) <==> !RealDate(line[i].date)
    ensures Parse(line).Ok? ==> Parse(line).value.Some? && Parse(line).value.value.due == Some(line[i].date)
  {
    hide NoDates, FirstRule, WithoutRules, Without, TagsIn, RealDate;
    FirstBehindBox(line, KDue, i);
    hide Content, First;
  }

  lemma NoDue(line: Line)
    requires |line| > 1 && line[0].Box? && (forall j :: 0 < j < |line| ==> !line[j].Due?)
    ensures Parse(line) != Err(BadDue) && (Parse(line).Ok? ==> Parse(line).value.Some? && Parse(line).value.value.due == None)
  {
    hide NoDates, FirstRule, WithoutRules, Without, TagsIn, RealDate;
    NoneBehindBox(line, KDue);
    hide Content, First;
  }

  /** The same for the scheduled date, of a line whose due date is real. */
  lemma ScheduledAsItStands(line: Line, i: nat)
    requires |line| > 1 && line[0].Box? && FirstSched(line, i) && Parse(line) != Err(BadDue)
    ensures Parse(line) == Err(BadScheduled) <==> !RealDate(line[i].date)
    ensures Parse(line).Ok? ==> Parse(line).value.Some? && Parse(line).value.value.scheduled == Some(line[i].date)
  {
    hide NoDates, FirstRule, WithoutRules, Without, TagsIn, RealDate;
    FirstBehindBox(line, KSched, i);
    hide Content, First;
  }

  lemma NoScheduled(line: Line)
    requires |line| > 1 && line[0].Box? && (forall j :: 0 < j < |line| ==> !line[j].Sched?) && Parse(line) != Err(BadDue)
    ensures Parse(line) != Err(BadScheduled) && (Parse(line).Ok? ==> Parse(line).value.Some? && Parse(line).value.value.scheduled == None)
  {
    hide NoDates, FirstRule, WithoutRules, Without, TagsIn, RealDate;
    NoneBehindBox(line, KSched);
    hide Content, First;
  }

  /** The same for the done date, of a line whose other dates are real. */
  lemma DoneAsItStands(line: Line, i: nat)
    requires |line| > 1 && line[0].Box? && FirstDone(line, i)
             && Parse(line) != Err(BadDue) && Parse(line) != Err(BadScheduled)
    ensures Parse(line) == Err(BadDone) <==> !RealDate(line[i].date)
    ensures Parse(line).Ok? ==> Parse(line).value.Some? && Parse(line).value.value.completedAt == Some(line[i].date)
  {
    hide NoDates, FirstRule, WithoutRules, Without, TagsIn, RealDate;
    FirstBehindBox(line, KDone, i);
    hide Content, First;
  }

  lemma NoDone(line: Line)
    requires |line| > 1 && line[0].Box? && (forall j :: 0 < j < |line| ==> !line[j].Done?)
             && Parse(line) != Err(BadDue) && Parse(line) != Err(BadScheduled)
    ensures Parse(line) != Err(BadDone) && (Parse(line).Ok? ==> Parse(line).value.Some? && Parse(line).value.value.completedAt == None) && Parse(line).Ok?
  {
    hide NoDates, FirstRule, WithoutRules, Without, TagsIn, RealDate;
    NoneBehindBox(line, KDone);
    hide Content, First;
  }

  // ----- the text and the rest -----

  /** All that is read besides the dates. */
  predicate SameBesidesDates(a: Task, b: Task) {
    && a.id == b.id && a.text == b.text && a.project == b.project && a.tags == b.tags && a.recurrence == b.recurrence
    && a.parentId == b.parentId && a.priority == b.priority && a.completed == b.completed
  }

  predicate IsDateMarker(x: Token) {
    x.Due? || x.Sched? || x.Done?
  }

  lemma DatesAreOut(a: Line, x: Token, b: Line)
    requires IsDateMarker(x)
    ensures NoDates(a + [x] + b) == NoDates(a + b)
  {
    hide Without, KindOf;
    DateKinds(x);
    if x.Due? {
      OutOfMiddle(KDue, a, x, b);
    } else {
      StaysInMiddle(KDue, a, x, b);
      SchedOut(Without(KDue, a), x, Without(KDue, b));
      WithoutConcat(KDue, a, b);
    }
  }

  lemma DateKinds(x: Token)
    ensures (x.Due? <==> KindOf(x) == KDue) && (x.Sched? <==> KindOf(x) == KSched) && (x.Done? <==> KindOf(x) == KDone)
  {
  }

  lemma StaysInMiddle(k: Kind, a: Line, x: Token, b: Line)
    requires KindOf(x) != k
    ensures Without(k, a + [x] + b) == Without(k, a) + [x] + Without(k, b)
  {
    WithoutConcat(k, a + [x], b);
    WithoutConcat(k, a, [x]);
    OneWithout(k, x);
  }

  lemma SchedOut(a: Line, x: Token, b: Line)
    requires x.Sched? || x.Done?
    ensures Without(KDone, Without(KSched, a + [x] + b)) == Without(KDone, Without(KSched, a + b))
  {
    hide Without, KindOf;
    DateKinds(x);
    if x.Sched? {
      OutOfMiddle(KSched, a, x, b);
    } else {
      StaysInMiddle(KSched, a, x, b);
      OutOfMiddle(KDone, Without(KSched, a), x, Without(KSched, b));
      WithoutConcat(KSched, a, b);
    }
  }

  lemma OutOfMiddle(k: Kind, a: Line, x: Token, b: Line)
    requires KindOf(x) == k
    ensures Without(k, a + [x] + b) == Without(k, a + b)
  {
    WithoutConcat(k, a + [x], b);
    WithoutConcat(k, a, [x]);
    WithoutConcat(k, a, b);
    OneWithout(k, x);
    assert Without(k, a) + [] == Without(k, a);
  }

  lemma OneWithout(k: Kind, x: Token)
    ensures Without(k, [x]) == if KindOf(x) == k then [] else [x]
  {
    assert [x][1..] == [];
  }

  /** Without a date error the line is what its content spells. */
  lemma ParsedContent(box: Token, content: Line, front: Line)
    requires box.Box? && content != []
    requires front == if content[|content| - 1].Ref? then content[..|content| - 1] else content
    ensures var r, last := Parse([box] + content), content[|content| - 1];
      r == if DateError(front).Some? then Err(DateError(front).value)
           else Ok(Some(TaskOf(if last.Ref? then last.id else "", box.done, front)))
  {
    hide DateError, TaskOf;
    var line := [box] + content;
    assert line[|line| - 1] == content[|content| - 1];
    assert Content(line) == front;
  }

  lemma TaskOfRest(id: string, done: bool, a: Line, b: Line)
    requires NoDates(a) == NoDates(b)
    ensures SameBesidesDates(TaskOf(id, done, a), TaskOf(id, done, b))
  {
    hide NoDates, First, FirstRule, WithoutRules, Without, TagsIn;
  }

  /** Wherever a date marker stands, also inside a rule, taking it out changes nothing about the rest of the task. */
  lemma DateMarkerLeavesTheRest(box: Token, a: Line, x: Token, b: Line)
    requires box.Box? && IsDateMarker(x) && b != [] && Parse([box] + (a + [x] + b)).Ok?
    ensures var with, less := Parse([box] + (a + [x] + b)), Parse([box] + (a + b));
      with.value.Some? && (less.Ok? ==> less.value.Some? && SameBesidesDates(with.value.value, less.value.value))
  {
    hide DateError, NoDates, Parse, TaskOf, SameBesidesDates;
    var last := b[|b| - 1];
    var front := if last.Ref? then b[..|b| - 1] else b;
    var id := if last.Ref? then last.id else "";
    var with, less := a + [x] + b, a + b;
    assert with[|with| - 1] == last && less[|less| - 1] == last;
    assert last.Ref? ==> with[..|with| - 1] == a + [x] + front && less[..|less| - 1] == a + front;
    ParsedContent(box, with, a + [x] + front);
    ParsedContent(box, less, a + front);
    DatesAreOut(a, x, front);
    TaskOfRest(id, box.done, a + [x] + front, a + front);
  }

  predicate HasNoMarker(s: Line) {
    forall i :: 0 <= i < |s| ==> !IsDateMarker(s[i]) && !s[i].Parent? && !s[i].Recur?
  }

  /** A line without dates, parent and rule is the text itself; its tags are the text's, and the first is the project. */
  lemma BareLine(box: Token, content: Line)
    requires box.Box? && content != [] && !content[|content| - 1].Ref? && HasNoMarker(content)
    ensures Parse([box] + content).Ok? && Parse([box] + content).value.Some?
    ensures var t := Parse([box] + content).value.value;
      && t.text == content && t.id == "" && t.recurrence == [] && t.parentId == ""
      && t.due == None && t.scheduled == None && t.completedAt == None && t.completed == box.done
      && t.tags == TagsIn(content) && t.project == (if t.tags == [] then "" else t.tags[0])
  {
    hide Parse, TagsIn, First, Without, WithoutRules, FirstRule, HasNoMarker, NoDates, DateError;
    ParsedContent(box, content, content);
    BareContent(content);
  }

  lemma BareContent(content: Line)
    requires HasNoMarker(content)
    ensures DateError(content) == None && NoDates(content) == content && WithoutRules(content) == content
    ensures Without(KParent, content) == content && First(KParent, content) == None && FirstRule(content) == []
    ensures First(KDue, content) == First(KSched, content) == First(KDone, content) == None
  {
    BareLacks(content);
    hide HasNoMarker, WithoutRules, FirstRule, First, Without, Lacks;
    LackingScan(KDue, content);
    LackingScan(KSched, content);
    LackingScan(KDone, content);
    LackingScan(KParent, content);
    NoRuleScan(content);
  }

  lemma BareLacks(s: Line)
    requires HasNoMarker(s)
    ensures Lacks(KDue, s) && Lacks(KSched, s) && Lacks(KDone, s) && Lacks(KParent, s) && Lacks(KRecur, s)
  {
  }

  /** The tags of a text are the bodies of its tag tokens, in order. */
  lemma {:induction false} TagsAreTokens(s: Line)
    ensures forall x :: x in TagsIn(s) <==> Token.Tag(x) in s
    ensures TagsIn(s) != [] ==> exists i :: 0 <= i < |s| && s[i] == Token.Tag(TagsIn(s)[0]) && forall j :: 0 <= j < i ==> !s[j].Tag?
  {
    if s != [] {
      TagsAreTokens(s[1..]);
      assert s == [s[0]] + s[1..];
      if s[0].Tag? {
        assert s[0] == Token.Tag(TagsIn(s)[0]);
      } else if TagsIn(s) != [] {
        var i :| 0 <= i < |s[1..]| && s[1..][i] == Token.Tag(TagsIn(s[1..])[0]) && forall j :: 0 <= j < i ==> !s[1..][j].Tag?;
        assert s[i + 1] == s[1..][i];
        forall j | 0 <= j < i + 1
          ensures !s[j].Tag?
        {
          assert j > 0 ==> s[j] == s[1..][j - 1];
        }
      }
    }
  }

  /** A rule and a parent are taken out of the text, which is closed up; a repeat marker at the very end stays in it. */
  lemma RuleAndParentAreOut(box: Token, a: Line, rule: seq<string>, parent: string, b: Line)
    requires box.Box? && a != [] && HasNoMarker(a) && HasNoMarker(b) && rule != []
    requires (b == [] || !b[0].Word?) && (b != [] ==> !b[|b| - 1].Ref?)
    ensures var line := [box] + (a + ([Recur] + (Words(rule) + ([Parent(parent)] + b))));
      && Parse(line).Ok? && Parse(line).value.Some?
      && var t := Parse(line).value.value; t.text == a + b && t.recurrence == rule && t.parentId == parent
  {
    hide Parse, NoDates, DateError, FirstRule, WithoutRules, Without, TagsIn, First, HasNoMarker;
    var tail := [Parent(parent)] + b;
    var content := a + ([Recur] + (Words(rule) + tail));
    assert content[|content| - 1] == tail[|tail| - 1];
    MarkersOf(a, parent, b);
    ParsedContent(box, content, content);
    NoDatesIn(a, rule, tail);
    RuleOut(a, rule, tail);
    ParentOut(a, parent, b);
  }

  lemma MarkersOf(a: Line, parent: string, b: Line)
    requires HasNoMarker(a) && HasNoMarker(b)
    ensures var tail := [Parent(parent)] + b;
      && (forall i :: 0 <= i < |a| ==> !IsDateMarker(a[i])) && (forall i :: 0 <= i < |tail| ==> !IsDateMarker(tail[i]))
      && Lacks(KRecur, a) && Lacks(KRecur, tail) && Lacks(KParent, a) && Lacks(KParent, b)
  {
  }

  lemma NoDatesIn(a: Line, rule: seq<string>, tail: Line)
    requires forall i :: 0 <= i < |a| ==> !IsDateMarker(a[i])
    requires forall i :: 0 <= i < |tail| ==> !IsDateMarker(tail[i])
    ensures var content := a + ([Recur] + (Words(rule) + tail)); DateError(content) == None && NoDates(content) == content
  {
    var content := a + ([Recur] + (Words(rule) + tail));
    WordsAre(rule);
    forall i | 0 <= i < |content|
      ensures !IsDateMarker(content[i])
    {
    }
    LackingScan(KDue, content);
    LackingScan(KSched, content);
    LackingScan(KDone, content);
  }

  lemma RuleOut(a: Line, rule: seq<string>, tail: Line)
    requires Lacks(KRecur, a) && Lacks(KRecur, tail) && rule != [] && tail != [] && !tail[0].Word?
    ensures var content := a + ([Recur] + (Words(rule) + tail)); FirstRule(content) == rule && WithoutRules(content) == a + tail
  {
    var rest := Words(rule) + tail;
    RulePrefix(a, [Recur] + rest);
    RuleHead(rest);
    RunOfWords(rule, tail);
    assert rest[|rule|..] == tail;
    NoRuleScan(tail);
  }

  lemma ParentOut(a: Line, parent: string, b: Line)
    requires Lacks(KParent, a) && Lacks(KParent, b)
    ensures Without(KParent, a + ([Parent(parent)] + b)) == a + b
    ensures First(KParent, a + ([Parent(parent)] + b)) == Some(Parent(parent))
  {
    var tail := [Parent(parent)] + b;
    WithoutConcat(KParent, a, tail);
    WithoutCons(KParent, Parent(parent), b);
    LackingScan(KParent, a);
    LackingScan(KParent, b);
    FirstConcat(KParent, a, tail);
    hide Without;
    assert [] + b == b;
  }

  lemma LastMarkerStays(box: Token, a: Line)
    requires box.Box? && HasNoMarker(a)
    ensures var line := [box] + (a + [Recur]);
      Parse(line).Ok? && Parse(line).value.Some? && Parse(line).value.value.text == a + [Recur] && Parse(line).value.value.recurrence == []
  {
    hide Parse, TagsIn, First, Without, WithoutRules, FirstRule;
    var content := a + [Recur];
    ParsedContent(box, content, content);
    LackingScan(KDue, content);
    LackingScan(KSched, content);
    LackingScan(KDone, content);
    LackingScan(KParent, content);
    RulePrefix(a, [Recur]);
    AloneAtEnd();
  }

  lemma AloneAtEnd()
    ensures FirstRule([Recur]) == [] && WithoutRules([Recur]) == [Recur]
  {
  }

  // ----- what is printed -----

  /** A task with every field is printed in this order; without text nothing is printed. */
  lemma FormatExample(d: Date, e: Date, f: Date)
    ensures var t := Task("qi-0000000a", [Word("w")], "a", ["a", "b"], Some(d), Some(e), ["every", "day"], "qi-0000000b", "", true, Some(f));
      Format(t) == Ok([Box(true), Word("w"), Token.Tag("a"), Token.Tag("b"), Recur, Word("every"), Word("day"), Sched(e), Due(d), Done(f),
                       Parent("qi-0000000b"), Ref("qi-0000000a")])
  {
    var t := Task("qi-0000000a", [Word("w")], "a", ["a", "b"], Some(d), Some(e), ["every", "day"], "qi-0000000b", "", true, Some(f));
    ExampleTokens();
    hide TagToken, ParentToken, RefToken, IsQiId;
    ExampleGains(t);
    ExampleFields(t);
    hide Gained, Fields, TagTokens;
    assert Body(t) == [Box(true), Word("w"), Token.Tag("a"), Token.Tag("b"), Recur, Word("every"), Word("day"), Sched(e), Due(d), Done(f),
                       Parent("qi-0000000b")];
    assert Body(t) + [Ref("qi-0000000a")] == [Box(true), Word("w"), Token.Tag("a"), Token.Tag("b"), Recur, Word("every"), Word("day"), Sched(e),
                                              Due(d), Done(f), Parent("qi-0000000b"), Ref("qi-0000000a")];
  }

  lemma ExampleTokens()
    ensures TagToken("a") == Token.Tag("a") && TagToken("b") == Token.Tag("b")
    ensures ParentToken("qi-0000000b") == Parent("qi-0000000b") && RefToken("qi-0000000a") == Ref("qi-0000000a")
  {
    assert !IsDigit("a"[0]) && !IsDigit("b"[0]);
  }

  lemma ExampleGains(t: Task)
    requires t.text == [Word("w")] && t.project == "a" && t.tags == ["a", "b"]
    ensures TagTokens(Gained(t)) == [Token.Tag("a"), Token.Tag("b")]
  {
    ExampleTokens();
    hide TagToken;
    assert t.text[1..] == [] && TagsIn(t.text) == [];
    assert t.tags[1..] == ["b"] && ["b"][1..] == [];
    assert SetOf(TagsIn(t.text)) == {};
    assert NewTags(["b"], {} + {"a"}) == ["b"];
    assert Gained(t) == ["a", "b"];
    assert TagTokens(["b"]) == [Token.Tag("b")];
    assert ["a", "b"][1..] == ["b"];
  }

  lemma ExampleFields(t: Task)
    requires t.recurrence == ["every", "day"] && t.scheduled.Some? && t.due.Some? && t.completedAt.Some? && t.parentId == "qi-0000000b"
    ensures Fields(t) == [Recur, Word("every"), Word("day"), Sched(t.scheduled.value), Due(t.due.value), Done(t.completedAt.value),
                          Parent("qi-0000000b")]
  {
    ExampleTokens();
    hide ParentToken;
    assert t.recurrence[1..] == ["day"] && ["day"][1..] == [];
    assert Words(["day"]) == [Word("day")] && Words(t.recurrence) == [Word("every"), Word("day")];
  }

  /** A text that ends in a qi reference does not get a second one: the task's id takes its place. */
  lemma TrailingIdIsReplaced(t: Task, front: Line, had: string)
    requires t.text == front + [Ref(had)] && front != [] && IsQiId(t.id) && t.tags == [] && t.project == ""
    requires t.recurrence == [] && t.due.None? && t.scheduled.None? && t.completedAt.None? && t.parentId == ""
    ensures Format(t) == Ok([Box(t.completed)] + front + [Ref(t.id)])
  {
    hide IsQiId, TagsIn;
    assert Gained(t) == [] && Fields(t) == [];
    var body := [Box(t.completed)] + t.text;
    assert Body(t) == body;
    assert body[..|body| - 1] == [Box(t.completed)] + front && body[|body| - 1] == Ref(had);
    assert t.id != "" by { EmptyIsNoId(); }
  }

  lemma EmptyIsNoId()
    ensures !IsQiId("")
  {
  }
}
