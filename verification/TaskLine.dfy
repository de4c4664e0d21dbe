/**
 The canonical markdown task line: ParseTaskLine (internal/vault/tasks.go) and
 FormatTaskLine (internal/vault/task_format.go).

 A line is a sequence of tokens, one per marker the regular expressions of the
 program recognise; whatever carries no marker is a `Word`.
 */
module TaskLine {
  import opened Common

  datatype Date = Date(year: nat, month: nat, day: nat)

  function DaysIn(year: nat, month: nat): nat {
    if month == 2 then
      if year % 4 == 0 && (year % 100 != 0 || year % 400 == 0) then 29 else 28
    else if month in {4, 6, 9, 11} then 30
    else 31
  }

  /** The dates that time.Parse("2006-01-02") accepts. */
  predicate RealDate(d: Date) {
    1 <= d.month <= 12 && 1 <= d.day <= DaysIn(d.year, d.month)
  }

  datatype Token =
    | Box(done: bool)          // "- [ ]" or "- [x]"
    | Word(text: string)
    | Tag(body: string)        // "#body" with a tag body
    | Hash(text: string)       // "#14": not a tag, but it bounds a rule
    | Field(text: string)      // "[x:: y]": an inline field the program does not read
    | Priority(level: string)  // "[priority:: level]"
    | Recur                    // the repeat marker; its rule is the run of words after it
    | Sched(date: Date)
    | Due(date: Date)
    | Done(date: Date)
    | Parent(id: string)       // "[parent:: qi-...]"
    | Ref(id: string)          // "^qi-..."
    | ForeignRef(name: string) // "^name" that is not a qi id

  type Line = seq<Token>

  datatype Kind =
    | KBox | KWord | KTag | KHash | KField | KPriority | KRecur | KSched | KDue | KDone | KParent | KRef | KForeignRef

  function KindOf(t: Token): Kind {
    match t
    case Box(_) => KBox
    case Word(_) => KWord
    case Tag(_) => KTag
    case Hash(_) => KHash
    case Field(_) => KField
    case Priority(_) => KPriority
    case Recur => KRecur
    case Sched(_) => KSched
    case Due(_) => KDue
    case Done(_) => KDone
    case Parent(_) => KParent
    case Ref(_) => KRef
    case ForeignRef(_) => KForeignRef
  }

  datatype Task = Task(
    id: string,
    text: Line,
    project: string,
    tags: seq<string>,
    due: Option<Date>,
    scheduled: Option<Date>,
    recurrence: seq<string>,
    parentId: string,
    priority: string,
    completed: bool,
    completedAt: Option<Date>)

  datatype ParseError = BadDue | BadScheduled | BadDone

  datatype FormatError = TextRequired

  predicate IsTagChar(c: char) {
    'A' <= c <= 'Z' || 'a' <= c <= 'z' || '0' <= c <= '9' || c in {'_', '-', '/'}
  }

  predicate IsDigit(c: char) {
    '0' <= c <= '9'
  }

  /** domain.IsTag: the tag charset, and not all digits. */
  predicate IsTag(s: string) {
    (forall i :: 0 <= i < |s| ==> IsTagChar(s[i])) && (exists i :: 0 <= i < |s| && !IsDigit(s[i]))
  }

  predicate IsHex(c: char) {
    IsDigit(c) || 'a' <= c <= 'f'
  }

  /** "qi-" and eight lowercase hex characters: what MintID produces. */
  predicate IsQiId(s: string) {
    |s| == 11 && s[0] == 'q' && s[1] == 'i' && s[2] == '-' && forall i :: 3 <= i < 11 ==> IsHex(s[i])
  }

  // ----- scanning a line -----

  function Without(k: Kind, s: Line): (r: Line)
    ensures |r| <= |s|
  {
    if s == [] then []
    else if KindOf(s[0]) == k then Without(k, s[1..])
    else [s[0]] + Without(k, s[1..])
  }

  function First(k: Kind, s: Line): (r: Option<Token>)
    ensures r.Some? ==> KindOf(r.value) == k
  {
    if s == [] then None
    else if KindOf(s[0]) == k then Some(s[0])
    else First(k, s[1..])
  }

  predicate Lacks(k: Kind, s: Line) {
    forall i :: 0 <= i < |s| ==> KindOf(s[i]) != k
  }

  /** The words that start s. */
  function Run(s: Line): (r: seq<string>)
    ensures |r| <= |s|
  {
    if s == [] || !s[0].Word? then [] else [s[0].text] + Run(s[1..])
  }

  /** The rule of the first repeat marker that is not the last token. */
  function FirstRule(s: Line): seq<string> {
    if |s| <= 1 then []
    else if s[0].Recur? then Run(s[1..])
    else FirstRule(s[1..])
  }

  /** s without its repeat markers and their rules; a marker at the very end stays. */
  function WithoutRules(s: Line): Line
    decreases |s|
  {
    if |s| <= 1 then s
    else if s[0].Recur? then WithoutRules(s[1 + |Run(s[1..])|..])
    else [s[0]] + WithoutRules(s[1..])
  }

  function TagsIn(s: Line): seq<string> {
    if s == [] then []
    else if s[0].Tag? then [s[0].body] + TagsIn(s[1..])
    else TagsIn(s[1..])
  }

  function Words(rule: seq<string>): (s: Line)
    ensures |s| == |rule|
  {
    if rule == [] then [] else [Word(rule[0])] + Words(rule[1..])
  }

  function DateOf(t: Option<Token>): Option<Date>
    requires t.Some? ==> t.value.Sched? || t.value.Due? || t.value.Done?
  {
    if t.None? then None else Some(t.value.date)
  }

  // ----- parsing -----

  /** What is left to read after the box and, when the line ends in one, the qi id. */
  function Content(line: Line): Line
    requires |line| > 1
  {
    if line[|line| - 1].Ref? then line[1..|line| - 1] else line[1..]
  }

  function NoDates(content: Line): Line {
    Without(KDone, Without(KSched, Without(KDue, content)))
  }

  /** The first date of its kind that the content carries and no calendar has. */
  function DateError(content: Line): Option<ParseError> {
    var due, sched, done := First(KDue, content), First(KSched, content), First(KDone, content);
    if due.Some? && !RealDate(due.value.date) then Some(BadDue)
    else if sched.Some? && !RealDate(sched.value.date) then Some(BadScheduled)
    else if done.Some? && !RealDate(done.value.date) then Some(BadDone)
    else None
  }

  /** The task that a content without date errors spells. */
  function TaskOf(id: string, completed: bool, content: Line): Task {
    var dateless := NoDates(content);
    var text := Without(KParent, WithoutRules(dateless));
    var parent, priority, tags := First(KParent, WithoutRules(dateless)), First(KPriority, text), TagsIn(text);
    Task(
      id,
      text,
      if tags == [] then "" else tags[0],
      tags,
      DateOf(First(KDue, content)),
      DateOf(First(KSched, content)),
      FirstRule(dateless),
      if parent.Some? then parent.value.id else "",
      if priority.Some? then priority.value.level else "",
      completed,
      DateOf(First(KDone, content)))
  }

  function TrailingId(line: Line): string
    requires |line| > 1
  {
    if line[|line| - 1].Ref? then line[|line| - 1].id else ""
  }

  /** What ParseTaskLine returns: None for a line that is not a task. */
  function Parse(line: Line): Result<Option<Task>, ParseError> {
    if |line| <= 1 || !line[0].Box? then Ok(None)
    else
      var error := DateError(Content(line));
      if error.Some? then Err(error.value)
      else Ok(Some(TaskOf(TrailingId(line), line[0].done, Content(line))))
  }

  /** Taking out one kind of marker leaves the first of every other kind where it is. */
  lemma {:induction false} FirstWithout(k: Kind, gone: Kind, s: Line)
    requires k != gone
    ensures First(k, Without(gone, s)) == First(k, s)
  {
    if s == [] {
    } else {
      FirstWithout(k, gone, s[1..]);
      var rest := Without(gone, s[1..]);
      assert ([s[0]] + rest)[1..] == rest;
    }
  }

  /** The three date markers, each checked and taken out before the next is looked for. */
  method TakeDates(line: Line) returns (error: Option<ParseError>, due: Option<Date>, scheduled: Option<Date>,
                                        completedAt: Option<Date>, content: Line)
    ensures error == DateError(line)
    ensures error.None? ==> content == NoDates(line)
    ensures error.None? ==> due == DateOf(First(KDue, line))
    ensures error.None? ==> scheduled == DateOf(First(KSched, line)) && completedAt == DateOf(First(KDone, line))
  {
    error, due, scheduled, completedAt, content := None, None, None, None, line;
    var d := First(KDue, content);
    if d.Some? && !RealDate(d.value.date) {
      return Some(BadDue), due, scheduled, completedAt, content;
    }
    due, content := DateOf(d), Without(KDue, content);
    FirstWithout(KSched, KDue, line);
    var s := First(KSched, content);
    if s.Some? && !RealDate(s.value.date) {
      return Some(BadScheduled), due, scheduled, completedAt, content;
    }
    FirstWithout(KDone, KDue, line);
    FirstWithout(KDone, KSched, content);
    scheduled, content := DateOf(s), Without(KSched, content);
    var c := First(KDone, content);
    if c.Some? && !RealDate(c.value.date) {
      return Some(BadDone), due, scheduled, completedAt, content;
    }
    completedAt, content := DateOf(c), Without(KDone, content);
  }

  /** ParseTaskLine takes the markers out of the content one kind after the other. */
  method ParseTaskLine(line: Line) returns (r: Result<Option<Task>, ParseError>)
    ensures r == Parse(line)
    ensures r == Ok(None) <==> line == [] || !line[0].Box? || |line| == 1
    ensures r.Ok? && r.value.Some? ==> r.value.value.completed == line[0].done
    ensures r.Ok? && r.value.Some? ==> r.value.value.id == if line[|line| - 1].Ref? then line[|line| - 1].id else ""
  {
    if |line| <= 1 || !line[0].Box? {
      return Ok(None);
    }
    var taskId := TrailingId(line);
    var error, due, scheduled, completedAt, content := TakeDates(Content(line));
    if error.Some? {
      return Err(error.value);
    }
    var recurrence := FirstRule(content);
    content := WithoutRules(content);
    var parent := First(KParent, content);
    content := Without(KParent, content);
    var priority, tags := First(KPriority, content), TagsIn(content);
    r := Ok(Some(Task(taskId, content, if tags == [] then "" else tags[0], tags, due, scheduled, recurrence,
                      if parent.Some? then parent.value.id else "",
                      if priority.Some? then priority.value.level else "",
                      line[0].done, completedAt)));
  }

  // ----- formatting -----

  // What the patterns read back from "#name", "[parent:: id]" and "^id".

  function TagToken(name: string): Token {
    if IsTag(name) then Tag(name) else Hash(name)
  }

  function ParentToken(id: string): Token {
    if IsQiId(id) then Parent(id) else Field(id)
  }

  function RefToken(id: string): Token {
    if IsQiId(id) then Ref(id) else ForeignRef(id)
  }

  function SetOf<T>(s: seq<T>): set<T> {
    set x | x in s
  }

  /** The tags FormatTaskLine appends: non-empty ones not yet on the line, each once. */
  function NewTags(tags: seq<string>, inline: set<string>): seq<string> {
    if tags == [] then []
    else
      var tag := tags[0];
      if tag == "" || tag in inline then NewTags(tags[1..], inline)
      else [tag] + NewTags(tags[1..], inline + {tag})
  }

  function TagTokens(names: seq<string>): Line {
    if names == [] then [] else [TagToken(names[0])] + TagTokens(names[1..])
  }

  /** Every tag name the formatted line gains over the task's own text. */
  function Gained(t: Task): seq<string> {
    var inline := SetOf(TagsIn(t.text));
    var added := NewTags(t.tags, inline);
    if t.project != "" && t.project !in t.tags && t.project !in inline then added + [t.project] else added
  }

  function RuleField(t: Task): Line {
    if t.recurrence == [] then [] else [Recur] + Words(t.recurrence)
  }

  function SchedField(t: Task): Line {
    if t.scheduled.Some? then [Sched(t.scheduled.value)] else []
  }

  function DueField(t: Task): Line {
    if t.due.Some? then [Due(t.due.value)] else []
  }

  function DoneField(t: Task): Line {
    if t.completedAt.Some? then [Done(t.completedAt.value)] else []
  }

  function ParentField(t: Task): Line {
    if t.parentId == "" then [] else [ParentToken(t.parentId)]
  }

  /** The fields behind the text, in canonical order. */
  function Fields(t: Task): Line {
    RuleField(t) + (SchedField(t) + (DueField(t) + (DoneField(t) + ParentField(t))))
  }

  function Body(t: Task): Line {
    [Box(t.completed)] + t.text + TagTokens(Gained(t)) + Fields(t)
  }

  /** One block ref per line: a trailing foreign one wins, a trailing qi id is replaced. */
  function WithId(body: Line, id: string): Line
    requires body != []
  {
    var last := body[|body| - 1];
    if id == "" || last.ForeignRef? then body
    else (if last.Ref? then body[..|body| - 1] else body) + [RefToken(id)]
  }

  function Format(t: Task): Result<Line, FormatError> {
    if t.text == [] then Err(TextRequired) else Ok(WithId(Body(t), t.id))
  }

  /** The tag loop of FormatTaskLine: parts grows by every tag the line does not show yet. */
  method AppendTags(tags: seq<string>, inline0: set<string>, project: string, start: Line)
    returns (parts: Line, hasProjectTag: bool)
    ensures parts == start + TagTokens(NewTags(tags, inline0))
    ensures hasProjectTag <==> project != "" && project in tags
  {
    hide NewTags, TagTokens, TagToken;
    NoTags(inline0);
    parts, hasProjectTag := start, false;
    var inline := inline0;
    ghost var gained: seq<string> := [];
    var i := 0;
    while i < |tags|
      invariant 0 <= i <= |tags|
      invariant hasProjectTag <==> project != "" && project in tags[..i]
      invariant parts == start + TagTokens(gained)
      invariant gained + NewTags(tags[i..], inline) == NewTags(tags, inline0)
    {
      var tag := tags[i];
      NewTagsStep(tags, i, inline);
      InFront(tags, i, project);
      if tag != "" {
        if tag == project {
          hasProjectTag := true;
        }
        if tag !in inline {
          AddTag(gained, tag);
          parts := parts + [TagToken(tag)];
          inline, gained := inline + {tag}, gained + [tag];
        }
      }
      i := i + 1;
    }
    NoTags(inline);
    assert gained + [] == gained && tags[..i] == tags && tags[i..] == [];
  }

  method FormatTaskLine(t: Task) returns (r: Result<Line, FormatError>)
    ensures r == Format(t)
    ensures r.Err? <==> t.text == []
  {
    if t.text == [] {
      return Err(TextRequired);
    }
    var inline := SetOf(TagsIn(t.text));
    var parts, hasProjectTag := AppendTags(t.tags, inline, t.project, [Box(t.completed)] + t.text);
    if t.project != "" && !hasProjectTag && t.project !in inline {
      AddTag(NewTags(t.tags, inline), t.project);
      parts := parts + [TagToken(t.project)];
    }
    assert parts == [Box(t.completed)] + t.text + TagTokens(Gained(t));
    r := Ok(WithId(parts + Fields(t), t.id));
  }

  lemma NewTagsStep(tags: seq<string>, i: nat, inline: set<string>)
    requires i < |tags|
    ensures tags[..i + 1] == tags[..i] + [tags[i]]
    ensures NewTags(tags[i..], inline) ==
            if tags[i] == "" || tags[i] in inline then NewTags(tags[i + 1..], inline)
            else [tags[i]] + NewTags(tags[i + 1..], inline + {tags[i]})
  {
    assert tags[i..][1..] == tags[i + 1..];
  }

  lemma NoTags(inline: set<string>)
    ensures NewTags([], inline) == [] && TagTokens([]) == []
  {
  }

  lemma InFront(tags: seq<string>, i: nat, x: string)
    requires i < |tags|
    ensures x in tags[..i + 1] <==> x in tags[..i] || x == tags[i]
  {
    assert tags[..i + 1] == tags[..i] + [tags[i]];
  }

  lemma AddTag(names: seq<string>, name: string)
    ensures TagTokens(names + [name]) == TagTokens(names) + [TagToken(name)]
  {
    if names == [] {
    } else {
      assert (names + [name])[1..] == names[1..] + [name];
      AddTag(names[1..], name);
    }
  }

  /** The appended tags are new to the line and cover every non-empty tag with what was inline. */
  lemma {:induction false} NewTagsAre(tags: seq<string>, inline: set<string>)
    ensures forall x :: x in NewTags(tags, inline) <==> x in tags && x != "" && x !in inline
  {
    if tags == [] {
    } else {
      NewTagsAre(tags[1..], inline);
      NewTagsAre(tags[1..], inline + {tags[0]});
      assert forall x :: x in tags <==> x == tags[0] || x in tags[1..];
    }
  }
}
