/** The drain over the vault's own task lines (internal/vault/task_format.go:82-97, tasks.go:61-67). */
module DrainLines {
  import opened Common
  import opened Text
  import opened TaskLine
  import TaskLineLaws
  import opened Drain

  /** Tokens of a text, the text of tokens, and dates are parameters here. */
  datatype Lexer = Lexer(lex: string -> Line, show: Line -> string, date: string -> Option<Date>)

  function TaskFor(x: Lexer, n: NewTask): Task {
    Task(n.id, x.lex(n.text), n.project, [], x.date(n.due), x.date(n.scheduled), [], "", "", false, None)
  }

  /** What ReadTasks makes of the line that AppendTask prints. */
  function ReadOf(x: Lexer, n: NewTask): Stored {
    var line := Format(TaskFor(x, n));
    if line.Err? then Unreadable
    else
      var t := Parse(line.value);
      if t.Err? || t.value.None? then Unreadable else Stored(t.value.value.id, x.show(t.value.value.text), t.value.value.project)
  }

  /** The rules read lines as the program does. */
  ghost predicate ReadsLines(x: Lexer, r: Rules) {
    forall n :: r.readBack(n) == ReadOf(x, n)
  }

  // ----- which ids are read back -----

  /** The line without its id ends in a block reference that is not a qi id. */
  predicate EndsInForeignRef(t: Task) {
    Body(t)[|Body(t)| - 1].ForeignRef?
  }

  /** A written id is read back exactly when it is a qi id and the line does not end in a foreign reference. */
  lemma IdReadsBack(t: Task)
    requires t.text != [] && t.id != "" && Parse(Format(t).value).Ok?
    ensures Parse(Format(t).value).value.Some?
    ensures Parse(Format(t).value).value.value.id == t.id <==> IsQiId(t.id) && !EndsInForeignRef(t)
  {
    hide IsQiId, Gained, Fields, DateError, TaskOf;
    var line := Format(t).value;
    LineIsTask(t);
    TaskOfId(TrailingId(line), line[0].done, Content(line));
  }

  lemma LineIsTask(t: Task)
    requires t.text != []
    ensures var line := Format(t).value; |line| > 1 && line[0] == Box(t.completed)
  {
    hide IsQiId, Gained, Fields;
    var body := Body(t);
    assert |body| > 1 && body[0] == Box(t.completed);
  }

  lemma TaskOfId(id: string, completed: bool, content: Line)
    ensures TaskOf(id, completed, content).id == id
  {
    hide NoDates, WithoutRules, FirstRule, TagsIn, First, Without;
  }

  /** The printed line shows no date that does not exist. */
  predicate Readable(t: Task) {
    Format(t).Ok? && |Format(t).value| > 1 && DateError(Content(Format(t).value)).None?
  }

  /** The text that the printed line gives back is the row's. */
  predicate TextReadsBack(x: Lexer, n: NewTask) {
    var t := ReadOf(x, n);
    t.Stored? && TaskTextMatches(t, n.text)
  }

  // ----- texts of words and tags -----

  /** The text has no marker that the parser takes out, and the project, if any, is a tag. */
  predicate PlainRow(x: Lexer, n: NewTask) {
    x.lex(n.text) != [] && TaskLineLaws.Plain(x.lex(n.text)) && (n.project == "" || IsTag(n.project))
  }

  /** The lexer prints what it lexes, with and without a tag behind it, and knows no impossible date. */
  predicate PrintsRow(x: Lexer, n: NewTask) {
    && x.show(x.lex(n.text)) == n.text
    && (n.project != "" ==> x.show(x.lex(n.text) + [Token.Tag(n.project)]) == n.text + " " + (HASH + n.project))
    && TaskLineLaws.RealOrNone(x.date(n.due)) && TaskLineLaws.RealOrNone(x.date(n.scheduled))
  }

  /** The text has no tags of its own, or the project is one of them. */
  predicate TagsAgree(x: Lexer, n: NewTask) {
    n.project == "" || TagsIn(x.lex(n.text)) == [] || n.project in TagsIn(x.lex(n.text))
  }

  /** A plain row is read back with the project's tag behind a text that does not show it; its first tag is taken for the project. */
  lemma PlainReadsBack(x: Lexer, n: NewTask)
    requires PlainRow(x, n) && PrintsRow(x, n) && IsQiId(n.id)
    ensures var own := TagsIn(x.lex(n.text));
      ReadOf(x, n) == if n.project == "" || n.project in own then Stored(n.id, n.text, if own == [] then "" else own[0])
                      else Stored(n.id, n.text + " " + (HASH + n.project), if own == [] then n.project else own[0])
  {
    hide IsTag, IsQiId, TagsIn, Format, Parse;
    var t := TaskFor(x, n);
    TaskLineLaws.FormatThenParse(t);
    TaskLineLaws.FullTextIsPlain(t);
    GainedIs(t);
    assert t.text + [] == t.text && TagsIn(t.text) + [] == TagsIn(t.text);
  }

  /** The printed line of a plain row is an open task with the row's id and both its dates, and nothing else behind the text. */
  lemma PlainLineIs(x: Lexer, n: NewTask)
    requires PlainRow(x, n) && PrintsRow(x, n) && IsQiId(n.id)
    ensures var line := Format(TaskFor(x, n));
      && line.Ok? && Parse(line.value).Ok? && Parse(line.value).value.Some?
      && var t := Parse(line.value).value.value;
      && t.id == n.id && !t.completed && t.due == x.date(n.due) && t.scheduled == x.date(n.scheduled)
      && t.completedAt == None && t.recurrence == [] && t.parentId == ""
      && t.text == x.lex(n.text) + if n.project == "" || n.project in TagsIn(x.lex(n.text)) then [] else [Token.Tag(n.project)]
  {
    hide IsTag, IsQiId, TagsIn, Format, Parse;
    var t := TaskFor(x, n);
    TaskLineLaws.FormatThenParse(t);
    GainedIs(t);
    assert t.text + [] == t.text;
  }

  lemma GainedIs(t: Task)
    requires t.tags == [] && (t.project == "" || IsTag(t.project))
    ensures var own := TagsIn(t.text);
      Gained(t) == (if t.project == "" || t.project in own then [] else [t.project]) &&
      TagTokens(Gained(t)) == if t.project == "" || t.project in own then [] else [Token.Tag(t.project)]
  {
    hide IsTag, TagsIn;
    assert [] + [t.project] == [t.project] && [t.project][1..] == [];
  }

  /** A tag's letters are neither white space nor "#". */
  lemma TagLetters(tag: string)
    requires IsTag(tag)
    ensures tag != "" && forall i :: 0 <= i < |tag| ==> !Space(tag[i]) && tag[i] != '#'
  {
  }

  /** A text that comes back with one tag behind it, in a task of another, does not match. */
  lemma OtherTagDiffers(id: string, text: string, tag: string, other: string)
    requires Trimmed(text) && text != "" && IsTag(tag) && IsTag(other) && tag != other
    ensures !TaskTextMatches(Stored(id, text + " " + (HASH + tag), other), text)
  {
    TagLetters(tag);
    TagLetters(other);
    hide IsTag;
    var stored := text + " " + (HASH + tag);
    assert stored == (text + " ") + (HASH + tag) && Trimmed(stored);
    TrimmedStays(stored);
    hide Trim;
    if EndsWith(stored, HASH + other) {
      SameSuffix(text + " ", tag, other);
      assert false;
    }
  }

  /** The mark in front of the tag is the last one. */
  lemma LastMark(s: string, front: string, tag: string)
    requires s == front + (HASH + tag) && forall i :: 0 <= i < |tag| ==> tag[i] != '#'
    ensures s[|front|] == '#' && forall k :: |front| < k < |s| ==> s[k] != '#'
    ensures s[|front| + 1..] == tag
  {
    assert forall k :: |front| < k < |s| ==> s[k] == tag[k - |front| - 1];
  }

  lemma SameSuffix(front: string, tag: string, other: string)
    requires (forall i :: 0 <= i < |tag| ==> tag[i] != '#') && forall i :: 0 <= i < |other| ==> other[i] != '#'
    requires EndsWith(front + (HASH + tag), HASH + other)
    ensures tag == other
  {
    var s, suffix := front + (HASH + tag), HASH + other;
    var front' := s[..|s| - |suffix|];
    assert s == front' + suffix;
    LastMark(s, front, tag);
    LastMark(s, front', other);
    assert |front| == |front'|;
  }

  /** Of a plain row the text is found again exactly if it has no tags of its own, or shows the project's. */
  lemma PlainTextReadsBack(x: Lexer, n: NewTask)
    requires PlainRow(x, n) && PrintsRow(x, n) && IsQiId(n.id) && Trimmed(n.text) && n.text != ""
    ensures ReadOf(x, n).Stored? && ReadOf(x, n).id == n.id
    ensures TextReadsBack(x, n) <==> TagsAgree(x, n)
  {
    hide IsTag, IsQiId, TagsIn, ReadOf, Trim;
    PlainReadsBack(x, n);
    TrimmedStays(n.text);
    var own := TagsIn(x.lex(n.text));
    if n.project != "" && n.project !in own {
      TagLetters(n.project);
      if own == [] {
        TaggedTextMatches(n.id, n.text, n.project);
      } else {
        FirstTagIsTag(x.lex(n.text));
        OtherTagDiffers(n.id, n.text, n.project, own[0]);
      }
    }
  }

  lemma {:induction false} FirstTagIsTag(s: Line)
    requires TaskLineLaws.Plain(s) && TagsIn(s) != []
    ensures IsTag(TagsIn(s)[0])
  {
    hide IsTag;
    if !s[0].Tag? {
      FirstTagIsTag(s[1..]);
    }
  }

  // ----- what a caller can check -----

  /**
   What a caller can check of a row before it is written. Of a text without markers its tags decide; one with markers
   must end in no foreign reference, show no impossible date and be what its line gives back.
   */
  predicate Checked(x: Lexer, r: Rules, row: Row) {
    var n := Normal(Asked(row));
    && IsQiId(row.id) && r.listed(n.project)
    && if PlainRow(x, n) then TagsAgree(x, n)
       else !EndsInForeignRef(TaskFor(x, n)) && Readable(TaskFor(x, n)) && TextReadsBack(x, n)
  }

  /**
   On the vault's own lines a second drain of a row is a no-op exactly when its id is a qi id, its file is listed, and its
   text has no tags of its own or shows the project's; a text with markers must read back as it is.
   */
  lemma FaithfulIsChecked(x: Lexer, r: Rules, row: Row)
    requires ReadsLines(x, r) && x.lex(Trim(row.text)) != [] && Trim(row.text) != ""
    requires PlainRow(x, Normal(Asked(row))) ==> PrintsRow(x, Normal(Asked(row)))
    ensures Faithful(r, row) <==> Checked(x, r, row)
  {
    hide Trim, TaskTextMatches, EndsInForeignRef, IsQiId, NumericTag, ReadOf, PlainRow, PrintsRow, TagsAgree, Readable;
    var n := Normal(Asked(row));
    assert r.readBack(n) == ReadOf(x, n);
    AskedId(row);
    AnyFaithful(x, n);
    assert Faithful(r, row) <==> r.listed(n.project) && n.id != "" && ReadOf(x, n).Stored? && ReadOf(x, n).id == n.id && TextReadsBack(x, n);
    if PlainRow(x, n) && IsQiId(row.id) {
      TrimIsTrimmed(row.text);
      PlainTextReadsBack(x, n);
      NoQiId();
    }
  }

  lemma TrimIsTrimmed(s: string)
    ensures Trimmed(Trim(s))
  {
    RightEnd(TrimLeft(s));
    LeftEnd(s);
  }

  lemma {:induction false} LeftEnd(s: string)
    ensures TrimLeft(s) == "" || !Space(TrimLeft(s)[0])
  {
    if s != "" && Space(s[0]) {
      LeftEnd(s[1..]);
    }
  }

  lemma {:induction false} RightEnd(s: string)
    ensures TrimRight(s) == "" || (!Space(TrimRight(s)[|TrimRight(s)| - 1]) && TrimRight(s)[0] == s[0])
  {
    if s != "" && Space(s[|s| - 1]) {
      RightEnd(s[..|s| - 1]);
    }
  }

  /** What is read back of a line has the row's id and text exactly under the conditions on the line. */
  lemma AnyFaithful(x: Lexer, n: NewTask)
    requires x.lex(n.text) != []
    ensures n.id != "" && ReadOf(x, n).Stored? && ReadOf(x, n).id == n.id <==>
            IsQiId(n.id) && !EndsInForeignRef(TaskFor(x, n)) && Readable(TaskFor(x, n))
  {
    hide Format, DateError, Content, EndsInForeignRef, Parse, IsQiId;
    var t := TaskFor(x, n);
    FormatIs(t);
    ReadableParses(t);
    if Parse(Format(t).value).Ok? && n.id != "" {
      IdReadsBack(t);
    }
    NoQiId();
  }

  lemma FormatIs(t: Task)
    ensures Format(t).Ok? <==> t.text != []
  {
  }

  lemma ReadableParses(t: Task)
    requires t.text != []
    ensures Readable(t) <==> Parse(Format(t).value).Ok?
    ensures Readable(t) ==> Parse(Format(t).value).value.Some?
  {
    FormatIs(t);
    hide IsQiId, DateError, TaskOf, Format;
    LineIsTask(t);
  }

  lemma NoQiId()
    ensures !IsQiId("")
  {
  }

  // ----- a row that is lost -----

  const NOTE_TEXT: string := "see ^note"
  const NOTE_LINE: Line := [Word("see"), ForeignRef("note")]
  const NOTE_ROW := Row("qi-0000000a", NOTE_TEXT, "", "", "", "", "")

  /** A lexer that knows this one text. */
  function NoteLexer(): Lexer {
    Lexer((s: string) => NOTE_LINE, (l: Line) => NOTE_TEXT, (s: string) => None)
  }

  function NoteRules(): Rules {
    Rules((s: string) => true, (s: string) => true, (s: string) => true, (s: string) => true, (n: NewTask) => ReadOf(NoteLexer(), n))
  }

  lemma NoteTrimmed()
    ensures Trim(NOTE_TEXT) == NOTE_TEXT && Trim("") == "" && NOTE_TEXT != ""
  {
    TrimmedStays(NOTE_TEXT);
    TrimmedStays("");
  }

  lemma NoteAsked()
    ensures Normal(Asked(NOTE_ROW)) == NewTask(NOTE_ROW.id, NOTE_TEXT, "", "", "")
  {
    NoteTrimmed();
    hide Trim;
  }

  /** A text without markers is all there is to the task. */
  lemma BareScan(s: Line)
    requires Lacks(KDue, s) && Lacks(KSched, s) && Lacks(KDone, s) && Lacks(KParent, s) && Lacks(KPriority, s)
    requires WithoutRules(s) == s && FirstRule(s) == [] && TagsIn(s) == []
    ensures DateError(s) == None
    ensures TaskOf("", false, s) == Task("", s, "", [], None, None, [], "", "", false, None)
  {
    hide Lacks, First, Without, WithoutRules, FirstRule, TagsIn;
    TaskLineLaws.LackingScan(KDue, s);
    TaskLineLaws.LackingScan(KSched, s);
    TaskLineLaws.LackingScan(KDone, s);
    TaskLineLaws.LackingScan(KParent, s);
    TaskLineLaws.LackingScan(KPriority, s);
  }

  lemma NoteScans()
    ensures TagsIn(NOTE_LINE) == [] && DateError(NOTE_LINE) == None
    ensures TaskOf("", false, NOTE_LINE) == Task("", NOTE_LINE, "", [], None, None, [], "", "", false, None)
  {
    hide DateError, TaskOf, First, Without;
    assert NOTE_LINE[1..] == [ForeignRef("note")];
    assert [ForeignRef("note")][1..] == [];
    assert WithoutRules(NOTE_LINE) == NOTE_LINE;
    BareScan(NOTE_LINE);
  }

  /** The printed line is the text alone. */
  lemma NotePrints(t: Task)
    requires t.text == NOTE_LINE && t.project == "" && t.tags == [] && TagsIn(NOTE_LINE) == []
    requires t.due == t.scheduled == t.completedAt == None && t.recurrence == [] && t.parentId == "" && !t.completed
    ensures Format(t) == Ok([Box(false)] + NOTE_LINE)
  {
    hide TagsIn;
    assert Gained(t) == [] && Fields(t) == [];
    assert Body(t) == [Box(false)] + NOTE_LINE;
  }

  lemma NoteReadsBack(n: NewTask)
    requires n.project == ""
    ensures ReadOf(NoteLexer(), n) == Stored("", NOTE_TEXT, "")
  {
    NoteScans();
    hide Format, DateError, TaskOf, TagsIn;
    NotePrints(TaskFor(NoteLexer(), n));
    assert Content([Box(false)] + NOTE_LINE) == NOTE_LINE;
  }

  /**
   A concrete row that passes validation, lies in a listed file and reads back its text, but loses its id:
   the second drain writes a second task, and none of them carries the id.
   */
  lemma ForeignRefLosesId()
    ensures var r, row, w := NoteRules(), NOTE_ROW, Write(false, "", 0);
      && !Rejected(r, row) && ReadsLines(NoteLexer(), r)
      && var once := Create(r, Vault([], []), row, w);
      && once.Some?
      && var twice := Create(r, once.value, row, w);
      && twice.Some? && |twice.value.listed| == 2 && Copies(twice.value, row.id) == 0
  {
    var r, row := NoteRules(), NOTE_ROW;
    NoteNotRejected();
    NoteAsked();
    NoteReadsBack(Normal(Asked(row)));
    hide Trim, ReadOf, Rejected, Asked, Create;
    assert Copies(Vault([], []), row.id) == 0;
    LostIdIsWrittenTwice(r, Vault([], []), row, Write(false, "", 0), Write(false, "", 0));
  }

  /** Wherever the printed line loses the id, a second drain writes a second task, and no task carries the id. */
  lemma LostIdIsWrittenTwice(r: Rules, v: Vault, row: Row, w: Write, again: Write)
    requires row.id != "" && Copies(v, row.id) == 0 && Listable(v) && !w.fails && !again.fails
    requires var n := Normal(Asked(row));
      !NumericTag(n.project) && r.listed(n.project) && r.readBack(n).Stored? && r.readBack(n).id != row.id
    ensures var once := Create(r, v, row, w);
      && once.Some?
      && var twice := Create(r, once.value, row, again);
      && twice.Some? && |twice.value.listed| == |v.listed| + 2 && Copies(twice.value, row.id) == 0
  {
    hide Trim, NumericTag, TaskTextMatches, Listable, Copies, Asked;
    var n := Normal(Asked(row));
    var first := Appended(r, v, n, w.place);
    NoCopies(v, row.id);
    StillListable(v, r.readBack(n), w.place);
    AppendedCopies(r, v, n, w.place, row.id);
    NoCopies(first, row.id);
    AppendedCopies(r, first, n, again.place, row.id);
    AskedId(row);
  }

  /** Wherever the line keeps the id but not the text, a second drain writes a second task under another id. */
  lemma LostTextIsWrittenTwice(r: Rules, v: Vault, row: Row, w: Write, again: Write)
    requires row.id != "" && Copies(v, row.id) == 0 && Listable(v) && !w.fails && !again.fails
    requires var n := Normal(Asked(row));
      !NumericTag(n.project) && r.listed(n.project) && r.readBack(n).Stored? && r.readBack(n).id == row.id
      && !TaskTextMatches(r.readBack(n), n.text)
    ensures var once := Create(r, v, row, w);
      && once.Some? && |once.value.listed| == |v.listed| + 1 && Copies(once.value, row.id) == 1
      && var twice := Create(r, once.value, row, again);
      && twice == Some(Appended(r, once.value, Normal(Asked(row)).(id := again.minted), again.place))
      && |twice.value.listed| == |v.listed| + 2
  {
    hide Trim, NumericTag, TaskTextMatches, Listable, Copies, Asked;
    var n := Normal(Asked(row));
    var first := Appended(r, v, n, w.place);
    NoCopies(v, row.id);
    StillListable(v, r.readBack(n), w.place);
    AppendedCopies(r, v, n, w.place, row.id);
    OnlyInserted(v.listed, r.readBack(n), w.place, row.id);
    AskedId(row);
  }

  lemma AskedId(row: Row)
    ensures Normal(Asked(row)).id == Asked(row).id == row.id
  {
  }

  lemma NoteNotRejected()
    ensures !Rejected(NoteRules(), NOTE_ROW)
  {
    NoteTrimmed();
    hide Trim, ReadOf;
  }

  // ----- a row with a tag of its own -----

  const MILK_TEXT: string := "milk #errand"
  const MILK_LINE: Line := [Word("milk"), Token.Tag("errand")]
  const MILK_ROW := Row("qi-0000000a", MILK_TEXT, "", "home", "", "", "")
  const MILK_READ: string := MILK_TEXT + " " + (HASH + "home")

  /** A lexer that knows this text, with and without a tag behind it. */
  function MilkLexer(): Lexer {
    Lexer((s: string) => MILK_LINE, (l: Line) => if l == MILK_LINE then MILK_TEXT else MILK_READ, (s: string) => None)
  }

  function MilkRules(): Rules {
    Rules((s: string) => IsTag(s), (s: string) => false, (s: string) => true, (s: string) => true, (n: NewTask) => ReadOf(MilkLexer(), n))
  }

  lemma MilkTrimmed()
    ensures Trim(MILK_TEXT) == MILK_TEXT && Trim("home") == "home" && Trim("") == "" && Trimmed(MILK_TEXT) && MILK_TEXT != ""
  {
    TrimmedStays(MILK_TEXT);
    TrimmedStays("home");
    TrimmedStays("");
  }

  lemma MilkTags()
    ensures IsTag("home") && IsTag("errand") && !NumericTag("home") && IsQiId(MILK_ROW.id)
  {
    assert !IsDigit("home"[0]) && !IsDigit("errand"[0]);
    assert !Digit("home"[0]);
  }

  lemma MilkLineTags()
    ensures TagsIn(MILK_LINE) == ["errand"]
  {
    assert MILK_LINE[1..] == [Token.Tag("errand")] && [Token.Tag("errand")][1..] == [];
    assert TagsIn([Token.Tag("errand")]) == ["errand"];
  }

  lemma MilkAsked()
    ensures Normal(Asked(MILK_ROW)) == NewTask(MILK_ROW.id, MILK_TEXT, "home", "", "")
  {
    MilkTrimmed();
    hide Trim;
  }

  lemma MilkNotRejected()
    ensures !Rejected(MilkRules(), MILK_ROW)
  {
    MilkTrimmed();
    MilkTags();
    hide Trim, ReadOf, IsTag, NumericTag;
  }

  lemma MilkReadsBack()
    ensures var n := NewTask(MILK_ROW.id, MILK_TEXT, "home", "", "");
      ReadOf(MilkLexer(), n) == Stored(MILK_ROW.id, MILK_READ, "errand") && !TaskTextMatches(ReadOf(MilkLexer(), n), MILK_TEXT)
  {
    MilkTrimmed();
    MilkTags();
    MilkLineTags();
    hide Trim, ReadOf, IsTag, NumericTag, IsQiId, TagsIn;
    var n := NewTask(MILK_ROW.id, MILK_TEXT, "home", "", "");
    PlainReadsBack(MilkLexer(), n);
    OtherTagDiffers(MILK_ROW.id, MILK_TEXT, "home", "errand");
  }

  /**
   A concrete row that passes validation and keeps its id on its line: read back as a task of "errand", its text is not found
   again, and the second drain writes a second task.
   */
  lemma OwnTagIsWrittenTwice(again: Write)
    requires !again.fails
    ensures var r, row := MilkRules(), MILK_ROW;
      && !Rejected(r, row) && ReadsLines(MilkLexer(), r)
      && var once := Create(r, Vault([], []), row, Write(false, "", 0));
      && once.Some? && Copies(once.value, row.id) == 1
      && var twice := Create(r, once.value, row, again);
      && twice.Some? && |twice.value.listed| == 2
  {
    hide Trim, ReadOf, Rejected, Asked, Create, TaskTextMatches, NumericTag, IsTag;
    MilkNotRejected();
    MilkAsked();
    MilkReadsBack();
    MilkTags();
    assert Copies(Vault([], []), MILK_ROW.id) == 0;
    LostTextIsWrittenTwice(MilkRules(), Vault([], []), MILK_ROW, Write(false, "", 0), again);
  }
}
