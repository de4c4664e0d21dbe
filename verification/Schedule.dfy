/**
 The lines of a daily note's Schedule section (internal/calendar/schedule.go, local.go).

 A line is the sequence of its words, together with whether it starts with white space.
 */
module Schedule {
  import opened Common
  import opened Text

  type Word = string

  datatype Line = Line(indented: bool, words: seq<Word>)

  datatype Entry = Entry(startMin: nat, endMin: nat, title: seq<Word>, project: Word)

  // ----- clock words -----

  function DigitChar(n: nat): char
    requires n < 10
  {
    '0' + n as char
  }

  function DigitValue(c: char): nat
    requires Digit(c)
  {
    (c - '0') as nat
  }

  function Decimal(n: nat): (s: string)
    ensures s != "" && (n >= 10 ==> |s| >= 2) && (n >= 100 ==> |s| >= 3)
  {
    if n < 10 then [DigitChar(n)] else Decimal(n / 10) + [DigitChar(n % 10)]
  }

  function TwoDigits(n: nat): (s: string)
    ensures n < 100 ==> s == [DigitChar(n / 10), DigitChar(n % 10)]
    ensures n >= 100 ==> |s| >= 3
  {
    if n < 10 then [DigitChar(0), DigitChar(n)]
    else
      assert n < 100 ==> Decimal(n / 10) == [DigitChar(n / 10)];
      Decimal(n)
  }

  /** Minutes since midnight as HH:MM; from 100 hours on the hours take more than two digits. */
  function MinToHHMM(min: nat): string {
    TwoDigits(min / 60) + ":" + TwoDigits(min % 60)
  }

  predicate ClockWord(w: Word) {
    |w| == 5 && Digit(w[0]) && Digit(w[1]) && w[2] == ':' && Digit(w[3]) && Digit(w[4])
  }

  function HHMMToMin(w: Word): nat
    requires ClockWord(w)
  {
    (DigitValue(w[0]) * 10 + DigitValue(w[1])) * 60 + (DigitValue(w[3]) * 10 + DigitValue(w[4]))
  }

  predicate RangeWord(w: Word) {
    |w| == 11 && ClockWord(w[..5]) && w[5] == '-' && ClockWord(w[6..])
  }

  lemma DigitRoundTrip(n: nat)
    requires n < 10
    ensures Digit(DigitChar(n)) && DigitValue(DigitChar(n)) == n
  {
  }

  /** Times below 100 hours read back; later ones are not clock words at all. */
  lemma ClockRoundTrip(min: nat)
    ensures ClockWord(MinToHHMM(min)) <==> min < 6000
    ensures min < 6000 ==> HHMMToMin(MinToHHMM(min)) == min
    ensures min >= 6000 ==> |MinToHHMM(min)| >= 6
  {
    hide Decimal;
    var h, m := min / 60, min % 60;
    DigitRoundTrip(m / 10);
    DigitRoundTrip(m % 10);
    if min < 6000 {
      DigitRoundTrip(h / 10);
      DigitRoundTrip(h % 10);
    }
  }

  function RangeOf(startMin: nat, endMin: nat): Word {
    MinToHHMM(startMin) + "-" + MinToHHMM(endMin)
  }

  lemma RangeRoundTrip(startMin: nat, endMin: nat)
    ensures RangeWord(RangeOf(startMin, endMin)) <==> startMin < 6000 && endMin < 6000
    ensures startMin < 6000 && endMin < 6000 ==>
      RangeOf(startMin, endMin)[..5] == MinToHHMM(startMin) && RangeOf(startMin, endMin)[6..] == MinToHHMM(endMin)
    ensures !ClockWord(RangeOf(startMin, endMin))
  {
    ClockRoundTrip(startMin);
    ClockRoundTrip(endMin);
    ClockLength(startMin);
    ClockLength(endMin);
    hide MinToHHMM;
    var a, b, w := MinToHHMM(startMin), MinToHHMM(endMin), RangeOf(startMin, endMin);
    if startMin < 6000 {
      assert w[..5] == a && w[6..] == b;
    } else {
      LateClock(startMin);
      assert w[2] == a[2];
    }
  }

  lemma ClockLength(min: nat)
    ensures |MinToHHMM(min)| >= 5
  {
    hide Decimal;
  }

  lemma LateClock(min: nat)
    requires min >= 6000
    ensures |MinToHHMM(min)| >= 6 && MinToHHMM(min)[2] != ':'
  {
    var h := min / 60;
    DecimalDigits(h);
    assert MinToHHMM(min)[2] == Decimal(h)[2];
  }

  lemma {:induction false} DecimalDigits(n: nat)
    ensures forall i :: 0 <= i < |Decimal(n)| ==> Digit(Decimal(n)[i])
  {
    if n >= 10 {
      DecimalDigits(n / 10);
      DigitRoundTrip(n % 10);
    } else {
      DigitRoundTrip(n);
    }
  }

  // ----- titles and projects -----

  predicate TagWord(w: Word) {
    w != "" && w[0] == '#' && !NumericTag(w[1..])
  }

  /** Where the last tag stands, or the length if there is none. */
  function LastTag(words: seq<Word>): (r: nat)
    ensures r <= |words|
    ensures r < |words| ==> TagWord(words[r])
    ensures forall i :: r < i < |words| ==> !TagWord(words[i])
    ensures r == |words| ==> forall i :: 0 <= i < |words| ==> !TagWord(words[i])
  {
    if words == [] then 0
    else if TagWord(words[|words| - 1]) then |words| - 1
    else
      var r := LastTag(words[..|words| - 1]);
      if r == |words| - 1 then |words| else r
  }

  lemma LastTagAt(words: seq<Word>, n: nat)
    requires n < |words| && TagWord(words[n]) && forall i :: n < i < |words| ==> !TagWord(words[i])
    ensures LastTag(words) == n
  {
  }

  /** The words before the last tag, and the tag's name; all the words if there is no tag or nothing before it. */
  function TitleOf(words: seq<Word>): seq<Word> {
    var n := LastTag(words);
    if n == 0 then words else words[..n]
  }

  function ProjectOf(words: seq<Word>): Word {
    var n := LastTag(words);
    if n == 0 || n == |words| then "" else words[n][1..]
  }

  /** The last tag behind another word names the project and ends the title; without one the words are the title. */
  predicate TitledBy(words: seq<Word>, title: seq<Word>, project: Word) {
    if exists k :: 0 < k < |words| && TagWord(words[k]) then
      exists k :: 0 < k < |words| && TagWord(words[k]) && EndsTitle(words, k, title, project)
    else title == words && project == ""
  }

  predicate EndsTitle(words: seq<Word>, k: nat, title: seq<Word>, project: Word)
    requires k < |words|
  {
    (forall j :: k < j < |words| ==> !TagWord(words[j])) && title == words[..k] && words[k] == "#" + project
  }

  lemma TitleIsTold(words: seq<Word>)
    ensures TitledBy(words, TitleOf(words), ProjectOf(words))
  {
    var n := LastTag(words);
    hide LastTag;
    if 0 < n < |words| {
      assert words[n] == ['#'] + words[n][1..];
      assert EndsTitle(words, n, TitleOf(words), ProjectOf(words));
    } else {
      assert words[..|words|] == words;
    }
  }

  method ExtractProject(words: seq<Word>) returns (title: seq<Word>, project: Word)
    ensures title == TitleOf(words) && project == ProjectOf(words)
    ensures TitledBy(words, title, project)
  {
    TitleIsTold(words);
    var i := |words|;
    while i > 0
      invariant 0 <= i <= |words| && forall j :: i <= j < |words| ==> !TagWord(words[j])
    {
      i := i - 1;
      if TagWord(words[i]) {
        LastTagAt(words, i);
        if i == 0 {
          return words, "";
        }
        return words[..i], words[i][1..];
      }
    }
    assert LastTag(words) == |words|;
    assert words[..|words|] == words;
    return words, "";
  }

  // ----- lines -----

  const DASH: Word := "-"
  const HASH: Word := "#"

  function ParseLine(line: Line): Option<Entry> {
    if line.indented || |line.words| < 3 || line.words[0] != DASH then None
    else
      var when, rest := line.words[1], line.words[2..];
      if RangeWord(when) then Some(Entry(HHMMToMin(when[..5]), HHMMToMin(when[6..]), TitleOf(rest), ProjectOf(rest)))
      else if ClockWord(when) then Some(Entry(HHMMToMin(when), HHMMToMin(when) + 60, TitleOf(rest), ProjectOf(rest)))
      else None
  }

  /** Five letters HH:MM from i on, and the minutes they stand for. */
  predicate ClockAt(w: Word, i: nat, min: nat) {
    && i + 5 <= |w|
    && '0' <= w[i] <= '9' && '0' <= w[i + 1] <= '9' && w[i + 2] == ':' && '0' <= w[i + 3] <= '9' && '0' <= w[i + 4] <= '9'
    && min == 600 * (w[i] - '0') as int + 60 * (w[i + 1] - '0') as int + 10 * (w[i + 3] - '0') as int + (w[i + 4] - '0') as int
  }

  /** The line is a dash at its start, a range or one time, which stands for an hour, and a title with its project. */
  predicate IsEntry(line: Line, e: Entry) {
    && !line.indented && |line.words| >= 3 && line.words[0] == "-"
    && var when := line.words[1];
    && (if |when| == 5 then ClockAt(when, 0, e.startMin) && e.endMin == e.startMin + 60
        else |when| == 11 && ClockAt(when, 0, e.startMin) && when[5] == '-' && ClockAt(when, 6, e.endMin))
    && TitledBy(line.words[2..], e.title, e.project)
  }

  /** A line reads as an entry exactly if it is one. */
  lemma LineIsTold(line: Line)
    ensures match ParseLine(line)
            case Some(e) => IsEntry(line, e)
            case None => forall e :: !IsEntry(line, e)
  {
    hide TitleOf, ProjectOf, TitledBy;
    if |line.words| >= 3 {
      var when, rest := line.words[1], line.words[2..];
      TitleIsTold(rest);
      WhenIsTold(when);
    }
  }

  lemma WhenIsTold(when: Word)
    ensures ClockWord(when) ==> |when| == 5 && ClockAt(when, 0, HHMMToMin(when))
    ensures RangeWord(when) ==>
              |when| == 11 && ClockAt(when, 0, HHMMToMin(when[..5])) && when[5] == '-' && ClockAt(when, 6, HHMMToMin(when[6..]))
    ensures forall a: nat :: |when| == 5 && ClockAt(when, 0, a) ==> ClockWord(when)
    ensures forall a: nat, b: nat :: |when| == 11 && ClockAt(when, 0, a) && when[5] == '-' && ClockAt(when, 6, b) ==> RangeWord(when)
  {
    if |when| == 11 {
      assert when[0..5] == when[..5] && when[6..11] == when[6..];
    }
  }

  /** The entries stand on these lines, in order, and no other line is one. */
  ghost predicate EntriesAt(body: seq<Line>, out: seq<Entry>, at: seq<nat>) {
    && |at| == |out|
    && (forall j, k :: 0 <= j < k < |at| ==> at[j] < at[k])
    && (forall k :: 0 <= k < |at| ==> at[k] < |body| && IsEntry(body[at[k]], out[k]))
    && (forall i, e :: 0 <= i < |body| && IsEntry(body[i], e) ==> i in at)
  }

  lemma {:induction false} EntriesStand(body: seq<Line>) returns (at: seq<nat>)
    ensures EntriesAt(body, Parse(body), at)
  {
    hide IsEntry, ParseLine;
    at := [];
    if body != [] {
      var front, line := body[..|body| - 1], body[|body| - 1];
      assert front + [line] == body;
      at := EntriesStand(front);
      LineIsTold(line);
      if ParseLine(line).Some? {
        OneEntryMore(front, Parse(front), at, line, ParseLine(line).value);
        at := at + [|front|];
      } else {
        assert Parse(front) + [] == Parse(front);
      }
    }
  }

  lemma OneEntryMore(body: seq<Line>, out: seq<Entry>, at: seq<nat>, line: Line, e: Entry)
    requires EntriesAt(body, out, at) && IsEntry(line, e)
    ensures EntriesAt(body + [line], out + [e], at + [|body|])
  {
    hide IsEntry;
    var all, more := body + [line], at + [|body|];
    assert more[|at|] == |body|;
    forall i, x | 0 <= i < |all| && IsEntry(all[i], x)
      ensures i in more
    {
      if i < |body| {
        assert all[i] == body[i];
        assert i in at;
      }
    }
  }

  /** The entries of a body, in order; lines that are no entry are skipped. */
  function Parse(body: seq<Line>): seq<Entry> {
    if body == [] then []
    else
      var e := ParseLine(body[|body| - 1]);
      Parse(body[..|body| - 1]) + if e.Some? then [e.value] else []
  }

  method ParseScheduleEntries(body: seq<Line>) returns (out: seq<Entry>, ghost at: seq<nat>)
    ensures out == Parse(body)
    ensures EntriesAt(body, out, at)
  {
    hide EntriesAt;
    at := EntriesStand(body);
    out := [];
    for i := 0 to |body|
      invariant out == Parse(body[..i])
    {
      var line := body[i];
      assert body[..i + 1][..i] == body[..i];
      if !line.indented && |line.words| >= 3 && line.words[0] == DASH {
        var when := line.words[1];
        if RangeWord(when) {
          var title, project := ExtractProject(line.words[2..]);
          out := out + [Entry(HHMMToMin(when[..5]), HHMMToMin(when[6..]), title, project)];
          continue;
        }
        if ClockWord(when) {
          var title, project := ExtractProject(line.words[2..]);
          out := out + [Entry(HHMMToMin(when), HHMMToMin(when) + 60, title, project)];
        }
      }
    }
    assert body[..|body|] == body;
  }

  function Render(e: Entry): Line {
    Line(false, [DASH, RangeOf(e.startMin, e.endMin)] + e.title + if e.project != "" then [HASH + e.project] else [])
  }

  /** An entry that survives being written: times below 100 hours, a title, and a project that is found again. */
  predicate Renderable(e: Entry) {
    && e.startMin < 6000 && e.endMin < 6000
    && e.title != []
    && if e.project == "" then LastTag(e.title) == 0 || LastTag(e.title) == |e.title| else !NumericTag(e.project)
  }

  lemma TitleRoundTrip(title: seq<Word>, project: Word)
    requires title != []
    ensures var words := title + if project != "" then [HASH + project] else [];
      (TitleOf(words) == title && ProjectOf(words) == project) <==>
      if project == "" then LastTag(title) == 0 || LastTag(title) == |title| else !NumericTag(project)
  {
    var words := title + if project != "" then [HASH + project] else [];
    if project == "" {
      assert words == title;
      assert title[..|title|] == title;
    } else {
      assert (HASH + project)[1..] == project;
      if !NumericTag(project) {
        LastTagAt(words, |title|);
        assert words[..|title|] == title;
      } else {
        ProjectIsNoNumber(words);
      }
    }
  }

  lemma ProjectIsNoNumber(words: seq<Word>)
    ensures !NumericTag(ProjectOf(words))
  {
  }

  /** Parsing undoes rendering for exactly the renderable entries. */
  lemma RenderRoundTrip(e: Entry)
    ensures ParseLine(Render(e)) == Some(e) <==> Renderable(e)
  {
    var rest := e.title + if e.project != "" then [HASH + e.project] else [];
    assert Render(e).words == [DASH, RangeOf(e.startMin, e.endMin)] + rest;
    RangeReadsBack(e.startMin, e.endMin, rest);
    hide RangeOf, RangeWord, TitleOf, ProjectOf, LastTag, NumericTag, ParseLine;
    if rest != [] {
      if e.title != [] {
        TitleRoundTrip(e.title, e.project);
      } else {
        assert rest == [HASH + e.project];
        OneWord(HASH + e.project);
      }
    }
  }

  /** A rendered line gives back its times, if they are below 100 hours, and whatever its words give. */
  lemma RangeReadsBack(startMin: nat, endMin: nat, rest: seq<Word>)
    ensures ParseLine(Line(false, [DASH, RangeOf(startMin, endMin)] + rest)) ==
            if rest == [] || startMin >= 6000 || endMin >= 6000 then None
            else Some(Entry(startMin, endMin, TitleOf(rest), ProjectOf(rest)))
  {
    RangeRoundTrip(startMin, endMin);
    ClockRoundTrip(startMin);
    ClockRoundTrip(endMin);
    hide RangeOf, MinToHHMM, ClockWord, HHMMToMin, RangeWord, TitleOf, ProjectOf;
    var words := [DASH, RangeOf(startMin, endMin)] + rest;
    assert words[2..] == rest;
  }

  lemma OneWord(w: Word)
    ensures TitleOf([w]) == [w] && ProjectOf([w]) == ""
  {
    assert [w][..1] == [w];
  }
}
