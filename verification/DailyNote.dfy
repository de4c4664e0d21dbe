/**
 Editing the sections of a daily note (internal/vault/daily.go).

 A file is the list of its lines as splitting at newlines gives it, so an empty file is one empty line
 and a final newline shows as an empty last line. A body is a list of lines too; the empty body is [].
 */
module DailyNote {
  import opened Common
  import opened Text

  type Lines = seq<string>

  const HEADING_PREFIX: string := "## "
  const LOGS: string := "Logs"

  // ----- headings -----

  predicate IsHeading(line: string) {
    |line| >= 3 && line[0] == '#' && line[1] == '#' && line[2] == ' '
  }

  function TrimRightBlanks(line: string): string {
    if line != "" && (line[|line| - 1] == ' ' || line[|line| - 1] == '\t') then TrimRightBlanks(line[..|line| - 1]) else line
  }

  function HeadingLine(heading: string): string {
    HEADING_PREFIX + heading
  }

  /** The line is this section's heading, spaces behind it aside. */
  predicate Heads(line: string, heading: string) {
    TrimRightBlanks(line) == HeadingLine(heading)
  }

  /** A heading that is found again once written: it ends in a visible character. */
  predicate GoodHeading(heading: string) {
    heading != "" && heading[|heading| - 1] != ' ' && heading[|heading| - 1] != '\t'
  }

  lemma {:induction false} TrimIsPrefix(line: string)
    ensures TrimRightBlanks(line) <= line
  {
    if line != "" && (line[|line| - 1] == ' ' || line[|line| - 1] == '\t') {
      TrimIsPrefix(line[..|line| - 1]);
    }
  }

  lemma HeadsIsHeading(line: string, heading: string)
    requires Heads(line, heading)
    ensures IsHeading(line) && !Blank(line)
  {
    TrimIsPrefix(line);
    assert HeadingLine(heading)[0] == '#' && HeadingLine(heading)[1] == '#' && HeadingLine(heading)[2] == ' ';
    assert line[0] == '#' && !Space(line[0]);
  }

  lemma HeadingBlank(line: string)
    requires IsHeading(line)
    ensures !Blank(line)
  {
    assert !Space(line[0]);
  }

  lemma HeadingHeads(heading: string, other: string)
    requires GoodHeading(heading)
    ensures Heads(HeadingLine(heading), heading) && IsHeading(HeadingLine(heading))
    ensures Heads(HeadingLine(heading), other) ==> heading == other
  {
    var line := HeadingLine(heading);
    assert line[|line| - 1] == heading[|heading| - 1];
    assert line[3..] == heading && HeadingLine(other)[3..] == other;
  }

  // ----- sections -----

  /** The first line that heads the section, or the length. */
  function Start(lines: Lines, heading: string): (r: nat)
    ensures r <= |lines| && (forall i :: 0 <= i < r ==> !Heads(lines[i], heading)) && (r < |lines| ==> Heads(lines[r], heading))
  {
    if lines == [] || Heads(lines[0], heading) then 0
    else
      var r := Start(lines[1..], heading);
      assert forall i :: 1 <= i < 1 + r ==> lines[i] == lines[1..][i - 1];
      1 + r
  }

  /** The first heading of any section, or the length. */
  function FirstHeading(lines: Lines): (r: nat)
    ensures r <= |lines| && (forall i :: 0 <= i < r ==> !IsHeading(lines[i])) && (r < |lines| ==> IsHeading(lines[r]))
  {
    if lines == [] || IsHeading(lines[0]) then 0
    else
      var r := FirstHeading(lines[1..]);
      assert forall i :: 1 <= i < 1 + r ==> lines[i] == lines[1..][i - 1];
      1 + r
  }

  method SectionBounds(lines: Lines, heading: string) returns (found: bool, start: nat, end: nat)
    ensures found <==> Start(lines, heading) < |lines|
    ensures found ==> start == Start(lines, heading) && end == start + 1 + FirstHeading(lines[start + 1..])
  {
    hide Heads, IsHeading;
    start := HeadingIndex(lines, heading);
    end := |lines|;
    if start == |lines| {
      return false, start, end;
    }
    ghost var rest := lines[start + 1..];
    for i := start + 1 to |lines|
      invariant forall j :: start < j < i ==> !IsHeading(lines[j])
      invariant end == |lines|
    {
      if IsHeading(lines[i]) {
        assert rest[i - start - 1] == lines[i];
        end := i;
        break;
      }
    }
    FirstHeadingAt(rest, end - start - 1);
    found := true;
  }

  lemma FirstHeadingAt(lines: Lines, n: nat)
    requires n <= |lines| && (forall i :: 0 <= i < n ==> !IsHeading(lines[i])) && (n < |lines| ==> IsHeading(lines[n]))
    ensures FirstHeading(lines) == n
  {
  }

  lemma StartAt(lines: Lines, heading: string, n: nat)
    requires n <= |lines| && (forall i :: 0 <= i < n ==> !Heads(lines[i], heading)) && (n < |lines| ==> Heads(lines[n], heading))
    ensures Start(lines, heading) == n
  {
  }

  method HeadingIndex(lines: Lines, heading: string) returns (i: nat)
    ensures i == Start(lines, heading)
  {
    hide Heads;
    i := 0;
    while i < |lines|
      invariant i <= |lines| && forall j :: 0 <= j < i ==> !Heads(lines[j], heading)
    {
      if Heads(lines[i], heading) {
        break;
      }
      i := i + 1;
    }
    StartAt(lines, heading, i);
  }

  // ----- trimming -----

  /** Without empty lines at either end. */
  function TrimEmpty(lines: Lines): Lines {
    TrimEmptyEnd(TrimEmptyFront(lines))
  }

  function TrimEmptyFront(lines: Lines): Lines {
    if lines != [] && lines[0] == "" then TrimEmptyFront(lines[1..]) else lines
  }

  function TrimEmptyEnd(lines: Lines): Lines {
    if lines != [] && lines[|lines| - 1] == "" then TrimEmptyEnd(lines[..|lines| - 1]) else lines
  }

  lemma {:induction false} TrimFrontSnoc(lines: Lines)
    ensures TrimEmptyFront(lines + [""]) == (if TrimEmptyFront(lines) == [] then [] else TrimEmptyFront(lines) + [""])
  {
    if lines == [] {
      assert lines + [""] == [""];
      assert TrimEmptyFront([""]) == [] by { assert [""][1..] == []; }
    } else {
      assert (lines + [""])[1..] == lines[1..] + [""];
      if lines[0] == "" {
        TrimFrontSnoc(lines[1..]);
      }
    }
  }

  /** An empty line at the end makes no difference to the trimmed body. */
  lemma TrimSnoc(lines: Lines)
    ensures TrimEmpty(lines + [""]) == TrimEmpty(lines)
  {
    TrimFrontSnoc(lines);
    var f := TrimEmptyFront(lines);
    assert (f + [""])[..|f|] == f;
  }

  /** A body whose first and last lines are not empty, or the empty body. */
  predicate NoEmptyEnds(lines: Lines) {
    lines == [] || (lines[0] != "" && lines[|lines| - 1] != "")
  }

  lemma {:induction false} TrimFrontSheds(lines: Lines)
    ensures TrimEmptyFront(lines) == [] || TrimEmptyFront(lines)[0] != ""
    ensures forall x :: x in TrimEmptyFront(lines) ==> x in lines
  {
    if lines != [] && lines[0] == "" {
      TrimFrontSheds(lines[1..]);
    }
  }

  lemma {:induction false} TrimEndSheds(lines: Lines)
    ensures TrimEmptyEnd(lines) <= lines
    ensures TrimEmptyEnd(lines) == [] || TrimEmptyEnd(lines)[|TrimEmptyEnd(lines)| - 1] != ""
  {
    if lines != [] && lines[|lines| - 1] == "" {
      TrimEndSheds(lines[..|lines| - 1]);
    }
  }

  lemma TrimEmptyTrims(lines: Lines)
    ensures NoEmptyEnds(TrimEmpty(lines)) && TrimEmpty(TrimEmpty(lines)) == TrimEmpty(lines)
    ensures forall x :: x in TrimEmpty(lines) ==> x in lines
  {
    TrimFrontSheds(lines);
    TrimEndSheds(TrimEmptyFront(lines));
  }

  lemma TrimEmptyStays(lines: Lines)
    requires NoEmptyEnds(lines)
    ensures TrimEmpty(lines) == lines
  {
  }

  /** How many lines are left when blank lines at the end are dropped. */
  function Inked(lines: Lines): (r: nat)
    ensures r <= |lines| && (forall i :: r <= i < |lines| ==> Blank(lines[i])) && (r > 0 ==> !Blank(lines[r - 1]))
  {
    if lines != [] && Blank(lines[|lines| - 1]) then Inked(lines[..|lines| - 1]) else |lines|
  }

  function TrimTrailingBlanks(lines: Lines): Lines {
    lines[..Inked(lines)]
  }

  lemma InkedAt(lines: Lines, n: nat)
    requires n <= |lines| && (forall i :: n <= i < |lines| ==> Blank(lines[i])) && (n > 0 ==> !Blank(lines[n - 1]))
    ensures Inked(lines) == n
  {
  }

  method TrimmedOfBlanks(lines: Lines) returns (r: Lines)
    ensures r == TrimTrailingBlanks(lines)
  {
    hide Blank;
    var end := |lines|;
    while end > 0 && Blank(lines[end - 1])
      invariant 0 <= end <= |lines| && forall i :: end <= i < |lines| ==> Blank(lines[i])
    {
      end := end - 1;
    }
    InkedAt(lines, end);
    r := lines[..end];
  }

  // ----- reading -----

  /** The trimmed body of a section, if there is one. */
  function Body(lines: Lines, heading: string): Option<Lines> {
    var s := Start(lines, heading);
    if s == |lines| then None
    else Some(TrimEmpty(lines[s + 1..][..FirstHeading(lines[s + 1..])]))
  }

  /** Lines that do not head the section can be left out in front. */
  lemma BodySkips(front: Lines, back: Lines, heading: string)
    requires forall i :: 0 <= i < |front| ==> !Heads(front[i], heading)
    ensures Body(front + back, heading) == Body(back, heading)
  {
    hide Heads, IsHeading, TrimEmpty;
    var s := Start(back, heading);
    var all := front + back;
    StartAt(all, heading, |front| + s);
    if s < |back| {
      assert all[|front| + s + 1..] == back[s + 1..];
    }
  }

  lemma BodyAt(lines: Lines, heading: string, s: nat)
    requires s < |lines| && Start(lines, heading) == s
    ensures Body(lines, heading) == Some(TrimEmpty(lines[s + 1..][..FirstHeading(lines[s + 1..])]))
  {
    hide Heads, IsHeading, TrimEmpty, FirstHeading, Start;
  }

  lemma SameFirstHeading(rest: Lines, back: Lines)
    requires back == [] || IsHeading(back[0])
    ensures FirstHeading(rest + back) == FirstHeading(rest)
    ensures (rest + back)[..FirstHeading(rest)] == rest[..FirstHeading(rest)]
  {
    hide IsHeading;
    FirstHeadingAt(rest + back, FirstHeading(rest));
  }

  /** What begins with a heading does not change a section before it. */
  lemma BodyEndsAtHeading(front: Lines, back: Lines, heading: string)
    requires Start(front, heading) < |front| && (back == [] || IsHeading(back[0]))
    ensures Body(front + back, heading) == Body(front, heading)
  {
    hide Heads, IsHeading, TrimEmpty, FirstHeading, Body;
    var s := Start(front, heading);
    var all := front + back;
    StartAt(all, heading, s);
    hide Start;
    BodyAt(front, heading, s);
    BodyAt(all, heading, s);
    assert all[s + 1..] == front[s + 1..] + back;
    SameFirstHeading(front[s + 1..], back);
  }

  /** An empty line at the end of the file makes no difference to any section. */
  lemma BodySnoc(lines: Lines, heading: string)
    ensures Body(lines + [""], heading) == Body(lines, heading)
  {
    EmptyLine(heading);
    hide Heads, IsHeading, TrimEmpty, FirstHeading;
    var s := Start(lines, heading);
    var all := lines + [""];
    if s == |lines| {
      StartAt(all, heading, |all|);
    } else {
      StartAt(all, heading, s);
      hide Start;
      BodyAt(lines, heading, s);
      BodyAt(all, heading, s);
      hide Body;
      assert all[s + 1..] == lines[s + 1..] + [""];
      SectionSnoc(lines[s + 1..]);
    }
  }

  lemma SectionSnoc(rest: Lines)
    ensures var all := rest + [""]; TrimEmpty(all[..FirstHeading(all)]) == TrimEmpty(rest[..FirstHeading(rest)])
  {
    EmptyLine("");
    hide IsHeading, TrimEmpty;
    var n, all := FirstHeading(rest), rest + [""];
    if n < |rest| {
      FirstHeadingAt(all, n);
      assert all[..n] == rest[..n];
    } else {
      FirstHeadingAt(all, n + 1);
      assert all[..n + 1] == all && rest[..n] == rest;
      TrimSnoc(rest);
    }
  }

  lemma EmptyLine(heading: string)
    ensures !Heads("", heading) && !IsHeading("")
  {
  }

  // ----- writing -----

  /** The file's content; None when there is no file. */
  type Content = Option<Lines>

  /** The lines a section is read from. */
  function RawLines(content: Content): Lines {
    if content.None? then [] else content.value
  }

  /** The lines an edit starts from: without the empty line that a final newline leaves. */
  function KeptLines(content: Content): Lines {
    var lines := RawLines(content);
    if lines != [] && lines[|lines| - 1] == "" then lines[..|lines| - 1] else lines
  }

  /** Blank lines at the end are dropped, and the file ends in a newline unless it is empty. */
  function Written(lines: Lines): Lines {
    TrimTrailingBlanks(lines) + [""]
  }

  function Read(content: Content, heading: string): Option<Lines> {
    if content.None? then None else Body(content.value, heading)
  }

  /** The lines between the first one that heads the section and the next heading, without empty lines at their ends. */
  method ReadSection(content: Content, heading: string)
    returns (body: Option<Lines>, ghost start: nat, ghost end: nat, ghost from: nat, ghost to: nat)
    ensures body == Read(content, heading)
    ensures body.Some? <==> content.Some? && exists i :: 0 <= i < |content.value| && HeadsPlainly(content.value[i], heading)
    ensures body.Some? ==>
      && start < end <= |content.value| && GoesTo(content.value, heading, Spot(start, end, false))
      && TrimsTo(content.value[start + 1..end], body.value, from, to)
  {
    hide TrimEmpty, TrimsTo, GoesTo, HeadsPlainly, Heads, Start, FirstHeading, IsHeading, OpensSection;
    start, end, from, to := 0, 0, 0, 0;
    if content.None? {
      return None, start, end, from, to;
    }
    var lines := content.value;
    FoundWhen(lines, heading);
    var found, at, next := SectionBounds(lines, heading);
    if !found {
      return None, start, end, from, to;
    }
    assert lines[at + 1..next] == lines[at + 1..][..FirstHeading(lines[at + 1..])];
    body := Some(TrimEmpty(lines[at + 1..next]));
    start, end := at, next;
    SectionEnd(lines, at);
    FoundGoesTo(lines, heading, at, next);
    from, to := TrimIsTold(lines[at + 1..next]);
  }

  lemma FoundWhen(lines: Lines, heading: string)
    ensures Start(lines, heading) < |lines| <==> exists i :: 0 <= i < |lines| && HeadsPlainly(lines[i], heading)
  {
    PlainHeads(lines, heading);
    hide Heads, HeadsPlainly;
  }

  /** The section's own lines: heading, trimmed body, one empty line. */
  function Section(heading: string, body: Lines): Lines {
    [HeadingLine(heading)] + TrimEmpty(body) + [""]
  }

  predicate AllBlank(lines: Lines) {
    forall i :: 0 <= i < |lines| ==> Blank(lines[i])
  }

  /** What stays in front of the section and behind it. */
  datatype Around = Around(before: Lines, after: Lines)

  function Place(lines: Lines, heading: string): Around {
    var s := Start(lines, heading);
    var logs := Start(lines, LOGS);
    if s < |lines| then Around(lines[..s], lines[s + 1..][FirstHeading(lines[s + 1..])..])
    else if AllBlank(lines) then Around([], [])
    else if heading != LOGS && logs < |lines| then Around(lines[..logs], lines[logs..])
    else Around(TrimTrailingBlanks(lines) + [""], [])
  }

  function Assembled(a: Around, heading: string, body: Lines): Lines {
    a.before + Section(heading, body) + a.after
  }

  function Replaced(content: Content, heading: string, body: Lines): Content {
    Some(Written(Assembled(Place(KeptLines(content), heading), heading, body)))
  }

  method RenderSection(heading: string, body: Lines) returns (out: Lines)
    ensures out == Section(heading, body)
  {
    out := [HeadingLine(heading)];
    var trimmed := TrimEmpty(body);
    if trimmed != [] {
      out := out + trimmed;
    }
    out := out + [""];
  }

  method InsertManaged(lines: Lines, heading: string, section: Lines) returns (out: Lines)
    requires Start(lines, heading) == |lines|
    ensures out == Place(lines, heading).before + section + Place(lines, heading).after
  {
    hide Start, Blank;
    if AllBlank(lines) {
      return section;
    }
    if heading != LOGS {
      var logs := HeadingIndex(lines, LOGS);
      if logs < |lines| {
        return lines[..logs] + section + lines[logs..];
      }
    }
    var kept := TrimmedOfBlanks(lines);
    out := kept + [""] + section;
  }

  // ----- an edit in plain terms -----

  /** The line is "## " and the heading, with nothing but spaces and tabs behind it, and the heading ends in neither. */
  predicate HeadsPlainly(line: string, heading: string) {
    var n := 3 + |heading|;
    && n <= |line| && line[..3] == "## " && line[3..n] == heading
    && line[n - 1] != ' ' && line[n - 1] != '\t'
    && forall i :: n <= i < |line| ==> line[i] == ' ' || line[i] == '\t'
  }

  predicate OpensSection(line: string) {
    "## " <= line
  }

  lemma {:induction false} HeadsWhen(line: string, heading: string)
    ensures Heads(line, heading) <==> HeadsPlainly(line, heading)
  {
    var head := HeadingLine(heading);
    assert head[..3] == "## " && head[3..] == heading;
    if line != "" && (line[|line| - 1] == ' ' || line[|line| - 1] == '\t') {
      var front := line[..|line| - 1];
      HeadsWhen(front, heading);
      if 3 + |heading| <= |front| {
        assert front[..3] == line[..3] && front[3..3 + |heading|] == line[3..3 + |heading|];
      }
    } else if |line| == 3 + |heading| {
      assert line[..3] + line[3..] == line;
      assert line[3..3 + |heading|] == line[3..];
    }
  }

  /** The body without the empty lines at its ends. */
  ghost predicate TrimsTo(body: Lines, own: Lines, from: nat, to: nat) {
    && from <= to <= |body| && own == body[from..to]
    && (forall i :: 0 <= i < from || to <= i < |body| ==> body[i] == "")
    && (from < to ==> body[from] != "" && body[to - 1] != "")
  }

  lemma TrimIsTold(body: Lines) returns (from: nat, to: nat)
    ensures TrimsTo(body, TrimEmpty(body), from, to)
  {
    from := FrontCut(body);
    to := EndCut(body[from..]);
    assert body[from..][..to] == body[from..from + to];
    forall i | from + to <= i < |body|
      ensures body[i] == ""
    {
      assert body[from..][i - from] == body[i];
    }
    to := from + to;
  }

  lemma {:induction false} FrontCut(body: Lines) returns (from: nat)
    ensures from <= |body| && TrimEmptyFront(body) == body[from..]
    ensures (forall i :: 0 <= i < from ==> body[i] == "") && (from < |body| ==> body[from] != "")
  {
    from := 0;
    if body != [] && body[0] == "" {
      from := FrontCut(body[1..]);
      assert body[1..][from..] == body[from + 1..];
      assert forall i :: 1 <= i < |body| ==> body[1..][i - 1] == body[i];
      from := from + 1;
    }
  }

  lemma {:induction false} EndCut(body: Lines) returns (to: nat)
    ensures to <= |body| && TrimEmptyEnd(body) == body[..to]
    ensures (forall i :: to <= i < |body| ==> body[i] == "") && (to > 0 ==> body[to - 1] != "")
  {
    to := |body|;
    if body != [] && body[|body| - 1] == "" {
      to := EndCut(body[..|body| - 1]);
      assert body[..|body| - 1][..to] == body[..to];
    }
  }

  /** Where the section goes: over the lines from `at` to `to`, with an empty line in front of it if there is a gap. */
  datatype Spot = Spot(at: nat, to: nat, gap: bool)

  /**
   A section that is there is replaced up to the next heading. A new one takes the place of an empty file, or goes above Logs,
   or behind the last line that is not white space, with an empty line between.
   */
  ghost predicate GoesTo(lines: Lines, heading: string, spot: Spot) {
    && spot.at <= spot.to <= |lines|
    && if exists i :: 0 <= i < |lines| && HeadsPlainly(lines[i], heading) then
         && spot.at < spot.to && HeadsPlainly(lines[spot.at], heading) && !spot.gap
         && (forall i :: 0 <= i < spot.at ==> !HeadsPlainly(lines[i], heading))
         && (forall i :: spot.at < i < spot.to ==> !OpensSection(lines[i]))
         && (spot.to < |lines| ==> OpensSection(lines[spot.to]))
       else if forall i :: 0 <= i < |lines| ==> Blank(lines[i]) then
         spot == Spot(0, |lines|, false)
       else if heading != "Logs" && exists i :: 0 <= i < |lines| && HeadsPlainly(lines[i], "Logs") then
         && spot.at == spot.to < |lines| && HeadsPlainly(lines[spot.at], "Logs") && !spot.gap
         && (forall i :: 0 <= i < spot.at ==> !HeadsPlainly(lines[i], "Logs"))
       else
         && spot.at > 0 && !Blank(lines[spot.at - 1]) && spot.to == |lines| && spot.gap
         && (forall i :: spot.at <= i < |lines| ==> Blank(lines[i]))
  }

  /** The lines around the spot as they were, and the section between: its heading, its own lines, an empty line. */
  function Spliced(lines: Lines, spot: Spot, heading: string, own: Lines): Lines
    requires spot.at <= spot.to <= |lines|
  {
    Before(lines, spot) + ["## " + heading] + own + [""] + lines[spot.to..]
  }

  function Before(lines: Lines, spot: Spot): Lines
    requires spot.at <= |lines|
  {
    if spot.gap then lines[..spot.at] + [""] else lines[..spot.at]
  }

  /** The file ends behind its last line that is not white space, with a newline. */
  ghost predicate EndsTidily(out: Lines, content: Content, n: nat) {
    && 0 < n <= |out| && content == Some(out[..n] + [""])
    && !Blank(out[n - 1]) && forall i :: n <= i < |out| ==> Blank(out[i])
  }

  /** The lines that an edit starts from: those of the file, without the empty one that a final newline leaves. */
  predicate EditedLines(content: Content, lines: Lines) {
    if content.None? || content.value == [] then lines == []
    else if content.value[|content.value| - 1] == "" then content.value == lines + [""]
    else content.value == lines
  }

  lemma PlainHeads(lines: Lines, heading: string)
    ensures forall i :: 0 <= i < |lines| ==> (Heads(lines[i], heading) <==> HeadsPlainly(lines[i], heading))
  {
    forall i | 0 <= i < |lines|
      ensures Heads(lines[i], heading) <==> HeadsPlainly(lines[i], heading)
    {
      HeadsWhen(lines[i], heading);
    }
  }

  lemma FoundGoesTo(lines: Lines, heading: string, s: nat, to: nat)
    requires s == Start(lines, heading) < to <= |lines|
    requires (forall i :: s < i < to ==> !OpensSection(lines[i])) && (to < |lines| ==> OpensSection(lines[to]))
    ensures GoesTo(lines, heading, Spot(s, to, false))
  {
    PlainHeads(lines, heading);
    hide Heads, HeadsPlainly, OpensSection, Blank;
    assert HeadsPlainly(lines[s], heading);
  }

  lemma SpotFound(lines: Lines, heading: string) returns (spot: Spot)
    requires Start(lines, heading) < |lines|
    ensures GoesTo(lines, heading, spot)
    ensures Place(lines, heading) == Around(Before(lines, spot), lines[spot.to..])
  {
    hide GoesTo, OpensSection;
    var s := Start(lines, heading);
    spot := Spot(s, s + 1 + FirstHeading(lines[s + 1..]), false);
    SectionEnd(lines, s);
    FoundGoesTo(lines, heading, s, spot.to);
    hide Place, Start, FirstHeading;
    PlaceWhenFound(lines, heading);
  }

  lemma SectionEnd(lines: Lines, s: nat)
    requires s < |lines|
    ensures var to := s + 1 + FirstHeading(lines[s + 1..]);
      && to <= |lines| && (forall i :: s < i < to ==> !OpensSection(lines[i])) && (to < |lines| ==> OpensSection(lines[to]))
  {
    hide IsHeading, OpensSection;
    var rest := lines[s + 1..];
    var n := FirstHeading(rest);
    forall i | s < i < s + 1 + n
      ensures !OpensSection(lines[i])
    {
      assert !IsHeading(rest[i - s - 1]);
      OpensIsHeading(lines[i]);
    }
    if n < |rest| {
      assert lines[s + 1 + n] == rest[n];
      OpensIsHeading(rest[n]);
    }
  }

  lemma PlaceWhenFound(lines: Lines, heading: string)
    requires Start(lines, heading) < |lines|
    ensures var s := Start(lines, heading);
      var n := FirstHeading(lines[s + 1..]);
      Place(lines, heading) == Around(lines[..s], lines[s + 1 + n..])
  {
    hide Start, Heads, IsHeading, Blank;
    var s := Start(lines, heading);
    var rest := lines[s + 1..];
    assert rest[FirstHeading(rest)..] == lines[s + 1 + FirstHeading(rest)..];
  }

  lemma OpensIsHeading(line: string)
    ensures IsHeading(line) <==> OpensSection(line)
  {
  }

  lemma SpotAboveLogs(lines: Lines, heading: string) returns (spot: Spot)
    requires Start(lines, heading) == |lines| && !AllBlank(lines) && heading != LOGS && Start(lines, LOGS) < |lines|
    ensures GoesTo(lines, heading, spot)
    ensures Place(lines, heading) == Around(Before(lines, spot), lines[spot.to..])
  {
    PlainHeads(lines, heading);
    PlainHeads(lines, LOGS);
    hide Heads, HeadsPlainly, IsHeading, OpensSection, Blank;
    var logs := Start(lines, LOGS);
    spot := Spot(logs, logs, false);
  }

  lemma SpotAtEnd(lines: Lines, heading: string) returns (spot: Spot)
    requires Start(lines, heading) == |lines|
    requires AllBlank(lines) || heading == LOGS || Start(lines, LOGS) == |lines|
    ensures GoesTo(lines, heading, spot)
    ensures Place(lines, heading) == Around(Before(lines, spot), lines[spot.to..])
  {
    PlainHeads(lines, heading);
    PlainHeads(lines, LOGS);
    hide Heads, HeadsPlainly, IsHeading, OpensSection, Blank;
    spot := if AllBlank(lines) then Spot(0, |lines|, false) else Spot(Inked(lines), |lines|, true);
    assert lines[|lines|..] == [] && lines[..0] == [];
  }

  lemma SpotOf(lines: Lines, heading: string) returns (spot: Spot)
    ensures GoesTo(lines, heading, spot)
    ensures Place(lines, heading) == Around(Before(lines, spot), lines[spot.to..])
  {
    hide GoesTo, Place, AllBlank;
    if Start(lines, heading) < |lines| {
      spot := SpotFound(lines, heading);
    } else if !AllBlank(lines) && heading != LOGS && Start(lines, LOGS) < |lines| {
      spot := SpotAboveLogs(lines, heading);
    } else {
      spot := SpotAtEnd(lines, heading);
    }
  }

  /** What an edit makes of a file. */
  lemma ReplacedIs(content: Content, heading: string, body: Lines)
    returns (lines: Lines, from: nat, to: nat, own: Lines, spot: Spot, n: nat)
    ensures EditedLines(content, lines) && TrimsTo(body, own, from, to)
    ensures GoesTo(lines, heading, spot) && EndsTidily(Spliced(lines, spot, heading, own), Replaced(content, heading, body), n)
  {
    lines := KeptLines(content);
    from, to := TrimIsTold(body);
    own := TrimEmpty(body);
    spot := SpotOf(lines, heading);
    SplicedIs(lines, heading, body, spot);
    n := WrittenTidily(Spliced(lines, spot, heading, own), spot.at + if spot.gap then 1 else 0);
    hide TrimEmpty, TrimsTo, Place, Spliced, Assembled, EndsTidily, Written, Heads, IsHeading, Blank;
    KeptIsEdited(content);
  }

  lemma KeptIsEdited(content: Content)
    ensures EditedLines(content, KeptLines(content))
  {
    var lines := RawLines(content);
    if lines != [] && lines[|lines| - 1] == "" {
      assert lines == lines[..|lines| - 1] + [""];
    }
  }

  lemma SplicedIs(lines: Lines, heading: string, body: Lines, spot: Spot)
    requires spot.at <= spot.to <= |lines|
    requires Place(lines, heading) == Around(Before(lines, spot), lines[spot.to..])
    ensures Assembled(Place(lines, heading), heading, body) == Spliced(lines, spot, heading, TrimEmpty(body))
    ensures var out := Spliced(lines, spot, heading, TrimEmpty(body));
      var k := spot.at + if spot.gap then 1 else 0;
      k < |out| && !Blank(out[k])
  {
    hide TrimEmpty, Place, Blank;
    HeadNotBlank(heading);
    var before := Before(lines, spot);
    var own, after := TrimEmpty(body), lines[spot.to..];
    assert Section(heading, body) == ["## " + heading] + own + [""];
    assert before + (["## " + heading] + own + [""]) + after == before + ["## " + heading] + own + [""] + after;
    assert (before + ["## " + heading] + own + [""] + after)[|before|] == "## " + heading;
  }

  lemma HeadNotBlank(heading: string)
    ensures !Blank("## " + heading)
  {
    assert ("## " + heading)[0] == '#' && !Space('#');
  }

  lemma WrittenTidily(out: Lines, k: nat) returns (n: nat)
    requires k < |out| && !Blank(out[k])
    ensures EndsTidily(out, Some(Written(out)), n)
  {
    hide Blank;
    n := Inked(out);
  }

  class Note {
    var content: Content

    constructor (content: Content)
      ensures this.content == content
    {
      this.content := content;
    }

    method WriteLines(lines: Lines)
      modifies this
      ensures content == Some(Written(lines))
    {
      var trimmed := TrimmedOfBlanks(lines);
      content := Some(trimmed + [""]);
    }

    /** The section's lines are put in their place, all other lines stay, and the file ends in one newline. */
    method ReplaceSection(heading: string, body: Lines)
      returns (ghost lines: Lines, ghost from: nat, ghost to: nat, ghost own: Lines, ghost spot: Spot, ghost n: nat)
      modifies this
      ensures content == Replaced(old(content), heading, body)
      ensures EditedLines(old(content), lines) && TrimsTo(body, own, from, to)
      ensures GoesTo(lines, heading, spot) && EndsTidily(Spliced(lines, spot, heading, own), content, n)
    {
      hide GoesTo, TrimsTo, Spliced, EndsTidily, EditedLines;
      lines, from, to, own, spot, n := ReplacedIs(content, heading, body);
      hide Start, FirstHeading, TrimEmpty, Inked, Heads, IsHeading, Blank, Before, Section;
      var kept := KeptLines(content);
      var found, start, end := SectionBounds(kept, heading);
      var section := RenderSection(heading, body);
      var out: Lines;
      if !found {
        out := InsertManaged(kept, heading, section);
      } else {
        out := kept[..start] + section + kept[end..];
        assert kept[end..] == kept[start + 1..][FirstHeading(kept[start + 1..])..];
      }
      WriteLines(out);
    }

    method AppendToSection(heading: string, line: string)
      modifies this
      ensures content == Appended(old(content), heading, line)
    {
      var read, _, _, _, _ := ReadSection(content, heading);
      var body := [line];
      if read.Some? && read.value != [] {
        body := read.value + [line];
      }
      var _, _, _, _, _, _ := ReplaceSection(heading, body);
    }
  }

  function Appended(content: Content, heading: string, line: string): Content {
    Replaced(content, heading, Extended(Read(content, heading), line))
  }

  // ----- what an edit does to every section -----

  /** No line of the trimmed body would start a section of its own. */
  predicate NoHeadings(body: Lines) {
    forall i :: 0 <= i < |TrimEmpty(body)| ==> !IsHeading(TrimEmpty(body)[i])
  }

  /** The trimmed body does not end in white space. */
  predicate EndsInInk(body: Lines) {
    var t := TrimEmpty(body);
    t != [] ==> !Blank(t[|t| - 1])
  }

  /** A body that this file can hold in this section: no headings, and no blank end if the section closes the file. */
  predicate Storable(content: Content, heading: string, body: Lines) {
    NoHeadings(body) && (Place(KeptLines(content), heading).after != [] || EndsInInk(body))
  }

  lemma KeptReads(content: Content, heading: string)
    ensures Body(KeptLines(content), heading) == Read(content, heading)
  {
    var lines := RawLines(content);
    if lines != [] && lines[|lines| - 1] == "" {
      assert lines == lines[..|lines| - 1] + [""];
      BodySnoc(lines[..|lines| - 1], heading);
    }
    assert Body([], heading) == None;
  }

  // ----- what the trimmed end of the file costs -----

  /** The section runs to the end of the file. */
  predicate Closes(lines: Lines, heading: string) {
    var s := Start(lines, heading);
    s < |lines| && FirstHeading(lines[s + 1..]) == |lines| - s - 1
  }

  /** What an edit of another section leaves of this one: the last section loses the white space at its end. */
  function Left(lines: Lines, heading: string): Option<Lines> {
    var body := Body(lines, heading);
    if Closes(lines, heading) then Some(TrimTrailingBlanks(body.value)) else body
  }

  lemma {:induction false} EndTrimmed(lines: Lines)
    ensures TrimTrailingBlanks(TrimEmptyEnd(lines)) == TrimTrailingBlanks(lines)
  {
    if lines != [] && lines[|lines| - 1] == "" {
      var front := lines[..|lines| - 1];
      EndTrimmed(front);
      BlankEmpty();
      hide Blank;
      assert Inked(lines) == Inked(front);
      assert front[..Inked(front)] == lines[..Inked(front)];
    }
  }

  lemma InkedCons(line: string, rest: Lines)
    ensures Inked([line] + rest) == if Inked(rest) > 0 then 1 + Inked(rest) else if Blank(line) then 0 else 1
  {
    hide Blank;
    InkedAt([line] + rest, if Inked(rest) > 0 then 1 + Inked(rest) else if Blank(line) then 0 else 1);
  }

  /** White space at the end and empty lines at both ends can be dropped in either order. */
  lemma {:induction false} TrimsCommute(lines: Lines)
    ensures TrimEmpty(TrimTrailingBlanks(lines)) == TrimTrailingBlanks(TrimEmpty(lines))
  {
    if lines == [] {
    } else if lines[0] == "" {
      var rest := lines[1..];
      TrimsCommute(rest);
      BlankEmpty();
      InkedCons("", rest);
      assert lines == [""] + rest;
      hide Blank, Inked;
      if Inked(rest) > 0 {
        assert TrimTrailingBlanks(lines)[1..] == TrimTrailingBlanks(rest);
      } else {
        assert TrimTrailingBlanks(lines) == [] == TrimTrailingBlanks(rest);
      }
    } else {
      EndTrimmed(lines);
      BlankEmpty();
      hide Blank;
      TrimEmptyStays(TrimTrailingBlanks(lines));
    }
  }

  lemma WrittenReads(lines: Lines, heading: string)
    ensures Body(Written(lines), heading) == Left(lines, heading)
  {
    hide Heads, IsHeading, Blank, TrimEmpty, Body, Left, TrimTrailingBlanks;
    BodySnoc(TrimTrailingBlanks(lines), heading);
    if Start(lines, heading) == |lines| {
      NoSection(lines, heading);
    } else {
      KeptReadsLeft(lines, heading);
    }
  }

  lemma NoSection(lines: Lines, heading: string)
    requires Start(lines, heading) == |lines|
    ensures Body(TrimTrailingBlanks(lines), heading) == None == Left(lines, heading)
  {
    hide Heads, IsHeading, Blank;
    StartAt(TrimTrailingBlanks(lines), heading, Inked(lines));
  }

  lemma KeptStart(lines: Lines, heading: string)
    requires Start(lines, heading) < |lines|
    ensures Start(TrimTrailingBlanks(lines), heading) == Start(lines, heading) < Inked(lines)
  {
    var s := Start(lines, heading);
    HeadsIsHeading(lines[s], heading);
    hide Heads, IsHeading, Blank;
    StartAt(TrimTrailingBlanks(lines), heading, s);
  }

  lemma LeftAt(lines: Lines, heading: string, s: nat)
    requires s < |lines| && Start(lines, heading) == s
    ensures var rest := lines[s + 1..];
      Left(lines, heading) == Some(if FirstHeading(rest) < |rest| then TrimEmpty(rest[..FirstHeading(rest)])
                                   else TrimTrailingBlanks(TrimEmpty(rest)))
  {
    BodyAt(lines, heading, s);
    hide Heads, IsHeading, TrimEmpty, FirstHeading, Start, Body, TrimTrailingBlanks;
    var rest := lines[s + 1..];
    assert rest[..|rest|] == rest;
  }

  lemma BodyToEnd(lines: Lines, heading: string, s: nat)
    requires s < |lines| && Start(lines, heading) == s && FirstHeading(lines[s + 1..]) == |lines[s + 1..]|
    ensures Body(lines, heading) == Some(TrimEmpty(lines[s + 1..]))
  {
    BodyAt(lines, heading, s);
    hide Heads, IsHeading, TrimEmpty, FirstHeading, Start, Body;
    var rest := lines[s + 1..];
    assert rest[..|rest|] == rest;
  }

  lemma KeptReadsLeft(lines: Lines, heading: string)
    requires Start(lines, heading) < |lines|
    ensures Body(TrimTrailingBlanks(lines), heading) == Left(lines, heading)
  {
    KeptStart(lines, heading);
    var kept, s := TrimTrailingBlanks(lines), Start(lines, heading);
    hide Heads, IsHeading, Blank, TrimEmpty, Start, FirstHeading, Inked, Body, Left;
    LeftAt(lines, heading, s);
    KeptSection(lines, s);
    if FirstHeading(lines[s + 1..]) < |lines[s + 1..]| {
      BodyAt(kept, heading, s);
    } else {
      BodyToEnd(kept, heading, s);
    }
  }

  lemma KeptSection(lines: Lines, s: nat)
    requires s < Inked(lines)
    ensures var rest, kept := lines[s + 1..], TrimTrailingBlanks(lines)[s + 1..];
      if FirstHeading(rest) < |rest| then
        FirstHeading(kept) == FirstHeading(rest) && kept[..FirstHeading(kept)] == rest[..FirstHeading(rest)]
      else FirstHeading(kept) == |kept| && TrimEmpty(kept) == TrimTrailingBlanks(TrimEmpty(rest))
  {
    var rest, kept, n := lines[s + 1..], TrimTrailingBlanks(lines)[s + 1..], Inked(lines);
    hide TrimEmpty, IsHeading, FirstHeading, Blank;
    InkedTail(lines, s + 1);
    assert kept == TrimTrailingBlanks(rest);
    hide Inked, TrimTrailingBlanks;
    KeptHeading(rest);
    TrimsCommute(rest);
  }

  lemma InkedTail(lines: Lines, n: nat)
    requires n <= Inked(lines)
    ensures Inked(lines[n..]) == Inked(lines) - n
  {
    hide Blank;
    InkedAt(lines[n..], Inked(lines) - n);
  }

  lemma KeptHeading(rest: Lines)
    ensures var f, kept := FirstHeading(rest), TrimTrailingBlanks(rest);
      if f < |rest| then FirstHeading(kept) == f <= |kept| && kept[..f] == rest[..f] else FirstHeading(kept) == |kept|
  {
    var f, kept := FirstHeading(rest), TrimTrailingBlanks(rest);
    if f < |rest| {
      HeadingBlank(rest[f]);
      hide Blank, IsHeading;
      FirstHeadingAt(kept, f);
    } else {
      hide Blank, IsHeading;
      FirstHeadingAt(kept, |kept|);
    }
  }

  lemma LeftSkips(front: Lines, back: Lines, heading: string)
    requires forall i :: 0 <= i < |front| ==> !Heads(front[i], heading)
    ensures Left(front + back, heading) == Left(back, heading)
  {
    hide Heads, IsHeading, Body, TrimTrailingBlanks;
    BodySkips(front, back, heading);
    var s := Start(back, heading);
    var all := front + back;
    StartAt(all, heading, |front| + s);
    if s < |back| {
      assert all[|front| + s + 1..] == back[s + 1..];
    }
  }

  /** A section that a heading follows is not the last one. */
  lemma LeftEndsAtHeading(front: Lines, back: Lines, heading: string)
    requires Start(front, heading) < |front| && back != [] && IsHeading(back[0])
    ensures Left(front + back, heading) == Body(front, heading)
  {
    hide Heads, IsHeading, Body, TrimTrailingBlanks;
    BodyEndsAtHeading(front, back, heading);
    var s := Start(front, heading);
    var all := front + back;
    StartAt(all, heading, s);
    assert all[s + 1..][|front| - s - 1] == back[0];
  }

  lemma BlankHeads(line: string, heading: string)
    requires Blank(line)
    ensures !Heads(line, heading)
  {
    if Heads(line, heading) {
      HeadsIsHeading(line, heading);
    }
  }

  /** Where the section goes: it does not occur in front, and a heading or nothing follows. */
  lemma PlaceFits(lines: Lines, heading: string)
    ensures var a := Place(lines, heading);
      && (forall i :: 0 <= i < |a.before| ==> !Heads(a.before[i], heading))
      && (a.after == [] || IsHeading(a.after[0]))
  {
    EmptyLine(heading);
    var s := Start(lines, heading);
    if s == |lines| {
      var logs := Start(lines, LOGS);
      if logs < |lines| {
        HeadsIsHeading(lines[logs], LOGS);
      }
    }
  }

  /** Every other section stands in front of the place or behind it. */
  lemma LeftByPlace(lines: Lines, heading: string, other: string)
    requires heading != other
    ensures var a := Place(lines, heading);
      Left(lines, other) == if Start(a.before, other) < |a.before| then Body(a.before, other) else Left(a.after, other)
  {
    hide Body, Left, Heads, IsHeading, Blank, Inked;
    PlaceFits(lines, heading);
    var s := Start(lines, heading);
    if s < |lines| {
      PlacedInside(lines, heading, other);
    } else if AllBlank(lines) {
      NothingInBlanks(lines, other);
    } else if heading != LOGS && Start(lines, LOGS) < |lines| {
      var logs := Start(lines, LOGS);
      assert lines == lines[..logs] + lines[logs..];
      AroundNothing(lines[..logs], lines[logs..], other);
    } else {
      PlacedAtEnd(lines, other);
    }
  }

  lemma PlacedInside(lines: Lines, heading: string, other: string)
    requires heading != other && Start(lines, heading) < |lines|
    ensures var a := Place(lines, heading);
      Left(lines, other) == if Start(a.before, other) < |a.before| then Body(a.before, other) else Left(a.after, other)
  {
    hide Body, Left, Heads, IsHeading, TrimEmpty, Start, FirstHeading, AllBlank, TrimTrailingBlanks;
    var a := Place(lines, heading);
    PlaceFits(lines, heading);
    var s := Start(lines, heading);
    var n := FirstHeading(lines[s + 1..]);
    var own := lines[s..][..n + 1];
    assert lines == a.before + own + a.after;
    OwnLines(lines, s, n, heading, other);
    AroundKeepsOthers(a.before, own, a.after, other);
  }

  lemma NothingInBlanks(lines: Lines, other: string)
    requires AllBlank(lines)
    ensures Left(lines, other) == None == Left([], other)
    ensures Start([], other) == 0
  {
    forall i | 0 <= i < |lines|
      ensures !Heads(lines[i], other)
    {
      BlankHeads(lines[i], other);
    }
    StartAt(lines, other, |lines|);
  }

  lemma PlacedAtEnd(lines: Lines, other: string)
    ensures var before := TrimTrailingBlanks(lines) + [""];
      Left(lines, other) == if Start(before, other) < |before| then Body(before, other) else Left([], other)
  {
    WrittenReads(lines, other);
    hide Heads, IsHeading, TrimEmpty;
  }

  /** A section's own lines head no other section. */
  lemma OwnLines(lines: Lines, s: nat, n: nat, heading: string, other: string)
    requires s < |lines| && Heads(lines[s], heading) && heading != other
    requires n == FirstHeading(lines[s + 1..])
    ensures var own := lines[s..][..n + 1];
      own != [] && IsHeading(own[0]) && forall i :: 0 <= i < |own| ==> !Heads(own[i], other)
  {
    var own := lines[s..][..n + 1];
    HeadsIsHeading(lines[s], heading);
    assert HeadingLine(heading)[3..] == heading && HeadingLine(other)[3..] == other;
    forall i | 0 <= i < |own|
      ensures !Heads(own[i], other)
    {
      if i > 0 {
        assert own[i] == lines[s + 1..][i - 1];
        if Heads(own[i], other) {
          HeadsIsHeading(own[i], other);
        }
      }
    }
  }

  /** A section between front and back decides nothing about the other sections. */
  lemma AroundKeepsOthers(front: Lines, section: Lines, back: Lines, other: string)
    requires section != [] && IsHeading(section[0])
    requires forall i :: 0 <= i < |section| ==> !Heads(section[i], other)
    ensures Left(front + section + back, other) ==
            if Start(front, other) < |front| then Body(front, other) else Left(back, other)
  {
    hide Body, Left, Heads, IsHeading;
    assert front + section + back == front + (section + back);
    if Start(front, other) < |front| {
      LeftEndsAtHeading(front, section + back, other);
    } else {
      LeftSkips(front, section + back, other);
      LeftSkips(section, back, other);
    }
  }

  lemma AroundNothing(front: Lines, back: Lines, other: string)
    requires back != [] && IsHeading(back[0])
    ensures Left(front + back, other) == if Start(front, other) < |front| then Body(front, other) else Left(back, other)
  {
    hide Body, Left, Heads, IsHeading, TrimEmpty;
    if Start(front, other) < |front| {
      LeftEndsAtHeading(front, back, other);
    } else {
      LeftSkips(front, back, other);
    }
  }

  /** The lines of a stored section: its heading heads only it, and its body has no headings. */
  lemma SectionLines(heading: string, body: Lines, other: string)
    requires GoodHeading(heading) && NoHeadings(body)
    ensures var t := Section(heading, body);
      && IsHeading(t[0]) && Heads(t[0], heading)
      && (forall i :: 1 <= i < |t| ==> !IsHeading(t[i]))
      && (heading != other ==> forall i :: 0 <= i < |t| ==> !Heads(t[i], other))
  {
    var t := Section(heading, body);
    HeadingHeads(heading, other);
    HeadingHeads(heading, heading);
    TrimEmptyTrims(body);
    EmptyLine(other);
    hide Heads, IsHeading, TrimEmpty;
    forall i | 1 <= i < |t|
      ensures !IsHeading(t[i])
    {
      if i <= |TrimEmpty(body)| {
        assert t[i] == TrimEmpty(body)[i - 1];
      }
    }
    forall i | 1 <= i < |t|
      ensures !Heads(t[i], other)
    {
      if Heads(t[i], other) {
        HeadsIsHeading(t[i], other);
      }
    }
  }

  /** A section that stands first, up to the next heading. */
  lemma BodyAtHead(head: string, own: Lines, back: Lines, heading: string)
    requires Heads(head, heading) && (back == [] || IsHeading(back[0]))
    requires forall i :: 0 <= i < |own| ==> !IsHeading(own[i])
    ensures Body([head] + own + back, heading) == Some(TrimEmpty(own))
  {
    hide Heads, IsHeading, TrimEmpty;
    var all := [head] + own + back;
    StartAt(all, heading, 0);
    assert all[1..] == own + back;
    FirstHeadingAt(own + back, |own|);
    assert (own + back)[..|own|] == own;
  }

  /** The section itself reads back as its trimmed body. */
  lemma BodyOfSection(heading: string, body: Lines, back: Lines)
    requires GoodHeading(heading) && NoHeadings(body) && (back == [] || IsHeading(back[0]))
    ensures Body(Section(heading, body) + back, heading) == Some(TrimEmpty(body))
  {
    SectionLines(heading, body, heading);
    hide Heads, IsHeading, NoHeadings, Body;
    var t, own := Section(heading, body), TrimEmpty(body) + [""];
    assert t == [HeadingLine(heading)] + own;
    forall i | 0 <= i < |own|
      ensures !IsHeading(own[i])
    {
      assert own[i] == t[i + 1];
    }
    BodyAtHead(HeadingLine(heading), own, back, heading);
    TrimSnoc(TrimEmpty(body));
    TrimEmptyTrims(body);
  }

  /** Dropping blank lines at the end drops them from what stands behind. */
  lemma InkedBehind(front: Lines, back: Lines)
    requires back != [] && !Blank(back[0])
    ensures TrimTrailingBlanks(front + back) == front + TrimTrailingBlanks(back)
    ensures TrimTrailingBlanks(back) != [] && TrimTrailingBlanks(back)[0] == back[0]
  {
    hide Blank;
    var n := Inked(back);
    assert n > 0;
    var all := front + back;
    assert all[|front| + n - 1] == back[n - 1];
    InkedAt(all, |front| + n);
    assert all[..|front| + n] == front + back[..n];
  }

  /** The section's lines when it closes the file. */
  function SectionText(heading: string, body: Lines): Lines {
    [HeadingLine(heading)] + TrimTrailingBlanks(TrimEmpty(body))
  }

  lemma SectionInked(front: Lines, heading: string, body: Lines)
    requires GoodHeading(heading)
    ensures TrimTrailingBlanks(front + Section(heading, body)) == front + SectionText(heading, body)
  {
    HeadingHeads(heading, heading);
    HeadingBlank(HeadingLine(heading));
    hide Heads, IsHeading, TrimEmpty, Blank, Inked, HeadingLine, TrimTrailingBlanks;
    InkedBehind(front, Section(heading, body));
    HeadInked(HeadingLine(heading), TrimEmpty(body));
  }

  lemma HeadInked(head: string, t: Lines)
    requires !Blank(head)
    ensures TrimTrailingBlanks([head] + t + [""]) == [head] + TrimTrailingBlanks(t)
  {
    hide Blank, Inked;
    InkedCons(head, t + [""]);
    InkedSnoc(t);
    assert [head] + t + [""] == [head] + (t + [""]);
    assert (t + [""])[..Inked(t)] == t[..Inked(t)];
  }

  lemma InkedSnoc(lines: Lines)
    ensures Inked(lines + [""]) == Inked(lines)
  {
    BlankEmpty();
    hide Blank;
    InkedAt(lines + [""], Inked(lines));
  }

  /** What is written around the section. */
  lemma AssembledWritten(a: Around, heading: string, body: Lines)
    requires GoodHeading(heading) && (a.after == [] || IsHeading(a.after[0]))
    ensures TrimTrailingBlanks(Assembled(a, heading, body)) ==
            if a.after == [] then a.before + SectionText(heading, body)
            else a.before + Section(heading, body) + TrimTrailingBlanks(a.after)
  {
    hide GoodHeading, Section, SectionText;
    if a.after == [] {
      assert Assembled(a, heading, body) == a.before + Section(heading, body);
      SectionInked(a.before, heading, body);
    } else {
      HeadingBlank(a.after[0]);
      InkedBehind(a.before + Section(heading, body), a.after);
    }
  }

  // ----- the main results -----

  /** What a section without headings reads as after it is written. */
  lemma StoredReads(content: Content, heading: string, body: Lines)
    requires GoodHeading(heading) && NoHeadings(body)
    ensures var t := TrimEmpty(body);
      Read(Replaced(content, heading, body), heading) ==
      Some(if Place(KeptLines(content), heading).after == [] then TrimTrailingBlanks(t) else t)
  {
    hide GoodHeading, NoHeadings, Place, Heads, IsHeading, Section, Body, Left, TrimTrailingBlanks;
    var a := Place(KeptLines(content), heading);
    PlaceFits(KeptLines(content), heading);
    WrittenReads(Assembled(a, heading, body), heading);
    assert Assembled(a, heading, body) == a.before + (Section(heading, body) + a.after);
    LeftSkips(a.before, Section(heading, body) + a.after, heading);
    LeftOfSection(heading, body, a.after);
  }

  lemma LeftOfSection(heading: string, body: Lines, back: Lines)
    requires GoodHeading(heading) && NoHeadings(body) && (back == [] || IsHeading(back[0]))
    ensures Left(Section(heading, body) + back, heading) ==
            Some(if back == [] then TrimTrailingBlanks(TrimEmpty(body)) else TrimEmpty(body))
  {
    BodyOfSection(heading, body, back);
    SectionLines(heading, body, heading);
    hide Heads, IsHeading, NoHeadings, Body, TrimEmpty, TrimTrailingBlanks;
    var t := Section(heading, body);
    StartAt(t + back, heading, 0);
    var rest := t[1..];
    assert (t + back)[1..] == rest + back;
    forall i | 0 <= i < |rest|
      ensures !IsHeading(rest[i])
    {
      assert rest[i] == t[i + 1];
    }
    FirstHeadingAt(rest + back, |rest|);
  }

  /** Dropping white space at the end changes nothing exactly when there is none. */
  lemma TrimsNothing(lines: Lines)
    ensures TrimTrailingBlanks(lines) == lines <==> lines == [] || !Blank(lines[|lines| - 1])
  {
    hide Blank;
    assert lines[..|lines|] == lines;
  }

  lemma BlankEmpty()
    ensures Blank("")
  {
  }

  /**
   After an edit the section reads back as the trimmed body, exactly when no line of the body is a heading and,
   if the section closes the file, the body does not end in white space.
   */
  lemma ReadAfterReplace(content: Content, heading: string, body: Lines)
    requires GoodHeading(heading)
    ensures Read(Replaced(content, heading, body), heading) == Some(TrimEmpty(body)) <==> Storable(content, heading, body)
  {
    if NoHeadings(body) {
      StoredReads(content, heading, body);
      TrimsNothing(TrimEmpty(body));
      hide Read, Replaced, Place, IsHeading, TrimEmpty, NoHeadings, TrimTrailingBlanks;
    } else {
      ReadIsTrimmed(Replaced(content, heading, body), heading);
      hide Read, Replaced, IsHeading, TrimEmpty;
    }
  }

  /**
   Every other section reads back as before, but for one that closes the file: that one loses the white-space lines
   at its end, whoever wrote them.
   */
  lemma ReplaceKeepsOthers(content: Content, heading: string, body: Lines, other: string)
    requires GoodHeading(heading) && NoHeadings(body) && other != heading
    ensures Read(Replaced(content, heading, body), other) == Left(KeptLines(content), other)
  {
    hide GoodHeading, NoHeadings, Place, Heads, IsHeading, Section, Body, Left;
    var lines := KeptLines(content);
    var a := Place(lines, heading);
    PlaceFits(lines, heading);
    WrittenReads(Assembled(a, heading, body), other);
    SectionLines(heading, body, other);
    SectionNotEmpty(heading, body);
    AroundKeepsOthers(a.before, Section(heading, body), a.after, other);
    LeftByPlace(lines, heading, other);
  }

  /** Its body's last line is white space. */
  predicate EndsBlank(body: Option<Lines>) {
    body.Some? && body.value != [] && Blank(body.value[|body.value| - 1])
  }

  /** So an edit rewrites another section exactly when that section closes the file and ends in white space. */
  lemma OthersRewrittenWhen(content: Content, heading: string, body: Lines, other: string)
    requires GoodHeading(heading) && NoHeadings(body) && other != heading
    ensures Read(Replaced(content, heading, body), other) != Read(content, other) <==>
            Closes(KeptLines(content), other) && EndsBlank(Read(content, other))
  {
    ReplaceKeepsOthers(content, heading, body, other);
    KeptReads(content, other);
    hide Read, Replaced, KeptLines, TrimTrailingBlanks, Body, Closes, NoHeadings, GoodHeading;
    if Closes(KeptLines(content), other) {
      ClosesSome(KeptLines(content), other);
      TrimsNothing(Body(KeptLines(content), other).value);
    }
  }

  /** A body with a heading, a body that ends in a space in a new file, and a last section that ends in one. */
  lemma LostLines()
    ensures Read(Replaced(None, "A", ["## B"]), "A") != Some(["## B"])
    ensures Read(Replaced(None, "A", ["x", " "]), "A") == Some(["x"])
    ensures var note := Some(["## B", "x", " "]);
      Read(note, "B") == Some(["x", " "]) && Read(Replaced(note, "A", []), "B") == Some(["x"])
  {
    HeadingInBody();
    SpaceInNewFile();
    SpaceInOther();
    hide Read, Replaced;
  }

  lemma HeadingInBody()
    ensures Read(Replaced(None, "A", ["## B"]), "A") != Some(["## B"])
  {
    ReadAfterReplace(None, "A", ["## B"]);
    TrimEmptyStays(["## B"]);
    assert IsHeading("## B");
    hide Read, Replaced, Place, TrimEmpty, IsHeading;
    assert TrimEmpty(["## B"])[0] == "## B";
  }

  lemma SpaceTrims()
    ensures TrimTrailingBlanks(["x", " "]) == ["x"] && TrimEmpty(["x", " "]) == ["x", " "] && TrimEmpty([]) == []
    ensures NoHeadings(["x", " "]) && NoHeadings([]) && Blank(" ")
  {
    TrimEmptyStays(["x", " "]);
    TrimEmptyStays([]);
    assert !Space("x"[0]) && Space(" "[0]);
    hide TrimEmpty;
    InkedAt(["x", " "], 1);
    assert ["x", " "][..1] == ["x"];
  }

  lemma SpaceInNewFile()
    ensures Read(Replaced(None, "A", ["x", " "]), "A") == Some(["x"])
  {
    SpaceTrims();
    assert KeptLines(None) == [] && Place([], "A").after == [];
    hide Read, Replaced, Place, TrimEmpty, NoHeadings, TrimTrailingBlanks;
    StoredReads(None, "A", ["x", " "]);
  }

  lemma SpaceInOther()
    ensures var note := Some(["## B", "x", " "]);
      Read(note, "B") == Some(["x", " "]) && Read(Replaced(note, "A", []), "B") == Some(["x"])
  {
    SpaceTrims();
    SpaceSection();
    hide Heads, IsHeading, TrimEmpty, NoHeadings, TrimTrailingBlanks, Body, Left, Start, FirstHeading, Replaced;
    var lines := ["## B", "x", " "];
    BodyToEnd(lines, "B", 0);
    LeftAt(lines, "B", 0);
    ReplaceKeepsOthers(Some(lines), "A", [], "B");
  }

  lemma SpaceSection()
    ensures var lines := ["## B", "x", " "];
      Start(lines, "B") == 0 && lines[1..] == ["x", " "] && FirstHeading(["x", " "]) == 2
  {
    HeadingHeads("B", "B");
    assert HeadingLine("B") == "## B";
    PlainLines();
    hide Heads, IsHeading;
    StartAt(["## B", "x", " "], "B", 0);
    FirstHeadingAt(["x", " "], 2);
  }

  lemma PlainLines()
    ensures !IsHeading("x") && !IsHeading(" ")
  {
  }

  lemma ClosesSome(lines: Lines, heading: string)
    requires Closes(lines, heading)
    ensures Body(lines, heading).Some?
  {
  }

  lemma SectionNotEmpty(heading: string, body: Lines)
    ensures Section(heading, body) != []
  {
  }

  /** An edited file has lost all it can lose. */
  lemma EditedIsTidy(content: Content, heading: string, body: Lines, other: string)
    ensures var once := Replaced(content, heading, body); Left(KeptLines(once), other) == Read(once, other)
  {
    hide Assembled, Place, Left, Body, Inked;
    var lines := Assembled(Place(KeptLines(content), heading), heading, body);
    TrimTwice(lines);
    assert KeptLines(Replaced(content, heading, body)) == TrimTrailingBlanks(lines);
    WrittenReads(TrimTrailingBlanks(lines), other);
  }

  /** Writing the same section twice is writing it once. */
  lemma ReplaceIsIdempotent(content: Content, heading: string, body: Lines)
    requires GoodHeading(heading) && NoHeadings(body)
    ensures var once := Replaced(content, heading, body); Replaced(once, heading, body) == once
  {
    hide GoodHeading, NoHeadings, Place, Heads, IsHeading, Section, SectionText, Body, TrimTrailingBlanks;
    var a := Place(KeptLines(content), heading);
    PlaceFits(KeptLines(content), heading);
    AssembledWritten(a, heading, body);
    var kept := TrimTrailingBlanks(Assembled(a, heading, body));
    assert KeptLines(Replaced(content, heading, body)) == kept;
    PlaceAgain(a, heading, body, kept);
    var b := Around(a.before, TrimTrailingBlanks(a.after));
    TrimTwice(a.after);
    NothingToTrim();
    if a.after != [] {
      HeadingBlank(a.after[0]);
      InkedBehind([], a.after);
    }
    AssembledWritten(b, heading, body);
  }

  lemma TrimTwice(lines: Lines)
    ensures TrimTrailingBlanks(TrimTrailingBlanks(lines)) == TrimTrailingBlanks(lines)
  {
    var kept := TrimTrailingBlanks(lines);
    InkedAt(kept, |kept|);
    assert kept[..|kept|] == kept;
  }

  /** The written section is found where it was put. */
  lemma PlaceAgain(a: Around, heading: string, body: Lines, kept: Lines)
    requires GoodHeading(heading) && NoHeadings(body)
    requires forall i :: 0 <= i < |a.before| ==> !Heads(a.before[i], heading)
    requires a.after == [] || IsHeading(a.after[0])
    requires kept == if a.after == [] then a.before + SectionText(heading, body)
                     else a.before + Section(heading, body) + TrimTrailingBlanks(a.after)
    ensures Place(kept, heading) == Around(a.before, TrimTrailingBlanks(a.after))
  {
    SectionLines(heading, body, heading);
    hide Heads, IsHeading, TrimEmpty, NoHeadings, GoodHeading, Inked, Place, TrimTrailingBlanks, Blank;
    if a.after != [] {
      HeadingBlank(a.after[0]);
      InkedBehind([], a.after);
      PlaceFound(a.before, Section(heading, body), TrimTrailingBlanks(a.after), heading);
    } else {
      var text := SectionText(heading, body);
      TrimmedIsPrefix(TrimEmpty(body));
      assert forall i :: 0 <= i < |text| ==> Section(heading, body)[i] == text[i];
      PlaceFound(a.before, text, [], heading);
      NothingToTrim();
      assert a.before + text + [] == a.before + text;
    }
  }

  lemma TrimmedIsPrefix(lines: Lines)
    ensures TrimTrailingBlanks(lines) <= lines
  {
  }

  lemma NothingToTrim()
    ensures TrimTrailingBlanks([]) == []
  {
  }

  lemma PlaceFound(front: Lines, own: Lines, back: Lines, heading: string)
    requires forall i :: 0 <= i < |front| ==> !Heads(front[i], heading)
    requires own != [] && Heads(own[0], heading) && (back == [] || IsHeading(back[0]))
    requires forall i :: 1 <= i < |own| ==> !IsHeading(own[i])
    ensures Place(front + own + back, heading) == Around(front, back)
  {
    hide Heads, IsHeading;
    var all := front + own + back;
    StartAt(all, heading, |front|);
    var rest := own[1..];
    assert all[|front| + 1..] == rest + back;
    FirstHeadingAt(rest + back, |rest|);
    assert (rest + back)[|rest|..] == back;
    assert all[..|front|] == front;
  }

  /** A line that an append keeps: visible, and no heading. */
  predicate GoodLine(line: string) {
    !Blank(line) && !IsHeading(line)
  }

  /** What AppendToSection stores. */
  function Extended(read: Option<Lines>, line: string): Lines {
    if read.Some? && read.value != [] then read.value + [line] else [line]
  }

  lemma ExtendedStorable(content: Content, heading: string, line: string)
    requires GoodLine(line)
    ensures Storable(content, heading, Extended(Read(content, heading), line))
    ensures TrimEmpty(Extended(Read(content, heading), line)) == Extended(Read(content, heading), line)
  {
    ReadIsTrimmed(content, heading);
    EmptyBlank(line);
    hide Read, IsHeading, Blank, TrimEmpty, Place;
    TrimEmptyStays(Extended(Read(content, heading), line));
  }

  lemma AppendAddsLine(content: Content, heading: string, line: string)
    requires GoodHeading(heading) && GoodLine(line)
    ensures Read(Appended(content, heading, line), heading) ==
            Some((if Read(content, heading).Some? then Read(content, heading).value else []) + [line])
  {
    hide Read, Replaced, GoodHeading, GoodLine, Storable, TrimEmpty;
    var body := Extended(Read(content, heading), line);
    ExtendedStorable(content, heading, line);
    ReadAfterReplace(content, heading, body);
    assert [] + [line] == [line];
  }

  lemma EmptyBlank(line: string)
    ensures !Blank(line) ==> line != ""
  {
  }

  lemma ReadIsTrimmed(content: Content, heading: string)
    ensures var read := Read(content, heading);
      read.Some? ==> NoEmptyEnds(read.value) && forall i :: 0 <= i < |read.value| ==> !IsHeading(read.value[i])
  {
    hide Heads, IsHeading, TrimEmpty, FirstHeading;
    if content.Some? && Start(content.value, heading) < |content.value| {
      var s := Start(content.value, heading);
      BodyAt(content.value, heading, s);
      TrimmedHasNoHeadings(content.value[s + 1..]);
    }
  }

  lemma TrimmedHasNoHeadings(rest: Lines)
    ensures var t := TrimEmpty(rest[..FirstHeading(rest)]); NoEmptyEnds(t) && forall i :: 0 <= i < |t| ==> !IsHeading(t[i])
  {
    hide IsHeading, TrimEmpty;
    var own := rest[..FirstHeading(rest)];
    TrimEmptyTrims(own);
    forall i | 0 <= i < |TrimEmpty(own)|
      ensures !IsHeading(TrimEmpty(own)[i])
    {
      assert TrimEmpty(own)[i] in own;
    }
  }

  function AppendedAll(content: Content, heading: string, added: Lines): Content {
    if added == [] then content
    else Appended(AppendedAll(content, heading, added[..|added| - 1]), heading, added[|added| - 1])
  }

  /**
   Appending lines one by one leaves exactly those lines, in order, behind what was there. Other sections stay, but
   for the white space that the first edit drops at the end of the file.
   */
  lemma {:induction false} AppendsAddUp(content: Content, heading: string, added: Lines, other: string)
    requires GoodHeading(heading) && added != [] && other != heading
    requires forall i :: 0 <= i < |added| ==> GoodLine(added[i])
    ensures Read(AppendedAll(content, heading, added), heading) ==
            Some((if Read(content, heading).Some? then Read(content, heading).value else []) + added)
    ensures Read(AppendedAll(content, heading, added), other) == Left(KeptLines(content), other)
  {
    hide Read, Left, KeptLines, GoodLine, GoodHeading, Appended;
    var front, line := added[..|added| - 1], added[|added| - 1];
    assert added == front + [line];
    var before := AppendedAll(content, heading, front);
    AppendAddsLine(before, heading, line);
    AppendLeavesOthers(before, heading, line, other);
    var earlier := if Read(content, heading).Some? then Read(content, heading).value else [];
    if front == [] {
      assert before == content && added == [line];
    } else {
      AppendsAddUp(content, heading, front, other);
      AppendedIsTidy(AppendedAll(content, heading, front[..|front| - 1]), heading, front[|front| - 1], other);
      assert earlier + front + [line] == earlier + added;
    }
  }

  lemma AppendLeavesOthers(content: Content, heading: string, line: string, other: string)
    requires GoodHeading(heading) && GoodLine(line) && other != heading
    ensures Read(Appended(content, heading, line), other) == Left(KeptLines(content), other)
  {
    hide Read, Left, KeptLines, Replaced, GoodHeading, GoodLine, TrimEmpty;
    ExtendedStorable(content, heading, line);
    ReplaceKeepsOthers(content, heading, Extended(Read(content, heading), line), other);
  }

  lemma AppendedIsTidy(content: Content, heading: string, line: string, other: string)
    ensures var once := Appended(content, heading, line); Left(KeptLines(once), other) == Read(once, other)
  {
    hide Left, KeptLines, Replaced, TrimEmpty;
    EditedIsTidy(content, heading, Extended(Read(content, heading), line), other);
  }
}
