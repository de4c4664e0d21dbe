/** Tasks as the reconciler reads them: forceProject (internal/sync/reconcile.go) and what a written line reads back as. */
module SyncTask {
  import opened Common
  import opened TaskLine
  import opened TaskLineLaws
  import opened SyncEngine

  function WithoutTag(tags: seq<string>, tag: string): seq<string> {
    if tags == [] then []
    else if tags[0] == tag then WithoutTag(tags[1..], tag)
    else [tags[0]] + WithoutTag(tags[1..], tag)
  }

  /** t owned by project, with the project as its first tag. */
  function Forced(t: Task, project: string): Task {
    t.(project := project, tags := [project] + WithoutTag(t.tags, project))
  }

  method ForceProject(t: Task, project: string) returns (r: Task)
    ensures r == Forced(t, project)
    ensures r.project == project && r.tags != [] && r.tags[0] == project
    ensures r.id == t.id && r.text == t.text && r.completed == t.completed && r.completedAt == t.completedAt && r.due == t.due
    ensures r.scheduled == t.scheduled && r.recurrence == t.recurrence && r.parentId == t.parentId && r.priority == t.priority
  {
    var tags := [project];
    for i := 0 to |t.tags|
      invariant tags + WithoutTag(t.tags[i..], project) == [project] + WithoutTag(t.tags, project)
    {
      assert t.tags[i..][1..] == t.tags[i + 1..];
      if t.tags[i] != project {
        tags := tags + [t.tags[i]];
      }
    }
    r := t.(project := project, tags := tags);
    assert r.tags == [project] + WithoutTag(t.tags, project);
  }

  /** Behind its project a forced task has the other tags it had, in their order. */
  lemma ForcedTags(t: Task, project: string) returns (at: seq<nat>)
    ensures var tags := Forced(t, project).tags;
      && |tags| == |at| + 1 && tags[0] == project
      && (forall j, k :: 0 <= j < k < |at| ==> at[j] < at[k])
      && (forall k :: 0 <= k < |at| ==> at[k] < |t.tags| && tags[k + 1] == t.tags[at[k]])
      && (forall i :: 0 <= i < |t.tags| ==> (i in at <==> t.tags[i] != project))
  {
    at := TagPlaces(t.tags, project, 0);
    assert t.tags[0..] == t.tags;
    var tags := Forced(t, project).tags;
    assert forall k :: 0 <= k < |at| ==> tags[k + 1] == WithoutTag(t.tags, project)[k];
  }

  lemma {:induction false} TagPlaces(tags: seq<string>, tag: string, n: nat) returns (at: seq<nat>)
    requires n <= |tags|
    ensures var rest := WithoutTag(tags[n..], tag);
      && |rest| == |at|
      && (forall j, k :: 0 <= j < k < |at| ==> at[j] < at[k])
      && (forall k :: 0 <= k < |at| ==> n <= at[k] < |tags| && rest[k] == tags[at[k]])
      && (forall i :: n <= i < |tags| ==> (i in at <==> tags[i] != tag))
    decreases |tags| - n
  {
    at := [];
    if n < |tags| {
      var after := TagPlaces(tags, tag, n + 1);
      assert tags[n..][1..] == tags[n + 1..];
      if tags[n] == tag {
        at := after;
      } else {
        at := [n] + after;
        assert at[0] == n;
        assert forall i :: n < i ==> (i in at <==> i in after);
      }
    }
  }

  /** What ReadTasks makes of one line: None when it is not a task line. */
  function ReadLine(line: Line): Option<Task> {
    var r := Parse(line);
    if r.Ok? then r.value else None
  }

  /** A clean task is written as one line, and that line reads back with the same id and canonical form. */
  lemma CanonReadsBack(t: Task)
    requires Clean(t)
    ensures Canon(t) != [] && ReadLine(Canon(t)) == Some(ReadBack(t))
    ensures Clean(ReadBack(t)) && ReadBack(t).id == t.id && Canon(ReadBack(t)) == Canon(t)
  {
    FormatThenParse(t);
    FormatIsFixpoint(t);
  }

  lemma {:induction false} WithoutTagIs(tags: seq<string>, tag: string)
    ensures forall x :: x in WithoutTag(tags, tag) <==> x in tags && x != tag
  {
    if tags == [] {
    } else {
      WithoutTagIs(tags[1..], tag);
      assert forall x :: x in tags <==> x == tags[0] || x in tags[1..];
    }
  }

  lemma ForcedIsClean(t: Task, project: string)
    requires Clean(t) && IsTag(project)
    ensures Clean(Forced(t, project))
  {
    hide IsTag, IsQiId;
    WithoutTagIs(t.tags, project);
    forall i | 0 <= i < |WithoutTag(t.tags, project)|
      ensures IsTag(WithoutTag(t.tags, project)[i])
    {
      assert WithoutTag(t.tags, project)[i] in WithoutTag(t.tags, project);
    }
  }

  /** The formatted line of a task shows its project as a tag. */
  lemma ProjectIsShown(t: Task)
    requires Clean(t) && t.project != ""
    ensures t.project in TagsIn(FullText(t))
  {
    hide IsTag, IsQiId, NewTags;
    FullTextIsPlain(t);
    NewTagsAre(t.tags, SetOf(TagsIn(t.text)));
    var fresh' := NewTags(t.tags, SetOf(TagsIn(t.text)));
    if t.project in t.tags && t.project !in TagsIn(t.text) {
      assert t.project in fresh';
    }
    assert t.project in TagsIn(t.text) || t.project in Gained(t);
  }

  /** A line that shows the project's tag reads back, forced to that project, as the same line. */
  lemma ForcedReadsBack(t: Task, project: string)
    requires Clean(t) && IsTag(project) && project in TagsIn(FullText(t))
    ensures var f := Forced(ReadBack(t), project);
      Clean(f) && f.id == t.id && f.project == project && Canon(f) == Canon(t)
  {
    CanonReadsBack(t);
    ForcedIsClean(ReadBack(t), project);
    NothingGained(ReadBack(t));
    ForcedGainsNothing(ReadBack(t), project);
    SameCanon(ReadBack(t), Forced(ReadBack(t), project));
  }

  lemma ForcedGainsNothing(t: Task, project: string)
    requires t.tags == TagsIn(t.text) && project in t.tags
    ensures Gained(Forced(t, project)) == []
  {
    hide NewTags;
    var f := Forced(t, project);
    WithoutTagIs(t.tags, project);
    NewTagsAre(f.tags, SetOf(TagsIn(t.text)));
    TaskLineLaws.HeadIsMember(NewTags(f.tags, SetOf(TagsIn(t.text))));
  }

  lemma SameCanon(t: Task, f: Task)
    requires Gained(t) == [] && Gained(f) == [] && f == t.(project := f.project, tags := f.tags)
    ensures Canon(f) == Canon(t)
  {
    hide Fields, Gained, TagTokens;
    assert FullText(f) == FullText(t);
    SameFields(t, f);
  }

  // ----- when the project survives -----

  /** Reading a line back finds the same project: no other tag stands before it. */
  predicate Stable(t: Task) {
    ReadBack(t).project == t.project
  }

  /**
   A task forced to a project reads back as owned by it exactly when its own text
   starts with no other tag: forceProject cannot move a tag ahead of an inline one.
   */
  lemma ForcedIsStable(t: Task, project: string)
    requires Clean(t) && IsTag(project)
    ensures Stable(Forced(t, project)) <==> TagsIn(t.text) == [] || TagsIn(t.text)[0] == project
  {
    var f := Forced(t, project);
    ForcedIsClean(t, project);
    FullTextIsPlain(f);
    if TagsIn(t.text) == [] {
      FirstGained(f, WithoutTag(t.tags, project));
    }
  }

  /** "w #a" forced to "b" becomes a task of "b" whose line is read back as a task of "a". */
  lemma ForcedIsLost()
    ensures var t := Task("", [Word("w"), Tag("a")], "a", ["a"], None, None, [], "", "", false, None);
      Clean(t) && Forced(t, "b").project == "b" && ReadBack(Forced(t, "b")).project == "a"
  {
    var t := Task("", [Word("w"), Tag("a")], "a", ["a"], None, None, [], "", "", false, None);
    assert IsTag("a") && IsTag("b") by {
      assert !IsDigit("a"[0]) && !IsDigit("b"[0]);
    }
    assert t.text[1..] == [Tag("a")];
    InlineTagStaysFirst(t, "b");
  }

  /** Reading back finds the text's own first tag, whatever project the task was forced to. */
  lemma InlineTagStaysFirst(t: Task, project: string)
    requires Clean(t) && IsTag(project) && TagsIn(t.text) != []
    ensures ReadBack(Forced(t, project)).project == TagsIn(t.text)[0]
  {
    var f := Forced(t, project);
    ForcedIsClean(t, project);
    FullTextIsPlain(f);
  }

  lemma FirstGained(f: Task, rest: seq<string>)
    requires TagsIn(f.text) == [] && f.project != "" && f.tags == [f.project] + rest
    ensures Gained(f) != [] && Gained(f)[0] == f.project
  {
    assert f.tags[0] == f.project;
    assert f.project !in SetOf(TagsIn(f.text));
  }

  lemma ReadTagsAreInline(line: Line)
    requires ReadLine(line).Some?
    ensures var t := ReadLine(line).value; t.tags == TagsIn(t.text) && t.project == if t.tags == [] then "" else t.tags[0]
  {
    hide TagsIn, Without, WithoutRules, FirstRule, First, NoDates, DateError;
  }

  /** A task read from a line is exactly what its canonical line reads back as. */
  lemma ReadTaskIsFixed(line: Line)
    requires ReadLine(line).Some?
    ensures ReadBack(ReadLine(line).value) == ReadLine(line).value
  {
    hide TagsIn, Without, WithoutRules, FirstRule, First, NoDates, DateError, Gained;
    var t := ReadLine(line).value;
    ReadTagsAreInline(line);
    NothingGained(t);
    assert t.text + [] == t.text;
  }
}
