/** The second line of a conflict (internal/sync/engine.go:73-83, 205-215): the whole task, with the conflict tag. */
module SyncCopy {
  import opened Common
  import opened TaskLine
  import opened TaskLineLaws
  import opened SyncEngine
  import opened SyncTask

  /** u is p field for field, with the conflict tag behind its tags unless it has it. */
  predicate IsCopy(u: Task, p: Task) {
    && u.id == p.id && u.text == p.text && u.project == p.project
    && u.completed == p.completed && u.completedAt == p.completedAt && u.due == p.due && u.scheduled == p.scheduled
    && u.recurrence == p.recurrence && u.parentId == p.parentId && u.priority == p.priority
    && u.tags == if "sync-conflict" in p.tags then p.tags else p.tags + ["sync-conflict"]
  }

  lemma TaggedIsCopy(u: Task, p: Task)
    ensures IsCopy(u, p) <==> u == Tagged(p)
  {
  }

  /**
   In every verdict with a conflict canon's own task comes first and a copy of the projection's second, in canon and, as far as
   their projects are synced, in the projections; the base keeps what it had, and the report names the id and canon's project.
   */
  lemma ConflictKeepsBoth(id: string, c: Option<Task>, p: Option<Task>, b: Option<SyncBase>, synced: set<string>)
    requires Resolve(id, c, p, b, synced).conflicts != []
    ensures c.Some? && p.Some?
    ensures var o := Resolve(id, c, p, b, synced);
      && |o.canon| == 2 && o.canon[0] == c.value && IsCopy(o.canon[1], p.value)
      && o.proj == [c.value] + (if p.value.project in synced then [o.canon[1]] else [])
      && o.base == Keep && o.conflicts == [Conflict(id, c.value.project)]
  {
    hide Canon;
  }

  /** What the line of one task gives back over what the line of another gives: the conflict tag, and nothing else. */
  predicate SameButTag(u: Task, p: Task) {
    && u.id == p.id && u.completed == p.completed && u.completedAt == p.completedAt
    && u.due == p.due && u.scheduled == p.scheduled && u.recurrence == p.recurrence && u.parentId == p.parentId
    && u.priority == p.priority
    && u.text == p.text + (if "sync-conflict" in p.tags then [] else [Token.Tag("sync-conflict")])
    && u.tags == p.tags + (if "sync-conflict" in p.tags then [] else ["sync-conflict"])
    && (p.tags != [] ==> u.project == p.project)
  }

  /** A copy's line reads back as the line of the task does, with the conflict tag behind its text. */
  lemma CopyReadsBack(u: Task, p: Task)
    requires IsCopy(u, p) && Clean(p) && (p.project == "" || p.project in p.tags)
    ensures ReadLine(Canon(p)).Some? && ReadLine(Canon(u)).Some?
    ensures SameButTag(ReadLine(Canon(u)).value, ReadLine(Canon(p)).value)
  {
    hide Canon, ReadLine, IsTag, IsQiId, NewTags, TagTokens, Clean, SameButTag;
    CopyIsClean(u, p);
    CanonReadsBack(p);
    CanonReadsBack(u);
    CopyReadBack(u, p);
  }

  lemma CopyReadBack(u: Task, p: Task)
    requires IsCopy(u, p) && Clean(p) && (p.project == "" || p.project in p.tags)
    ensures SameButTag(ReadBack(u), ReadBack(p))
  {
    CopyTexts(u, p);
    hide FullText, TagsIn, Clean, Gained;
    assert TagsIn(FullText(p)) + [] == TagsIn(FullText(p)) && FullText(p) + [] == FullText(p);
  }

  lemma CopyTexts(u: Task, p: Task)
    requires IsCopy(u, p) && Clean(p) && (p.project == "" || p.project in p.tags)
    ensures var shown := "sync-conflict" in TagsIn(FullText(p));
      && FullText(u) == FullText(p) + (if shown then [] else [Token.Tag("sync-conflict")])
      && TagsIn(FullText(u)) == TagsIn(FullText(p)) + (if shown then [] else ["sync-conflict"])
  {
    CopyIsClean(u, p);
    hide IsTag, IsQiId, NewTags, TagTokens, Clean, TagsIn, Gained;
    FullTextIsPlain(p);
    FullTextIsPlain(u);
    CopyGains(u, p);
    assert FullText(p) + [] == FullText(p);
  }

  lemma CopyIsClean(u: Task, p: Task)
    requires IsCopy(u, p) && Clean(p)
    ensures Clean(u)
  {
    ConflictIsTag();
    hide IsTag, IsQiId, Plain, IdOrEmpty, RealOrNone;
    forall i | 0 <= i < |u.tags|
      ensures IsTag(u.tags[i])
    {
      assert i < |p.tags| ==> u.tags[i] == p.tags[i];
    }
  }

  lemma ConflictIsTag()
    ensures IsTag("sync-conflict")
  {
    assert !IsDigit("sync-conflict"[0]);
  }

  /** The copy's line gains the conflict tag last, unless the task's own line shows it. */
  lemma CopyGains(u: Task, p: Task)
    requires IsCopy(u, p) && Clean(p) && (p.project == "" || p.project in p.tags)
    ensures var shown := "sync-conflict" in TagsIn(FullText(p));
      && shown == ("sync-conflict" in TagsIn(p.text) || "sync-conflict" in Gained(p))
      && Gained(u) == Gained(p) + (if shown then [] else ["sync-conflict"])
      && TagTokens(Gained(u)) == TagTokens(Gained(p)) + (if shown then [] else [Token.Tag("sync-conflict")])
  {
    hide IsTag, IsQiId, NewTags, TagTokens;
    FullTextIsPlain(p);
    var inline := SetOf(TagsIn(p.text));
    NewTagsAre(p.tags, inline);
    assert Gained(p) == NewTags(p.tags, inline) && Gained(u) == NewTags(u.tags, inline);
    if "sync-conflict" in p.tags {
      TagIsShown(p, "sync-conflict");
      assert Gained(p) + [] == Gained(p) && TagTokens(Gained(p)) + [] == TagTokens(Gained(p));
    } else {
      NewTagsSnoc(p.tags, "sync-conflict", inline);
      ConflictTagAlone(inline + SetOf(p.tags));
      AddTag(Gained(p), "sync-conflict");
      ConflictToken();
      assert Gained(p) + [] == Gained(p) && TagTokens(Gained(p)) + [] == TagTokens(Gained(p));
    }
  }

  lemma ConflictTagAlone(inline: set<string>)
    ensures NewTags(["sync-conflict"], inline) == if "sync-conflict" in inline then [] else ["sync-conflict"]
  {
    assert ["sync-conflict"][1..] == [];
    assert NewTags([], inline) == [] && NewTags([], inline + {"sync-conflict"}) == [];
  }

  lemma ConflictToken()
    ensures TagToken("sync-conflict") == Token.Tag("sync-conflict")
  {
    assert !IsDigit("sync-conflict"[0]);
  }
}
