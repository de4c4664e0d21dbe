/** What the three-way merge does to edits and deletions (internal/sync/engine.go:149-269). */
module SyncMerge {
  import opened Common
  import opened TaskLine
  import opened SyncEngine
  import opened SyncCopy

  /** The side says something the last sync did not. */
  predicate Edited(t: Task, b: Option<SyncBase>) {
    b.None? || Canon(t) != b.value.baseLine
  }

  /** The task's line is kept in canon, or a copy of the task with the conflict tag. */
  predicate Survives(t: Task, o: Outcome) {
    exists i :: 0 <= i < |o.canon| && (IsCopy(o.canon[i], t) || Canon(o.canon[i]) == Canon(t))
  }

  /** The projection has no say: canon's project is not synced, canon's task has moved, or canon has deleted it. */
  predicate Overruled(c: Option<Task>, b: Option<SyncBase>, synced: set<string>) {
    match c
    case None => b.Some?
    case Some(t) => t.project !in synced || (b.Some? && b.value.project != t.project)
  }

  /**
   A verdict loses no edit made in a projection, exactly unless canon overrules it with another line.
   In particular a deletion in canon discards what the projection has changed since.
   What the verdict after a conflict keeps of the pair it left is a matter of its own: SyncConflict.
   */
  lemma ProjectionEditSurvives(id: string, c: Option<Task>, p: Task, b: Option<SyncBase>, synced: set<string>)
    requires Edited(p, b)
    ensures Survives(p, Resolve(id, c, Some(p), b, synced))
            <==> !Overruled(c, b, synced) || (c.Some? && (Canon(c.value) == Canon(p) || IsCopy(c.value, p)))
  {
    hide Canon, Tagged, IsCopy;
    var o := Resolve(id, c, Some(p), b, synced);
    TaggedIsCopy(Tagged(p), p);
    if !Overruled(c, b, synced) && !(c.Some? && Canon(c.value) == Canon(p)) {
      if c.None? {
        assert o.canon[0] == p;
      } else {
        var t := if o.conflicts != [] then o.canon[1] else o.canon[0];
        assert t == Tagged(p) || t == p;
      }
    } else if c.Some? {
      assert o.canon == [c.value];
      assert o.canon[0] == c.value;
    }
  }

  /** A verdict keeps canon's own task exactly unless the projection has deleted it, edited it alone, or both carry the same line. */
  lemma CanonTaskStays(id: string, c: Task, p: Option<Task>, b: Option<SyncBase>, synced: set<string>)
    ensures c in Resolve(id, Some(c), p, b, synced).canon <==>
            Overruled(Some(c), b, synced) || b.None?
            || (p.Some? && (p.value == c || Edited(c, b) || !Edited(p.value, b)))
  {
    hide Canon;
  }

  /** A conflict is reported exactly when both sides carry different lines and neither is the one last synced. */
  lemma ConflictMeansBothEdited(id: string, c: Option<Task>, p: Option<Task>, b: Option<SyncBase>, synced: set<string>)
    ensures Resolve(id, c, p, b, synced).conflicts != [] <==>
            && c.Some? && p.Some? && !Overruled(c, b, synced)
            && Canon(c.value) != Canon(p.value) && Edited(c.value, b) && Edited(p.value, b)
  {
    hide Canon;
  }

  /** Without a conflict the merged line is the edited side's, on both sides and in the base. */
  lemma EditedSideWins(id: string, c: Task, p: Task, b: SyncBase, synced: set<string>)
    requires !Overruled(Some(c), Some(b), synced) && Resolve(id, Some(c), Some(p), Some(b), synced).conflicts == []
    ensures var o := Resolve(id, Some(c), Some(p), Some(b), synced);
      && |o.canon| == 1
      && Canon(o.canon[0]) == (if Edited(p, Some(b)) then Canon(p) else Canon(c))
      && (o.base == Keep ==> Canon(o.canon[0]) == b.baseLine)
      && (o.base.Upsert? ==> o.base.row == RowOf(o.canon[0]))
      && !o.base.Drop?
  {
    hide Canon;
  }

  /**
   The base row follows what is kept: a row that is written is the one kept task's, of a synced project; a row is dropped exactly if
   the task is gone or its project is not synced; and the row stays only if it says what is kept, or nothing is settled.
   */
  lemma RowFollowsOutcome(id: string, c: Option<Task>, p: Option<Task>, b: Option<SyncBase>, synced: set<string>)
    ensures var o := Resolve(id, c, p, b, synced);
      && (o.base.Upsert? ==>
            && |o.canon| == 1 && o.conflicts == []
            && o.base.row.id == o.canon[0].id && o.base.row.project == o.canon[0].project
            && o.base.row.baseLine == Canon(o.canon[0]))
      && (o.base.Drop? <==> b.Some? && (o.canon == [] || (c.Some? && c.value.project !in synced)))
      && (o.base.Keep? ==>
            if b.None? then o.conflicts != [] || o.canon == [] || c.value.project !in synced
            else o.conflicts != [] || (|o.canon| == 1 && Canon(o.canon[0]) == b.value.baseLine && c.value.project == b.value.project))
  {
    hide Canon, Tagged;
  }

  /** A task disappears exactly when it had been synced, canon does not overrule, and one side no longer has it. */
  lemma DeletedMeansGoneFromOneSide(id: string, c: Option<Task>, p: Option<Task>, b: Option<SyncBase>, synced: set<string>)
    requires c.Some? || p.Some?
    ensures Resolve(id, c, p, b, synced).canon == [] <==>
            b.Some? && (c.None? || (p.None? && !Overruled(c, b, synced)))
  {
    hide Canon;
  }

  function OnSynced(ts: seq<Task>, synced: set<string>): seq<Task> {
    if ts == [] then []
    else OnSynced(ts[..|ts| - 1], synced) + if ts[|ts| - 1].project in synced then [ts[|ts| - 1]] else []
  }

  /** What goes to the projections is what goes to canon, of the synced projects. */
  lemma ProjectionMirrorsCanon(id: string, c: Option<Task>, p: Option<Task>, b: Option<SyncBase>, synced: set<string>)
    ensures Resolve(id, c, p, b, synced).proj == OnSynced(Resolve(id, c, p, b, synced).canon, synced)
  {
    hide Canon, Tagged;
    var o := Resolve(id, c, p, b, synced);
    if |o.canon| == 1 {
      OnSyncedOne(o.canon[0], synced);
      assert o.canon == [o.canon[0]];
    } else if c.Some? && p.Some? && |o.canon| == 2 {
      OnSyncedTwo(c.value, Tagged(p.value), synced);
      assert o.canon == [c.value, Tagged(p.value)];
    }
  }

  lemma OnSyncedOne(t: Task, synced: set<string>)
    ensures OnSynced([t], synced) == if t.project in synced then [t] else []
  {
    assert [t][..0] == [];
  }

  lemma OnSyncedTwo(t: Task, u: Task, synced: set<string>)
    ensures OnSynced([t, u], synced) == (if t.project in synced then [t] else []) + (if u.project in synced then [u] else [])
  {
    assert [t, u][..1] == [t];
    OnSyncedOne(t, synced);
  }
}
