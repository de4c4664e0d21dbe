/**
 Expanding a group of components (internal/calendar/caldav.go:338-517), told slot by slot and override by override in the
 fields of the events.
 */
module CalDavExpand {
  import opened Common
  import opened CalDav
  import opened Inserting

  // ----- one slot, one override -----

  /** What a THISANDFUTURE override makes of a slot: nothing before its instant, and otherwise its title, its length and its shift. */
  predicate Turns(ov: Override, a: Event, b: Event) {
    if ov.rid.None? || a.start < ov.rid.value then b == a
    else
      && !ov.cancelled
      && match ov.event
         case None => b == a
         case Some(d) =>
           && b.id == a.id && b.source == a.source && b.title == d.title
           && b.start - a.start == d.start - ov.rid.value
           && b.end - b.start == if d.start < d.end then d.end - d.start else 3600
  }

  /** The slot goes through the overrides one after the other and ends as this event. */
  ghost predicate TurnsInto(slot: Event, runs: seq<Override>, e: Event) {
    exists trace: seq<Event> ::
      && |trace| == |runs| + 1 && trace[0] == slot && trace[|runs|] == e
      && forall k :: 0 <= k < |runs| ==> TurnsAt(runs, trace, k)
  }

  predicate TurnsAt(runs: seq<Override>, trace: seq<Event>, k: nat)
    requires k < |runs| && |trace| == |runs| + 1
  {
    Turns(runs[k], trace[k], trace[k + 1])
  }

  /** The event that stands for the override, under the id of the slot it names. */
  predicate Replaces(slotId: SlotId, source: string, ov: Override, e: Event) {
    && ov.rid.Some? && !ov.cancelled && ov.event.Some?
    && e.id == slotId(ov.rid.value) && e.source == source
    && e.title == ov.event.value.title && e.start == ov.event.value.start && e.end == ov.event.value.end
  }

  predicate Single(ov: Override) {
    ov.hasRid && !ov.thisAndFuture
  }

  /** A single override names the slot of this id. */
  predicate Named(slotId: SlotId, ovs: seq<Override>, id: string) {
    exists k :: 0 <= k < |ovs| && Single(ovs[k]) && ovs[k].rid.Some? && slotId(ovs[k].rid.value) == id
  }

  lemma {:induction false} FollowedIsTold(slot: Event, runs: seq<Override>, e: Event)
    ensures Followed(slot, runs) == Some(e) <==> TurnsInto(slot, runs, e)
  {
    hide Touched, Turns;
    if runs == [] {
      if slot == e {
        assert [slot][0] == slot && |[slot]| == |runs| + 1;
      }
    } else {
      var front, ov := runs[..|runs| - 1], runs[|runs| - 1];
      assert front + [ov] == runs;
      if Followed(slot, runs) == Some(e) {
        var before := Followed(slot, front).value;
        FollowedIsTold(slot, front, before);
        TouchedIsTold(before, ov, e);
        var trace :| |trace| == |front| + 1 && trace[0] == slot && trace[|front|] == before
                     && forall k :: 0 <= k < |front| ==> TurnsAt(front, trace, k);
        LongerTrace(front, ov, trace, e);
      }
      if TurnsInto(slot, runs, e) {
        var trace: seq<Event> :| |trace| == |runs| + 1 && trace[0] == slot && trace[|runs|] == e
                                 && forall k :: 0 <= k < |runs| ==> TurnsAt(runs, trace, k);
        ShorterTrace(front, ov, trace);
        FollowedIsTold(slot, front, trace[|front|]);
        TouchedIsTold(trace[|front|], ov, e);
      }
    }
  }

  lemma TouchedIsTold(a: Event, ov: Override, b: Event)
    ensures Touched(a, ov) == Some(b) <==> Turns(ov, a, b)
  {
  }

  lemma LongerTrace(runs: seq<Override>, ov: Override, trace: seq<Event>, e: Event)
    requires |trace| == |runs| + 1 && forall k :: 0 <= k < |runs| ==> TurnsAt(runs, trace, k)
    requires Turns(ov, trace[|runs|], e)
    ensures TurnsInto(trace[0], runs + [ov], e)
  {
    hide Turns;
    var all, more := runs + [ov], trace + [e];
    forall k: nat | k < |all|
      ensures TurnsAt(all, more, k)
    {
      if k < |runs| {
        assert TurnsAt(runs, trace, k);
      }
    }
  }

  lemma ShorterTrace(runs: seq<Override>, ov: Override, trace: seq<Event>)
    requires |trace| == |runs| + 2 && forall k :: 0 <= k < |runs| + 1 ==> TurnsAt(runs + [ov], trace, k)
    ensures TurnsInto(trace[0], runs, trace[|runs|]) && Turns(ov, trace[|runs|], trace[|runs| + 1])
  {
    hide Turns;
    var less := trace[..|runs| + 1];
    assert TurnsAt(runs + [ov], trace, |runs|);
    forall k: nat | k < |runs|
      ensures TurnsAt(runs, less, k)
    {
      assert TurnsAt(runs + [ov], trace, k);
    }
  }

  // ----- the order of the runs -----

  /**
   The overrides of THISANDFUTURE, each once, at their places in the component. One with an unreadable RECURRENCE-ID stays between
   those before it and those after it; between two such, they are ordered by the instant, and then by place.
   */
  ghost predicate RunsOf(ovs: seq<Override>, runs: seq<Override>, at: seq<nat>) {
    && |at| == |runs|
    && (forall k :: 0 <= k < |at| ==> at[k] < |ovs| && runs[k] == ovs[at[k]])
    && (forall i :: 0 <= i < |ovs| ==> (i in at <==> ovs[i].hasRid && ovs[i].thisAndFuture))
    && (forall j, k :: 0 <= j < k < |at| ==> InOrder(runs, at, j, k))
  }

  /** No RECURRENCE-ID from j to k is unreadable. */
  predicate Readable(runs: seq<Override>, j: nat, k: nat)
    requires k < |runs|
  {
    forall m :: j <= m <= k ==> runs[m].rid.Some?
  }

  predicate InOrder(runs: seq<Override>, at: seq<nat>, j: nat, k: nat)
    requires j < k < |at| == |runs|
  {
    if Readable(runs, j, k) then
      runs[j].rid.value < runs[k].rid.value || (runs[j].rid.value == runs[k].rid.value && at[j] < at[k])
    else at[j] < at[k]
  }

  /** Where the insertion puts one more. */
  lemma {:induction false} InsertedWhere(runs: seq<Override>, ov: Override) returns (p: nat)
    ensures p <= |runs| && InsertByRid(runs, ov) == runs[..p] + [ov] + runs[p..]
    ensures forall m :: p <= m < |runs| ==> Before(ov, runs[m])
    ensures p > 0 ==> !Before(ov, runs[p - 1])
  {
    p := |runs|;
    if runs != [] && Before(ov, runs[|runs| - 1]) {
      var front, last := runs[..|runs| - 1], runs[|runs| - 1];
      p := InsertedWhere(front, ov);
      hide Before;
      assert front[..p] + [ov] + front[p..] + [last] == runs[..p] + [ov] + runs[p..];
      assert forall m :: p <= m < |front| ==> front[m] == runs[m];
    }
  }

  /** All pairs are in order. */
  ghost predicate AllInOrder(runs: seq<Override>, at: seq<nat>) {
    |at| == |runs| && forall j, k :: 0 <= j < k < |at| ==> InOrder(runs, at, j, k)
  }

  lemma InsertedInOrder(runs: seq<Override>, at: seq<nat>, ov: Override, n: nat, p: nat)
    requires AllInOrder(runs, at) && p <= |runs|
    requires forall k :: 0 <= k < |at| ==> at[k] < n
    requires forall m :: p <= m < |runs| ==> Before(ov, runs[m])
    requires p > 0 ==> !Before(ov, runs[p - 1])
    ensures AllInOrder(Inserted(runs, p, ov), Inserted(at, p, n))
  {
    hide InOrder;
    var all, places := Inserted(runs, p, ov), Inserted(at, p, n);
    assert p < |runs| ==> Before(ov, runs[p]);
    forall j: nat, k: nat | j < k < |places|
      ensures InOrder(all, places, j, k)
    {
      if k == p {
        NewBehind(runs, at, ov, n, p, j);
      } else if j == p {
        NewInFront(runs, at, ov, n, p, k);
      } else {
        OldPair(runs, at, ov, n, p, j, k);
      }
    }
  }

  lemma NewBehind(runs: seq<Override>, at: seq<nat>, ov: Override, n: nat, p: nat, j: nat)
    requires AllInOrder(runs, at) && j < p <= |runs|
    requires forall k :: 0 <= k < |at| ==> at[k] < n
    requires !Before(ov, runs[p - 1])
    ensures InOrder(Inserted(runs, p, ov), Inserted(at, p, n), j, p)
  {
    var all := Inserted(runs, p, ov);
    if Readable(all, j, p) {
      assert all[p] == ov && all[p - 1] == runs[p - 1];
      assert forall m :: j <= m < p ==> runs[m] == all[m];
      if j < p - 1 {
        assert InOrder(runs, at, j, p - 1);
      }
    }
  }

  lemma NewInFront(runs: seq<Override>, at: seq<nat>, ov: Override, n: nat, p: nat, k: nat)
    requires AllInOrder(runs, at) && p < k <= |runs|
    requires forall m :: p <= m < |runs| ==> Before(ov, runs[m])
    ensures InOrder(Inserted(runs, p, ov), Inserted(at, p, n), p, k)
  {
    var all := Inserted(runs, p, ov);
    assert all[k] == runs[k - 1] && Before(ov, runs[k - 1]);
    forall m | p <= m <= k
      ensures all[m].rid.Some?
    {
      assert m > p ==> all[m] == runs[m - 1] && Before(ov, runs[m - 1]);
    }
  }

  lemma OldPair(runs: seq<Override>, at: seq<nat>, ov: Override, n: nat, p: nat, j: nat, k: nat)
    requires AllInOrder(runs, at) && p <= |runs| && j < k <= |runs| && j != p && k != p
    requires p < |runs| ==> ov.rid.Some?
    ensures InOrder(Inserted(runs, p, ov), Inserted(at, p, n), j, k)
  {
    var all := Inserted(runs, p, ov);
    var j0: nat, k0: nat := if j < p then j else j - 1, if k < p then k else k - 1;
    assert InOrder(runs, at, j0, k0);
    SameReadable(runs, ov, p, j, k);
    assert all[j] == runs[j0] && all[k] == runs[k0];
  }

  lemma SameReadable(runs: seq<Override>, ov: Override, p: nat, j: nat, k: nat)
    requires p <= |runs| && j < k <= |runs| && j != p && k != p
    requires p < |runs| ==> ov.rid.Some?
    ensures Readable(Inserted(runs, p, ov), j, k) <==> Readable(runs, if j < p then j else j - 1, if k < p then k else k - 1)
  {
    var all := Inserted(runs, p, ov);
    var j0: nat, k0: nat := if j < p then j else j - 1, if k < p then k else k - 1;
    if Readable(all, j, k) {
      forall m: nat | j0 <= m <= k0
        ensures runs[m].rid.Some?
      {
        var n := if m < p then m else m + 1;
        assert all[n] == runs[m] && j <= n <= k;
      }
    }
    if Readable(runs, j0, k0) {
      forall m: nat | j <= m <= k
        ensures all[m].rid.Some?
      {
        if m < p {
          assert all[m] == runs[m] && j0 <= m <= k0;
        } else if m > p {
          assert all[m] == runs[m - 1] && j0 <= m - 1 <= k0;
        }
      }
    }
  }

  lemma {:induction false} RunsAre(ovs: seq<Override>) returns (at: seq<nat>)
    ensures RunsOf(ovs, SortByRid(OfRange(ovs, true)), at)
  {
    at := [];
    if ovs != [] {
      var front, ov := ovs[..|ovs| - 1], ovs[|ovs| - 1];
      assert front + [ov] == ovs;
      at := RunsAre(front);
      hide RunsOf;
      var before := OfRange(front, true);
      if ov.hasRid && ov.thisAndFuture {
        assert (before + [ov])[..|before|] == before;
        at := OneRunMore(front, SortByRid(before), at, ov);
      } else {
        MorePlaces(front, SortByRid(before), at, ov);
        assert before + [] == before;
      }
    }
  }

  lemma OneRunMore(ovs: seq<Override>, runs: seq<Override>, at: seq<nat>, ov: Override) returns (places: seq<nat>)
    requires RunsOf(ovs, runs, at) && ov.hasRid && ov.thisAndFuture
    ensures RunsOf(ovs + [ov], InsertByRid(runs, ov), places)
  {
    hide InOrder;
    var p := InsertedWhere(runs, ov);
    InsertedInOrder(runs, at, ov, |ovs|, p);
    InsertedPlaces(ovs, runs, at, ov, p);
    places := Inserted(at, p, |ovs|);
  }

  lemma InsertedPlaces(ovs: seq<Override>, runs: seq<Override>, at: seq<nat>, ov: Override, p: nat)
    requires RunsOf(ovs, runs, at) && p <= |runs| && ov.hasRid && ov.thisAndFuture
    requires AllInOrder(Inserted(runs, p, ov), Inserted(at, p, |ovs|))
    ensures RunsOf(ovs + [ov], Inserted(runs, p, ov), Inserted(at, p, |ovs|))
  {
    hide InOrder;
    var all, places, more := ovs + [ov], Inserted(at, p, |ovs|), Inserted(runs, p, ov);
    InsertedPairs(ovs, runs, at, ov, p);
    forall i: nat | i < |all|
      ensures i in places <==> all[i].hasRid && all[i].thisAndFuture
    {
      InsertedHolds(at, p, |ovs|, i);
      assert i < |ovs| ==> all[i] == ovs[i];
      assert |ovs| !in at;
    }
  }

  lemma MorePlaces(ovs: seq<Override>, runs: seq<Override>, at: seq<nat>, ov: Override)
    requires RunsOf(ovs, runs, at) && !(ov.hasRid && ov.thisAndFuture)
    ensures RunsOf(ovs + [ov], runs, at)
  {
    hide InOrder;
    var all := ovs + [ov];
    assert forall k :: 0 <= k < |at| ==> all[at[k]] == ovs[at[k]];
    assert |ovs| !in at;
  }

  // ----- what a group gives -----

  /** The slots of a group, its THISANDFUTURE overrides in order, all its overrides, and the window. Without a base there are no slots. */
  datatype Group = Group(slots: seq<Event>, runs: seq<Override>, ovs: seq<Override>, orphans: bool, slotId: SlotId, source: string,
                         from: Time, to: Time)

  /**
   The event that a slot or an override puts into the result: a slot no single override names, as the runs left it, and the
   replacement of a single override; with no base, of every override. The slots come first.
   */
  ghost predicate Yields(g: Group, c: nat, e: Event) {
    && g.from <= e.end && e.start <= g.to
    && if c < |g.slots| then TurnsInto(g.slots[c], g.runs, e) && !Named(g.slotId, g.ovs, e.id)
       else
         && c - |g.slots| < |g.ovs| && (g.orphans || Single(g.ovs[c - |g.slots|]))
         && Replaces(g.slotId, g.source, g.ovs[c - |g.slots|], e)
  }

  /**
   The event touches the window, and is a slot that no single override names, as the runs left it, or the replacement of a single
   override, or with no base of any override.
   */
  ghost predicate Belongs(g: Group, e: Event) {
    && g.from <= e.end && e.start <= g.to
    && ((exists slot :: slot in g.slots && TurnsInto(slot, g.runs, e) && !Named(g.slotId, g.ovs, e.id)) ||
        (exists ov :: ov in g.ovs && (g.orphans || Single(ov)) && Replaces(g.slotId, g.source, ov, e)))
  }

  /** The events of the first n slots and overrides, each once and in their order. */
  ghost predicate Lists(g: Group, n: nat, events: seq<Event>, at: seq<nat>) {
    && |at| == |events|
    && (forall j, k :: 0 <= j < k < |at| ==> at[j] < at[k])
    && (forall k :: 0 <= k < |at| ==> at[k] < n && Yields(g, at[k], events[k]))
    && (forall c: nat, e :: c < n && Yields(g, c, e) ==> c in at)
  }

  lemma ListsNone(g: Group)
    ensures Lists(g, 0, [], [])
  {
  }

  function Put(e: Option<Event>): seq<Event> {
    if e.Some? then [e.value] else []
  }

  ghost predicate JustYields(g: Group, c: nat, e: Option<Event>) {
    if e.Some? then Yields(g, c, e.value) else forall x :: !Yields(g, c, x)
  }

  lemma ListsOne(g: Group, n: nat, events: seq<Event>, at: seq<nat>, e: Event)
    requires Lists(g, n, events, at) && Yields(g, n, e)
    ensures Lists(g, n + 1, events + [e], at + [n])
  {
    hide Yields;
    var more, all := at + [n], events + [e];
    forall k | 0 <= k < |more|
      ensures more[k] < n + 1 && Yields(g, more[k], all[k])
    {
      if k < |at| {
        assert more[k] == at[k] && all[k] == events[k];
      }
    }
    forall c: nat, x | c < n + 1 && Yields(g, c, x)
      ensures c in more
    {
      assert more[|at|] == n;
      if c < n {
        assert c in at;
      }
    }
  }

  /** One slot or override more. */
  lemma ListsMore(g: Group, n: nat, events: seq<Event>, at: seq<nat>, e: Option<Event>) returns (more: seq<nat>)
    requires Lists(g, n, events, at) && JustYields(g, n, e)
    ensures Lists(g, n + 1, events + Put(e), more)
  {
    hide Yields;
    more := at;
    if e.Some? {
      ListsOne(g, n, events, at, e.value);
      more := at + [n];
    } else {
      assert events + [] == events;
    }
  }

  lemma {:induction false} KeptBoth(a: seq<Event>, b: seq<Event>, keep: Event -> bool)
    ensures Kept(a + b, keep) == Kept(a, keep) + Kept(b, keep)
  {
    if b == [] {
      assert a + b == a;
    } else {
      var front, last := b[..|b| - 1], b[|b| - 1];
      assert a + b == (a + front) + [last] && b == front + [last];
      KeptBoth(a, front, keep);
      KeptSnoc(a + front, last, keep);
      KeptSnoc(front, last, keep);
    }
  }

  lemma {:induction false} SingleMembers(ovs: seq<Override>)
    ensures forall ov :: ov in OfRange(ovs, false) <==> ov in ovs && Single(ov)
  {
    if ovs != [] {
      SingleMembers(ovs[..|ovs| - 1]);
      assert ovs == ovs[..|ovs| - 1] + [ovs[|ovs| - 1]];
    }
  }

  lemma NamedIsInNames(slotId: SlotId, ovs: seq<Override>, id: string)
    ensures id in Names(slotId, OfRange(ovs, false)) <==> Named(slotId, ovs, id)
  {
    hide OfRange, Single;
    SingleMembers(ovs);
    if Named(slotId, ovs, id) {
      var k :| 0 <= k < |ovs| && Single(ovs[k]) && ovs[k].rid.Some? && slotId(ovs[k].rid.value) == id;
      assert ovs[k] in OfRange(ovs, false);
    }
  }

  /** The slots' part of the result. */
  function FromSlots(g: Group, n: nat): seq<Event>
    requires n <= |g.slots|
  {
    Kept(Kept(FollowedAll(g.slots[..n], g.runs), NotIn(Names(g.slotId, OfRange(g.ovs, false)))), Window(g.from, g.to))
  }

  function SlotGives(g: Group, n: nat): Option<Event>
    requires n < |g.slots|
  {
    var e := Followed(g.slots[n], g.runs);
    if e.Some? && e.value.id !in Names(g.slotId, OfRange(g.ovs, false)) && InWindow(g.from, g.to, e.value) then e else None
  }

  lemma FromSlotsSnoc(g: Group, n: nat)
    requires n < |g.slots|
    ensures FromSlots(g, n + 1) == FromSlots(g, n) + Put(SlotGives(g, n))
  {
    hide Kept, Followed, OfRange, Names, InWindow;
    var names := Names(g.slotId, OfRange(g.ovs, false));
    var e := Followed(g.slots[n], g.runs);
    var before := FollowedAll(g.slots[..n], g.runs);
    assert g.slots[..n + 1][..n] == g.slots[..n] && g.slots[..n + 1][n] == g.slots[n];
    if e.Some? {
      KeptSnoc(before, e.value, NotIn(names));
      if e.value.id !in names {
        KeptSnoc(Kept(before, NotIn(names)), e.value, Window(g.from, g.to));
      } else {
        assert Kept(before, NotIn(names)) + [] == Kept(before, NotIn(names));
      }
    } else {
      assert before + [] == before;
    }
  }

  lemma SlotYields(g: Group, n: nat)
    requires n < |g.slots|
    ensures JustYields(g, n, SlotGives(g, n))
  {
    hide Followed, OfRange, Names, TurnsInto, Named;
    var e := Followed(g.slots[n], g.runs);
    if e.Some? {
      FollowedIsTold(g.slots[n], g.runs, e.value);
      NamedIsInNames(g.slotId, g.ovs, e.value.id);
    }
    forall x | Yields(g, n, x)
      ensures e == Some(x)
    {
      FollowedIsTold(g.slots[n], g.runs, x);
    }
  }

  lemma {:induction false} SlotsListed(g: Group, n: nat) returns (at: seq<nat>)
    requires n <= |g.slots|
    ensures Lists(g, n, FromSlots(g, n), at)
  {
    hide FromSlots, SlotGives, Lists, JustYields, Put;
    if n == 0 {
      at := [];
      ListsNone(g);
      NothingYet(g);
    } else {
      at := SlotsListed(g, n - 1);
      FromSlotsSnoc(g, n - 1);
      SlotYields(g, n - 1);
      at := ListsMore(g, n - 1, FromSlots(g, n - 1), at, SlotGives(g, n - 1));
    }
  }

  lemma NothingYet(g: Group)
    ensures FromSlots(g, 0) == [] && FromOverrides(g, 0) == []
  {
    assert g.slots[..0] == [] && g.ovs[..0] == [];
  }

  /** The overrides that are replacements. */
  function Picked(g: Group, n: nat): seq<Override>
    requires n <= |g.ovs|
  {
    if g.orphans then g.ovs[..n] else OfRange(g.ovs[..n], false)
  }

  function FromOverrides(g: Group, n: nat): seq<Event>
    requires n <= |g.ovs|
  {
    Kept(Replacements(g.slotId, g.source, Picked(g, n)), Window(g.from, g.to))
  }

  lemma PickedSnoc(g: Group, n: nat)
    requires n < |g.ovs|
    ensures Picked(g, n + 1) == Picked(g, n) + if g.orphans || Single(g.ovs[n]) then [g.ovs[n]] else []
  {
    assert g.ovs[..n + 1] == g.ovs[..n] + [g.ovs[n]];
    assert g.ovs[..n + 1][..n] == g.ovs[..n];
  }

  function OverrideGives(g: Group, n: nat): Option<Event>
    requires n < |g.ovs|
  {
    var e := Replacement(g.slotId, g.source, g.ovs[n]);
    if (g.orphans || Single(g.ovs[n])) && e.Some? && InWindow(g.from, g.to, e.value) then e else None
  }

  lemma FromOverridesSnoc(g: Group, n: nat)
    requires n < |g.ovs|
    ensures FromOverrides(g, n + 1) == FromOverrides(g, n) + Put(OverrideGives(g, n))
  {
    hide Kept, Replacement, Single, InWindow, Picked;
    PickedSnoc(g, n);
    var before, ov := Picked(g, n), g.ovs[n];
    var e := Replacement(g.slotId, g.source, ov);
    if g.orphans || Single(ov) {
      assert (before + [ov])[..|before|] == before;
      if e.Some? {
        KeptSnoc(Replacements(g.slotId, g.source, before), e.value, Window(g.from, g.to));
      } else {
        assert Replacements(g.slotId, g.source, before) + [] == Replacements(g.slotId, g.source, before);
      }
    } else {
      assert before + [] == before;
    }
  }

  lemma OverrideYields(g: Group, n: nat, c: nat)
    requires n < |g.ovs| && c == |g.slots| + n
    ensures JustYields(g, c, OverrideGives(g, n))
  {
    hide TurnsInto, Named;
  }

  lemma {:induction false} OverridesListed(g: Group, n: nat) returns (at: seq<nat>)
    requires n <= |g.ovs|
    ensures Lists(g, |g.slots| + n, FromSlots(g, |g.slots|) + FromOverrides(g, n), at)
  {
    hide FromSlots, FromOverrides, OverrideGives, Lists, JustYields, Put;
    var s := FromSlots(g, |g.slots|);
    if n == 0 {
      at := SlotsListed(g, |g.slots|);
      NothingYet(g);
      assert s + [] == s;
    } else {
      at := OverridesListed(g, n - 1);
      FromOverridesSnoc(g, n - 1);
      OverrideYields(g, n - 1, |g.slots| + n - 1);
      var before, e := FromOverrides(g, n - 1), OverrideGives(g, n - 1);
      at := ListsMore(g, |g.slots| + n - 1, s + before, at, e);
      assert s + before + Put(e) == s + (before + Put(e));
    }
  }

  /** What is listed is just what some slot or override gives. */
  lemma ListedMembers(g: Group, n: nat, events: seq<Event>, at: seq<nat>, e: Event)
    requires Lists(g, n, events, at)
    ensures e in events <==> exists c: nat :: c < n && Yields(g, c, e)
  {
    if c: nat :| c < n && Yields(g, c, e) {
      var k := ListedAt(g, n, events, at, c, e);
      OneYield(g, c, e, events[k]);
    }
    if e in events {
      var k :| 0 <= k < |events| && events[k] == e;
      assert Yields(g, at[k], e);
    }
  }

  lemma ListedAt(g: Group, n: nat, events: seq<Event>, at: seq<nat>, c: nat, e: Event) returns (k: nat)
    requires Lists(g, n, events, at) && c < n && Yields(g, c, e)
    ensures k < |events| && Yields(g, c, events[k])
  {
    hide Yields;
    k :| k < |at| && at[k] == c;
  }

  lemma OneYield(g: Group, c: nat, a: Event, b: Event)
    requires Yields(g, c, a) && Yields(g, c, b)
    ensures a == b
  {
    if c < |g.slots| {
      FollowedIsTold(g.slots[c], g.runs, a);
      FollowedIsTold(g.slots[c], g.runs, b);
    }
  }

  /** In the words of the two sides: an un-named slot as the runs left it, or a replacement, that touches the window. */
  lemma YieldsEither(g: Group, e: Event)
    ensures (exists c: nat :: c < |g.slots| + |g.ovs| && Yields(g, c, e)) <==>
            Belongs(g, e)
  {
    hide TurnsInto, Named, Replaces, Single;
    if g.from <= e.end && e.start <= g.to {
      if slot :| slot in g.slots && TurnsInto(slot, g.runs, e) && !Named(g.slotId, g.ovs, e.id) {
        var i :| 0 <= i < |g.slots| && g.slots[i] == slot;
        assert Yields(g, i, e);
      }
      if ov :| ov in g.ovs && (g.orphans || Single(ov)) && Replaces(g.slotId, g.source, ov, e) {
        var k :| 0 <= k < |g.ovs| && g.ovs[k] == ov;
        assert Yields(g, |g.slots| + k, e);
      }
    }
    if c: nat :| c < |g.slots| + |g.ovs| && Yields(g, c, e) {
      if c < |g.slots| {
        assert g.slots[c] in g.slots;
      } else {
        assert g.ovs[c - |g.slots|] in g.ovs;
      }
    }
  }

  // ----- the program -----

  /** The places of the overrides with a RECURRENCE-ID of one range. */
  ghost predicate OfRangeAt(ovs: seq<Override>, thisAndFuture: bool, picked: seq<Override>, at: seq<nat>) {
    && |at| == |picked|
    && (forall j, k :: 0 <= j < k < |at| ==> at[j] < at[k])
    && (forall k :: 0 <= k < |at| ==> at[k] < |ovs| && picked[k] == ovs[at[k]])
    && (forall i :: 0 <= i < |ovs| ==> (i in at <==> ovs[i].hasRid && ovs[i].thisAndFuture == thisAndFuture))
  }

  lemma {:induction false} SinglesAre(ovs: seq<Override>) returns (at: seq<nat>)
    ensures OfRangeAt(ovs, false, OfRange(ovs, false), at)
  {
    at := [];
    if ovs != [] {
      var front, ov := ovs[..|ovs| - 1], ovs[|ovs| - 1];
      assert front + [ov] == ovs;
      at := SinglesAre(front);
      if Single(ov) {
        MoreOfRange(front, OfRange(front, false), at, ov);
        at := at + [|front|];
      } else {
        assert |front| !in at;
      }
    }
  }

  lemma MoreOfRange(ovs: seq<Override>, picked: seq<Override>, at: seq<nat>, ov: Override)
    requires OfRangeAt(ovs, false, picked, at) && Single(ov)
    ensures OfRangeAt(ovs + [ov], false, picked + [ov], at + [|ovs|])
  {
    var all, more := ovs + [ov], at + [|ovs|];
    assert more[|at|] == |ovs|;
    forall i | 0 <= i < |all|
      ensures i in more <==> all[i].hasRid && !all[i].thisAndFuture
    {
      assert i < |ovs| ==> all[i] == ovs[i] && (i in more <==> i in at);
    }
  }

  /** The overrides with a RECURRENCE-ID by range, those of THISANDFUTURE sorted. */
  method SplitOverrides(ovs: seq<Override>)
    returns (thisAndFuture: seq<Override>, single: seq<Override>, ghost at: seq<nat>, ghost singleAt: seq<nat>)
    ensures thisAndFuture == SortByRid(OfRange(ovs, true)) && single == OfRange(ovs, false)
    ensures RunsOf(ovs, thisAndFuture, at)
    ensures OfRangeAt(ovs, false, single, singleAt)
  {
    hide RunsOf, OfRangeAt;
    var runs: seq<Override> := [];
    single := [];
    for i := 0 to |ovs|
      invariant runs == OfRange(ovs[..i], true) && single == OfRange(ovs[..i], false)
    {
      assert ovs[..i + 1][..i] == ovs[..i];
      if !ovs[i].hasRid {
        continue;
      }
      if ovs[i].thisAndFuture {
        runs := runs + [ovs[i]];
        continue;
      }
      single := single + [ovs[i]];
    }
    assert ovs[..|ovs|] == ovs;
    thisAndFuture := SortByRid(runs);
    at := RunsAre(ovs);
    singleAt := SinglesAre(ovs);
  }

  /** Those that touch the window, each once and in order. */
  ghost predicate Touching(was: seq<Event>, from: Time, to: Time, now: seq<Event>, at: seq<nat>) {
    && |at| == |now|
    && (forall j, k :: 0 <= j < k < |at| ==> at[j] < at[k])
    && (forall k :: 0 <= k < |at| ==> at[k] < |was| && now[k] == was[at[k]])
    && (forall i :: 0 <= i < |was| ==> (i in at <==> from <= was[i].end && was[i].start <= to))
  }

  lemma {:induction false} KeptTouch(was: seq<Event>, from: Time, to: Time) returns (at: seq<nat>)
    ensures Touching(was, from, to, Kept(was, Window(from, to)), at)
  {
    at := [];
    if was != [] {
      var front, e := was[..|was| - 1], was[|was| - 1];
      assert front + [e] == was;
      at := KeptTouch(front, from, to);
      if from <= e.end && e.start <= to {
        MoreTouch(front, from, to, Kept(front, Window(from, to)), at, e);
        at := at + [|front|];
      } else {
        assert |front| !in at;
      }
    }
  }

  lemma MoreTouch(was: seq<Event>, from: Time, to: Time, now: seq<Event>, at: seq<nat>, e: Event)
    requires Touching(was, from, to, now, at) && from <= e.end && e.start <= to
    ensures Touching(was + [e], from, to, now + [e], at + [|was|])
  {
    var all, more := was + [e], at + [|was|];
    assert more[|at|] == |was|;
    forall i | 0 <= i < |all|
      ensures i in more <==> from <= all[i].end && all[i].start <= to
    {
      assert i < |was| ==> all[i] == was[i] && (i in more <==> i in at);
    }
  }

  /** The events that touch the window, in order: those that end before it or start after it go. */
  method FilterEventRange(events: array<Event>, n: nat, from: Time, to: Time) returns (kept: nat, ghost at: seq<nat>)
    requires n <= events.Length
    modifies events
    ensures kept <= n && events[..kept] == Kept(old(events[..n]), Window(from, to))
    ensures Touching(old(events[..n]), from, to, events[..kept], at)
  {
    at := KeptTouch(events[..n], from, to);
    kept := FilterInPlace(events, n, Window(from, to));
  }

  method Copied(events: seq<Event>) returns (a: array<Event>)
    ensures fresh(a) && a[..] == events
  {
    a := new Event[|events|](i requires 0 <= i < |events| => events[i]);
  }

  /** The slots reshaped and then replaced, and the replacements behind them. */
  method FoldGroup(slots: array<Event>, ovs: seq<Override>, slotId: SlotId, source: string)
    returns (folded: seq<Event>, ghost runs: seq<Override>, ghost runsAt: seq<nat>)
    modifies slots
    ensures folded == Folded(slotId, source, old(slots[..]), ovs)
    ensures runs == SortByRid(OfRange(ovs, true)) && RunsOf(ovs, runs, runsAt)
  {
    hide Kept, ReshapedAll, Names, Replacements, SortByRid, OfRange, RunsOf, OfRangeAt;
    var thisAndFuture, single, places, _ := SplitOverrides(ovs);
    runs, runsAt := thisAndFuture, places;
    assert slots[..slots.Length] == slots[..];
    var n := ApplyRuns(slots, slots.Length, thisAndFuture);
    var kept, added := ApplySingles(slots, n, single, slotId, source);
    folded := slots[..kept] + added;
  }

  /**
   A group with its base: the recurrence slots are reshaped, then replaced, in place. An event is in the result exactly if it
   belongs there, and the events stand in the order of the slots and then of the overrides.
   */
  method ExpandGroup(slots: array<Event>, ovs: seq<Override>, slotId: SlotId, source: string, from: Time, to: Time)
    returns (events: seq<Event>, ghost runs: seq<Override>, ghost runsAt: seq<nat>, ghost at: seq<nat>)
    modifies slots
    ensures events == Kept(Folded(slotId, source, old(slots[..]), ovs), Window(from, to))
    ensures RunsOf(ovs, runs, runsAt)
    ensures forall e :: e in events <==>
      Belongs(Group(old(slots[..]), runs, ovs, false, slotId, source, from, to), e)
    ensures Lists(Group(old(slots[..]), runs, ovs, false, slotId, source, from, to), slots.Length + |ovs|, events, at)
  {
    hide Kept, Folded, SortByRid, OfRange, RunsOf, Touching, Lists, Belongs, Window;
    ghost var was := slots[..];
    var folded;
    folded, runs, runsAt := FoldGroup(slots, ovs, slotId, source);
    var all := Copied(folded);
    assert all[..all.Length] == folded;
    var m, _ := FilterEventRange(all, all.Length, from, to);
    events := all[..m];
    at := GroupGives(slotId, source, was, ovs, from, to);
  }

  lemma GroupGives(slotId: SlotId, source: string, slots: seq<Event>, ovs: seq<Override>, from: Time, to: Time) returns (at: seq<nat>)
    ensures var g := Group(slots, SortByRid(OfRange(ovs, true)), ovs, false, slotId, source, from, to);
      Lists(g, |slots| + |ovs|, Kept(Folded(slotId, source, slots, ovs), Window(from, to)), at)
    ensures forall e :: e in Kept(Folded(slotId, source, slots, ovs), Window(from, to)) <==>
      Belongs(Group(slots, SortByRid(OfRange(ovs, true)), ovs, false, slotId, source, from, to), e)
  {
    hide Belongs, Kept, ReshapedAll, FollowedAll, Names, Replacements, SortByRid, OfRange, Lists, Window;
    var runs := SortByRid(OfRange(ovs, true));
    var g := Group(slots, runs, ovs, false, slotId, source, from, to);
    at := OverridesListed(g, |ovs|);
    SlotBySlot(slots, runs);
    assert slots[..|slots|] == slots && ovs[..|ovs|] == ovs;
    KeptBoth(Kept(ReshapedAll(slots, runs), NotIn(Names(slotId, OfRange(ovs, false)))), Replacements(slotId, source, OfRange(ovs, false)),
             Window(from, to));
    GroupMembers(g, Kept(Folded(slotId, source, slots, ovs), Window(from, to)), at);
  }

  lemma GroupMembers(g: Group, events: seq<Event>, at: seq<nat>)
    requires Lists(g, |g.slots| + |g.ovs|, events, at)
    ensures forall e :: e in events <==> Belongs(g, e)
  {
    hide Belongs, Lists, Yields;
    forall e
      ensures e in events <==> Belongs(g, e)
    {
      ListedMembers(g, |g.slots| + |g.ovs|, events, at, e);
      YieldsEither(g, e);
    }
  }

  /** A group without its base: every override, whatever its range, stands for itself. */
  method ExpandOrphans(ovs: seq<Override>, slotId: SlotId, source: string, from: Time, to: Time)
    returns (events: seq<Event>, ghost at: seq<nat>)
    ensures events == Kept(Replacements(slotId, source, ovs), Window(from, to))
    ensures forall e :: e in events <==>
      Belongs(Group([], [], ovs, true, slotId, source, from, to), e)
    ensures Lists(Group([], [], ovs, true, slotId, source, from, to), |ovs|, events, at)
  {
    hide Kept, Replacements, Touching, Lists, Belongs, Window;
    var none := Copied([]);
    var kept, added := ApplySingles(none, 0, ovs, slotId, source);
    var all := Copied(added);
    assert all[..all.Length] == added;
    var m, _ := FilterEventRange(all, all.Length, from, to);
    events := all[..m];
    at := OrphansGive(slotId, source, ovs, from, to);
    GroupMembers(Group([], [], ovs, true, slotId, source, from, to), events, at);
  }

  lemma OrphansGive(slotId: SlotId, source: string, ovs: seq<Override>, from: Time, to: Time) returns (at: seq<nat>)
    ensures Lists(Group([], [], ovs, true, slotId, source, from, to), |ovs|, Kept(Replacements(slotId, source, ovs), Window(from, to)), at)
  {
    hide Kept, Replacements, Lists, Window;
    var g := Group([], [], ovs, true, slotId, source, from, to);
    at := OverridesListed(g, |ovs|);
    assert ovs[..|ovs|] == ovs;
    assert FromSlots(g, 0) == [] by {
      NothingYet(g);
    }
    assert [] + FromOverrides(g, |ovs|) == FromOverrides(g, |ovs|);
  }
}
