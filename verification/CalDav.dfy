/**
 Folding RECURRENCE-ID overrides into a recurrence set (internal/calendar/caldav.go:338-517; section 3.8.4.4 of RFC 5545).

 The slots that the recurrence rule generates are an input. Times are instants in seconds.
 A Go slice over the slots is an array and the number of its elements that are in use.
 */
module CalDav {
  import opened Common

  type Time = int

  const HOUR: int := 3600

  datatype Event = Event(id: string, source: string, title: string, start: Time, end: Time)

  /** An override's own component, when it decodes. */
  datatype Decoded = Decoded(title: string, start: Time, end: Time)

  /** Whether there is a RECURRENCE-ID and the instant it reads as, RANGE=THISANDFUTURE, STATUS:CANCELLED, and the component. */
  datatype Override = Override(hasRid: bool, rid: Option<Time>, thisAndFuture: bool, cancelled: bool, event: Option<Decoded>)

  /** The identity of the slot that starts at an instant. */
  type SlotId = Time -> string

  // ----- filtering in place -----

  function Kept(slots: seq<Event>, keep: Event -> bool): seq<Event> {
    if slots == [] then []
    else Kept(slots[..|slots| - 1], keep) + if keep(slots[|slots| - 1]) then [slots[|slots| - 1]] else []
  }

  lemma KeptSnoc(slots: seq<Event>, e: Event, keep: Event -> bool)
    ensures Kept(slots + [e], keep) == Kept(slots, keep) + if keep(e) then [e] else []
  {
    assert (slots + [e])[..|slots|] == slots;
  }

  lemma PutBehind(before: seq<Event>, after: seq<Event>, kept: nat, e: Event)
    requires kept < |before| && after == before[kept := e]
    ensures after[..kept + 1] == before[..kept] + [e]
  {
  }

  /** A pass that writes the kept elements over the front of the slice it reads. */
  method FilterInPlace(slots: array<Event>, n: nat, keep: Event -> bool) returns (kept: nat)
    requires n <= slots.Length
    modifies slots
    ensures kept <= n && slots[..kept] == Kept(old(slots[..n]), keep)
  {
    kept := 0;
    ghost var was := slots[..n];
    assert Kept([], keep) == [];
    hide Kept;
    for i := 0 to n
      invariant kept <= i && slots[..kept] == Kept(was[..i], keep)
      invariant forall j :: i <= j < n ==> slots[j] == was[j]
    {
      KeptSnoc(was[..i], was[i], keep);
      assert was[..i + 1] == was[..i] + [was[i]];
      if keep(slots[i]) {
        ghost var before := slots[..];
        assert before[..kept] == slots[..kept];
        slots[kept] := slots[i];
        PutBehind(before, slots[..], kept, was[i]);
        assert slots[..kept + 1] == slots[..][..kept + 1];
        kept := kept + 1;
      }
    }
    assert was[..n] == was;
  }

  lemma {:induction false} KeptMembers(slots: seq<Event>, keep: Event -> bool)
    ensures forall e :: e in Kept(slots, keep) <==> e in slots && keep(e)
  {
    if slots != [] {
      var front, last := slots[..|slots| - 1], slots[|slots| - 1];
      KeptMembers(front, keep);
      assert slots == front + [last];
    }
  }

  // ----- THISANDFUTURE -----

  function StartsBefore(rid: Time): Event -> bool {
    (e: Event) => e.start < rid
  }

  function Moved(s: Event, rid: Time, d: Decoded): Event {
    var duration := if d.end - d.start <= 0 then HOUR else d.end - d.start;
    var start := s.start + (d.start - rid);
    s.(start := start, end := start + duration, title := d.title)
  }

  function Shifted(slots: seq<Event>, rid: Time, d: Decoded): (r: seq<Event>)
    ensures |r| == |slots|
    ensures forall i :: 0 <= i < |slots| ==> r[i] == if slots[i].start < rid then slots[i] else Moved(slots[i], rid, d)
  {
    seq(|slots|, i requires 0 <= i < |slots| => if slots[i].start < rid then slots[i] else Moved(slots[i], rid, d))
  }

  /** The slots after one THISANDFUTURE override. */
  function Reshaped(slots: seq<Event>, ov: Override): seq<Event> {
    if ov.rid.None? then slots
    else if ov.cancelled then Kept(slots, StartsBefore(ov.rid.value))
    else if ov.event.None? then slots
    else Shifted(slots, ov.rid.value, ov.event.value)
  }

  function ReshapedAll(slots: seq<Event>, ovs: seq<Override>): seq<Event> {
    if ovs == [] then slots else Reshaped(ReshapedAll(slots, ovs[..|ovs| - 1]), ovs[|ovs| - 1])
  }

  method ApplyThisAndFuture(slots: array<Event>, n: nat, ov: Override) returns (kept: nat)
    requires n <= slots.Length
    modifies slots
    ensures kept <= n && slots[..kept] == Reshaped(old(slots[..n]), ov)
  {
    if ov.rid.None? {
      return n;
    }
    var rid := ov.rid.value;
    if ov.cancelled {
      kept := FilterInPlace(slots, n, StartsBefore(ov.rid.value));
      return;
    }
    if ov.event.None? {
      return n;
    }
    var d := ov.event.value;
    var delta := d.start - rid;
    var duration := d.end - d.start;
    if duration <= 0 {
      duration := HOUR;
    }
    ghost var was := slots[..n];
    for i := 0 to n
      invariant forall j :: 0 <= j < i ==> slots[j] == Shifted(was, rid, d)[j]
      invariant forall j :: i <= j < n ==> slots[j] == was[j]
    {
      if slots[i].start < rid {
        continue;
      }
      var start := slots[i].start + delta;
      slots[i] := slots[i].(start := start, end := start + duration, title := d.title);
    }
    assert slots[..n] == Shifted(was, rid, d);
    kept := n;
  }

  function Ids(slots: seq<Event>): (r: seq<string>)
    ensures |r| == |slots| && forall i :: 0 <= i < |slots| ==> r[i] == slots[i].id
  {
    seq(|slots|, i requires 0 <= i < |slots| => slots[i].id)
  }

  lemma {:induction false} KeptDistinct(slots: seq<Event>, keep: Event -> bool)
    requires Distinct(Ids(slots))
    ensures Distinct(Ids(Kept(slots, keep)))
  {
    if slots != [] {
      var front, last := slots[..|slots| - 1], slots[|slots| - 1];
      assert Ids(slots) == Ids(front) + [last.id];
      assert forall i :: 0 <= i < |front| ==> Ids(front)[i] == Ids(slots)[i];
      KeptDistinct(front, keep);
      KeptMembers(front, keep);
      var k := Kept(front, keep);
      forall i | 0 <= i < |k|
        ensures k[i].id != last.id
      {
        assert k[i] in front;
        var j :| 0 <= j < |front| && front[j] == k[i];
        assert Ids(slots)[j] != Ids(slots)[|front|];
      }
    }
  }

  /** Reshaping keeps every remaining slot's identity, and makes none. */
  lemma ReshapedIds(slots: seq<Event>, ov: Override)
    requires Distinct(Ids(slots))
    ensures Distinct(Ids(Reshaped(slots, ov)))
    ensures forall id :: id in Ids(Reshaped(slots, ov)) ==> id in Ids(slots)
  {
    var r := Reshaped(slots, ov);
    if ov.rid.Some? && ov.cancelled {
      KeptDistinct(slots, StartsBefore(ov.rid.value));
      KeptMembers(slots, StartsBefore(ov.rid.value));
      forall i | 0 <= i < |r|
        ensures r[i].id in Ids(slots)
      {
        assert r[i] in slots;
        var j :| 0 <= j < |slots| && slots[j] == r[i];
        assert Ids(slots)[j] == r[i].id;
      }
    } else {
      assert Ids(r) == Ids(slots);
    }
  }

  lemma {:induction false} ReshapedAllIds(slots: seq<Event>, ovs: seq<Override>)
    requires Distinct(Ids(slots))
    ensures Distinct(Ids(ReshapedAll(slots, ovs)))
    ensures forall id :: id in Ids(ReshapedAll(slots, ovs)) ==> id in Ids(slots)
  {
    if ovs != [] {
      ReshapedAllIds(slots, ovs[..|ovs| - 1]);
      ReshapedIds(ReshapedAll(slots, ovs[..|ovs| - 1]), ovs[|ovs| - 1]);
    }
  }

  // ----- one slot through many runs -----

  /** What one override makes of one slot; None when it cancels it. */
  function Touched(e: Event, ov: Override): Option<Event> {
    if ov.rid.None? || e.start < ov.rid.value then Some(e)
    else if ov.cancelled then None
    else if ov.event.None? then Some(e)
    else Some(Moved(e, ov.rid.value, ov.event.value))
  }

  /** The slot after a sequence of overrides. */
  function Followed(e: Event, ovs: seq<Override>): Option<Event> {
    if ovs == [] then Some(e)
    else
      var before := Followed(e, ovs[..|ovs| - 1]);
      if before.None? then None else Touched(before.value, ovs[|ovs| - 1])
  }

  function FollowedAll(slots: seq<Event>, ovs: seq<Override>): seq<Event> {
    if slots == [] then []
    else
      var e := Followed(slots[|slots| - 1], ovs);
      FollowedAll(slots[..|slots| - 1], ovs) + if e.Some? then [e.value] else []
  }

  function TouchedAll(slots: seq<Event>, ov: Override): seq<Event> {
    if slots == [] then []
    else
      var e := Touched(slots[|slots| - 1], ov);
      TouchedAll(slots[..|slots| - 1], ov) + if e.Some? then [e.value] else []
  }

  lemma {:induction false} ReshapedIsTouched(slots: seq<Event>, ov: Override)
    ensures Reshaped(slots, ov) == TouchedAll(slots, ov)
  {
    if slots != [] {
      var front, last := slots[..|slots| - 1], slots[|slots| - 1];
      ReshapedIsTouched(front, ov);
      if ov.rid.Some? && !ov.cancelled && ov.event.Some? {
        assert Shifted(slots, ov.rid.value, ov.event.value)
            == Shifted(front, ov.rid.value, ov.event.value) + [Touched(last, ov).value];
      } else if ov.rid.None? || !ov.cancelled {
        assert slots == front + [last];
      }
    }
  }

  lemma TouchedSnoc(slots: seq<Event>, e: Event, ov: Override)
    ensures TouchedAll(slots + [e], ov) == TouchedAll(slots, ov) + if Touched(e, ov).Some? then [Touched(e, ov).value] else []
  {
    hide Touched;
    assert (slots + [e])[..|slots|] == slots;
  }

  lemma FollowedSnoc(e: Event, ovs: seq<Override>, ov: Override)
    ensures Followed(e, ovs + [ov]) == if Followed(e, ovs).None? then None else Touched(Followed(e, ovs).value, ov)
  {
    hide Touched;
    assert (ovs + [ov])[..|ovs|] == ovs;
  }

  lemma {:induction false} TouchedFollowed(slots: seq<Event>, ovs: seq<Override>, ov: Override)
    ensures TouchedAll(FollowedAll(slots, ovs), ov) == FollowedAll(slots, ovs + [ov])
  {
    hide Touched, Followed;
    if slots != [] {
      var front, last := slots[..|slots| - 1], slots[|slots| - 1];
      TouchedFollowed(front, ovs, ov);
      FollowedSnoc(last, ovs, ov);
      var e := Followed(last, ovs);
      if e.Some? {
        TouchedSnoc(FollowedAll(front, ovs), e.value, ov);
      } else {
        assert FollowedAll(front, ovs) + [] == FollowedAll(front, ovs);
      }
    }
  }

  lemma {:induction false} FollowedNothing(slots: seq<Event>)
    ensures FollowedAll(slots, []) == slots
  {
    if slots != [] {
      FollowedNothing(slots[..|slots| - 1]);
    }
  }

  /** The passes over the whole slice do to each slot what the overrides do to it alone. */
  lemma {:induction false} SlotBySlot(slots: seq<Event>, ovs: seq<Override>)
    ensures ReshapedAll(slots, ovs) == FollowedAll(slots, ovs)
  {
    if ovs == [] {
      FollowedNothing(slots);
    } else {
      var front, ov := ovs[..|ovs| - 1], ovs[|ovs| - 1];
      SlotBySlot(slots, front);
      ReshapedIsTouched(FollowedAll(slots, front), ov);
      TouchedFollowed(slots, front, ov);
      assert ovs == front + [ov];
    }
  }

  lemma {:induction false} FollowedKeepsId(e: Event, ovs: seq<Override>)
    ensures Followed(e, ovs).Some? ==> Followed(e, ovs).value.id == e.id
  {
    if ovs != [] {
      FollowedKeepsId(e, ovs[..|ovs| - 1]);
    }
  }

  lemma {:induction false} FollowedMembers(slots: seq<Event>, ovs: seq<Override>, x: Event)
    ensures x in FollowedAll(slots, ovs) <==> exists i :: 0 <= i < |slots| && Followed(slots[i], ovs) == Some(x)
  {
    hide Followed;
    if slots != [] {
      var front, last := slots[..|slots| - 1], slots[|slots| - 1];
      FollowedMembers(front, ovs, x);
      assert slots == front + [last];
      if i :| 0 <= i < |front| && Followed(front[i], ovs) == Some(x) {
        assert Followed(slots[i], ovs) == Some(x);
      }
    }
  }

  /** The one event under a slot's id is what the overrides make of that slot. */
  lemma SlotAfter(slots: seq<Event>, ovs: seq<Override>, i: nat, x: Event)
    requires Distinct(Ids(slots)) && i < |slots|
    ensures x in ReshapedAll(slots, ovs) && x.id == slots[i].id <==> Followed(slots[i], ovs) == Some(x)
  {
    SlotBySlot(slots, ovs);
    FollowedMembers(slots, ovs, x);
    hide Followed, FollowedAll, ReshapedAll;
    FollowedKeepsId(slots[i], ovs);
    if j :| 0 <= j < |slots| && Followed(slots[j], ovs) == Some(x) {
      FollowedKeepsId(slots[j], ovs);
      assert Ids(slots)[i] == slots[i].id && Ids(slots)[j] == slots[j].id;
    }
  }

  /** The sum of the shifts of the overrides that reach a slot of this start; None once one of them has cancelled it. */
  function Drift(start: Time, ovs: seq<Override>): Option<int> {
    if ovs == [] then Some(0)
    else
      var drift, ov := Drift(start, ovs[..|ovs| - 1]), ovs[|ovs| - 1];
      if drift.None? || ov.rid.None? || start + drift.value < ov.rid.value then drift
      else if ov.cancelled then None
      else if ov.event.None? then drift
      else Some(drift.value + ov.event.value.start - ov.rid.value)
  }

  lemma {:induction false} FollowedByDrift(e: Event, ovs: seq<Override>)
    ensures Followed(e, ovs).None? <==> Drift(e.start, ovs).None?
    ensures Followed(e, ovs).Some? ==> Followed(e, ovs).value.start == e.start + Drift(e.start, ovs).value
  {
    if ovs != [] {
      FollowedByDrift(e, ovs[..|ovs| - 1]);
    }
  }

  /** Under the slot's id there is an event at that start. */
  ghost predicate StandsAt(slots: seq<Event>, id: string, start: Time) {
    exists x :: x in slots && x.id == id && x.start == start
  }

  /** The overrides before have not cancelled the slot, and have moved it by nothing, or back to where it is wanted. */
  predicate LandsAt(start: Time, before: seq<Override>, wanted: Time) {
    var drift := Drift(start, before);
    drift.Some? && (drift.value == 0 || (drift.value < 0 && drift.value == wanted - start))
  }

  /**
   A slot that a THISANDFUTURE override names stands, after that override, at the start the override gives it, exactly
   when the overrides before it have not cancelled it and have not moved it in all, or have moved it back by as much as
   this one would. Runs are matched by the current start, so moves add up.
   */
  lemma NamedSlotLands(slots: seq<Event>, before: seq<Override>, ov: Override, i: nat)
    requires Distinct(Ids(slots)) && i < |slots|
    requires ov.rid.Some? && ov.rid.value == slots[i].start && !ov.cancelled && ov.event.Some?
    ensures StandsAt(ReshapedAll(slots, before + [ov]), slots[i].id, ov.event.value.start) <==>
            LandsAt(slots[i].start, before, ov.event.value.start)
  {
    FollowedByDrift(slots[i], before);
    FollowedSnoc(slots[i], before, ov);
    StandsWhere(slots, before + [ov], i, ov.event.value.start);
  }

  lemma StandsWhere(slots: seq<Event>, ovs: seq<Override>, i: nat, start: Time)
    requires Distinct(Ids(slots)) && i < |slots|
    ensures var now := Followed(slots[i], ovs);
      StandsAt(ReshapedAll(slots, ovs), slots[i].id, start) <==> now.Some? && now.value.start == start
  {
    hide Followed, ReshapedAll;
    var now := Followed(slots[i], ovs);
    if now.Some? {
      SlotAfter(slots, ovs, i, now.value);
    }
    if x :| x in ReshapedAll(slots, ovs) && x.id == slots[i].id && x.start == start {
      SlotAfter(slots, ovs, i, x);
    }
  }

  ghost predicate Gone(slots: seq<Event>, id: string) {
    forall x :: x in slots ==> x.id != id
  }

  lemma GoneWhen(slots: seq<Event>, ovs: seq<Override>, i: nat)
    requires Distinct(Ids(slots)) && i < |slots|
    ensures Gone(ReshapedAll(slots, ovs), slots[i].id) <==> Followed(slots[i], ovs).None?
  {
    forall x | x in ReshapedAll(slots, ovs) && x.id == slots[i].id
      ensures Followed(slots[i], ovs) == Some(x)
    {
      SlotAfter(slots, ovs, i, x);
    }
    if Followed(slots[i], ovs).Some? {
      SlotAfter(slots, ovs, i, Followed(slots[i], ovs).value);
    }
  }

  /** A cancelled one takes its slot away exactly unless the overrides before it have moved the slot back. */
  lemma NamedSlotCancelled(slots: seq<Event>, before: seq<Override>, ov: Override, i: nat)
    requires Distinct(Ids(slots)) && i < |slots|
    requires ov.rid.Some? && ov.rid.value == slots[i].start && ov.cancelled
    ensures Gone(ReshapedAll(slots, before + [ov]), slots[i].id) <==>
            Drift(slots[i].start, before).None? || Drift(slots[i].start, before).value >= 0
  {
    FollowedByDrift(slots[i], before);
    FollowedSnoc(slots[i], before, ov);
    GoneWhen(slots, before + [ov], i);
  }

  /** The first run moves a slot from 10 to 15; the second names it and wants it at 12, but it ends at 17. */
  lemma RunsAddUp()
    ensures var s := Event("x", "", "", 10, 11);
      var first := Override(true, Some(5), true, false, Some(Decoded("", 10, 11)));
      var second := Override(true, Some(10), true, false, Some(Decoded("", 12, 13)));
      && StandsAt(ReshapedAll([s], [first, second]), s.id, 17)
      && !StandsAt(ReshapedAll([s], [first, second]), s.id, 12)
  {
    var s := Event("x", "", "", 10, 11);
    var first := Override(true, Some(5), true, false, Some(Decoded("", 10, 11)));
    var second := Override(true, Some(10), true, false, Some(Decoded("", 12, 13)));
    assert Ids([s]) == ["x"];
    FollowedSnoc(s, [], first);
    FollowedSnoc(s, [first], second);
    assert [] + [first] == [first] && [first] + [second] == [first, second];
    StandsWhere([s], [first, second], 0, 17);
    StandsWhere([s], [first, second], 0, 12);
  }

  // ----- single instances -----

  /** The event that takes the slot's place, if there is one. */
  function Replacement(slotId: SlotId, source: string, ov: Override): Option<Event> {
    if ov.rid.None? || ov.cancelled || ov.event.None? then None
    else Some(Event(slotId(ov.rid.value), source, ov.event.value.title, ov.event.value.start, ov.event.value.end))
  }

  function Replacements(slotId: SlotId, source: string, ovs: seq<Override>): seq<Event> {
    if ovs == [] then []
    else
      var r := Replacement(slotId, source, ovs[|ovs| - 1]);
      Replacements(slotId, source, ovs[..|ovs| - 1]) + if r.Some? then [r.value] else []
  }

  function Names(slotId: SlotId, ovs: seq<Override>): set<string> {
    set ov | ov in ovs && ov.rid.Some? :: slotId(ov.rid.value)
  }

  method ApplySingleOverride(slots: array<Event>, n: nat, added: seq<Event>, ov: Override, slotId: SlotId, source: string)
    returns (kept: nat, more: seq<Event>)
    requires n <= slots.Length
    modifies slots
    ensures kept <= n
    ensures slots[..kept] == (if ov.rid.None? then old(slots[..n]) else Kept(old(slots[..n]), NotId(slotId(ov.rid.value))))
    ensures more == added + (var r := Replacement(slotId, source, ov); if r.Some? then [r.value] else [])
  {
    if ov.rid.None? {
      return n, added;
    }
    var id := slotId(ov.rid.value);
    kept := FilterInPlace(slots, n, NotId(id));
    if ov.cancelled || ov.event.None? {
      return kept, added;
    }
    var d := ov.event.value;
    more := added + [Event(id, source, d.title, d.start, d.end)];
  }

  function NotId(id: string): Event -> bool {
    (e: Event) => e.id != id
  }

  function NotIn(ids: set<string>): Event -> bool {
    (e: Event) => e.id !in ids
  }

  lemma {:induction false} KeptTwice(slots: seq<Event>, ids: set<string>, id: string)
    ensures Kept(Kept(slots, NotIn(ids)), NotId(id)) == Kept(slots, NotIn(ids + {id}))
  {
    if slots != [] {
      var front, last := slots[..|slots| - 1], slots[|slots| - 1];
      KeptTwice(front, ids, id);
      var k := Kept(front, NotIn(ids));
      if last.id !in ids {
        assert (k + [last])[..|k|] == k;
      } else {
        assert k + [] == k;
      }
    }
  }

  lemma {:induction false} KeptAll(slots: seq<Event>)
    ensures Kept(slots, NotIn({})) == slots
  {
    if slots != [] {
      KeptAll(slots[..|slots| - 1]);
    }
  }

  lemma NamesGrow(slotId: SlotId, ovs: seq<Override>, i: nat)
    requires i < |ovs|
    ensures Names(slotId, ovs[..i + 1]) ==
            Names(slotId, ovs[..i]) + if ovs[i].rid.Some? then {slotId(ovs[i].rid.value)} else {}
  {
    assert ovs[..i + 1] == ovs[..i] + [ovs[i]];
    assert forall ov :: ov in ovs[..i + 1] <==> ov in ovs[..i] || ov == ovs[i];
  }

  // ----- the whole group -----

  /** The overrides with a RECURRENCE-ID, of one range. */
  function OfRange(ovs: seq<Override>, thisAndFuture: bool): seq<Override> {
    if ovs == [] then []
    else
      var ov := ovs[|ovs| - 1];
      OfRange(ovs[..|ovs| - 1], thisAndFuture) + if ov.hasRid && ov.thisAndFuture == thisAndFuture then [ov] else []
  }

  predicate Before(a: Override, b: Override) {
    a.rid.Some? && b.rid.Some? && a.rid.value < b.rid.value
  }

  function InsertByRid(sorted: seq<Override>, ov: Override): seq<Override> {
    if sorted != [] && Before(ov, sorted[|sorted| - 1]) then InsertByRid(sorted[..|sorted| - 1], ov) + [sorted[|sorted| - 1]]
    else sorted + [ov]
  }

  function SortByRid(ovs: seq<Override>): seq<Override> {
    if ovs == [] then [] else InsertByRid(SortByRid(ovs[..|ovs| - 1]), ovs[|ovs| - 1])
  }

  /** Everything the group expands to, before the window is applied. */
  function Folded(slotId: SlotId, source: string, slots: seq<Event>, ovs: seq<Override>): seq<Event> {
    var single := OfRange(ovs, false);
    Kept(ReshapedAll(slots, SortByRid(OfRange(ovs, true))), NotIn(Names(slotId, single))) + Replacements(slotId, source, single)
  }

  predicate InWindow(from: Time, to: Time, e: Event) {
    !(e.end < from || e.start > to)
  }

  function Window(from: Time, to: Time): Event -> bool {
    (e: Event) => InWindow(from, to, e)
  }

  method ApplyRuns(slots: array<Event>, n: nat, runs: seq<Override>) returns (kept: nat)
    requires n <= slots.Length
    modifies slots
    ensures kept <= n && slots[..kept] == ReshapedAll(old(slots[..n]), runs)
  {
    hide Reshaped;
    kept := n;
    ghost var was := slots[..n];
    for i := 0 to |runs|
      invariant kept <= n && slots[..kept] == ReshapedAll(was, runs[..i])
    {
      assert runs[..i + 1][..i] == runs[..i];
      kept := ApplyThisAndFuture(slots, kept, runs[i]);
    }
    assert runs[..|runs|] == runs;
  }

  method ApplySingles(slots: array<Event>, n: nat, single: seq<Override>, slotId: SlotId, source: string)
    returns (kept: nat, added: seq<Event>)
    requires n <= slots.Length
    modifies slots
    ensures kept <= n && slots[..kept] == Kept(old(slots[..n]), NotIn(Names(slotId, single)))
    ensures added == Replacements(slotId, source, single)
  {
    hide Kept, Replacement, Names;
    kept, added := n, [];
    ghost var was := slots[..n];
    NoNames(slotId, single);
    KeptAll(was);
    for i := 0 to |single|
      invariant kept <= n && slots[..kept] == Kept(was, NotIn(Names(slotId, single[..i])))
      invariant added == Replacements(slotId, source, single[..i])
    {
      assert single[..i + 1][..i] == single[..i];
      NamesGrow(slotId, single, i);
      ghost var names := Names(slotId, single[..i]);
      if single[i].rid.Some? {
        KeptTwice(was, names, slotId(single[i].rid.value));
      } else {
        assert names + {} == names;
      }
      kept, added := ApplySingleOverride(slots, kept, added, single[i], slotId, source);
    }
    assert single[..|single|] == single;
  }

  lemma NoNames(slotId: SlotId, single: seq<Override>)
    ensures Names(slotId, single[..0]) == {}
  {
  }

  // ----- the main results -----

  /** The order of the single-instance overrides does not matter. */
  lemma SingleOrderIsIrrelevant(slotId: SlotId, source: string, slots: seq<Event>, ovs: seq<Override>, other: seq<Override>)
    requires OfRange(ovs, true) == OfRange(other, true)
    requires multiset(OfRange(ovs, false)) == multiset(OfRange(other, false))
    ensures multiset(Folded(slotId, source, slots, ovs)) == multiset(Folded(slotId, source, slots, other))
  {
    hide Kept, ReshapedAll, SortByRid;
    var a, b := OfRange(ovs, false), OfRange(other, false);
    SameNames(slotId, a, b);
    ReplacementsBag(slotId, source, a, b);
  }

  lemma SameNames(slotId: SlotId, a: seq<Override>, b: seq<Override>)
    requires multiset(a) == multiset(b)
    ensures Names(slotId, a) == Names(slotId, b)
  {
    assert forall ov :: ov in a <==> ov in multiset(a);
    assert forall ov :: ov in b <==> ov in multiset(b);
  }

  function Bag(r: Option<Event>): multiset<Event> {
    if r.Some? then multiset{r.value} else multiset{}
  }

  lemma ReplacementsLast(slotId: SlotId, source: string, ovs: seq<Override>, ov: Override)
    ensures multiset(Replacements(slotId, source, ovs + [ov])) ==
            multiset(Replacements(slotId, source, ovs)) + Bag(Replacement(slotId, source, ov))
  {
    hide Replacement;
    assert (ovs + [ov])[..|ovs|] == ovs;
  }

  function Without(ovs: seq<Override>, i: nat): seq<Override>
    requires i < |ovs|
  {
    ovs[..i] + ovs[i + 1..]
  }

  lemma WithoutOne(ovs: seq<Override>, i: nat)
    requires i < |ovs|
    ensures multiset(ovs) == multiset(Without(ovs, i)) + multiset{ovs[i]}
    ensures i < |ovs| - 1 ==> Without(ovs, i) == Without(ovs[..|ovs| - 1], i) + [ovs[|ovs| - 1]]
    ensures i == |ovs| - 1 ==> Without(ovs, i) == ovs[..|ovs| - 1]
  {
    assert ovs == ovs[..i] + [ovs[i]] + ovs[i + 1..];
  }

  /** Taking one override out takes out its replacement. */
  lemma {:induction false} ReplacementTakenOut(slotId: SlotId, source: string, ovs: seq<Override>, i: nat)
    requires i < |ovs|
    ensures multiset(Replacements(slotId, source, ovs)) ==
            multiset(Replacements(slotId, source, Without(ovs, i))) + Bag(Replacement(slotId, source, ovs[i]))
  {
    hide Replacement, Replacements, Bag, Without;
    var front, last := ovs[..|ovs| - 1], ovs[|ovs| - 1];
    WithoutOne(ovs, i);
    assert ovs == front + [last];
    ReplacementsLast(slotId, source, front, last);
    if i < |ovs| - 1 {
      ReplacementTakenOut(slotId, source, front, i);
      ReplacementsLast(slotId, source, Without(front, i), last);
    }
  }

  lemma CancelOne(x: multiset<Override>, y: multiset<Override>, ov: Override)
    requires x + multiset{ov} == y + multiset{ov}
    ensures x == y
  {
    assert x == (x + multiset{ov}) - multiset{ov};
    assert y == (y + multiset{ov}) - multiset{ov};
  }

  lemma {:induction false} ReplacementsBag(slotId: SlotId, source: string, a: seq<Override>, b: seq<Override>)
    requires multiset(a) == multiset(b)
    ensures multiset(Replacements(slotId, source, a)) == multiset(Replacements(slotId, source, b))
    decreases |a|
  {
    if a == [] {
      assert |multiset(b)| == 0;
      assert b == [];
    } else {
      hide Replacement, Replacements, Bag, Without;
      var front, ov := a[..|a| - 1], a[|a| - 1];
      assert a == front + [ov];
      assert ov in multiset(b);
      var i :| 0 <= i < |b| && b[i] == ov;
      WithoutOne(b, i);
      assert multiset(a) == multiset(front) + multiset{ov};
      CancelOne(multiset(front), multiset(Without(b, i)), ov);
      ReplacementsBag(slotId, source, front, Without(b, i));
      ReplacementsLast(slotId, source, front, ov);
      ReplacementTakenOut(slotId, source, b, i);
    }
  }

  /** A slot that no single override names is in the result exactly as THISANDFUTURE left it, and a named one is gone. */
  lemma UnnamedSlotsStay(slotId: SlotId, source: string, slots: seq<Event>, ovs: seq<Override>, e: Event)
    ensures var reshaped := ReshapedAll(slots, SortByRid(OfRange(ovs, true)));
      var single := OfRange(ovs, false);
      e in Folded(slotId, source, slots, ovs) <==>
      (e in reshaped && e.id !in Names(slotId, single)) || e in Replacements(slotId, source, single)
  {
    var single := OfRange(ovs, false);
    KeptMembers(ReshapedAll(slots, SortByRid(OfRange(ovs, true))), NotIn(Names(slotId, single)));
    hide Kept, ReshapedAll, Replacements, Names, SortByRid;
  }

  /** Every replacement stands under the id of a named slot. */
  lemma {:induction false} ReplacementNames(slotId: SlotId, source: string, ovs: seq<Override>)
    ensures forall e :: e in Replacements(slotId, source, ovs) ==> e.id in Names(slotId, ovs)
  {
    if ovs != [] {
      var front, ov := ovs[..|ovs| - 1], ovs[|ovs| - 1];
      ReplacementNames(slotId, source, front);
      NamesGrow(slotId, ovs, |ovs| - 1);
      assert ovs[..|ovs| - 1 + 1] == ovs;
    }
  }

  /** No slot id comes twice, exactly when no two overrides put an event into the same slot. */
  lemma NoSlotTwice(slotId: SlotId, source: string, slots: seq<Event>, ovs: seq<Override>)
    requires Distinct(Ids(slots))
    ensures Distinct(Ids(Folded(slotId, source, slots, ovs))) <==> Distinct(Ids(Replacements(slotId, source, OfRange(ovs, false))))
  {
    var single := OfRange(ovs, false);
    var reshaped := ReshapedAll(slots, SortByRid(OfRange(ovs, true)));
    ReshapedAllIds(slots, SortByRid(OfRange(ovs, true)));
    var names := Names(slotId, single);
    KeptDistinct(reshaped, NotIn(names));
    KeptMembers(reshaped, NotIn(names));
    ReplacementNames(slotId, source, single);
    DistinctBoth(Kept(reshaped, NotIn(names)), Replacements(slotId, source, single), names);
  }

  lemma DistinctBoth(kept: seq<Event>, added: seq<Event>, names: set<string>)
    requires Distinct(Ids(kept))
    requires forall e :: e in kept ==> e.id !in names
    requires forall e :: e in added ==> e.id in names
    ensures Distinct(Ids(kept + added)) <==> Distinct(Ids(added))
  {
    var all := kept + added;
    assert Ids(all) == Ids(kept) + Ids(added);
    if Distinct(Ids(all)) {
      forall i, j | 0 <= i < j < |added|
        ensures Ids(added)[i] != Ids(added)[j]
      {
        assert Ids(all)[|kept| + i] == Ids(added)[i] && Ids(all)[|kept| + j] == Ids(added)[j];
      }
    }
    if Distinct(Ids(added)) {
      forall i, j | 0 <= i < j < |all|
        ensures Ids(all)[i] != Ids(all)[j]
      {
        if i < |kept| && j >= |kept| {
          assert kept[i] in kept && added[j - |kept|] in added;
        } else if i >= |kept| {
          assert Ids(added)[i - |kept|] != Ids(added)[j - |kept|];
        } else {
          assert Ids(kept)[i] != Ids(kept)[j];
        }
      }
    }
  }
}
