/** Deterministic rendering of a managed file (internal/sync/render.go). */
module SyncRender {
  import opened Common
  import opened TaskLine
  import opened SyncEngine
  import opened SyncTask
  import opened TaskLineLaws

  /** The order of printed lines: any strict total order stands for the byte order of the strings. */
  type LineOrder = (Line, Line) -> bool

  ghost predicate StrictTotal(less: LineOrder) {
    && (forall a :: !less(a, a))
    && (forall a, b, c :: less(a, b) && less(b, c) ==> less(a, c))
    && (forall a, b :: less(a, b) || a == b || less(b, a))
  }

  /** Where an id first occurs in the prior file; a line without id has no place. */
  function PriorPos(prior: seq<Task>, id: string): (r: Option<nat>)
    ensures r.Some? ==> r.value < |prior| && prior[r.value].id == id && id != ""
    ensures r.Some? ==> forall i :: 0 <= i < r.value ==> prior[i].id != id
    ensures r.None? && id != "" ==> forall i :: 0 <= i < |prior| ==> prior[i].id != id
  {
    if prior == [] || id == "" then None
    else if prior[0].id == id then Some(0)
    else
      var rest := PriorPos(prior[1..], id);
      if rest.Some? then Some(rest.value + 1) else None
  }

  /** All that the sort looks at. */
  datatype Entry = Entry(id: string, line: Line)

  function EntryOf(t: Task): Entry {
    Entry(t.id, Canon(t))
  }

  /** The less function of the sort: known ids in prior order, then new ids by line. */
  predicate Before(prior: seq<Task>, less: LineOrder, a: Entry, b: Entry) {
    var i, j := PriorPos(prior, a.id), PriorPos(prior, b.id);
    if i.Some? && j.Some? then i.value < j.value
    else if i.Some? || j.Some? then i.Some?
    else less(a.line, b.line)
  }

  /** The first task of every canonical line, without the tasks that have no line. */
  function Deduped(desired: seq<Task>, seen: set<Line>): seq<Task> {
    if desired == [] then []
    else
      var line := Canon(desired[0]);
      if line == [] || line in seen then Deduped(desired[1..], seen)
      else [desired[0]] + Deduped(desired[1..], seen + {line})
  }

  /** x goes before the first element that is not smaller: equal elements keep their order. */
  function Insert(prior: seq<Task>, less: LineOrder, x: Task, s: seq<Task>): seq<Task> {
    if s == [] || !Before(prior, less, EntryOf(s[0]), EntryOf(x)) then [x] + s
    else [s[0]] + Insert(prior, less, x, s[1..])
  }

  /** The stable sort. */
  function Sorted(prior: seq<Task>, less: LineOrder, s: seq<Task>): seq<Task> {
    if s == [] then [] else Insert(prior, less, s[0], Sorted(prior, less, s[1..]))
  }

  function LinesOf(s: seq<Task>): (r: seq<Line>)
    ensures |r| == |s| && forall i :: 0 <= i < |s| ==> r[i] == Canon(s[i])
  {
    if s == [] then [] else [Canon(s[0])] + LinesOf(s[1..])
  }

  function Ordered(prior: seq<Task>, less: LineOrder, desired: seq<Task>): seq<Task> {
    Sorted(prior, less, Deduped(desired, {}))
  }

  /** The first loop of renderFile: one task for every non-empty line not seen before. */
  method Dedupe(desired: seq<Task>) returns (kept: seq<Task>)
    ensures kept == Deduped(desired, {})
  {
    hide Canon;
    var seen: set<Line> := {};
    kept := [];
    for i := 0 to |desired|
      invariant kept + Deduped(desired[i..], seen) == Deduped(desired, {})
    {
      DedupedStep(desired[i..], seen);
      assert desired[i..][1..] == desired[i + 1..];
      var line := Canon(desired[i]);
      if line != [] && line !in seen {
        seen := seen + {line};
        kept := kept + [desired[i]];
      }
    }
    assert kept + [] == kept && desired[|desired|..] == [];
  }

  lemma DedupedStep(desired: seq<Task>, seen: set<Line>)
    requires desired != []
    ensures var line := Canon(desired[0]);
      Deduped(desired, seen) == if line == [] || line in seen then Deduped(desired[1..], seen)
                                else [desired[0]] + Deduped(desired[1..], seen + {line})
  {
    hide Canon;
  }

  /** renderFile: drop empty and repeated lines, sort, print. */
  method RenderFile(prior: seq<Task>, less: LineOrder, desired: seq<Task>) returns (content: seq<Line>, total: nat)
    ensures content == LinesOf(Ordered(prior, less, desired)) && total == |content|
  {
    hide Canon, Sorted;
    var kept := Dedupe(desired);
    var ordered := Sorted(prior, less, kept);
    content, total := [], 0;
    for i := 0 to |ordered|
      invariant content == LinesOf(ordered[..i]) && total == i
    {
      LinesOfAppend(ordered[..i], ordered[i]);
      assert ordered[..i + 1] == ordered[..i] + [ordered[i]];
      content := content + [Canon(ordered[i])];
      total := total + 1;
    }
    assert ordered[..|ordered|] == ordered;
  }

  lemma LinesOfAppend(s: seq<Task>, t: Task)
    ensures LinesOf(s + [t]) == LinesOf(s) + [Canon(t)]
  {
    hide Canon;
  }

  // ----- each line once -----

  function EntriesOf(s: seq<Task>): (r: seq<Entry>)
    ensures |r| == |s| && forall i :: 0 <= i < |s| ==> r[i] == EntryOf(s[i])
  {
    if s == [] then [] else [EntryOf(s[0])] + EntriesOf(s[1..])
  }

  lemma {:induction false} InsertEntries(prior: seq<Task>, less: LineOrder, x: Task, s: seq<Task>)
    ensures multiset(EntriesOf(Insert(prior, less, x, s))) == multiset(EntriesOf(s)) + multiset{EntryOf(x)}
  {
    hide Before, EntryOf;
    if s == [] || !Before(prior, less, EntryOf(s[0]), EntryOf(x)) {
      assert ([x] + s)[1..] == s;
    } else {
      InsertEntries(prior, less, x, s[1..]);
      assert ([s[0]] + Insert(prior, less, x, s[1..]))[1..] == Insert(prior, less, x, s[1..]);
    }
  }

  /** Sorting only reorders. */
  lemma {:induction false} SortedIsPermutation(prior: seq<Task>, less: LineOrder, s: seq<Task>)
    ensures multiset(EntriesOf(Sorted(prior, less, s))) == multiset(EntriesOf(s))
  {
    hide EntryOf;
    if s == [] {
    } else {
      SortedIsPermutation(prior, less, s[1..]);
      InsertEntries(prior, less, s[0], Sorted(prior, less, s[1..]));
    }
  }

  predicate DistinctLines(s: seq<Task>) {
    forall i, j :: 0 <= i < j < |s| ==> Canon(s[i]) != Canon(s[j])
  }

  lemma {:induction false} DedupedMembers(desired: seq<Task>, seen: set<Line>, t: Task)
    requires t in Deduped(desired, seen)
    ensures t in desired && Canon(t) != [] && Canon(t) !in seen
  {
    hide Canon;
    if desired != [] {
      var line := Canon(desired[0]);
      DedupedStep(desired, seen);
      if line == [] || line in seen {
        DedupedMembers(desired[1..], seen, t);
      } else if t != desired[0] {
        DedupedMembers(desired[1..], seen + {line}, t);
      }
    }
  }

  predicate HasLine(s: seq<Task>, line: Line) {
    exists i :: 0 <= i < |s| && Canon(s[i]) == line
  }

  /** No non-empty line is dropped. */
  lemma {:induction false} DedupedCovers(desired: seq<Task>, seen: set<Line>, line: Line)
    requires HasLine(desired, line) && line != [] && line !in seen
    ensures HasLine(Deduped(desired, seen), line)
  {
    hide Canon;
    var first, rest := Canon(desired[0]), desired[1..];
    DedupedStep(desired, seen);
    var i :| 0 <= i < |desired| && Canon(desired[i]) == line;
    if first == [] || first in seen {
      assert rest[i - 1] == desired[i];
      DedupedCovers(rest, seen, line);
    } else if first == line {
      assert Canon(Deduped(desired, seen)[0]) == line;
    } else {
      assert rest[i - 1] == desired[i];
      DedupedCovers(rest, seen + {first}, line);
      HasLineBehind(desired[0], Deduped(rest, seen + {first}), line);
    }
  }

  lemma HasLineBehind(t: Task, s: seq<Task>, line: Line)
    requires HasLine(s, line)
    ensures HasLine([t] + s, line)
  {
    hide Canon;
    var i :| 0 <= i < |s| && Canon(s[i]) == line;
    assert ([t] + s)[i + 1] == s[i];
  }

  lemma {:induction false} DedupedDistinct(desired: seq<Task>, seen: set<Line>)
    ensures DistinctLines(Deduped(desired, seen))
  {
    hide Canon;
    if desired != [] {
      var line, rest := Canon(desired[0]), desired[1..];
      DedupedStep(desired, seen);
      if line == [] || line in seen {
        DedupedDistinct(rest, seen);
      } else {
        DedupedDistinct(rest, seen + {line});
        var d := Deduped(rest, seen + {line});
        forall j | 0 <= j < |d|
          ensures Canon(d[j]) != line
        {
          DedupedMembers(rest, seen + {line}, d[j]);
        }
      }
    }
  }

  /** Every non-empty canonical line of desired is emitted, nothing else, and no line twice. */
  lemma EachLineOnce(prior: seq<Task>, less: LineOrder, desired: seq<Task>)
    ensures var out := LinesOf(Ordered(prior, less, desired));
      && (forall i, j :: 0 <= i < j < |out| ==> out[i] != out[j])
      && (forall line :: line in out <==> line != [] && HasLine(desired, line))
  {
    hide Canon, Sorted, Deduped, LinesOf, EntriesOf;
    var kept, sorted := Deduped(desired, {}), Ordered(prior, less, desired);
    var out := LinesOf(sorted);
    DedupedDistinct(desired, {});
    SortedIsPermutation(prior, less, kept);
    SameLines(kept, sorted);
    forall line
      ensures line in out <==> line != [] && HasLine(desired, line)
    {
      assert line in out <==> HasLine(sorted, line);
      if line != [] && HasLine(desired, line) {
        DedupedCovers(desired, {}, line);
      } else if HasLine(kept, line) {
        var i :| 0 <= i < |kept| && Canon(kept[i]) == line;
        DedupedMembers(desired, {}, kept[i]);
      }
    }
  }

  /** Permuted entries carry the same lines; distinct lines stay distinct. */
  lemma SameLines(a: seq<Task>, b: seq<Task>)
    requires multiset(EntriesOf(a)) == multiset(EntriesOf(b)) && DistinctLines(a)
    ensures DistinctLines(b) && forall line :: HasLine(b, line) <==> HasLine(a, line)
  {
    hide Canon, EntriesOf;
    forall e: Entry
      ensures e in EntriesOf(a) <==> e in EntriesOf(b)
    {
      assert e in multiset(EntriesOf(a)) <==> e in multiset(EntriesOf(b));
    }
    forall line
      ensures HasLine(b, line) <==> HasLine(a, line)
    {
      SameHasLine(a, b, line);
      SameHasLine(b, a, line);
    }
    forall i, j | 0 <= i < j < |b|
      ensures Canon(b[i]) != Canon(b[j])
    {
      LinePair(EntriesOf(a), EntriesOf(b), i, j);
    }
  }

  lemma SameHasLine(a: seq<Task>, b: seq<Task>, line: Line)
    requires forall e: Entry :: e in EntriesOf(a) <==> e in EntriesOf(b)
    ensures HasLine(b, line) ==> HasLine(a, line)
  {
    hide Canon, EntriesOf;
    if HasLine(b, line) {
      var i :| 0 <= i < |b| && Canon(b[i]) == line;
      assert EntriesOf(b)[i] in EntriesOf(b);
      var k :| 0 <= k < |a| && EntriesOf(a)[k] == EntryOf(b[i]);
      assert Canon(a[k]) == line;
    }
  }

  /** Two places of b come from two places of a. */
  lemma LinePair(ea: seq<Entry>, eb: seq<Entry>, i: nat, j: nat)
    requires multiset(ea) == multiset(eb) && i < j < |eb|
    requires forall k, l :: 0 <= k < l < |ea| ==> ea[k].line != ea[l].line
    ensures eb[i].line != eb[j].line
  {
    assert eb[i] in multiset(eb) && eb[j] in multiset(eb);
    var k :| 0 <= k < |ea| && ea[k] == eb[i];
    var l :| 0 <= l < |ea| && ea[l] == eb[j];
    OnceInMultiset(ea, k);
    TwiceInMultiset(eb, i, j);
  }

  lemma TwiceInMultiset<T>(s: seq<T>, i: nat, j: nat)
    requires i < j < |s|
    ensures s[i] == s[j] ==> multiset(s)[s[i]] >= 2
  {
    assert s == s[..i] + [s[i]] + s[i + 1..j] + [s[j]] + s[j + 1..];
  }

  lemma OnceInMultiset<T>(s: seq<T>, k: nat)
    requires k < |s| && forall i :: 0 <= i < |s| && i != k ==> s[i] != s[k]
    ensures multiset(s)[s[k]] == 1
  {
    assert s == s[..k] + [s[k]] + s[k + 1..];
    assert s[k] !in s[..k] && s[k] !in s[k + 1..];
  }

  // ----- one order -----

  lemma BeforeLaws(prior: seq<Task>, less: LineOrder, a: Entry, b: Entry, c: Entry)
    requires StrictTotal(less)
    ensures !Before(prior, less, a, a)
    ensures Before(prior, less, a, b) && Before(prior, less, b, c) ==> Before(prior, less, a, c)
    ensures Before(prior, less, a, c) ==> Before(prior, less, a, b) || Before(prior, less, b, c)
  {
    hide PriorPos;
  }

  /** Entries with different ids and lines are never tied. */
  lemma BeforeIsTotal(prior: seq<Task>, less: LineOrder, a: Entry, b: Entry)
    requires StrictTotal(less) && a.id != b.id && a.line != b.line
    ensures Before(prior, less, a, b) || Before(prior, less, b, a)
  {
  }

  /** No later entry belongs before an earlier one. */
  predicate InOrder(prior: seq<Task>, less: LineOrder, s: seq<Entry>) {
    forall i, j :: 0 <= i < j < |s| ==> !Before(prior, less, s[j], s[i])
  }

  predicate StrictlyInOrder(prior: seq<Task>, less: LineOrder, s: seq<Entry>) {
    forall i, j :: 0 <= i < j < |s| ==> Before(prior, less, s[i], s[j])
  }

  lemma ConsInOrder(prior: seq<Task>, less: LineOrder, e: Entry, es: seq<Entry>)
    requires InOrder(prior, less, es) && forall j :: 0 <= j < |es| ==> !Before(prior, less, es[j], e)
    ensures InOrder(prior, less, [e] + es)
  {
    hide Before;
  }

  lemma {:induction false} InsertInOrder(prior: seq<Task>, less: LineOrder, x: Task, s: seq<Task>)
    requires StrictTotal(less) && InOrder(prior, less, EntriesOf(s))
    ensures InOrder(prior, less, EntriesOf(Insert(prior, less, x, s)))
  {
    hide Before, EntryOf, StrictTotal;
    var es, r := EntriesOf(s), Insert(prior, less, x, s);
    if s == [] {
    } else if !Before(prior, less, es[0], EntryOf(x)) {
      forall j | 0 <= j < |s|
        ensures !Before(prior, less, es[j], EntryOf(x))
      {
        BeforeLaws(prior, less, es[j], es[0], EntryOf(x));
      }
      ConsInOrder(prior, less, EntryOf(x), es);
      assert EntriesOf(r) == [EntryOf(x)] + es;
    } else {
      var tail := Insert(prior, less, x, s[1..]);
      assert EntriesOf(s[1..]) == es[1..];
      InsertInOrder(prior, less, x, s[1..]);
      InsertEntries(prior, less, x, s[1..]);
      HeadStays(prior, less, es, EntryOf(x), EntriesOf(tail));
      ConsInOrder(prior, less, es[0], EntriesOf(tail));
      assert EntriesOf(r) == [es[0]] + EntriesOf(tail);
    }
    hide InOrder, Insert;
  }

  lemma HeadStays(prior: seq<Task>, less: LineOrder, es: seq<Entry>, x: Entry, tail: seq<Entry>)
    requires StrictTotal(less) && es != [] && InOrder(prior, less, es) && Before(prior, less, es[0], x)
    requires multiset(tail) == multiset(es[1..]) + multiset{x}
    ensures forall j :: 0 <= j < |tail| ==> !Before(prior, less, tail[j], es[0])
  {
    hide Before;
    forall j | 0 <= j < |tail|
      ensures !Before(prior, less, tail[j], es[0])
    {
      assert tail[j] in multiset(tail);
      if tail[j] == x {
        BeforeLaws(prior, less, es[0], x, es[0]);
      } else {
        assert tail[j] in es[1..];
      }
    }
  }

  lemma {:induction false} SortedInOrder(prior: seq<Task>, less: LineOrder, s: seq<Task>)
    requires StrictTotal(less)
    ensures InOrder(prior, less, EntriesOf(Sorted(prior, less, s)))
  {
    hide Before, EntryOf, Insert;
    if s == [] {
    } else {
      SortedInOrder(prior, less, s[1..]);
      InsertInOrder(prior, less, s[0], Sorted(prior, less, s[1..]));
    }
  }

  predicate DistinctIds(s: seq<Task>) {
    forall i, j :: 0 <= i < j < |s| ==> s[i].id != s[j].id
  }

  /** No id has two lines. */
  predicate OneLineEach(s: seq<Task>) {
    forall i, j :: 0 <= i < |s| && 0 <= j < |s| && s[i].id == s[j].id ==> Canon(s[i]) == Canon(s[j])
  }

  /** Different ids and lines leave no ties. */
  predicate Untied(s: seq<Entry>) {
    forall i, j :: 0 <= i < j < |s| ==> s[i].id != s[j].id && s[i].line != s[j].line
  }

  lemma UntiedIsStrict(prior: seq<Task>, less: LineOrder, s: seq<Entry>)
    requires StrictTotal(less) && InOrder(prior, less, s) && Untied(s)
    ensures StrictlyInOrder(prior, less, s)
  {
    hide Before;
    forall i, j | 0 <= i < j < |s|
      ensures Before(prior, less, s[i], s[j])
    {
      BeforeIsTotal(prior, less, s[i], s[j]);
    }
  }

  /** The strictly ordered sequence with given members is unique. */
  lemma {:induction false} OrderIsUnique(prior: seq<Task>, less: LineOrder, a: seq<Entry>, b: seq<Entry>)
    requires StrictTotal(less) && StrictlyInOrder(prior, less, a) && StrictlyInOrder(prior, less, b)
    requires forall e: Entry :: e in a <==> e in b
    ensures a == b
  {
    hide Before;
    MemberOfBoth(a, b);
    if a != [] && b != [] {
      SameHead(prior, less, a, b);
      SameTail(prior, less, a, b);
      OrderIsUnique(prior, less, a[1..], b[1..]);
      assert a == [a[0]] + a[1..] && b == [b[0]] + b[1..];
    }
  }

  lemma MemberOfBoth(a: seq<Entry>, b: seq<Entry>)
    requires forall e: Entry :: e in a <==> e in b
    ensures a == [] <==> b == []
    ensures a != [] ==> a[0] in b && b[0] in a
  {
    if a != [] {
      assert a[0] in a;
    }
    if b != [] {
      assert b[0] in b;
    }
  }

  lemma SameHead(prior: seq<Task>, less: LineOrder, a: seq<Entry>, b: seq<Entry>)
    requires StrictTotal(less) && StrictlyInOrder(prior, less, a) && StrictlyInOrder(prior, less, b)
    requires a != [] && b != [] && a[0] in b && b[0] in a
    ensures a[0] == b[0]
  {
    hide Before;
    var i :| 0 <= i < |a| && a[i] == b[0];
    var j :| 0 <= j < |b| && b[j] == a[0];
    BeforeLaws(prior, less, a[0], b[0], a[0]);
  }

  lemma SameTail(prior: seq<Task>, less: LineOrder, a: seq<Entry>, b: seq<Entry>)
    requires StrictTotal(less) && StrictlyInOrder(prior, less, a) && StrictlyInOrder(prior, less, b)
    requires a != [] && b != [] && a[0] == b[0]
    requires forall e: Entry :: e in a <==> e in b
    ensures forall e: Entry :: e in a[1..] <==> e in b[1..]
  {
    forall e: Entry
      ensures e in a[1..] <==> e in b[1..]
    {
      TailMember(prior, less, a, e);
      TailMember(prior, less, b, e);
    }
  }

  lemma TailMember(prior: seq<Task>, less: LineOrder, s: seq<Entry>, e: Entry)
    requires StrictTotal(less) && StrictlyInOrder(prior, less, s) && s != []
    ensures e in s[1..] <==> e in s && e != s[0]
  {
    hide Before;
    BeforeLaws(prior, less, s[0], s[0], s[0]);
    if e in s[1..] {
      var i :| 0 <= i < |s[1..]| && s[1..][i] == e;
      assert Before(prior, less, s[0], s[i + 1]);
    }
  }

  // ----- what the file looks like -----

  /** The entry of a task that has a line is in s. */
  predicate HasEntry(s: seq<Task>, e: Entry) {
    exists i :: 0 <= i < |s| && EntryOf(s[i]) == e
  }

  ghost predicate SameEntries(a: seq<Task>, b: seq<Task>) {
    forall e: Entry :: e.line != [] ==> (HasEntry(a, e) <==> HasEntry(b, e))
  }

  /** Lines carry their ids: two tasks with one line are the same task to the renderer. */
  predicate LineHasId(s: seq<Task>) {
    forall i, j :: 0 <= i < |s| && 0 <= j < |s| && Canon(s[i]) == Canon(s[j]) && Canon(s[i]) != [] ==> s[i].id == s[j].id
  }

  /** Clean tasks print their ids, so LineHasId is no condition on them. */
  lemma CleanLinesHaveIds(s: seq<Task>)
    requires forall i :: 0 <= i < |s| ==> Clean(s[i])
    ensures LineHasId(s)
  {
    hide Canon, Clean, ReadBack, ReadLine;
    forall i, j | 0 <= i < |s| && 0 <= j < |s| && Canon(s[i]) == Canon(s[j])
      ensures s[i].id == s[j].id
    {
      CanonReadsBack(s[i]);
      CanonReadsBack(s[j]);
    }
  }

  lemma OrderedEntries(prior: seq<Task>, less: LineOrder, desired: seq<Task>, e: Entry)
    requires LineHasId(desired)
    ensures e in EntriesOf(Ordered(prior, less, desired)) <==> e.line != [] && HasEntry(desired, e)
  {
    hide Canon, Sorted, Deduped, EntriesOf;
    var kept, out := Deduped(desired, {}), EntriesOf(Ordered(prior, less, desired));
    SortedIsPermutation(prior, less, kept);
    assert e in out <==> e in multiset(EntriesOf(kept));
    if e in EntriesOf(kept) {
      var i :| 0 <= i < |kept| && EntriesOf(kept)[i] == e;
      DedupedMembers(desired, {}, kept[i]);
    }
    if e.line != [] && HasEntry(desired, e) {
      assert HasLine(desired, e.line);
      DedupedCovers(desired, {}, e.line);
      var i :| 0 <= i < |kept| && Canon(kept[i]) == e.line;
      DedupedMembers(desired, {}, kept[i]);
      assert EntriesOf(kept)[i] == e;
    }
  }

  lemma OrderedIsUntied(prior: seq<Task>, less: LineOrder, desired: seq<Task>)
    requires OneLineEach(desired)
    ensures Untied(EntriesOf(Ordered(prior, less, desired)))
  {
    hide Canon, Sorted, Deduped, EntriesOf;
    var kept, out := Deduped(desired, {}), EntriesOf(Ordered(prior, less, desired));
    DedupedDistinct(desired, {});
    DedupedKeepsIds(desired, {});
    SortedIsPermutation(prior, less, kept);
    UntiedPermutation(EntriesOf(kept), out);
  }

  lemma UntiedPermutation(a: seq<Entry>, b: seq<Entry>)
    requires multiset(a) == multiset(b) && Untied(a)
    ensures Untied(b)
  {
    forall i, j | 0 <= i < j < |b|
      ensures b[i].id != b[j].id && b[i].line != b[j].line
    {
      assert b[i] in multiset(b) && b[j] in multiset(b);
      var k :| 0 <= k < |a| && a[k] == b[i];
      var l :| 0 <= l < |a| && a[l] == b[j];
      OnceInMultiset(a, k);
      TwiceInMultiset(b, i, j);
    }
  }

  lemma {:induction false} DedupedKeepsIds(desired: seq<Task>, seen: set<Line>)
    requires OneLineEach(desired)
    ensures DistinctIds(Deduped(desired, seen))
  {
    hide Canon;
    if desired != [] {
      var line, rest := Canon(desired[0]), desired[1..];
      DedupedStep(desired, seen);
      if line == [] || line in seen {
        OneLineInRest(desired);
        DedupedKeepsIds(rest, seen);
      } else {
        OneLineInRest(desired);
        DedupedKeepsIds(rest, seen + {line});
        var d := Deduped(rest, seen + {line});
        forall j | 0 <= j < |d|
          ensures d[j].id != desired[0].id
        {
          DedupedMembers(rest, seen + {line}, d[j]);
          SameIdSameLine(desired, d[j], desired[0]);
        }
      }
    }
  }

  lemma OneLineInRest(s: seq<Task>)
    requires s != [] && OneLineEach(s)
    ensures OneLineEach(s[1..])
  {
    hide Canon;
    forall i, j | 0 <= i < |s| - 1 && 0 <= j < |s| - 1 && s[1..][i].id == s[1..][j].id
      ensures Canon(s[1..][i]) == Canon(s[1..][j])
    {
      assert s[1..][i] == s[i + 1] && s[1..][j] == s[j + 1];
    }
  }

  lemma SameIdSameLine(s: seq<Task>, t: Task, u: Task)
    requires OneLineEach(s) && t in s && u in s
    ensures t.id == u.id ==> Canon(t) == Canon(u)
  {
    hide Canon;
  }

  lemma OrderedIsStrict(prior: seq<Task>, less: LineOrder, desired: seq<Task>)
    requires StrictTotal(less) && OneLineEach(desired)
    ensures StrictlyInOrder(prior, less, EntriesOf(Ordered(prior, less, desired)))
  {
    hide Before, Sorted, Deduped, EntriesOf;
    OrderedIsUntied(prior, less, desired);
    SortedInOrder(prior, less, Deduped(desired, {}));
    UntiedIsStrict(prior, less, EntriesOf(Ordered(prior, less, desired)));
  }

  /**
   The order of desired, which comes from Go's map iteration, does not matter: the same tasks
   render to the same file, whenever no id has two lines.
   */
  lemma RenderIsDeterministic(prior: seq<Task>, less: LineOrder, desired: seq<Task>, desired': seq<Task>)
    requires StrictTotal(less) && OneLineEach(desired) && OneLineEach(desired')
    requires LineHasId(desired) && LineHasId(desired') && SameEntries(desired, desired')
    ensures LinesOf(Ordered(prior, less, desired)) == LinesOf(Ordered(prior, less, desired'))
  {
    hide Canon, Before, Ordered, EntriesOf, LineHasId, OneLineEach;
    var a, b := EntriesOf(Ordered(prior, less, desired)), EntriesOf(Ordered(prior, less, desired'));
    OrderedIsStrict(prior, less, desired);
    OrderedIsStrict(prior, less, desired');
    forall e: Entry
      ensures e in a <==> e in b
    {
      OrderedEntries(prior, less, desired, e);
      OrderedEntries(prior, less, desired', e);
    }
    OrderIsUnique(prior, less, a, b);
    LinesFromEntries(Ordered(prior, less, desired), Ordered(prior, less, desired'));
  }

  lemma LinesFromEntries(a: seq<Task>, b: seq<Task>)
    requires EntriesOf(a) == EntriesOf(b)
    ensures LinesOf(a) == LinesOf(b)
  {
    hide Canon, EntriesOf, LinesOf;
    forall i | 0 <= i < |a|
      ensures LinesOf(a)[i] == LinesOf(b)[i]
    {
      assert EntriesOf(a)[i] == EntriesOf(b)[i];
    }
  }

  /** Ids known to the prior file come first and keep their prior order; new ids follow. */
  lemma PriorOrderIsKept(prior: seq<Task>, less: LineOrder, desired: seq<Task>, i: nat, j: nat)
    requires StrictTotal(less) && OneLineEach(desired) && i < j < |Ordered(prior, less, desired)|
    ensures var out := Ordered(prior, less, desired);
      var a, b := PriorPos(prior, out[i].id), PriorPos(prior, out[j].id);
      && (b.Some? ==> a.Some? && a.value < b.value)
      && (a.None? ==> b.None? && less(Canon(out[i]), Canon(out[j])))
  {
    hide Canon, PriorPos, Ordered, EntriesOf;
    OrderedIsStrict(prior, less, desired);
    var es := EntriesOf(Ordered(prior, less, desired));
    assert Before(prior, less, es[i], es[j]);
  }

  /** A prior file whose ids stand in the order of s puts s in the order it has. */
  lemma OwnOrder(prior: seq<Task>, less: LineOrder, s: seq<Entry>)
    requires |prior| == |s| && Untied(s)
    requires forall i :: 0 <= i < |s| ==> prior[i].id == s[i].id && s[i].id != ""
    ensures StrictlyInOrder(prior, less, s)
  {
    forall i | 0 <= i < |s|
      ensures PriorPos(prior, s[i].id) == Some(i)
    {
      var p := PriorPos(prior, s[i].id);
    }
  }

  /**
   Re-rendering: when the file is read back as the tasks it was printed from and the next pass
   wants the same tasks, the file comes out identical, line for line.
   */
  lemma RenderAgain(prior: seq<Task>, less: LineOrder, desired: seq<Task>, prior': seq<Task>, desired': seq<Task>)
    requires StrictTotal(less) && OneLineEach(desired) && OneLineEach(desired')
    requires LineHasId(desired) && LineHasId(desired') && SameEntries(desired, desired')
    requires |prior'| == |Ordered(prior, less, desired)|
    requires forall i :: 0 <= i < |prior'| ==>
               prior'[i].id == Ordered(prior, less, desired)[i].id && prior'[i].id != ""
    ensures LinesOf(Ordered(prior', less, desired')) == LinesOf(Ordered(prior, less, desired))
  {
    hide Canon, Before, Ordered, EntriesOf, LineHasId, OneLineEach, PriorPos;
    var a, b := EntriesOf(Ordered(prior, less, desired)), EntriesOf(Ordered(prior', less, desired'));
    OrderedIsUntied(prior, less, desired);
    OwnOrder(prior', less, a);
    OrderedIsStrict(prior', less, desired');
    forall e: Entry
      ensures e in a <==> e in b
    {
      OrderedEntries(prior, less, desired, e);
      OrderedEntries(prior', less, desired', e);
    }
    OrderIsUnique(prior', less, a, b);
    LinesFromEntries(Ordered(prior, less, desired), Ordered(prior', less, desired'));
  }
}
