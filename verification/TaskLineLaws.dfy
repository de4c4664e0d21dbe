/** Formatting and parsing undo each other on tasks free of stray markers. */
module TaskLineLaws {
  import opened Common
  import opened TaskLine

  /** Tokens that no step of ParseTaskLine takes out of the text. */
  predicate IsPlain(t: Token) {
    t.Word? || (t.Tag? && IsTag(t.body)) || t.Hash? || t.Field? || t.Priority?
  }

  predicate Plain(s: Line) {
    forall i :: 0 <= i < |s| ==> IsPlain(s[i])
  }

  predicate IdOrEmpty(id: string) {
    id == "" || IsQiId(id)
  }

  predicate RealOrNone(d: Option<Date>) {
    d.Some? ==> RealDate(d.value)
  }

  /** Text, tags, dates and ids free of marker characters. */
  predicate Clean(t: Task) {
    && t.text != [] && Plain(t.text)
    && (forall i :: 0 <= i < |t.tags| ==> IsTag(t.tags[i]))
    && (t.project == "" || IsTag(t.project))
    && IdOrEmpty(t.id) && IdOrEmpty(t.parentId)
    && RealOrNone(t.due) && RealOrNone(t.scheduled) && RealOrNone(t.completedAt)
  }

  /** The text of the formatted line: the old text, then the tags it lacked. */
  function FullText(t: Task): Line {
    t.text + TagTokens(Gained(t))
  }

  /** The task a formatted line is read back as. */
  function ReadBack(t: Task): Task {
    var tags, priority := TagsIn(FullText(t)), First(KPriority, t.text);
    t.(text := FullText(t),
       tags := tags,
       project := if tags == [] then "" else tags[0],
       priority := if priority.Some? then priority.value.level else "")
  }

  // ----- scanning laws -----

  lemma WithoutCons(k: Kind, head: Token, rest: Line)
    ensures Without(k, [head] + rest) == (if KindOf(head) == k then [] else [head]) + Without(k, rest)
  {
    hide KindOf;
    assert ([head] + rest)[1..] == rest;
    assert [] + Without(k, rest) == Without(k, rest);
  }

  lemma {:induction false} WithoutConcat(k: Kind, a: Line, b: Line)
    ensures Without(k, a + b) == Without(k, a) + Without(k, b)
  {
    if a == [] {
      assert a + b == b;
    } else {
      hide KindOf, Without;
      var head, rest := a[0], a[1..];
      WithoutConcat(k, rest, b);
      WithoutCons(k, head, rest);
      WithoutCons(k, head, rest + b);
      assert a == [head] + rest && a + b == [head] + (rest + b);
      Assoc(if KindOf(head) == k then [] else [head], Without(k, rest), Without(k, b));
    }
  }

  lemma {:induction false} FirstConcat(k: Kind, a: Line, b: Line)
    ensures First(k, a + b) == if First(k, a).Some? then First(k, a) else First(k, b)
  {
    if a == [] {
      assert a + b == b;
    } else {
      FirstConcat(k, a[1..], b);
      assert (a + b)[1..] == a[1..] + b;
    }
  }

  lemma {:induction false} TagsInConcat(a: Line, b: Line)
    ensures TagsIn(a + b) == TagsIn(a) + TagsIn(b)
  {
    if a == [] {
      assert a + b == b;
    } else {
      TagsInConcat(a[1..], b);
      TagsInCons(a[0], a[1..]);
      TagsInCons(a[0], a[1..] + b);
      hide TagsIn;
      Assoc(if a[0].Tag? then [a[0].body] else [], TagsIn(a[1..]), TagsIn(b));
      assert a == [a[0]] + a[1..] && a + b == [a[0]] + (a[1..] + b);
    }
  }

  lemma TagsInCons(head: Token, rest: Line)
    ensures TagsIn([head] + rest) == (if head.Tag? then [head.body] else []) + TagsIn(rest)
  {
    assert ([head] + rest)[1..] == rest;
    assert [] + TagsIn(rest) == TagsIn(rest);
  }

  lemma {:induction false} LackingScan(k: Kind, s: Line)
    requires Lacks(k, s)
    ensures Without(k, s) == s && First(k, s) == None
  {
    if s == [] {
    } else {
      LackingScan(k, s[1..]);
    }
  }

  lemma {:induction false} WordsAre(rule: seq<string>)
    ensures forall i :: 0 <= i < |rule| ==> Words(rule)[i] == Word(rule[i])
  {
    if rule == [] {
    } else {
      WordsAre(rule[1..]);
    }
  }

  lemma {:induction false} RunSplit(s: Line, n: nat)
    requires n <= |s| && (n == |s| || !s[n].Word?)
    requires forall i :: 0 <= i < n ==> s[i].Word?
    ensures |Run(s)| == n
    ensures forall i :: 0 <= i < n ==> Run(s)[i] == s[i].text
  {
    if n == 0 {
    } else {
      RunSplit(s[1..], n - 1);
    }
  }

  lemma RunOfWords(rule: seq<string>, tail: Line)
    requires tail == [] || !tail[0].Word?
    ensures Run(Words(rule) + tail) == rule
  {
    var s := Words(rule) + tail;
    WordsAre(rule);
    forall i | 0 <= i < |rule|
      ensures s[i] == Word(rule[i])
    {
      assert s[i] == Words(rule)[i];
    }
    RunSplit(s, |rule|);
  }

  lemma {:induction false} TagTokensAre(names: seq<string>)
    requires forall i :: 0 <= i < |names| ==> IsTag(names[i])
    ensures |TagTokens(names)| == |names|
    ensures forall i :: 0 <= i < |names| ==> TagTokens(names)[i] == Tag(names[i])
    ensures TagsIn(TagTokens(names)) == names
  {
    if names == [] {
    } else {
      TagTokensAre(names[1..]);
      assert TagTokens(names)[1..] == TagTokens(names[1..]);
    }
  }

  lemma RuleStep(t: Token, s: Line)
    requires !t.Recur? && s != []
    ensures FirstRule([t] + s) == FirstRule(s) && WithoutRules([t] + s) == [t] + WithoutRules(s)
  {
    assert ([t] + s)[1..] == s;
  }

  lemma RuleHead(s: Line)
    requires s != []
    ensures FirstRule([Recur] + s) == Run(s) && WithoutRules([Recur] + s) == WithoutRules(s[|Run(s)|..])
  {
    var all := [Recur] + s;
    assert all[1..] == s && all[1 + |Run(s)|..] == s[|Run(s)|..];
  }

  lemma RuleCons(t: Token, x: Line, s: Line)
    requires !t.Recur? && s != []
    requires FirstRule(x + s) == FirstRule(s) && WithoutRules(x + s) == x + WithoutRules(s)
    ensures FirstRule([t] + x + s) == FirstRule(s) && WithoutRules([t] + x + s) == [t] + x + WithoutRules(s)
  {
    RuleStep(t, x + s);
    assert [t] + x + s == [t] + (x + s);
  }

  /** What stands before the first repeat marker stays as it is. */
  lemma {:induction false} RulePrefix(text: Line, s: Line)
    requires Lacks(KRecur, text) && s != []
    ensures FirstRule(text + s) == FirstRule(s) && WithoutRules(text + s) == text + WithoutRules(s)
  {
    if text == [] {
      assert text + s == s;
    } else {
      RulePrefix(text[1..], s);
      RuleCons(text[0], text[1..], s);
      assert text == [text[0]] + text[1..];
    }
  }

  /** A rule is found and taken out whole, up to the next marker. */
  lemma RuleScan(text: Line, rule: seq<string>, tail: Line)
    requires Lacks(KRecur, text)
    requires |tail| <= 1 && (tail == [] || tail[0].Parent?)
    requires rule != []
    ensures FirstRule(text + ([Recur] + (Words(rule) + tail))) == rule
    ensures WithoutRules(text + ([Recur] + (Words(rule) + tail))) == text + tail
  {
    var rest := Words(rule) + tail;
    RulePrefix(text, [Recur] + rest);
    RuleHead(rest);
    RunOfWords(rule, tail);
    assert rest[|rule|..] == tail;
  }

  lemma {:induction false} NoRuleScan(text: Line)
    requires Lacks(KRecur, text)
    ensures FirstRule(text) == [] && WithoutRules(text) == text
  {
    if |text| <= 1 {
    } else {
      NoRuleScan(text[1..]);
    }
  }

  // ----- the formatted line -----

  lemma GainedAreTags(t: Task)
    requires Clean(t)
    ensures forall i :: 0 <= i < |Gained(t)| ==> IsTag(Gained(t)[i])
  {
    NewTagsAre(t.tags, SetOf(TagsIn(t.text)));
    forall i | 0 <= i < |Gained(t)|
      ensures IsTag(Gained(t)[i])
    {
      assert Gained(t)[i] in Gained(t);
    }
  }

  lemma FullTextIsPlain(t: Task)
    requires Clean(t)
    ensures Plain(FullText(t)) && FullText(t) != []
    ensures TagsIn(FullText(t)) == TagsIn(t.text) + Gained(t)
    ensures First(KPriority, FullText(t)) == First(KPriority, t.text)
  {
    GainedAreTags(t);
    TagTokensAre(Gained(t));
    TagsInConcat(t.text, TagTokens(Gained(t)));
    FirstConcat(KPriority, t.text, TagTokens(Gained(t)));
    LackingScan(KPriority, TagTokens(Gained(t)));
  }

  predicate Only(k: Kind, s: Line) {
    |s| <= 1 && (s != [] ==> KindOf(s[0]) == k)
  }

  lemma OnlyScan(k: Kind, m: Line)
    requires Only(k, m)
    ensures Without(k, m) == [] && First(k, m) == if m == [] then None else Some(m[0])
  {
    if m != [] {
      assert m[1..] == [];
    }
  }

  /** A marker between two stretches without its kind is found, and alone taken out. */
  lemma MarkerScan(k: Kind, a: Line, m: Line, b: Line)
    requires Lacks(k, a) && Only(k, m) && Lacks(k, b)
    ensures Without(k, a + (m + b)) == a + b
    ensures First(k, a + (m + b)) == if m == [] then None else Some(m[0])
  {
    OnlyScan(k, m);
    LackingScan(k, a);
    LackingScan(k, b);
    MarkerScanParts(k, a, m, b);
    assert [] + b == b;
  }

  lemma MarkerScanParts(k: Kind, a: Line, m: Line, b: Line)
    ensures Without(k, a + (m + b)) == Without(k, a) + (Without(k, m) + Without(k, b))
    ensures First(k, a + (m + b)) ==
            if First(k, a).Some? then First(k, a) else if First(k, m).Some? then First(k, m) else First(k, b)
  {
    WithoutConcat(k, a, m + b);
    WithoutConcat(k, m, b);
    FirstConcat(k, a, m + b);
    FirstConcat(k, m, b);
  }

  /** The three date fields are found and taken out one after the other. */
  lemma DateScan(x: Line, s: Line, d: Line, c: Line, p: Line)
    requires Lacks(KSched, x) && Lacks(KDue, x) && Lacks(KDone, x)
    requires Only(KSched, s) && Only(KDue, d) && Only(KDone, c) && Only(KParent, p)
    ensures var all := x + (s + (d + (c + p)));
      && First(KDue, all) == (if d == [] then None else Some(d[0]))
      && First(KSched, all) == (if s == [] then None else Some(s[0]))
      && First(KDone, all) == (if c == [] then None else Some(c[0]))
      && NoDates(all) == x + p
  {
    hide Without, First;
    var all := x + (s + (d + (c + p)));
    assert Without(KDue, all) == x + (s + (c + p)) && First(KDue, all) == (if d == [] then None else Some(d[0])) by {
      Assoc(x, s, d + (c + p));
      MarkerScan(KDue, x + s, d, c + p);
      Assoc(x, s, c + p);
    }
    MarkerScan(KSched, x, s, c + p);
    MarkerScan(KDone, x, c, p);
    FirstWithout(KSched, KDue, all);
    FirstWithout(KDone, KDue, all);
    FirstWithout(KDone, KSched, x + (s + (c + p)));
  }

  /** The rule behind the text, then the parent. */
  lemma RuleAndParentScan(text: Line, rule: seq<string>, p: Line)
    requires Lacks(KRecur, text) && Lacks(KParent, text) && Only(KParent, p)
    ensures var s := text + (if rule == [] then [] else [Recur] + Words(rule)) + p;
      && FirstRule(s) == rule
      && WithoutRules(s) == text + p
      && Without(KParent, text + p) == text
      && First(KParent, text + p) == if p == [] then None else Some(p[0])
  {
    if rule == [] {
      assert text + [] + p == text + p;
      NoRuleScan(text + p);
    } else {
      assert text + ([Recur] + Words(rule)) + p == text + ([Recur] + (Words(rule) + p));
      RuleScan(text, rule, p);
    }
    assert text + (p + []) == text + p && text + [] == text;
    MarkerScan(KParent, text, p, []);
  }

  predicate NoRef(s: Line) {
    forall i :: 0 <= i < |s| ==> !s[i].Ref? && !s[i].ForeignRef?
  }

  lemma NoRefConcat(a: Line, b: Line)
    requires NoRef(a) && NoRef(b)
    ensures NoRef(a + b)
  {
  }

  lemma FieldsHaveNoRef(t: Task)
    requires IdOrEmpty(t.parentId)
    ensures NoRef(Fields(t))
  {
    RuleHasNoRef(t);
    var s, d, c, p := SchedField(t), DueField(t), DoneField(t), ParentField(t);
    NoRefConcat(c, p);
    NoRefConcat(d, c + p);
    NoRefConcat(s, d + (c + p));
    NoRefConcat(RuleField(t), s + (d + (c + p)));
  }

  lemma RuleHasNoRef(t: Task)
    ensures NoRef(RuleField(t))
  {
    WordsAre(t.recurrence);
  }

  lemma BodyIs(t: Task)
    ensures Body(t) == [Box(t.completed)] + (FullText(t) + Fields(t))
  {
    hide Fields, Gained, TagTokens;
    Assoc([Box(t.completed)], t.text, TagTokens(Gained(t)));
    Assoc([Box(t.completed)], FullText(t), Fields(t));
  }

  lemma Assoc<T>(a: seq<T>, b: seq<T>, c: seq<T>)
    ensures (a + b) + c == a + (b + c)
  {
  }

  lemma LineWithId(box: Token, rest: Line, id: string)
    requires rest != [] && NoRef(rest) && IdOrEmpty(id)
    ensures var line := WithId([box] + rest, id);
      && |line| > 1 && line[0] == box && Content(line) == rest && TrailingId(line) == id
  {
    var body := [box] + rest;
    assert body[|body| - 1] == rest[|rest| - 1] && body[1..] == rest;
    if id != "" {
      var line := body + [Ref(id)];
      assert line[1..|line| - 1] == rest;
    }
  }

  /**
   Reading a formatted line recovers completion, dates, rule, parent and id;
   the text comes back with the appended tags.
   */
  lemma FormatThenParse(t: Task)
    requires Clean(t)
    ensures Format(t).Ok? && Parse(Format(t).value) == Ok(Some(ReadBack(t)))
  {
    hide IsQiId, IsTag, Fields, FullText, ReadBack, DateError, TaskOf, Gained, NewTags;
    FullTextIsPlain(t);
    FieldsHaveNoRef(t);
    BodyIs(t);
    LineWithId(Box(t.completed), FullText(t) + Fields(t), t.id);
    ContentReadsBack(t);
  }

  lemma FieldsAreApart(text: Line, t: Task)
    requires Plain(text) && IdOrEmpty(t.parentId)
    ensures var x := text + RuleField(t); Lacks(KSched, x) && Lacks(KDue, x) && Lacks(KDone, x)
    ensures Only(KSched, SchedField(t)) && Only(KDue, DueField(t)) && Only(KDone, DoneField(t))
    ensures Only(KParent, ParentField(t))
    ensures text + Fields(t) ==
            text + RuleField(t) + (SchedField(t) + (DueField(t) + (DoneField(t) + ParentField(t))))
  {
    WordsAre(t.recurrence);
    assert forall i :: 0 <= i < |RuleField(t)| ==> KindOf(RuleField(t)[i]) in {KRecur, KWord};
  }

  lemma PlainLacks(text: Line)
    requires Plain(text)
    ensures Lacks(KRecur, text) && Lacks(KParent, text)
  {
  }

  lemma ContentReadsBack(t: Task)
    requires Clean(t)
    ensures DateError(FullText(t) + Fields(t)) == None
    ensures TaskOf(t.id, t.completed, FullText(t) + Fields(t)) == ReadBack(t)
  {
    hide DateError, TaskOf, First, FirstRule, Without, WithoutRules, NoDates, Lacks, Only, Gained, Fields;
    var text := FullText(t);
    FullTextIsPlain(t);
    FieldsAreApart(text, t);
    DateScan(text + RuleField(t), SchedField(t), DueField(t), DoneField(t), ParentField(t));
    PlainLacks(text);
    RuleAndParentScan(text, t.recurrence, ParentField(t));
    SpelledBy(t, text + Fields(t), text);
    RealDates(t, text + Fields(t));
  }

  lemma RealDates(t: Task, content: Line)
    requires First(KDue, content) == if DueField(t) == [] then None else Some(DueField(t)[0])
    requires First(KSched, content) == if SchedField(t) == [] then None else Some(SchedField(t)[0])
    requires First(KDone, content) == if DoneField(t) == [] then None else Some(DoneField(t)[0])
    requires RealOrNone(t.due) && RealOrNone(t.scheduled) && RealOrNone(t.completedAt)
    ensures DateError(content) == None
  {
  }

  /** A content whose scans give the fields of t spells t. */
  lemma SpelledBy(t: Task, content: Line, text: Line)
    requires First(KDue, content) == if DueField(t) == [] then None else Some(DueField(t)[0])
    requires First(KSched, content) == if SchedField(t) == [] then None else Some(SchedField(t)[0])
    requires First(KDone, content) == if DoneField(t) == [] then None else Some(DoneField(t)[0])
    requires FirstRule(NoDates(content)) == t.recurrence
    requires First(KParent, WithoutRules(NoDates(content))) ==
             if ParentField(t) == [] then None else Some(ParentField(t)[0])
    requires Without(KParent, WithoutRules(NoDates(content))) == text
    requires IdOrEmpty(t.parentId)
    ensures var tags, priority := TagsIn(text), First(KPriority, text);
      TaskOf(t.id, t.completed, content) ==
      t.(text := text, tags := tags, project := if tags == [] then "" else tags[0],
         priority := if priority.Some? then priority.value.level else "")
  {
  }

  /** The line that is read back shows every tag already: formatting it again changes nothing. */
  lemma FormatIsFixpoint(t: Task)
    requires Clean(t)
    ensures Clean(ReadBack(t)) && Format(ReadBack(t)) == Format(t)
  {
    var t' := ReadBack(t);
    FullTextIsPlain(t);
    TagsOfPlain(FullText(t));
    NothingGained(t');
    assert t'.text + [] == t'.text;
    SameFields(t, t');
  }

  lemma SameFields(t: Task, t': Task)
    requires FullText(t') == FullText(t)
    requires t' == t.(text := t'.text, tags := t'.tags, project := t'.project, priority := t'.priority)
    ensures Body(t') == Body(t)
  {
    BodyIs(t);
    BodyIs(t');
  }

  lemma {:induction false} TagsOfPlain(s: Line)
    requires Plain(s)
    ensures forall i :: 0 <= i < |TagsIn(s)| ==> IsTag(TagsIn(s)[i])
  {
    if s == [] {
    } else {
      TagsOfPlain(s[1..]);
    }
  }

  lemma HeadIsMember<T>(s: seq<T>)
    ensures s != [] ==> s[0] in s
  {
  }

  lemma NothingGained(t: Task)
    requires t.tags == TagsIn(t.text)
    requires t.project == if t.tags == [] then "" else t.tags[0]
    ensures Gained(t) == []
  {
    NewTagsAre(t.tags, SetOf(TagsIn(t.text)));
    HeadIsMember(NewTags(t.tags, SetOf(TagsIn(t.text))));
  }

  // ----- one more tag -----

  lemma {:induction false} NewTagsSnoc(tags: seq<string>, tag: string, inline: set<string>)
    ensures NewTags(tags + [tag], inline) == NewTags(tags, inline) + NewTags([tag], inline + SetOf(tags))
  {
    hide SetOf;
    if tags == [] {
      assert tags + [tag] == [tag];
      EmptySetOf(inline);
    } else {
      assert (tags + [tag])[1..] == tags[1..] + [tag];
      var head := tags[0];
      if head == "" || head in inline {
        NewTagsSnoc(tags[1..], tag, inline);
      } else {
        NewTagsSnoc(tags[1..], tag, inline + {head});
      }
      OneNewTag(tag, inline, tags);
    }
  }

  lemma EmptySetOf(inline: set<string>)
    ensures inline + SetOf<string>([]) == inline
  {
  }

  /** Whether a tag is new depends on the tags before it, shown or empty. */
  lemma OneNewTag(tag: string, inline: set<string>, tags: seq<string>)
    requires tags != []
    ensures NewTags([tag], inline + SetOf(tags)) ==
            if tags[0] == "" || tags[0] in inline then NewTags([tag], inline + SetOf(tags[1..]))
            else NewTags([tag], inline + {tags[0]} + SetOf(tags[1..]))
  {
    assert [tag][1..] == [];
    assert forall x :: x in tags <==> x == tags[0] || x in tags[1..];
    assert NewTags([], inline + SetOf(tags)) == [];
  }

  /** Whatever tag a clean task has is on its line. */
  lemma TagIsShown(t: Task, tag: string)
    requires Clean(t) && tag in t.tags && tag != ""
    ensures tag in TagsIn(FullText(t))
  {
    FullTextIsPlain(t);
    NewTagsAre(t.tags, SetOf(TagsIn(t.text)));
    hide IsTag, IsQiId, NewTags, Plain;
    var added := NewTags(t.tags, SetOf(TagsIn(t.text)));
    if tag in added {
      assert tag in Gained(t);
    } else {
      assert tag in TagsIn(t.text);
    }
  }
}
