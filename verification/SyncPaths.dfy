/** The files of a sync: their names, the order in which they are written, and the ones a scan skips (internal/sync/reconcile.go). */
module SyncPaths {
  import opened TaskLine
  import Order

  datatype Path = CanonFile(name: string) | ProjFile(name: string)

  /** The tasks directory, the configured projects and the projection file of each. */
  datatype Config = Config(tasksDir: string, fileOf: map<string, string>) {
    function Synced(): set<string> {
      fileOf.Keys
    }

    /** Projects are tags, and no two share a projection file. */
    ghost predicate Valid() {
      && (forall p :: p in fileOf ==> IsTag(p))
      && (forall p, q :: p in fileOf && q in fileOf && fileOf[p] == fileOf[q] ==> p == q)
    }

    /** The path as the file system knows it. */
    function Text(path: Path): string {
      match path
      case CanonFile(name) => tasksDir + "/" + name + ".md"
      case ProjFile(name) => name
    }
  }

  /** The main-vault file name of a project: "/" becomes "-". */
  function Flatten(project: string): string {
    if project == "" then "inbox" else Dashed(project)
  }

  function Dashed(s: string): string {
    if s == [] then [] else [if s[0] == '/' then '-' else s[0]] + Dashed(s[1..])
  }

  lemma {:induction false} DashedIs(s: string)
    ensures |Dashed(s)| == |s| && forall i :: 0 <= i < |s| ==> Dashed(s)[i] == if s[i] == '/' then '-' else s[i]
  {
    if s != [] {
      DashedIs(s[1..]);
    }
  }

  /** The file of a project is named like it, letter by letter, but for the slashes; tasks without a project go to the inbox. */
  lemma FlattenIs(project: string)
    ensures project == "" ==> Flatten(project) == "inbox"
    ensures project != "" ==> |Flatten(project)| == |project|
    ensures project != "" ==> forall i :: 0 <= i < |project| ==>
      Flatten(project)[i] == if project[i] == '/' then '-' else project[i]
  {
    DashedIs(project);
  }

  // ----- sync-conflict copies -----

  /** Lower case as far as the letters searched for go. */
  function LowerChar(c: char): char {
    if 'A' <= c <= 'Z' then (c as int + 32) as char
    else if c == '\U{130}' then 'i'
    else if c == '\U{212A}' then 'k'
    else c
  }

  function Lower(s: string): string {
    if s == [] then [] else [LowerChar(s[0])] + Lower(s[1..])
  }

  predicate Contains(s: string, part: string) {
    part <= s || (s != [] && Contains(s[1..], part))
  }

  predicate IsSyncConflict(name: string) {
    Contains(Lower(name), "sync-conflict") || Contains(Lower(name), "conflicted copy")
  }

  lemma {:induction false} LowerKeepsLength(s: string)
    ensures |Lower(s)| == |s| && forall i :: 0 <= i < |s| ==> Lower(s)[i] == LowerChar(s[i])
  {
    if s != [] {
      LowerKeepsLength(s[1..]);
    }
  }

  lemma {:induction false} ContainsWhen(s: string, part: string)
    ensures Contains(s, part) <==> exists i :: StandsAt(s, part, i)
  {
    if part <= s {
      assert StandsAt(s, part, 0);
    }
    if s != [] {
      ContainsWhen(s[1..], part);
      if i: nat :| StandsAt(s[1..], part, i) {
        assert s[i + 1..][..|part|] == s[1..][i..][..|part|];
        assert StandsAt(s, part, i + 1);
      }
      if i: nat :| StandsAt(s, part, i) && i > 0 {
        assert s[i..][..|part|] == s[1..][i - 1..][..|part|];
        assert StandsAt(s[1..], part, i - 1);
      }
    }
  }

  /** The part stands in the text from i on. */
  predicate StandsAt(s: string, part: string, i: nat) {
    i + |part| <= |s| && s[i..][..|part|] == part
  }

  /** A name is a conflict copy's if its lower-case letters show one of the two marks somewhere. */
  lemma ConflictNameWhen(name: string)
    ensures IsSyncConflict(name) <==>
            (exists i :: StandsAt(Lower(name), "sync-conflict", i)) || (exists i :: StandsAt(Lower(name), "conflicted copy", i))
    ensures |Lower(name)| == |name|
    ensures forall i :: 0 <= i < |name| ==> 'A' <= name[i] <= 'Z' ==> Lower(name)[i] == name[i] - 'A' + 'a'
    ensures forall i :: 0 <= i < |name| ==> name[i] < 'A' || 'Z' < name[i] < '\U{80}' ==> Lower(name)[i] == name[i]
  {
    ContainsWhen(Lower(name), "sync-conflict");
    ContainsWhen(Lower(name), "conflicted copy");
    LowerKeepsLength(name);
    hide Contains, Lower, StandsAt;
  }

  lemma {:induction false} PartIsShorter(s: string, part: string)
    ensures Contains(s, part) ==> |part| <= |s|
  {
    if s != [] {
      PartIsShorter(s[1..], part);
    }
  }

  /** Names of up to twelve letters are not taken for conflict copies. */
  lemma ShortIsNoConflict(name: string)
    requires |name| <= 12
    ensures !IsSyncConflict(name)
  {
    LowerKeepsLength(name);
    PartIsShorter(Lower(name), "sync-conflict");
    PartIsShorter(Lower(name), "conflicted copy");
    hide Contains, Lower;
  }

  /** The last component of a path. */
  function Base(path: string): string {
    if '/' in path then Base(path[1..]) else path
  }

  /** What is behind the last slash. */
  lemma {:induction false} BaseIs(path: string)
    ensures '/' !in Base(path)
    ensures if '/' in path then exists k :: 0 <= k < |path| && path[k] == '/' && Base(path) == path[k + 1..] else Base(path) == path
  {
    if '/' in path {
      BaseIs(path[1..]);
      if '/' in path[1..] {
        var k :| 0 <= k < |path[1..]| && path[1..][k] == '/' && Base(path[1..]) == path[1..][k + 1..];
        assert path[k + 1] == '/' && path[k + 2..] == path[1..][k + 1..];
      } else {
        assert path[0] == '/' && path[0 + 1..] == path[1..];
      }
    }
  }

  lemma {:induction false} BaseIsShorter(path: string)
    ensures |Base(path)| <= |path|
  {
    if '/' in path {
      BaseIsShorter(path[1..]);
    }
  }

  /** No gather reads this file, though a pass may want to write it. */
  predicate Skipped(path: Path) {
    match path
    case CanonFile(name) => IsSyncConflict(name)
    case ProjFile(name) => IsSyncConflict(Base(name))
  }

  // ----- the order of the writes -----

  /** The byte order of the paths; a main-vault file comes before a projection file of the same text. */
  predicate Earlier(cfg: Config, a: Path, b: Path) {
    Order.Less(cfg.Text(a), cfg.Text(b)) || (cfg.Text(a) == cfg.Text(b) && a.CanonFile? && b.ProjFile?)
  }

  lemma SameText(cfg: Config, a: Path, b: Path)
    requires cfg.Text(a) == cfg.Text(b) && a.CanonFile? == b.CanonFile?
    ensures a == b
  {
    if a.CanonFile? {
      var front := cfg.tasksDir + "/";
      assert cfg.Text(a)[|front|..|cfg.Text(a)| - 3] == a.name;
      assert cfg.Text(b)[|front|..|cfg.Text(b)| - 3] == b.name;
    }
  }

  lemma EarlierTotal(cfg: Config, a: Path, b: Path)
    ensures a != b ==> Earlier(cfg, a, b) || Earlier(cfg, b, a)
  {
    hide Order.Less;
    Order.LessTotal(cfg.Text(a), cfg.Text(b));
    if cfg.Text(a) == cfg.Text(b) && a.CanonFile? == b.CanonFile? {
      SameText(cfg, a, b);
    }
  }

  lemma EarlierTransitive(cfg: Config, a: Path, b: Path, c: Path)
    requires Earlier(cfg, a, b) && Earlier(cfg, b, c)
    ensures Earlier(cfg, a, c)
  {
    hide Order.Less;
    var x, y, z := cfg.Text(a), cfg.Text(b), cfg.Text(c);
    if Order.Less(x, y) && Order.Less(y, z) {
      Order.LessTransitive(x, y, z);
    }
  }

  lemma EarlierIrreflexive(cfg: Config, a: Path)
    ensures !Earlier(cfg, a, a)
  {
    Order.LessIrreflexive(cfg.Text(a));
  }

  predicate InOrder(cfg: Config, paths: seq<Path>) {
    forall i, j :: 0 <= i < j < |paths| ==> Earlier(cfg, paths[i], paths[j])
  }

  /** The place of x in an ordered sequence. */
  function Rank(cfg: Config, paths: seq<Path>, x: Path): (r: nat) {
    if paths == [] || !Earlier(cfg, paths[0], x) then 0 else 1 + Rank(cfg, paths[1..], x)
  }

  lemma {:induction false} RankIs(cfg: Config, paths: seq<Path>, x: Path)
    ensures var r := Rank(cfg, paths, x);
      r <= |paths| && (forall i :: 0 <= i < r ==> Earlier(cfg, paths[i], x)) && (r < |paths| ==> !Earlier(cfg, paths[r], x))
  {
    hide Earlier;
    if paths != [] && Earlier(cfg, paths[0], x) {
      RankIs(cfg, paths[1..], x);
    }
  }

  lemma InsertInOrder(cfg: Config, paths: seq<Path>, x: Path)
    requires InOrder(cfg, paths) && x !in paths
    ensures var r := Rank(cfg, paths, x); r <= |paths| && InOrder(cfg, paths[..r] + [x] + paths[r..])
  {
    hide Earlier, Rank;
    RankIs(cfg, paths, x);
    var r := Rank(cfg, paths, x);
    var all := paths[..r] + [x] + paths[r..];
    forall j | r <= j < |paths|
      ensures Earlier(cfg, x, paths[j])
    {
      assert paths[r] in paths;
      EarlierTotal(cfg, paths[r], x);
      if j > r {
        EarlierTransitive(cfg, x, paths[r], paths[j]);
      }
    }
    forall i, j | 0 <= i < j < |all|
      ensures Earlier(cfg, all[i], all[j])
    {
      assert all[i] == if i < r then paths[i] else if i == r then x else paths[i - 1];
      assert all[j] == if j < r then paths[j] else if j == r then x else paths[j - 1];
    }
  }

  lemma InsertedPaths(paths: seq<Path>, x: Path, r: nat)
    requires r <= |paths|
    ensures forall y :: y in paths[..r] + [x] + paths[r..] <==> y in paths || y == x
  {
    assert paths == paths[..r] + paths[r..];
  }

  /** The map's keys come in any order; the writes sort them. */
  method SortedPaths(cfg: Config, keys: set<Path>) returns (paths: seq<Path>)
    ensures InOrder(cfg, paths)
    ensures forall x :: x in paths <==> x in keys
  {
    hide Earlier;
    paths := [];
    var rest := keys;
    while rest != {}
      invariant rest <= keys && InOrder(cfg, paths)
      invariant forall x :: x in paths <==> x in keys - rest
      decreases rest
    {
      var x :| x in rest;
      InsertInOrder(cfg, paths, x);
      var r := Rank(cfg, paths, x);
      InsertedPaths(paths, x, r);
      paths := paths[..r] + [x] + paths[r..];
      rest := rest - {x};
    }
  }
}
