/** White space around text, as Go's strings package trims it. */
module Text {
  predicate Space(c: char) {
    || c == ' ' || '\t' <= c <= '\r' || c == '\U{85}' || c == '\U{A0}' || c == '\U{1680}' || '\U{2000}' <= c <= '\U{200A}'
    || c == '\U{2028}' || c == '\U{2029}' || c == '\U{202F}' || c == '\U{205F}' || c == '\U{3000}'
  }

  predicate Blank(s: string) {
    forall i :: 0 <= i < |s| ==> Space(s[i])
  }

  function TrimLeft(s: string): string {
    if s != "" && Space(s[0]) then TrimLeft(s[1..]) else s
  }

  function TrimRight(s: string): string {
    if s != "" && Space(s[|s| - 1]) then TrimRight(s[..|s| - 1]) else s
  }

  function Trim(s: string): string {
    TrimRight(TrimLeft(s))
  }

  /** The trimmed text is what is left when white space alone is cut from both ends, as much as there is. */
  lemma TrimCuts(s: string) returns (from: nat, to: nat)
    ensures from <= to <= |s| && Trim(s) == s[from..to]
    ensures forall i :: 0 <= i < from || to <= i < |s| ==> Space(s[i])
    ensures from < to ==> !Space(s[from]) && !Space(s[to - 1])
  {
    hide Space;
    from := LeftCut(s);
    to := RightCut(s[from..]);
    assert s[from..][..to] == s[from..from + to];
    forall i | from + to <= i < |s|
      ensures Space(s[i])
    {
      assert s[from..][i - from] == s[i];
    }
    to := from + to;
  }

  lemma LeftCut(s: string) returns (from: nat)
    ensures from <= |s| && TrimLeft(s) == s[from..]
    ensures forall i :: 0 <= i < from ==> Space(s[i])
    ensures from < |s| ==> !Space(s[from])
  {
    hide Space;
    from := 0;
    if s != "" && Space(s[0]) {
      from := LeftCut(s[1..]);
      assert s[1..][from..] == s[from + 1..];
      assert forall i :: 1 <= i < |s| ==> s[1..][i - 1] == s[i];
      from := from + 1;
    }
  }

  lemma RightCut(s: string) returns (to: nat)
    ensures to <= |s| && TrimRight(s) == s[..to]
    ensures forall i :: to <= i < |s| ==> Space(s[i])
    ensures 0 < to ==> !Space(s[to - 1])
  {
    hide Space;
    to := |s|;
    if s != "" && Space(s[|s| - 1]) {
      to := RightCut(s[..|s| - 1]);
      assert s[..|s| - 1][..to] == s[..to];
    }
  }

  /** Nothing to trim. */
  predicate Trimmed(s: string) {
    s == "" || (!Space(s[0]) && !Space(s[|s| - 1]))
  }

  lemma TrimmedStays(s: string)
    requires Trimmed(s)
    ensures Trim(s) == s
  {
  }

  predicate EndsWith(s: string, suffix: string) {
    |suffix| <= |s| && s[|s| - |suffix|..] == suffix
  }

  function TrimSuffix(s: string, suffix: string): string {
    if EndsWith(s, suffix) then s[..|s| - |suffix|] else s
  }

  predicate Digit(c: char) {
    '0' <= c <= '9'
  }

  /** A tag made of digits only, which Obsidian does not take for a tag (internal/domain/tag.go:25-40). */
  predicate NumericTag(s: string) {
    s != "" && forall i :: 0 <= i < |s| ==> Digit(s[i])
  }
}
