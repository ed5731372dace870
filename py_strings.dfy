/**
 * The few Python `str` operations the core relies on, over `seq<char>`:
 * `strip`, `startswith`, `endswith`, `splitlines`, and taking the piece of a
 * string before the first occurrence of a separator (`s.split(sep)[0]`).
 */
module PyStrings {

  /** Characters for which Python's `str.isspace()` holds; `str.strip()` removes them. */
  predicate IsSpace(c: char) {
    c == ' ' || ('\t' <= c <= '\r') || ('\U{1C}' <= c <= '\U{1F}')
    || c == '\U{85}' || c == '\U{A0}' || c == '\U{1680}'
    || ('\U{2000}' <= c <= '\U{200A}') || c == '\U{2028}' || c == '\U{2029}'
    || c == '\U{202F}' || c == '\U{205F}' || c == '\U{3000}'
  }

  /** Characters at which Python's `str.splitlines()` ends a line. */
  predicate IsLineBreak(c: char) {
    c == '\n' || c == '\r' || c == '\U{0B}' || c == '\U{0C}'
    || ('\U{1C}' <= c <= '\U{1E}') || c == '\U{85}' || c == '\U{2028}' || c == '\U{2029}'
  }

  /** Every character of `t` is whitespace. */
  predicate AllSpace(t: string) {
    forall k :: 0 <= k < |t| ==> IsSpace(t[k])
  }

  /** `s.lstrip()`: the longest suffix of `s` that does not start with whitespace. */
  function StripLeft(s: string): (r: string)
    ensures |r| <= |s| && r == s[|s| - |r|..]
    ensures AllSpace(s[..|s| - |r|])
    ensures r == [] || !IsSpace(r[0])
  {
    if s != [] && IsSpace(s[0]) then
      var r := StripLeft(s[1..]);
      assert s[..|s| - |r|] == [s[0]] + s[1..][..|s| - 1 - |r|];
      r
    else s
  }

  /** `s.rstrip()`: the longest prefix of `s` that does not end with whitespace. */
  function StripRight(s: string): (r: string)
    ensures |r| <= |s| && r == s[..|r|]
    ensures AllSpace(s[|r|..])
    ensures r == [] || !IsSpace(r[|r| - 1])
  {
    if s != [] && IsSpace(s[|s| - 1]) then
      var r := StripRight(s[..|s| - 1]);
      assert s[|r|..] == s[..|s| - 1][|r|..] + [s[|s| - 1]];
      r
    else s
  }

  /**
   * `s.strip()`: `s` without its leading and trailing whitespace. The result
   * is the slice `s[i..j]` with only whitespace before `i` and from `j` on.
   */
  function Strip(s: string): (r: string)
    ensures r == [] || (!IsSpace(r[0]) && !IsSpace(r[|r| - 1]))
    ensures exists i, j :: 0 <= i <= j <= |s| && r == s[i..j] && AllSpace(s[..i]) && AllSpace(s[j..])
  {
    var l := StripLeft(s);
    var r := StripRight(l);
    StripEnds(s);
    StripCuts(s);
    r
  }

  /** What `Strip` keeps neither starts nor ends with whitespace. */
  lemma StripEnds(s: string)
    ensures var r := StripRight(StripLeft(s)); r == [] || (!IsSpace(r[0]) && !IsSpace(r[|r| - 1]))
  {
    var l := StripLeft(s);
    var r := StripRight(l);
    if r != [] {
      assert r[0] == l[0];
    }
  }

  /** Where `Strip` cuts: after the leading whitespace and before the trailing whitespace. */
  lemma StripCuts(s: string)
    ensures var l := StripLeft(s); var r := StripRight(l); var i := |s| - |l|;
      i + |r| <= |s| && r == s[i..i + |r|] && AllSpace(s[..i]) && AllSpace(s[i + |r|..])
  {
    var l := StripLeft(s);
    var r := StripRight(l);
    var i := |s| - |l|;
    assert s[i + |r|..] == l[|r|..];
  }

  /** `s.startswith(p)`. */
  predicate StartsWith(s: string, p: string) {
    |p| <= |s| && s[..|p|] == p
  }

  /** `s.endswith(p)`. */
  predicate EndsWith(s: string, p: string) {
    |p| <= |s| && s[|s| - |p|..] == p
  }

  /**
   * `s.split(sep)[0]`: the part of `s` before the first occurrence of `sep`,
   * or all of `s` when `sep` does not occur.
   */
  function BeforeFirst(s: string, sep: string): (r: string)
    requires sep != []
    ensures |r| <= |s| && r == s[..|r|]
    ensures r == s || StartsWith(s[|r|..], sep)
    ensures forall k :: 0 <= k < |r| ==> !StartsWith(s[k..], sep)
  {
    if |s| < |sep| then s
    else if s[..|sep|] == sep then []
    else
      var t := BeforeFirst(s[1..], sep);
      assert forall k :: 1 <= k <= |s| ==> s[k..] == s[1..][k - 1..];
      [s[0]] + t
  }

  /** Index of the first line-break character of `s`, or `|s|` when there is none. */
  function FirstBreak(s: string): (i: nat)
    ensures i <= |s|
    ensures i < |s| ==> IsLineBreak(s[i])
    ensures forall k :: 0 <= k < i ==> !IsLineBreak(s[k])
  {
    if s == [] || IsLineBreak(s[0]) then 0 else 1 + FirstBreak(s[1..])
  }

  /** How many characters the line break at `i` takes: two for "\r\n", else one. */
  function BreakWidth(s: string, i: nat): nat
    requires i < |s|
  {
    if s[i] == '\r' && i + 1 < |s| && s[i + 1] == '\n' then 2 else 1
  }

  /**
   * `s.splitlines()`: the lines of `s` without their terminators; a final
   * terminator does not start an extra empty line, and "" has no lines.
   */
  function SplitLines(s: string): (lines: seq<string>)
    ensures forall l :: l in lines ==> forall k :: 0 <= k < |l| ==> !IsLineBreak(l[k])
    ensures s != [] <==> lines != []
    decreases |s|
  {
    if s == [] then []
    else
      var i := FirstBreak(s);
      if i == |s| then [s]
      else [s[..i]] + SplitLines(s[i + BreakWidth(s, i)..])
  }

  /** A line in the sense of `splitlines`: no line-break character. */
  predicate LineFree(l: string) {
    forall k :: 0 <= k < |l| ==> !IsLineBreak(l[k])
  }

  /** The two terminators the round trip below covers: "\n" and "\r\n". */
  predicate Terminator(t: string) {
    t == "\n" || t == "\r\n"
  }

  /** The lines `ls`, each followed by the terminator `t`. */
  function JoinLines(ls: seq<string>, t: string): string
    decreases |ls|
  {
    if ls == [] then [] else ls[0] + t + JoinLines(ls[1..], t)
  }

  /** Splitting a text that starts with a terminated line yields that line, then the lines of the rest. */
  lemma SplitLinesCons(l: string, t: string, rest: string)
    requires LineFree(l) && Terminator(t)
    ensures SplitLines(l + t + rest) == [l] + SplitLines(rest)
  {
    var s := l + t + rest;
    assert forall k :: 0 <= k < |l| ==> s[k] == l[k];
    assert s[|l|] == t[0];
    assert FirstBreak(s) == |l|;
    assert BreakWidth(s, |l|) == |t|;
    assert s[..|l|] == l;
    assert s[|l| + |t|..] == rest;
  }

  /**
   * Round trip: lines joined with "\n" (or "\r\n") after each, with an
   * optional unterminated last line, split back into exactly those lines; an
   * empty last line adds none.
   */
  lemma {:induction false} SplitLinesJoin(ls: seq<string>, t: string, last: string)
    requires Terminator(t) && LineFree(last)
    requires forall i :: 0 <= i < |ls| ==> LineFree(ls[i])
    ensures SplitLines(JoinLines(ls, t) + last) == ls + (if last == [] then [] else [last])
    decreases |ls|
  {
    if ls == [] {
      assert JoinLines(ls, t) + last == last;
      if last != [] {
        SplitLinesOneLine(last);
      }
    } else {
      var tail: seq<string> := if last == [] then [] else [last];
      var rest := JoinLines(ls[1..], t) + last;
      SplitLinesJoin(ls[1..], t, last);
      AppendAssoc(ls[0] + t, JoinLines(ls[1..], t), last);
      SplitLinesCons(ls[0], t, rest);
      ConsAppend(ls, tail);
    }
  }

  /** Sequence concatenation is associative (a helper for the proofs in this model). */
  lemma AppendAssoc<T>(a: seq<T>, b: seq<T>, c: seq<T>)
    ensures a + (b + c) == (a + b) + c
  {
  }

  /** A non-empty sequence is its head followed by its tail, also in front of more elements. */
  lemma ConsAppend<T>(xs: seq<T>, ys: seq<T>)
    requires xs != []
    ensures [xs[0]] + (xs[1..] + ys) == xs + ys
  {
    assert xs == [xs[0]] + xs[1..];
  }

  /** A one-line string is its own only line. */
  lemma SplitLinesOneLine(s: string)
    requires s != []
    requires forall k :: 0 <= k < |s| ==> !IsLineBreak(s[k])
    ensures SplitLines(s) == [s]
  {
    assert FirstBreak(s) == |s|;
  }
}
