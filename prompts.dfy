/**
 * Prompts are built by f-strings: fixed text with values filled in between.
 * `Fill(lits, holes)` is `lits[0] + holes[0] + lits[1] + ... + lits[n]`; the
 * lemmas say where each value lands, so that the order of the sections of a
 * prompt can be stated.
 */
module Prompts {

  /** The template `lits` with `holes` filled in between its pieces, in order. */
  function Fill(lits: seq<string>, holes: seq<string>): string
    requires |lits| == |holes| + 1
    decreases |holes|
  {
    if holes == [] then lits[0] else lits[0] + holes[0] + Fill(lits[1..], holes[1..])
  }

  /** The text of the prompt before template piece `k`: pieces and holes `0 .. k - 1`. */
  function Head(lits: seq<string>, holes: seq<string>, k: nat): string
    requires k <= |holes| && k < |lits|
    decreases k
  {
    if k == 0 then [] else lits[0] + holes[0] + Head(lits[1..], holes[1..], k - 1)
  }

  /** Where hole `k` starts in `Fill(lits, holes)`. */
  function Offset(lits: seq<string>, holes: seq<string>, k: nat): nat
    requires |lits| == |holes| + 1 && k < |holes|
  {
    |Head(lits, holes, k)| + |lits[k]|
  }

  /** The prompt is what comes before piece `k`, then piece `k`, then hole `k`, then the rest. */
  lemma {:induction false} FillSplit(lits: seq<string>, holes: seq<string>, k: nat)
    requires |lits| == |holes| + 1 && k < |holes|
    ensures Fill(lits, holes) == Head(lits, holes, k) + lits[k] + holes[k] + Fill(lits[k + 1..], holes[k + 1..])
    decreases k
  {
    if k > 0 {
      FillSplit(lits[1..], holes[1..], k - 1);
      assert lits[1..][k..] == lits[k + 1..];
      assert holes[1..][k..] == holes[k + 1..];
    }
  }

  /** Hole `k` sits at `Offset(k)`, right after template piece `k`. */
  lemma FillSlot(lits: seq<string>, holes: seq<string>, k: nat)
    requires |lits| == |holes| + 1 && k < |holes|
    ensures |lits[k]| <= Offset(lits, holes, k)
    ensures Offset(lits, holes, k) + |holes[k]| <= |Fill(lits, holes)|
    ensures Fill(lits, holes)[Offset(lits, holes, k) - |lits[k]|..Offset(lits, holes, k)] == lits[k]
    ensures Fill(lits, holes)[Offset(lits, holes, k)..Offset(lits, holes, k) + |holes[k]|] == holes[k]
  {
    FillSplit(lits, holes, k);
    var h := Head(lits, holes, k);
    var rest := Fill(lits[k + 1..], holes[k + 1..]);
    var p := h + lits[k] + holes[k] + rest;
    assert p[|h|..|h| + |lits[k]|] == lits[k];
    assert p[|h| + |lits[k]|..|h| + |lits[k]| + |holes[k]|] == holes[k];
  }

  /** Hole `k + 1` starts after hole `k` and template piece `k + 1` end: holes keep their order. */
  lemma {:induction false} OffsetsIncrease(lits: seq<string>, holes: seq<string>, k: nat)
    requires |lits| == |holes| + 1 && k + 1 < |holes|
    ensures Offset(lits, holes, k + 1) == Offset(lits, holes, k) + |holes[k]| + |lits[k + 1]|
    decreases k
  {
    if k > 0 {
      OffsetsIncrease(lits[1..], holes[1..], k - 1);
    }
  }

  /** `p` holds `value` at `i`, directly after `heading`. */
  ghost predicate SectionAt(p: string, i: int, heading: string, value: string) {
    |heading| <= i && i + |value| <= |p| && p[i - |heading|..i] == heading && p[i..i + |value|] == value
  }

  /** Hole `k` is a section of the filled prompt, labelled by template piece `k`. */
  lemma FillSection(lits: seq<string>, holes: seq<string>, k: nat)
    requires |lits| == |holes| + 1 && k < |holes|
    ensures SectionAt(Fill(lits, holes), Offset(lits, holes, k), lits[k], holes[k])
  {
    FillSlot(lits, holes, k);
  }
}
