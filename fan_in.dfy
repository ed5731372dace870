/**
 * How the core combines what agents yield: keep the last item
 * (`x = str(response)` in a loop), concatenate all of them
 * (`x += str(chunk)`, showing the text so far after every chunk), or add up
 * token counts.
 */
module FanIn {
  import opened Conversation

  /** The last element of `xs`, or `init` when `xs` is empty. */
  function LastOr(xs: seq<string>, init: string): string {
    if xs == [] then init else xs[|xs| - 1]
  }

  /** The in-order concatenation of `xs`. */
  function Concat(xs: seq<string>): string
    decreases |xs|
  {
    if xs == [] then [] else Concat(xs[..|xs| - 1]) + xs[|xs| - 1]
  }

  /** Concatenation distributes over sequence concatenation. */
  lemma {:induction false} ConcatAppend(a: seq<string>, b: seq<string>)
    ensures Concat(a + b) == Concat(a) + Concat(b)
    decreases |b|
  {
    if b == [] {
      assert a + b == a;
    } else {
      var b' := b[..|b| - 1];
      var last := b[|b| - 1];
      assert (a + b)[..|a + b| - 1] == a + b';
      assert (a + b)[|a + b| - 1] == last;
      ConcatAppend(a, b');
      var x, y := Concat(a), Concat(b');
      assert Concat(b) == y + last;
      assert Concat(a + b) == Concat(a + b') + last;
      assert (x + y) + last == x + (y + last);
    }
  }

  /** The text shown after chunk `i` is a prefix of the text shown after any later chunk. */
  lemma ShownIsPrefix(xs: seq<string>, i: nat, j: nat)
    requires i <= j <= |xs|
    ensures Concat(xs[..j]) == Concat(xs[..i]) + Concat(xs[i..j])
  {
    assert xs[..j] == xs[..i] + xs[i..j];
    ConcatAppend(xs[..i], xs[i..j]);
  }

  /** A worked example of `Accumulate`'s display: streaming "A", "B", "C" shows "A", then "AB", then "ABC". */
  lemma StreamingExample()
    ensures Concat(["A"]) == "A"
    ensures Concat(["A", "B"]) == "AB"
    ensures Concat(["A", "B", "C"]) == "ABC"
  {
    assert ["A", "B"][..1] == ["A"];
    assert ["A", "B", "C"][..2] == ["A", "B"];
  }

  /** A loop that overwrites `r` with every response: the last response wins, `init` if there is none. */
  method KeepLast(responses: seq<string>, init: string) returns (r: string)
    ensures r == LastOr(responses, init)
    ensures responses != [] ==> r == responses[|responses| - 1]
    ensures responses == [] ==> r == init
  {
    r := init;
    var i := 0;
    while i < |responses|
      invariant 0 <= i <= |responses|
      invariant r == LastOr(responses[..i], init)
    {
      r := responses[i];
      i := i + 1;
    }
    assert responses[..i] == responses;
  }

  /**
   * A streaming loop: `text += chunk`, show `text`, `thread = chunk.thread`
   * after every chunk. `shown[i]` is what is displayed after chunk `i`.
   */
  method Accumulate(chunks: seq<Chunk>, thread0: Thread?) returns (text: string, shown: seq<string>, thread: Thread?, streamed: bool)
    ensures text == Concat(Texts(chunks))
    ensures |shown| == |chunks|
    ensures forall i :: 0 <= i < |chunks| ==> shown[i] == Concat(Texts(chunks[..i + 1]))
    ensures thread == if chunks == [] then thread0 else chunks[|chunks| - 1].thread
    ensures streamed <==> chunks != []
  {
    text, shown, thread, streamed := "", [], thread0, false;
    var i := 0;
    while i < |chunks|
      invariant 0 <= i <= |chunks|
      invariant text == Concat(Texts(chunks[..i]))
      invariant |shown| == i
      invariant forall k :: 0 <= k < i ==> shown[k] == Concat(Texts(chunks[..k + 1]))
      invariant thread == if i == 0 then thread0 else chunks[i - 1].thread
      invariant streamed <==> i > 0
    {
      assert Texts(chunks[..i + 1])[..i] == Texts(chunks[..i]);
      text := text + chunks[i].text;
      shown := shown + [text];
      thread := chunks[i].thread;
      streamed := true;
      i := i + 1;
    }
    assert chunks[..i] == chunks;
  }

  /** The sum of `xs`, as Python's `sum`. */
  function Sum(xs: seq<nat>): nat
    decreases |xs|
  {
    if xs == [] then 0 else Sum(xs[..|xs| - 1]) + xs[|xs| - 1]
  }

  /** Summing two or three counts, as the flows do. */
  lemma SumSmall(a: nat, b: nat, c: nat)
    ensures Sum([a, b]) == a + b
    ensures Sum([a, b, c]) == a + b + c
  {
    assert [a, b][..1] == [a];
    assert Sum([a]) == Sum([a][..0]) + a == a;
    assert [a, b, c][..2] == [a, b];
  }
}
