/** Mapping each element of a sequence to a sequence and concatenating the results. */
module Seqs {

  function ConcatMap<T, U>(f: T -> seq<U>, xs: seq<T>): seq<U> {
    if xs == [] then [] else ConcatMap(f, xs[..|xs| - 1]) + f(xs[|xs| - 1])
  }

  lemma ConcatMapSnoc<T, U>(f: T -> seq<U>, xs: seq<T>, x: T)
    ensures ConcatMap(f, xs + [x]) == ConcatMap(f, xs) + f(x)
  {
    assert (xs + [x])[..|xs|] == xs;
  }

  /** The loop over `xs`, one step further: the next element's image follows. */
  lemma ConcatMapStep<T, U>(f: T -> seq<U>, xs: seq<T>, i: nat)
    requires i < |xs|
    ensures ConcatMap(f, xs[..i + 1]) == ConcatMap(f, xs[..i]) + f(xs[i])
  {
    assert xs[..i + 1] == xs[..i] + [xs[i]];
    ConcatMapSnoc(f, xs[..i], xs[i]);
  }

  lemma {:induction false} ConcatMapAppend<T, U>(f: T -> seq<U>, a: seq<T>, b: seq<T>)
    ensures ConcatMap(f, a + b) == ConcatMap(f, a) + ConcatMap(f, b)
    decreases |b|
  {
    if b == [] {
      assert a + b == a;
    } else {
      var init, last := b[..|b| - 1], b[|b| - 1];
      assert b == init + [last];
      assert a + b == (a + init) + [last];
      ConcatMapSnoc(f, a + init, last);
      ConcatMapSnoc(f, init, last);
      ConcatMapAppend(f, a, init);
      var x, y, z := ConcatMap(f, a), ConcatMap(f, init), f(last);
      assert x + y + z == x + (y + z);
    }
  }

  /** A loop that emits the images under `g` of the images under `f` of `xs`,
      one element at a time, keeps its log equal to the whole prefix's images. */
  lemma ConcatMapLogStep<T, U, V>(f: T -> seq<U>, g: U -> seq<V>, before: seq<V>, xs: seq<T>, i: nat, log: seq<V>)
    requires i < |xs|
    requires log == before + ConcatMap(g, ConcatMap(f, xs[..i])) + ConcatMap(g, f(xs[i]))
    ensures log == before + ConcatMap(g, ConcatMap(f, xs[..i + 1]))
  {
    var done, shown := ConcatMap(f, xs[..i]), f(xs[i]);
    ConcatMapStep(f, xs, i);
    ConcatMapAppend(g, done, shown);
    var x, y := ConcatMap(g, done), ConcatMap(g, shown);
    assert before + x + y == before + (x + y);
  }

  /** A log that holds the images of `shown` and then the image of `x` holds the
      images of `shown + [x]`. */
  lemma ConcatMapLogSnoc<T, V>(g: T -> seq<V>, before: seq<V>, shown: seq<T>, x: T, log: seq<V>)
    requires log == before + ConcatMap(g, shown) + g(x)
    ensures log == before + ConcatMap(g, shown + [x])
  {
    ConcatMapSnoc(g, shown, x);
    var y, z := ConcatMap(g, shown), g(x);
    assert before + y + z == before + (y + z);
  }

  /** Appending to or with an empty sequence, and regrouping appends. */
  lemma AppendFacts<T>(a: seq<T>, b: seq<T>, c: seq<T>)
    ensures [] + a == a && a + [] == a
    ensures a + b + c == a + (b + c)
  {
  }
}
