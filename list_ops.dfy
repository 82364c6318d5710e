/**
 * List-level reference definitions, independent of streams: what a fused
 * pipeline must compute when its source is an in-memory sequence. Each is
 * characterised by its own contract; the fusion theorems relate streams to them.
 */
module ListOps {

  /** Applies f to every element. */
  function MapSeq<E, R>(f: E -> R, xs: seq<E>): (r: seq<R>)
    ensures |r| == |xs|
    ensures forall i :: 0 <= i < |xs| ==> r[i] == f(xs[i])
  {
    if xs == [] then [] else [f(xs[0])] + MapSeq(f, xs[1..])
  }

  /** Keeps the elements p accepts, in order. */
  function FilterSeq<E>(p: E -> bool, xs: seq<E>): (r: seq<E>)
    ensures |r| <= |xs|
    ensures forall i :: 0 <= i < |r| ==> p(r[i])
    ensures forall i :: 0 <= i < |r| ==> r[i] in xs
    ensures forall i :: 0 <= i < |xs| && p(xs[i]) ==> xs[i] in r
  {
    if xs == [] then []
    else if p(xs[0]) then [xs[0]] + FilterSeq(p, xs[1..])
    else FilterSeq(p, xs[1..])
  }

  /** The longest prefix whose elements p all accepts. */
  function TakeWhileSeq<E>(p: E -> bool, xs: seq<E>): (r: seq<E>)
    ensures r <= xs
    ensures forall i :: 0 <= i < |r| ==> p(r[i])
    ensures |r| < |xs| ==> !p(xs[|r|])
  {
    if xs == [] || !p(xs[0]) then [] else [xs[0]] + TakeWhileSeq(p, xs[1..])
  }

  /** mapAccumL: threads a state left to right through f, collecting f's
      results; the final state is the state after the last element. */
  function MapAccumL<S, E, R>(f: (S, E) -> (S, R), s: S, xs: seq<E>): (r: (S, seq<R>))
    ensures |r.1| == |xs|
    ensures xs != [] ==> r.1[0] == f(s, xs[0]).1
  {
    if xs == [] then (s, [])
    else
      var (t, y) := f(s, xs[0]);
      var (u, ys) := MapAccumL(f, t, xs[1..]);
      (u, [y] + ys)
  }

  /** A filter whose predicate reads and updates a state on every element. */
  function FilterAccumL<S, E>(p: (S, E) -> (S, bool), s: S, xs: seq<E>): (r: (S, seq<E>))
    ensures |r.1| <= |xs|
    ensures forall i :: 0 <= i < |r.1| ==> r.1[i] in xs
  {
    if xs == [] then (s, [])
    else
      var (t, b) := p(s, xs[0]);
      var (u, ys) := FilterAccumL(p, t, xs[1..]);
      (u, if b then [xs[0]] + ys else ys)
  }

  /** A takeWhile whose predicate reads and updates a state; the final state
      includes the update made by the element that was rejected. */
  function TakeWhileAccumL<S, E>(p: (S, E) -> (S, bool), s: S, xs: seq<E>): (r: (S, seq<E>))
    ensures r.1 <= xs
  {
    if xs == [] then (s, [])
    else
      var (t, b) := p(s, xs[0]);
      if b then
        var (u, ys) := TakeWhileAccumL(p, t, xs[1..]);
        (u, [xs[0]] + ys)
      else (t, [])
  }

  /** Left fold, with the accumulator as the second argument of combine. */
  function FoldLeft<E, R>(combine: (E, R) -> R, acc: R, xs: seq<E>): R {
    if xs == [] then acc else FoldLeft(combine, combine(xs[0], acc), xs[1..])
  }

  /** Folding one more element at the end combines it last. */
  lemma {:induction false} FoldLeftSnoc<E, R>(combine: (E, R) -> R, acc: R, xs: seq<E>, y: E)
    ensures FoldLeft(combine, acc, xs + [y]) == combine(y, FoldLeft(combine, acc, xs))
    decreases |xs|
  {
    if xs != [] {
      assert (xs + [y])[1..] == xs[1..] + [y];
      FoldLeftSnoc(combine, combine(xs[0], acc), xs[1..], y);
    }
  }

  /** mapAccumL is causal: its first k results depend only on the first k elements. */
  lemma {:induction false} MapAccumLPrefix<S, E, R>(f: (S, E) -> (S, R), s: S, xs: seq<E>, k: nat)
    requires k <= |xs|
    ensures MapAccumL(f, s, xs).1[..k] == MapAccumL(f, s, xs[..k]).1
    decreases k
  {
    if k > 0 {
      MapAccumLPrefix(f, f(s, xs[0]).0, xs[1..], k - 1);
      assert xs[..k][1..] == xs[1..][..k - 1];
    }
  }

  /** mapAccumL over xs + ys runs over xs, then over ys from the state xs left. */
  lemma {:induction false} MapAccumLAppend<S, E, R>(f: (S, E) -> (S, R), s: S, xs: seq<E>, ys: seq<E>)
    ensures MapAccumL(f, s, xs + ys).1 == MapAccumL(f, s, xs).1 + MapAccumL(f, MapAccumL(f, s, xs).0, ys).1
    ensures MapAccumL(f, s, xs + ys).0 == MapAccumL(f, MapAccumL(f, s, xs).0, ys).0
    decreases |xs|
  {
    if xs == [] {
      assert xs + ys == ys;
    } else {
      assert (xs + ys)[1..] == xs[1..] + ys;
      MapAccumLAppend(f, f(s, xs[0]).0, xs[1..], ys);
    }
  }

  /** The longest accepted prefix ends at the first element p rejects. */
  lemma TakeWhileSeqStopsAt<E>(p: E -> bool, xs: seq<E>, k: nat)
    requires k < |xs| && !p(xs[k])
    requires forall i :: 0 <= i < k ==> p(xs[i])
    ensures TakeWhileSeq(p, xs) == xs[..k]
  {
  }
}
