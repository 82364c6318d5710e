/**
 * Realizing a stream: pulling source elements through the fused function,
 * threading the state, and reading the Step each element produces.
 * Drain is the specification of a whole realization and Pull that of one
 * request for the next element; Reduce is the `reduce` loop of
 * SwiftStream/Stream.swift:174-188, proved against Drain.
 */
module Realize {
  import opened Options
  import Steps
  import opened ListOps
  import opened Streams

  /** The outcome of pulling a source dry: the last state, the Continue
      payloads in order, and whether a Stop ended the run early. */
  datatype Run<S, E> = Run(state: S, outputs: seq<E>, stopped: bool)

  /** Outputs ys in front of a run. */
  function Prepend<S, E>(ys: seq<E>, r: Run<S, E>): Run<S, E> {
    Run(r.state, ys + r.outputs, r.stopped)
  }

  /** Realization of the fused function t from state s over the elements xs:
      every element updates the state; Continue payloads are produced, Skip
      produces nothing, Stop ends the run keeping the state it produced. */
  function Drain<X, S, E>(t: (S, X) -> (S, Steps.Step<E>), s: S, xs: seq<X>): (r: Run<S, E>)
    ensures |r.outputs| <= |xs|
    ensures xs == [] ==> r == Run(s, [], false)
    decreases |xs|
  {
    if xs == [] then Run(s, [], false)
    else
      var (s1, step) := t(s, xs[0]);
      match step
      case Continue(y) => Prepend([y], Drain(t, s1, xs[1..]))
      case Skip => Drain(t, s1, xs[1..])
      case Stop => Run(s1, [], true)
  }

  /** The values a stream yields (Array(stream) of the host language). */
  function Collect<X, S, E>(stream: Stream<X, S, E>): (ys: seq<E>)
    ensures |ys| <= |stream.stateful.source|
  {
    Drain(stream.stateful.transform, stream.initialState, stream.stateful.source).outputs
  }

  /** The state after feeding every element of xs, whatever the Steps say. */
  function FinalState<X, S, E>(t: (S, X) -> (S, Steps.Step<E>), s: S, xs: seq<X>): S
    decreases |xs|
  {
    if xs == [] then s else FinalState(t, t(s, xs[0]).0, xs[1..])
  }

  /** What one request for the next element does: the value found (if any),
      the state afterwards and how many source elements it consumed. */
  datatype Pulled<S, E> = Pulled(value: Option<E>, state: S, consumed: nat)

  /** One `next()`: pull until a Continue (its payload) or a Stop (nothing),
      or until the source is exhausted (nothing). */
  function Pull<X, S, E>(t: (S, X) -> (S, Steps.Step<E>), s: S, xs: seq<X>): (r: Pulled<S, E>)
    ensures r.consumed <= |xs|
    ensures xs != [] ==> r.consumed >= 1
    ensures r.state == FinalState(t, s, xs[..r.consumed])
    decreases |xs|
  {
    if xs == [] then Pulled(None, s, 0)
    else
      var (s1, step) := t(s, xs[0]);
      match step
      case Continue(y) => Pulled(Some(y), s1, 1)
      case Stop => Pulled(None, s1, 1)
      case Skip =>
        var p := Pull(t, s1, xs[1..]);
        assert xs[..p.consumed + 1][1..] == xs[1..][..p.consumed];
        Pulled(p.value, p.state, p.consumed + 1)
  }

  // ---------------------------------------------------------------------------
  // Properties of a realization.
  // ---------------------------------------------------------------------------

  /** With no Stop, the state of a run is the state after the last element. */
  lemma {:induction false} DrainWithoutStop<X, S, E>(t: (S, X) -> (S, Steps.Step<E>), s: S, xs: seq<X>)
    requires !Drain(t, s, xs).stopped
    ensures Drain(t, s, xs).state == FinalState(t, s, xs)
    decreases |xs|
  {
    if xs != [] {
      DrainWithoutStop(t, t(s, xs[0]).0, xs[1..]);
    }
  }

  /** A run that stopped did so at some element k: the state is the one that
      element's own update produced, and the elements after it were never
      consulted. */
  lemma {:induction false} DrainStopsAt<X, S, E>(t: (S, X) -> (S, Steps.Step<E>), s: S, xs: seq<X>) returns (k: nat)
    requires Drain(t, s, xs).stopped
    ensures k < |xs|
    ensures t(FinalState(t, s, xs[..k]), xs[k]).1.Stop?
    ensures Drain(t, s, xs).state == FinalState(t, s, xs[..k + 1])
    ensures Drain(t, s, xs) == Drain(t, s, xs[..k + 1])
    decreases |xs|
  {
    var (s1, step) := t(s, xs[0]);
    if step.Stop? {
      k := 0;
      assert xs[..1][1..] == [];
    } else {
      var j := DrainStopsAt(t, s1, xs[1..]);
      k := j + 1;
      assert xs[..k][1..] == xs[1..][..j];
      assert xs[..k + 1][1..] == xs[1..][..j + 1];
      assert xs[..k][0] == xs[..k + 1][0] == xs[0];
    }
  }

  /** One pull takes the first output of the run off it: the rest of the run
      from where the pull left off is the same run without that output. When
      a pull finds nothing, the run yields nothing and ends in the pull's state. */
  lemma {:induction false} PullDrain<X, S, E>(t: (S, X) -> (S, Steps.Step<E>), s: S, xs: seq<X>)
    ensures Pull(t, s, xs).value.Some? <==> Drain(t, s, xs).outputs != []
    ensures Pull(t, s, xs).value.Some? ==>
              Pull(t, s, xs).value.value == Drain(t, s, xs).outputs[0] &&
              Prepend([Pull(t, s, xs).value.value],
                      Drain(t, Pull(t, s, xs).state, xs[Pull(t, s, xs).consumed..])) == Drain(t, s, xs)
    ensures Pull(t, s, xs).value.None? ==>
              Drain(t, s, xs).state == Pull(t, s, xs).state &&
              (Drain(t, s, xs).stopped || Pull(t, s, xs).consumed == |xs|)
    decreases |xs|
  {
    if xs != [] {
      var (s1, step) := t(s, xs[0]);
      if step.Skip? {
        PullDrain(t, s1, xs[1..]);
        var p := Pull(t, s1, xs[1..]);
        assert xs[p.consumed + 1..] == xs[1..][p.consumed..];
      }
    }
  }

  /** Collecting y after ys is prepending ys to a run that starts with y. */
  lemma PrependTwice<S, E>(ys: seq<E>, y: E, run: Run<S, E>)
    ensures Prepend(ys + [y], run) == Prepend(ys, Prepend([y], run))
  {
    assert (ys + [y]) + run.outputs == ys + ([y] + run.outputs);
  }

  // ---------------------------------------------------------------------------
  // reduce (Stream.swift:174-188).
  // ---------------------------------------------------------------------------

  /** reduce(withState:initial:combine:): folds combine over the Continue
      payloads, left to right, up to the first Stop; the returned state is the
      run's state, including the update made by the element that said Stop. */
  method Reduce<X, S, E, R>(st: StatefulStream<X, S, E>, withState: S, initial: R, combine: (E, R) -> R)
    returns (state: S, result: R)
    ensures state == Drain(st.transform, withState, st.source).state
    ensures result == FoldLeft(combine, initial, Drain(st.transform, withState, st.source).outputs)
  {
    result := initial;
    state := withState;
    var i := 0;
    ghost var seen: seq<E> := [];
    while i < |st.source|
      invariant i <= |st.source|
      invariant Drain(st.transform, withState, st.source) == Prepend(seen, Drain(st.transform, state, st.source[i..]))
      invariant result == FoldLeft(combine, initial, seen)
    {
      var next := st.source[i];
      assert st.source[i..][1..] == st.source[i + 1..];
      i := i + 1;
      var (s, x) := st.transform(state, next);
      state := s;
      match x {
        case Continue(y) =>
          FoldLeftSnoc(combine, initial, seen, y);
          PrependTwice(seen, y, Drain(st.transform, state, st.source[i..]));
          result := combine(y, result);
          seen := seen + [y];
        case Skip =>
        case Stop =>
          assert seen + [] == seen;
          return;
      }
    }
    assert st.source[i..] == [] && seen + [] == seen;
  }
}
