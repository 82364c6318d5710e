/**
 * The fused streams of SwiftStream/Stream.swift. A StatefulStream is a source,
 * a size guess and one fused per-element function (State, X) -> (State, Step<E>);
 * every combinator returns a new stream whose function wraps the previous one,
 * so building a pipeline never touches the source. A Stream pairs a
 * StatefulStream with its initial state. The host sequence is modelled as a
 * finite seq<X>.
 */
module Streams {
  import Steps
  import opened SizeGuesses

  /** The no-state state of a stream built straight from a sequence. */
  datatype Unit = Unit

  datatype StatefulStream<!X, !S, E> = StatefulStream(
    source: seq<X>,
    size: SizeGuess,
    transform: (S, X) -> (S, Steps.Step<E>))

  datatype Stream<!X, !S, E> = Stream(stateful: StatefulStream<X, S, E>, initialState: S)

  // ---------------------------------------------------------------------------
  // StatefulStream combinators (Stream.swift:47-84).
  // ---------------------------------------------------------------------------

  /** map(f): a 1:1 stage; the size guess is kept. */
  function Map<X, S, E, R>(st: StatefulStream<X, S, E>, f: E -> R): (r: StatefulStream<X, S, R>)
    ensures r.source == st.source && r.size == st.size
  {
    StatefulStream(st.source, st.size,
      (s: S, x: X) => var (t, y) := st.transform(s, x); (t, Steps.Map(y, f)))
  }

  /** mapAccum(f): a 1:1 stage threading the stream's own state through f;
      the size guess is kept. */
  function MapAccum<X, S, E, R>(st: StatefulStream<X, S, E>, f: (S, E) -> (S, R)): (r: StatefulStream<X, S, R>)
    ensures r.source == st.source && r.size == st.size
  {
    StatefulStream(st.source, st.size,
      (s: S, x: X) => var (t, y) := st.transform(s, x); Steps.MapWithState(y, t, f))
  }

  /** filter(p): may drop elements, so the size guess is weakened once. */
  function Filter<X, S, E>(st: StatefulStream<X, S, E>, p: E -> bool): (r: StatefulStream<X, S, E>)
    ensures r.source == st.source && r.size == Smaller(st.size)
  {
    StatefulStream(st.source, Smaller(st.size),
      (s: S, x: X) => var (t, y) := st.transform(s, x); (t, Steps.Filter(y, p)))
  }

  /** filterAccum(p): a filter whose predicate threads the stream's state. */
  function FilterAccum<X, S, E>(st: StatefulStream<X, S, E>, p: (S, E) -> (S, bool)): (r: StatefulStream<X, S, E>)
    ensures r.source == st.source && r.size == Smaller(st.size)
  {
    StatefulStream(st.source, Smaller(st.size),
      (s: S, x: X) => var (t, y) := st.transform(s, x); Steps.FilterWithState(y, t, p))
  }

  /** takeWhile(p): may end the stream early, so the size guess is weakened once. */
  function TakeWhile<X, S, E>(st: StatefulStream<X, S, E>, p: E -> bool): (r: StatefulStream<X, S, E>)
    ensures r.source == st.source && r.size == Smaller(st.size)
  {
    StatefulStream(st.source, Smaller(st.size),
      (s: S, x: X) => var (t, y) := st.transform(s, x); (t, Steps.TakeWhile(y, p)))
  }

  /** takeWhileAccum(p): a takeWhile whose predicate threads the stream's state. */
  function TakeWhileAccum<X, S, E>(st: StatefulStream<X, S, E>, p: (S, E) -> (S, bool)): (r: StatefulStream<X, S, E>)
    ensures r.source == st.source && r.size == Smaller(st.size)
  {
    StatefulStream(st.source, Smaller(st.size),
      (s: S, x: X) => var (t, y) := st.transform(s, x); Steps.TakeWhileWithState(y, t, p))
  }

  // ---------------------------------------------------------------------------
  // Stream combinators (Stream.swift:86-96): the same stages, keeping the
  // initial state.
  // ---------------------------------------------------------------------------

  function StreamMap<X, S, E, R>(stream: Stream<X, S, E>, f: E -> R): (r: Stream<X, S, R>)
    ensures r.initialState == stream.initialState && r.stateful.source == stream.stateful.source
    ensures r.stateful.size == stream.stateful.size
  {
    Stream(Map(stream.stateful, f), stream.initialState)
  }

  function StreamFilter<X, S, E>(stream: Stream<X, S, E>, p: E -> bool): (r: Stream<X, S, E>)
    ensures r.initialState == stream.initialState && r.stateful.source == stream.stateful.source
    ensures r.stateful.size == Smaller(stream.stateful.size)
  {
    Stream(Filter(stream.stateful, p), stream.initialState)
  }

  function StreamTakeWhile<X, S, E>(stream: Stream<X, S, E>, p: E -> bool): (r: Stream<X, S, E>)
    ensures r.initialState == stream.initialState && r.stateful.source == stream.stateful.source
    ensures r.stateful.size == Smaller(stream.stateful.size)
  {
    Stream(TakeWhile(stream.stateful, p), stream.initialState)
  }

  // ---------------------------------------------------------------------------
  // Unit-state streams introduce a new state type (Stream.swift:101-135). The
  // previous stages run with a fresh Unit() and their output state is
  // discarded; the new state is threaded only through p or f. All three
  // weaken the size guess, mapAccum included.
  // ---------------------------------------------------------------------------

  function UnitFilterAccum<X, N, E>(stream: Stream<X, Unit, E>, p: (N, E) -> (N, bool)): (r: StatefulStream<X, N, E>)
    ensures r.source == stream.stateful.source && r.size == Smaller(stream.stateful.size)
  {
    StatefulStream(stream.stateful.source, Smaller(stream.stateful.size),
      (s: N, x: X) => var (_, y) := stream.stateful.transform(Unit, x); Steps.FilterWithState(y, s, p))
  }

  function UnitTakeWhileAccum<X, N, E>(stream: Stream<X, Unit, E>, p: (N, E) -> (N, bool)): (r: StatefulStream<X, N, E>)
    ensures r.source == stream.stateful.source && r.size == Smaller(stream.stateful.size)
  {
    StatefulStream(stream.stateful.source, Smaller(stream.stateful.size),
      (s: N, x: X) => var (_, y) := stream.stateful.transform(Unit, x); Steps.TakeWhileWithState(y, s, p))
  }

  function UnitMapAccum<X, N, E, R>(stream: Stream<X, Unit, E>, f: (N, E) -> (N, R)): (r: StatefulStream<X, N, R>)
    ensures r.source == stream.stateful.source && r.size == Smaller(stream.stateful.size)
  {
    StatefulStream(stream.stateful.source, Smaller(stream.stateful.size),
      (s: N, x: X) => var (_, y) := stream.stateful.transform(Unit, x); Steps.MapWithState(y, s, f))
  }

  // ---------------------------------------------------------------------------
  // Turning a host sequence into a stream (Stream.swift:137-168).
  // ---------------------------------------------------------------------------

  /** toStream() on a collection: the size guess is its exact count. */
  function CollectionToStream<X>(xs: seq<X>): (r: Stream<X, Unit, X>)
    ensures r.stateful.source == xs && r.stateful.size == Exactly(|xs|)
    ensures forall i :: 0 <= i < |xs| ==> r.stateful.transform(Unit, xs[i]) == (Unit, Steps.Continue(xs[i]))
  {
    Stream(StatefulStream(xs, Exactly(|xs|), (s: Unit, x: X) => (s, Steps.Continue(x))), Unit)
  }

  /** toStream() on a sequence that only knows an underestimate of its length
      (its underestimateCount(), passed in). */
  function SequenceToStream<X>(xs: seq<X>, underestimate: int): (r: Stream<X, Unit, X>)
    ensures r.stateful.source == xs && r.stateful.size == LargerThan(underestimate)
    ensures forall i :: 0 <= i < |xs| ==> r.stateful.transform(Unit, xs[i]) == (Unit, Steps.Continue(xs[i]))
  {
    Stream(StatefulStream(xs, LargerThan(underestimate), (s: Unit, x: X) => (s, Steps.Continue(x))), Unit)
  }

  /** Sequence-level filterAccum, takeWhileAccum and mapAccum go through the
      sequence toStream(), so their size guess is always Unknown. */
  function SequenceFilterAccum<X, N>(xs: seq<X>, underestimate: int, p: (N, X) -> (N, bool)): (r: StatefulStream<X, N, X>)
    ensures r.source == xs && r.size == Unknown
  {
    UnitFilterAccum(SequenceToStream(xs, underestimate), p)
  }

  function SequenceTakeWhileAccum<X, N>(xs: seq<X>, underestimate: int, p: (N, X) -> (N, bool)): (r: StatefulStream<X, N, X>)
    ensures r.source == xs && r.size == Unknown
  {
    UnitTakeWhileAccum(SequenceToStream(xs, underestimate), p)
  }

  function SequenceMapAccum<X, N, R>(xs: seq<X>, underestimate: int, f: (N, X) -> (N, R)): (r: StatefulStream<X, N, R>)
    ensures r.source == xs && r.size == Unknown
  {
    UnitMapAccum(SequenceToStream(xs, underestimate), f)
  }

  /** toStream(withState): binds a stateful stream to its initial state. */
  function ToStream<X, S, E>(st: StatefulStream<X, S, E>, withState: S): (r: Stream<X, S, E>)
    ensures r.stateful == st && r.initialState == withState
  {
    Stream(st, withState)
  }

  /** underestimateCount(): the lower bound a guess carries, 0 if none. */
  function UnderestimateCount<X, S, E>(stream: Stream<X, S, E>): (n: int)
    ensures stream.stateful.size.Exactly? || stream.stateful.size.LargerThan? ==> n == stream.stateful.size.n
    ensures stream.stateful.size.SmallerThan? || stream.stateful.size.Infinite? || stream.stateful.size.Unknown? ==> n == 0
  {
    match stream.stateful.size
    case SmallerThan(_) => 0
    case Infinite => 0
    case Unknown => 0
    case Exactly(n) => n
    case LargerThan(n) => n
  }
}
