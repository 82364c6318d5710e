/**
 * The size guess a stream carries is a correct claim about how many elements
 * it yields. SizeSound says what a guess needs to be right for a given
 * stream; the fresh streams have it, every combinator keeps it, and it
 * implies that the realized length is one the guess admits.
 */
module SizeSoundness {
  import Steps
  import opened SizeGuesses
  import opened ListOps
  import opened Streams
  import opened Realize
  import Fusion

  /** On the elements xs, t says Continue whatever the state. */
  ghost predicate AllContinue<X, S(!new), E>(t: (S, X) -> (S, Steps.Step<E>), xs: seq<X>) {
    forall s: S, i :: 0 <= i < |xs| ==> t(s, xs[i]).1.Continue?
  }

  /** A lower bound (Exactly, LargerThan) is only right when no element is
      dropped; an upper bound only needs the source to be short enough;
      Infinite is never right for a finite source. */
  ghost predicate SizeSound<X, S(!new), E>(st: StatefulStream<X, S, E>) {
    match st.size
    case Exactly(n) => n == |st.source| && AllContinue(st.transform, st.source)
    case LargerThan(n) => n <= |st.source| && AllContinue(st.transform, st.source)
    case SmallerThan(n) => |st.source| <= n
    case Infinite => false
    case Unknown => true
  }

  /** A run in which every element continues yields one output per element. */
  lemma {:induction false} DrainAllContinue<X, S(!new), E>(t: (S, X) -> (S, Steps.Step<E>), s: S, xs: seq<X>)
    requires AllContinue(t, xs)
    ensures |Drain(t, s, xs).outputs| == |xs| && !Drain(t, s, xs).stopped
    decreases |xs|
  {
    if xs != [] {
      assert forall i :: 0 <= i < |xs[1..]| ==> xs[1..][i] == xs[i + 1];
      assert t(s, xs[0]).1.Continue?;
      DrainAllContinue(t, t(s, xs[0]).0, xs[1..]);
    }
  }

  /** The guess of a sound stream admits the length of every realization of it,
      from any initial state. */
  lemma SizeGuessHolds<X, S(!new), E>(st: StatefulStream<X, S, E>, s: S)
    requires SizeSound(st)
    ensures Admits(st.size, |Drain(st.transform, s, st.source).outputs|)
  {
    if st.size.Exactly? || st.size.LargerThan? {
      DrainAllContinue(st.transform, s, st.source);
    }
  }

  /** underestimateCount() never exceeds the number of elements the stream yields. */
  lemma UnderestimateIsLowerBound<X, S(!new), E>(stream: Stream<X, S, E>)
    requires SizeSound(stream.stateful)
    ensures UnderestimateCount(stream) <= |Collect(stream)|
  {
    SizeGuessHolds(stream.stateful, stream.initialState);
  }

  /** A collection's stream is sound; a sequence's is when the underestimate
      it reports is one. */
  lemma FreshStreamsSound<X>(xs: seq<X>, underestimate: int)
    ensures SizeSound(CollectionToStream(xs).stateful)
    ensures underestimate <= |xs| ==> SizeSound(SequenceToStream(xs, underestimate).stateful)
  {
  }

  /** Every StatefulStream combinator keeps a stream sound. */
  lemma CombinatorsKeepSound<X, S(!new), E, R>(st: StatefulStream<X, S, E>, f: E -> R, g: (S, E) -> (S, R),
                                               p: E -> bool, q: (S, E) -> (S, bool))
    requires SizeSound(st)
    ensures SizeSound(Map(st, f)) && SizeSound(MapAccum(st, g))
    ensures SizeSound(Filter(st, p)) && SizeSound(FilterAccum(st, q))
    ensures SizeSound(TakeWhile(st, p)) && SizeSound(TakeWhileAccum(st, q))
  {
    if st.size.Exactly? || st.size.LargerThan? {
      forall s: S, i | 0 <= i < |st.source|
        ensures Map(st, f).transform(s, st.source[i]).1.Continue?
        ensures MapAccum(st, g).transform(s, st.source[i]).1.Continue?
      {
        assert st.transform(s, st.source[i]).1.Continue?;
      }
    }
  }

  /** The state-introducing stages of a Unit stream keep it sound. */
  lemma UnitCombinatorsKeepSound<X, N(!new), E, R>(u: Stream<X, Unit, E>, f: (N, E) -> (N, R), p: (N, E) -> (N, bool))
    requires SizeSound(u.stateful)
    ensures SizeSound(UnitMapAccum(u, f))
    ensures SizeSound(UnitFilterAccum(u, p))
    ensures SizeSound(UnitTakeWhileAccum(u, p))
  {
  }

  /** On a Unit stream mapAccum weakens the guess although it is 1:1: over a
      collection of n elements it guesses SmallerThan(n) and yields exactly n. */
  lemma UnitMapAccumWeakens<X, N, R>(xs: seq<X>, f: (N, X) -> (N, R), s: N)
    ensures UnitMapAccum(CollectionToStream(xs), f).size == SmallerThan(|xs|)
    ensures |Drain(UnitMapAccum(CollectionToStream(xs), f).transform, s, xs).outputs| == |xs|
  {
    Fusion.CollectCollection(xs);
    Fusion.DrainUnitMapAccum(CollectionToStream(xs), f, s, xs);
  }
}
