/**
 * Fusion equivalence: realizing a fused stream gives what the list-level
 * operations give on the upstream stream's outputs. Each lemma is stated for
 * an arbitrary upstream stream, so the results compose over any chain of
 * stages; the Collect lemmas restate them for whole streams.
 */
module Fusion {
  import Steps
  import opened ListOps
  import opened Streams
  import opened Realize

  // ---------------------------------------------------------------------------
  // Sources.
  // ---------------------------------------------------------------------------

  /** A fused function that passes every element on and keeps the state yields
      the source itself. */
  lemma {:induction false} DrainPassThrough<X, S>(t: (S, X) -> (S, Steps.Step<X>), s: S, xs: seq<X>)
    requires forall i :: 0 <= i < |xs| ==> t(s, xs[i]) == (s, Steps.Continue(xs[i]))
    ensures Drain(t, s, xs) == Run(s, xs, false)
    decreases |xs|
  {
    if xs != [] {
      assert forall i :: 0 <= i < |xs[1..]| ==> xs[1..][i] == xs[i + 1];
      DrainPassThrough(t, s, xs[1..]);
      assert [xs[0]] + xs[1..] == xs;
    }
  }

  /** toStream() yields the collection's elements, in order, and no Stop. */
  lemma CollectCollection<X>(xs: seq<X>)
    ensures Drain(CollectionToStream(xs).stateful.transform, Unit, xs) == Run(Unit, xs, false)
    ensures Collect(CollectionToStream(xs)) == xs
  {
    DrainPassThrough(CollectionToStream(xs).stateful.transform, Unit, xs);
  }

  /** The same for a sequence, whatever underestimate it reports. */
  lemma CollectSequence<X>(xs: seq<X>, underestimate: int)
    ensures Drain(SequenceToStream(xs, underestimate).stateful.transform, Unit, xs) == Run(Unit, xs, false)
    ensures Collect(SequenceToStream(xs, underestimate)) == xs
  {
    DrainPassThrough(SequenceToStream(xs, underestimate).stateful.transform, Unit, xs);
  }

  // ---------------------------------------------------------------------------
  // Pure stages, over any upstream.
  // ---------------------------------------------------------------------------

  /** map(f) maps the upstream outputs and changes neither state nor Stop. */
  lemma {:induction false} DrainMap<X, S, E, R>(st: StatefulStream<X, S, E>, f: E -> R, s: S, xs: seq<X>)
    ensures Drain(Map(st, f).transform, s, xs)
            == Run(Drain(st.transform, s, xs).state, MapSeq(f, Drain(st.transform, s, xs).outputs),
                   Drain(st.transform, s, xs).stopped)
    decreases |xs|
  {
    if xs != [] {
      var (s1, step) := st.transform(s, xs[0]);
      DrainMap(st, f, s1, xs[1..]);
      if step.Continue? {
        var ys := Drain(st.transform, s1, xs[1..]).outputs;
        assert ([step.value] + ys)[1..] == ys;
      }
    }
  }

  /** filter(p) filters the upstream outputs and changes neither state nor Stop. */
  lemma {:induction false} DrainFilter<X, S, E>(st: StatefulStream<X, S, E>, p: E -> bool, s: S, xs: seq<X>)
    ensures Drain(Filter(st, p).transform, s, xs)
            == Run(Drain(st.transform, s, xs).state, FilterSeq(p, Drain(st.transform, s, xs).outputs),
                   Drain(st.transform, s, xs).stopped)
    decreases |xs|
  {
    if xs != [] {
      var (s1, step) := st.transform(s, xs[0]);
      DrainFilter(st, p, s1, xs[1..]);
      if step.Continue? {
        var ys := Drain(st.transform, s1, xs[1..]).outputs;
        assert ([step.value] + ys)[1..] == ys;
      }
    }
  }

  /** takeWhile(p) yields the longest prefix of the upstream outputs that p
      accepts. */
  lemma {:induction false} DrainTakeWhile<X, S, E>(st: StatefulStream<X, S, E>, p: E -> bool, s: S, xs: seq<X>)
    ensures Drain(TakeWhile(st, p).transform, s, xs).outputs == TakeWhileSeq(p, Drain(st.transform, s, xs).outputs)
    decreases |xs|
  {
    if xs != [] {
      var (s1, step) := st.transform(s, xs[0]);
      DrainTakeWhile(st, p, s1, xs[1..]);
      if step.Continue? {
        var ys := Drain(st.transform, s1, xs[1..]).outputs;
        assert ([step.value] + ys)[1..] == ys;
      }
    }
  }

  lemma CollectMap<X, S, E, R>(stream: Stream<X, S, E>, f: E -> R)
    ensures Collect(StreamMap(stream, f)) == MapSeq(f, Collect(stream))
  {
    DrainMap(stream.stateful, f, stream.initialState, stream.stateful.source);
  }

  lemma CollectFilter<X, S, E>(stream: Stream<X, S, E>, p: E -> bool)
    ensures Collect(StreamFilter(stream, p)) == FilterSeq(p, Collect(stream))
  {
    DrainFilter(stream.stateful, p, stream.initialState, stream.stateful.source);
  }

  lemma CollectTakeWhile<X, S, E>(stream: Stream<X, S, E>, p: E -> bool)
    ensures Collect(StreamTakeWhile(stream, p)) == TakeWhileSeq(p, Collect(stream))
  {
    DrainTakeWhile(stream.stateful, p, stream.initialState, stream.stateful.source);
  }

  /** A whole pipeline over a collection is the list-level composition. */
  lemma CollectPipeline<X, R>(xs: seq<X>, f: X -> R, p: R -> bool, q: R -> bool)
    ensures Collect(StreamTakeWhile(StreamFilter(StreamMap(CollectionToStream(xs), f), p), q))
            == TakeWhileSeq(q, FilterSeq(p, MapSeq(f, xs)))
  {
    var s0 := CollectionToStream(xs);
    CollectCollection(xs);
    CollectMap(s0, f);
    CollectFilter(StreamMap(s0, f), p);
    CollectTakeWhile(StreamFilter(StreamMap(s0, f), p), q);
  }

  // ---------------------------------------------------------------------------
  // State-introducing stages of a Unit stream: the new state is threaded only
  // through f or p, and only for the upstream's outputs.
  // ---------------------------------------------------------------------------

  lemma {:induction false} DrainUnitMapAccum<X, N, E, R>(u: Stream<X, Unit, E>, f: (N, E) -> (N, R), s: N, xs: seq<X>)
    ensures var d := Drain(u.stateful.transform, Unit, xs);
            Drain(UnitMapAccum(u, f).transform, s, xs)
            == Run(MapAccumL(f, s, d.outputs).0, MapAccumL(f, s, d.outputs).1, d.stopped)
    decreases |xs|
  {
    if xs != [] {
      var (unit, step) := u.stateful.transform(Unit, xs[0]);
      assert unit == Unit;
      if step.Continue? {
        var (s1, _) := f(s, step.value);
        DrainUnitMapAccum(u, f, s1, xs[1..]);
        var ys := Drain(u.stateful.transform, Unit, xs[1..]).outputs;
        assert ([step.value] + ys)[1..] == ys;
      } else {
        DrainUnitMapAccum(u, f, s, xs[1..]);
      }
    }
  }

  lemma {:induction false} DrainUnitFilterAccum<X, N, E>(u: Stream<X, Unit, E>, p: (N, E) -> (N, bool), s: N, xs: seq<X>)
    ensures var d := Drain(u.stateful.transform, Unit, xs);
            Drain(UnitFilterAccum(u, p).transform, s, xs)
            == Run(FilterAccumL(p, s, d.outputs).0, FilterAccumL(p, s, d.outputs).1, d.stopped)
    decreases |xs|
  {
    if xs != [] {
      var (unit, step) := u.stateful.transform(Unit, xs[0]);
      assert unit == Unit;
      if step.Continue? {
        var (s1, _) := p(s, step.value);
        DrainUnitFilterAccum(u, p, s1, xs[1..]);
        var ys := Drain(u.stateful.transform, Unit, xs[1..]).outputs;
        assert ([step.value] + ys)[1..] == ys;
      } else {
        DrainUnitFilterAccum(u, p, s, xs[1..]);
      }
    }
  }

  lemma {:induction false} DrainUnitTakeWhileAccum<X, N, E>(u: Stream<X, Unit, E>, p: (N, E) -> (N, bool), s: N, xs: seq<X>)
    ensures var d := Drain(u.stateful.transform, Unit, xs);
            && Drain(UnitTakeWhileAccum(u, p).transform, s, xs).state == TakeWhileAccumL(p, s, d.outputs).0
            && Drain(UnitTakeWhileAccum(u, p).transform, s, xs).outputs == TakeWhileAccumL(p, s, d.outputs).1
    decreases |xs|
  {
    if xs != [] {
      var (unit, step) := u.stateful.transform(Unit, xs[0]);
      assert unit == Unit;
      if step.Continue? {
        var (s1, _) := p(s, step.value);
        DrainUnitTakeWhileAccum(u, p, s1, xs[1..]);
        var ys := Drain(u.stateful.transform, Unit, xs[1..]).outputs;
        assert ([step.value] + ys)[1..] == ys;
      } else {
        DrainUnitTakeWhileAccum(u, p, s, xs[1..]);
      }
    }
  }

  /** The sequence-level stateful operations, realized from an initial state,
      are the list-level mapAccumL, stateful filter and stateful takeWhile. */
  lemma CollectSequenceAccum<X, N, R>(xs: seq<X>, underestimate: int, s: N,
                                      f: (N, X) -> (N, R), p: (N, X) -> (N, bool))
    ensures Drain(SequenceMapAccum(xs, underestimate, f).transform, s, xs) == Run(MapAccumL(f, s, xs).0, MapAccumL(f, s, xs).1, false)
    ensures Drain(SequenceFilterAccum(xs, underestimate, p).transform, s, xs) == Run(FilterAccumL(p, s, xs).0, FilterAccumL(p, s, xs).1, false)
    ensures Collect(ToStream(SequenceTakeWhileAccum(xs, underestimate, p), s)) == TakeWhileAccumL(p, s, xs).1
  {
    var u := SequenceToStream(xs, underestimate);
    CollectSequence(xs, underestimate);
    DrainUnitMapAccum(u, f, s, xs);
    DrainUnitFilterAccum(u, p, s, xs);
    DrainUnitTakeWhileAccum(u, p, s, xs);
  }

  // ---------------------------------------------------------------------------
  // Stateful stages of a StatefulStream share the stream's state with the
  // stages before them. When those stages neither read nor write it (as with
  // every Unit-state stream), the stateful stage sees exactly the upstream
  // outputs and the state is threaded only through f or p.
  // ---------------------------------------------------------------------------

  /** On the elements xs, t keeps the state and does not depend on it. */
  ghost predicate Stateless<X, S(!new), E>(t: (S, X) -> (S, Steps.Step<E>), xs: seq<X>) {
    forall s1: S, s2: S, i :: 0 <= i < |xs| ==> t(s1, xs[i]).0 == s1 && t(s1, xs[i]).1 == t(s2, xs[i]).1
  }

  /** A Unit-state stream is stateless. */
  lemma UnitStateless<X, E>(t: (Unit, X) -> (Unit, Steps.Step<E>), xs: seq<X>)
    ensures Stateless(t, xs)
  {
    forall s1: Unit, s2: Unit, i | 0 <= i < |xs|
      ensures t(s1, xs[i]).0 == s1 && t(s1, xs[i]).1 == t(s2, xs[i]).1
    {
      assert s1 == Unit == s2 && t(s1, xs[i]).0 == Unit;
    }
  }

  /** A stateless run yields the same outputs and Stop from every start state
      and leaves the state as it found it. */
  lemma {:induction false} DrainStateless<X, S(!new), E>(t: (S, X) -> (S, Steps.Step<E>), s1: S, s2: S, xs: seq<X>)
    requires Stateless(t, xs)
    ensures Drain(t, s1, xs).outputs == Drain(t, s2, xs).outputs
    ensures Drain(t, s1, xs).stopped == Drain(t, s2, xs).stopped
    ensures Drain(t, s1, xs).state == s1
    decreases |xs|
  {
    if xs != [] {
      assert forall i :: 0 <= i < |xs[1..]| ==> xs[1..][i] == xs[i + 1];
      assert t(s1, xs[0]).0 == s1 && t(s2, xs[0]).0 == s2 && t(s1, xs[0]).1 == t(s2, xs[0]).1;
      DrainStateless(t, s1, s2, xs[1..]);
    }
  }

  lemma {:induction false} DrainMapAccum<X, S(!new), E, R>(st: StatefulStream<X, S, E>, f: (S, E) -> (S, R), s: S, xs: seq<X>)
    requires Stateless(st.transform, xs)
    ensures var d := Drain(st.transform, s, xs);
            Drain(MapAccum(st, f).transform, s, xs)
            == Run(MapAccumL(f, s, d.outputs).0, MapAccumL(f, s, d.outputs).1, d.stopped)
    decreases |xs|
  {
    if xs != [] {
      assert forall i :: 0 <= i < |xs[1..]| ==> xs[1..][i] == xs[i + 1];
      var (s0, step) := st.transform(s, xs[0]);
      assert s0 == s;
      var s1 := if step.Continue? then f(s, step.value).0 else s;
      DrainMapAccum(st, f, s1, xs[1..]);
      DrainStateless(st.transform, s1, s, xs[1..]);
      if step.Continue? {
        var ys := Drain(st.transform, s, xs[1..]).outputs;
        assert ([step.value] + ys)[1..] == ys;
      }
    }
  }

  lemma {:induction false} DrainFilterAccum<X, S(!new), E>(st: StatefulStream<X, S, E>, p: (S, E) -> (S, bool), s: S, xs: seq<X>)
    requires Stateless(st.transform, xs)
    ensures var d := Drain(st.transform, s, xs);
            Drain(FilterAccum(st, p).transform, s, xs)
            == Run(FilterAccumL(p, s, d.outputs).0, FilterAccumL(p, s, d.outputs).1, d.stopped)
    decreases |xs|
  {
    if xs != [] {
      assert forall i :: 0 <= i < |xs[1..]| ==> xs[1..][i] == xs[i + 1];
      var (s0, step) := st.transform(s, xs[0]);
      assert s0 == s;
      var s1 := if step.Continue? then p(s, step.value).0 else s;
      DrainFilterAccum(st, p, s1, xs[1..]);
      DrainStateless(st.transform, s1, s, xs[1..]);
      if step.Continue? {
        var ys := Drain(st.transform, s, xs[1..]).outputs;
        assert ([step.value] + ys)[1..] == ys;
      }
    }
  }

  lemma {:induction false} DrainTakeWhileAccum<X, S(!new), E>(st: StatefulStream<X, S, E>, p: (S, E) -> (S, bool), s: S, xs: seq<X>)
    requires Stateless(st.transform, xs)
    ensures var d := Drain(st.transform, s, xs);
            && Drain(TakeWhileAccum(st, p).transform, s, xs).state == TakeWhileAccumL(p, s, d.outputs).0
            && Drain(TakeWhileAccum(st, p).transform, s, xs).outputs == TakeWhileAccumL(p, s, d.outputs).1
    decreases |xs|
  {
    if xs != [] {
      assert forall i :: 0 <= i < |xs[1..]| ==> xs[1..][i] == xs[i + 1];
      var (s0, step) := st.transform(s, xs[0]);
      assert s0 == s;
      var s1 := if step.Continue? then p(s, step.value).0 else s;
      DrainTakeWhileAccum(st, p, s1, xs[1..]);
      DrainStateless(st.transform, s1, s, xs[1..]);
      if step.Continue? {
        var ys := Drain(st.transform, s, xs[1..]).outputs;
        assert ([step.value] + ys)[1..] == ys;
      }
    }
  }

  // ---------------------------------------------------------------------------
  // Stages that share a state introduced over a Unit stream. After
  // u.mapAccum(f), u.filterAccum(p) or u.takeWhileAccum(p), every further
  // StatefulStream stage threads that same state, so the stages interleave
  // their updates element by element. Such a chain is the Unit stream followed
  // by one fused step k on its Continue payloads, and it realizes as k run over
  // the Unit stream's outputs.
  // ---------------------------------------------------------------------------

  /** The Unit stages run with a fresh Unit; their Continue payload goes to k,
      their Skip and Stop pass through with the state untouched. */
  function OverUnit<X, N, E, R>(ut: (Unit, X) -> (Unit, Steps.Step<E>), k: (N, E) -> (N, Steps.Step<R>), n: N, x: X): (N, Steps.Step<R>)
  {
    match ut(Unit, x).1
    case Continue(v) => k(n, v)
    case Skip => (n, Steps.Skip)
    case Stop => (n, Steps.Stop)
  }

  /** st is the Unit stream u followed by the shared-state step k. */
  ghost predicate SharesStateOver<X(!new), N(!new), E, R>(st: StatefulStream<X, N, R>, u: Stream<X, Unit, E>,
                                                          k: (N, E) -> (N, Steps.Step<R>)) {
    forall n: N, x: X :: st.transform(n, x) == OverUnit(u.stateful.transform, k, n, x)
  }

  /** A shared-state chain realizes as its step k run over the Unit stream's
      outputs: the state and outputs are k's, and the run stops when k stops
      or the Unit stream does. */
  lemma {:induction false} DrainSharedState<X(!new), N(!new), E, R>(st: StatefulStream<X, N, R>, u: Stream<X, Unit, E>,
                                                                    k: (N, E) -> (N, Steps.Step<R>), n: N, xs: seq<X>)
    requires SharesStateOver(st, u, k)
    ensures var d := Drain(u.stateful.transform, Unit, xs);
            var r := Drain(k, n, d.outputs);
            Drain(st.transform, n, xs) == Run(r.state, r.outputs, r.stopped || d.stopped)
    decreases |xs|
  {
    if xs != [] {
      var (unit, y) := u.stateful.transform(Unit, xs[0]);
      assert unit == Unit;
      assert st.transform(n, xs[0]) == OverUnit(u.stateful.transform, k, n, xs[0]);
      match y {
        case Continue(v) =>
          var (n1, z) := k(n, v);
          var ys := Drain(u.stateful.transform, Unit, xs[1..]).outputs;
          assert ([v] + ys)[0] == v && ([v] + ys)[1..] == ys;
          if !z.Stop? {
            DrainSharedState(st, u, k, n1, xs[1..]);
          }
        case Skip =>
          DrainSharedState(st, u, k, n, xs[1..]);
        case Stop =>
      }
    }
  }

  /** u.mapAccum(f), u.filterAccum(p) and u.takeWhileAccum(p) start a
      shared-state chain whose step is the stateful Step operation on
      Continue(v). */
  lemma UnitStagesShareState<X(!new), N(!new), E, R>(u: Stream<X, Unit, E>, f: (N, E) -> (N, R), p: (N, E) -> (N, bool))
    ensures SharesStateOver(UnitMapAccum(u, f), u, (n: N, v: E) => Steps.MapWithState(Steps.Continue(v), n, f))
    ensures SharesStateOver(UnitFilterAccum(u, p), u, (n: N, v: E) => Steps.FilterWithState(Steps.Continue(v), n, p))
    ensures SharesStateOver(UnitTakeWhileAccum(u, p), u, (n: N, v: E) => Steps.TakeWhileWithState(Steps.Continue(v), n, p))
  {
  }

  /** Each pure StatefulStream stage extends a shared-state chain: its step is
      k followed by the pure Step operation. */
  lemma PureStagesKeepSharing<X(!new), N(!new), E, R, T>(st: StatefulStream<X, N, R>, u: Stream<X, Unit, E>,
                                                         k: (N, E) -> (N, Steps.Step<R>), f: R -> T, p: R -> bool)
    requires SharesStateOver(st, u, k)
    ensures SharesStateOver(Map(st, f), u, (n: N, v: E) => (k(n, v).0, Steps.Map(k(n, v).1, f)))
    ensures SharesStateOver(Filter(st, p), u, (n: N, v: E) => (k(n, v).0, Steps.Filter(k(n, v).1, p)))
    ensures SharesStateOver(TakeWhile(st, p), u, (n: N, v: E) => (k(n, v).0, Steps.TakeWhile(k(n, v).1, p)))
  {
  }

  /** Each stateful StatefulStream stage extends a shared-state chain: its step
      is k followed by the stateful Step operation on k's new state. */
  lemma StatefulStagesKeepSharing<X(!new), N(!new), E, R, T>(st: StatefulStream<X, N, R>, u: Stream<X, Unit, E>,
                                                             k: (N, E) -> (N, Steps.Step<R>), f: (N, R) -> (N, T), p: (N, R) -> (N, bool))
    requires SharesStateOver(st, u, k)
    ensures SharesStateOver(MapAccum(st, f), u, (n: N, v: E) => Steps.MapWithState(k(n, v).1, k(n, v).0, f))
    ensures SharesStateOver(FilterAccum(st, p), u, (n: N, v: E) => Steps.FilterWithState(k(n, v).1, k(n, v).0, p))
    ensures SharesStateOver(TakeWhileAccum(st, p), u, (n: N, v: E) => Steps.TakeWhileWithState(k(n, v).1, k(n, v).0, p))
  {
  }

  /** A step that always continues realizes as mapAccumL of its payloads. */
  lemma {:induction false} DrainAlwaysContinues<N, E, R>(k: (N, E) -> (N, Steps.Step<R>), h: (N, E) -> (N, R), n: N, ys: seq<E>)
    requires forall m: N, v: E :: k(m, v) == (h(m, v).0, Steps.Continue(h(m, v).1))
    ensures Drain(k, n, ys) == Run(MapAccumL(h, n, ys).0, MapAccumL(h, n, ys).1, false)
    decreases |ys|
  {
    if ys != [] {
      DrainAlwaysContinues(k, h, h(n, ys[0]).0, ys[1..]);
    }
  }

  /** u.mapAccum(f).mapAccum(g): both stages thread the one state, so the chain
      is mapAccumL of f then g, per element, over the Unit stream's outputs. */
  lemma ChainedMapAccum<X(!new), N(!new), E, R, T>(u: Stream<X, Unit, E>, f: (N, E) -> (N, R), g: (N, R) -> (N, T), n: N, xs: seq<X>)
    ensures var d := Drain(u.stateful.transform, Unit, xs);
            var h := (m: N, v: E) => g(f(m, v).0, f(m, v).1);
            Drain(MapAccum(UnitMapAccum(u, f), g).transform, n, xs)
            == Run(MapAccumL(h, n, d.outputs).0, MapAccumL(h, n, d.outputs).1, d.stopped)
  {
    var k1 := (m: N, v: E) => Steps.MapWithState(Steps.Continue(v), m, f);
    var k2 := (m: N, v: E) => Steps.MapWithState(k1(m, v).1, k1(m, v).0, g);
    var h := (m: N, v: E) => g(f(m, v).0, f(m, v).1);
    UnitStagesShareState(u, f, (m: N, v: E) => (m, true));
    StatefulStagesKeepSharing(UnitMapAccum(u, f), u, k1, g, (m: N, w: R) => (m, true));
    DrainSharedState(MapAccum(UnitMapAccum(u, f), g), u, k2, n, xs);
    forall m: N, v: E
      ensures k2(m, v) == (h(m, v).0, Steps.Continue(h(m, v).1))
    {
      assert k1(m, v) == (f(m, v).0, Steps.Continue(f(m, v).1));
    }
    DrainAlwaysContinues(k2, h, n, Drain(u.stateful.transform, Unit, xs).outputs);
  }
}
