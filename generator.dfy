/**
 * StreamGenerator (SwiftStream/Stream.swift:191-219): the one mutable entity.
 * It holds the source's generator (here the source and a cursor into it), the
 * current state and the fused function. `next()` pulls elements, storing the
 * state each one produces, until a Continue (returned), a Stop (nil) or the
 * end of the source (nil). It keeps no "done" flag: after a Stop, a further
 * `next()` carries on with the element after the one that stopped.
 */
module Generators {
  import opened Options
  import Steps
  import opened Streams
  import opened Realize

  class StreamGenerator<!X, !S, E> {
    const source: seq<X>
    const transform: (S, X) -> (S, Steps.Step<E>)
    var cursor: nat
    var state: S

    ghost predicate Valid()
      reads this
    {
      cursor <= |source|
    }

    /** The run that the remaining source would produce from the current state. */
    ghost function Remaining(): Run<S, E>
      reads this
      requires Valid()
    {
      Drain(transform, state, source[cursor..])
    }

    /** generate(): a generator at the start of the source, in the stream's
        initial state. */
    constructor (stream: Stream<X, S, E>)
      ensures Valid()
      ensures source == stream.stateful.source && transform == stream.stateful.transform
      ensures cursor == 0 && state == stream.initialState
      ensures Remaining() == Drain(stream.stateful.transform, stream.initialState, stream.stateful.source)
    {
      source := stream.stateful.source;
      transform := stream.stateful.transform;
      cursor := 0;
      state := stream.initialState;
    }

    /** next(): the effect is one Pull from the cursor; seen through Drain, it
        takes the first output off the remaining run, or finds that the
        remaining run yields nothing. */
    method Next() returns (r: Option<E>)
      requires Valid()
      modifies this
      ensures Valid()
      ensures r == old(Pull(transform, state, source[cursor..])).value
      ensures state == old(Pull(transform, state, source[cursor..])).state
      ensures cursor == old(cursor) + old(Pull(transform, state, source[cursor..])).consumed
      ensures r.Some? <==> old(Remaining()).outputs != []
      ensures r.Some? ==> r.value == old(Remaining()).outputs[0] && cursor > old(cursor)
                          && Prepend([r.value], Remaining()) == old(Remaining())
      ensures r.None? ==> state == old(Remaining()).state
    {
      ghost var p0 := Pull(transform, state, source[cursor..]);
      ghost var c0 := cursor;
      PullDrain(transform, state, source[cursor..]);
      while cursor < |source|
        invariant c0 <= cursor <= |source|
        invariant p0 == Pulled(Pull(transform, state, source[cursor..]).value,
                               Pull(transform, state, source[cursor..]).state,
                               cursor - c0 + Pull(transform, state, source[cursor..]).consumed)
        decreases |source| - cursor
      {
        var next := source[cursor];
        assert source[cursor..][1..] == source[cursor + 1..];
        cursor := cursor + 1;
        var (s, x) := transform(state, next);
        state := s;
        match x {
          case Continue(y) =>
            assert source[c0..][p0.consumed..] == source[cursor..];
            return Some(y);
          case Skip =>
          case Stop =>
            return None;
        }
      }
      return None;
    }
  }

  /** Array(stream): asks a fresh generator for elements until it answers nil
      and collects them; the result is the stream's output up to the first
      Stop. */
  method ToArray<X, S, E>(stream: Stream<X, S, E>) returns (out: seq<E>)
    ensures out == Collect(stream)
  {
    var g := new StreamGenerator(stream);
    out := [];
    while true
      invariant g.Valid()
      invariant Prepend(out, g.Remaining()) == Drain(stream.stateful.transform, stream.initialState, stream.stateful.source)
      decreases |g.source| - g.cursor
    {
      var r := g.Next();
      if r.None? {
        assert out + [] == out;
        break;
      }
      PrependTwice(out, r.value, g.Remaining());
      out := out + [r.value];
    }
  }

  /** A Stop is not sticky: after takeWhile rejects 5 and the generator says
      nil, the next request carries on with the 1 that follows. */
  method StopIsNotSticky() returns (first: Option<int>, second: Option<int>)
    ensures first == None && second == Some(1)
  {
    var stream := StreamTakeWhile(CollectionToStream([5, 1]), (x: int) => x < 3);
    var g := new StreamGenerator(stream);
    first := g.Next();
    second := g.Next();
  }
}
