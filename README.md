# SwiftStream in Dafny

SwiftStream is a small lazy-stream library built on stream fusion. A stream
is a source sequence, a guess of its size, and ONE fused per-element function
`(State, X) -> (State, Step<E>)`. Every combinator (`map`, `filter`,
`takeWhile` and their state-threading `*Accum` forms) wraps the previous
fused function in a new one, so building a pipeline never touches the source.
Only realizing the stream pulls elements through the fused function: either
the `reduce` loop or the mutating `StreamGenerator.next()` behind
`Array(stream)`. The per-element signal `Step` says whether an element is
passed on (`Continue`), dropped (`Skip`) or ends the stream (`Stop`). The
library also ships a state monad, `Stateful`, which the streams do not use.

The model has three parts.

- **Step** (`step.dfy`, module `Steps`): the datatype and its pure and
  state-threading `map`, `condition`, `filter` and `takeWhile`, plus
  `init(fromOptional:)`.
- **Streams** (`size_guess.dfy`, `stream.dfy`, `realize.dfy`,
  `generator.dfy`):
  - `SizeGuess` with `smaller` (module `SizeGuesses`).
  - `StatefulStream` and `Stream` as datatypes holding a finite `seq<X>`
    source and a Dafny function value. All combinators and `toStream`
    variants are functions (module `Streams`).
  - `reduce` is a method with a loop, proved against `Drain` (module
    `Realize`). `Drain` is a specification function for a whole
    realization: the final state, the `Continue` payloads in order, and
    whether a `Stop` ended it. `Pull` specifies one `next()`.
  - `StreamGenerator` is a class (module `Generators`). Its mutable `cursor`
    and `state` fields stand for the host generator and the stored state.
    `next()` is a method with a loop, proved against `Pull` and `Drain`.
    `Array(stream)` is the client method `ToArray`.
- **Stateful** (`state.dfy`, module `States`): the wrapper datatype and every
  operation, as functions whose contracts give the result at every state. The
  monad laws, the get/put equations and the `mapStateful` lens laws are
  lemmas over extensional equality `Same`.

Supporting modules:

- `ListOps` (`list_ops.dfy`) gives list-level reference definitions,
  independent of streams: `MapSeq`, `FilterSeq`, `TakeWhileSeq`, `MapAccumL`,
  `FilterAccumL`, `TakeWhileAccumL` and `FoldLeft`.
- `Fusion` (`fusion.dfy`) proves that realizing a fused stream computes those
  definitions on the upstream outputs.
- `SizeSoundness` (`size_soundness.dfy`) proves that the size guess is a
  correct claim about the realized length and that every combinator keeps it
  correct.
- `Examples` (`examples.dfy`) evaluates the playground's worked examples.

The host sequence's `count` and `underestimateCount()` become a length and an
`underestimate` parameter. `Unit` is a one-constructor datatype.

### Where the code differs from what its names suggest

The model follows the code in each case.

- On a `Unit` stream, `mapAccum` is a 1:1 stage but applies `smaller`
  (SwiftStream/Stream.swift:131). `StatefulStream.mapAccum` keeps the size
  (SwiftStream/Stream.swift:55). `SizeSoundness.UnitMapAccumWeakens` shows the
  guess becoming `SmallerThan(n)` for a stream that yields exactly `n`
  elements.
- `StreamGenerator` keeps no "done" flag. After `next()` answers `nil` on a
  `Stop`, a later `next()` carries on with the element after the one that
  stopped. `Generators.StopIsNotSticky` shows this. `ToArray` stops at the
  first `nil`, so `Array(stream)` still ends at the first `Stop`.
- `reduce` stores the state produced by the element that said `Stop` before
  it returns.
- The sequence-level `filterAccum`, `takeWhileAccum` and `mapAccum`
  (SwiftStream/Stream.swift:159-167) go through the sequence `toStream()`,
  whose guess is `LargerThan`. Their size guess is therefore always `Unknown`,
  even for an array.

### Types

Each type of the library is a Dafny type with the same fields:

- `Steps.Step` is the `Step` enum (SwiftStream/Step.swift:9-11).
- `SizeGuesses.SizeGuess` is the `SizeGuess` enum (SwiftStream/Stream.swift:9-11).
- `Streams.StatefulStream` and `Streams.Stream` are the two structs (SwiftStream/Stream.swift:35-45). `Streams.Unit` is `Unit` (SwiftStream/Stream.swift:98-99).
- `States.Stateful` is the `Stateful` struct (SwiftStream/State.swift:9-11).
- `Generators.StreamGenerator` is the `StreamGenerator` struct (SwiftStream/Stream.swift:191-195):
  - its `source` and `cursor` stand for the host generator;
  - `state` and `transform` are the struct's fields of the same names;
  - `Valid()` only keeps the cursor within the source.

## Model

| member | source | states |
|---|---|---|
| Steps.MapWithState | SwiftStream/Step.swift:14-22 | The tag is kept. Skip and Stop return the incoming state. Continue(x) returns f's new state paired with Continue of f's result. |
| Steps.ConditionWithState | SwiftStream/Step.swift:23-31 | Skip and Stop pass through with the incoming state. Continue(x) gets p's new state. It stays Continue(x) when p accepts and becomes def when p rejects. |
| Steps.FilterWithState | SwiftStream/Step.swift:32-34 | Skip and Stop pass through with the incoming state. On Continue(x) the state is the one p returns, and the step stays Continue(x) when p accepts x and becomes Skip when p rejects it. |
| Steps.TakeWhileWithState | SwiftStream/Step.swift:35-37 | Skip and Stop pass through with the incoming state. On Continue(x) the state is the one p returns, and the step stays Continue(x) when p accepts x and becomes Stop when p rejects it. |
| Steps.FilterTakeWhileDiffer | SwiftStream/Step.swift:32-37 | Stateful filter and takeWhile give the same state. Their steps differ only on a rejected Continue: Skip in one, Stop in the other. |
| Steps.StatefulShortCircuit | SwiftStream/Step.swift:14-31 | On Skip and Stop, swapping the user function for any other leaves the result unchanged, so it is never consulted. |
| Steps.StatefulLiftsPure | SwiftStream/Step.swift:14-60 | With a function that keeps the state, the stateful map, filter and takeWhile equal the pure ones paired with the unchanged state. |
| Steps.Map | SwiftStream/Step.swift:41-47 | The tag is preserved both ways. Continue(x) becomes Continue(f(x)). |
| Steps.MapFunctor | SwiftStream/Step.swift:41-47 | map by the identity is the identity. map by f then g is map by their composition. |
| Steps.Condition | SwiftStream/Step.swift:48-54 | A Continue that p rejects becomes def. Every other input (Skip, Stop, an accepted Continue) comes back unchanged. |
| Steps.Filter | SwiftStream/Step.swift:55-57 | Any Continue it yields satisfies p. A rejected Continue becomes Skip. Anything else is unchanged. |
| Steps.TakeWhile | SwiftStream/Step.swift:58-60 | Any Continue it yields satisfies p. A rejected Continue becomes Stop. Anything else is unchanged. |
| Steps.ConditionIdempotent | SwiftStream/Step.swift:48-60 | filter(p) and takeWhile(p) are idempotent. |
| Steps.FromOptional | SwiftStream/Step.swift:63-66 | nil is Stop and some x is Continue(x). The result is never Skip. |
| SizeGuesses.Smaller | SwiftStream/Stream.swift:13-21 | LargerThan becomes Unknown and Exactly(n) becomes SmallerThan(n). SmallerThan, Infinite and Unknown are kept. Every length the old guess admits, the new one admits. |
| SizeGuesses.SmallerIdempotent | SwiftStream/Stream.swift:13-21 | Weakening twice is weakening once. |
| SizeGuesses.SmallerSound | SwiftStream/Stream.swift:13-21 | If a guess was right for k elements, the weakened guess is right for any j <= k. This is the case for any stage that only drops elements. |
| Streams.Map | SwiftStream/Stream.swift:48-53 | Same source, same size guess. |
| Streams.MapAccum | SwiftStream/Stream.swift:54-59 | Same source, same size guess. |
| Streams.Filter | SwiftStream/Stream.swift:60-65 | Same source; the guess is weakened exactly once. |
| Streams.FilterAccum | SwiftStream/Stream.swift:66-71 | Same source; the guess is weakened exactly once. |
| Streams.TakeWhile | SwiftStream/Stream.swift:72-77 | Same source; the guess is weakened exactly once. |
| Streams.TakeWhileAccum | SwiftStream/Stream.swift:78-83 | Same source; the guess is weakened exactly once. |
| Streams.StreamMap | SwiftStream/Stream.swift:87-89 | Keeps the initial state, the source and the size guess. |
| Streams.StreamFilter | SwiftStream/Stream.swift:90-92 | Keeps the initial state and the source; the guess is weakened once. |
| Streams.StreamTakeWhile | SwiftStream/Stream.swift:93-95 | Keeps the initial state and the source; the guess is weakened once. |
| Streams.UnitFilterAccum | SwiftStream/Stream.swift:102-112 | Same source; the guess is weakened once. |
| Streams.UnitTakeWhileAccum | SwiftStream/Stream.swift:113-123 | Same source; the guess is weakened once. |
| Streams.UnitMapAccum | SwiftStream/Stream.swift:124-134 | Same source; the guess is weakened once, although the stage is 1:1. |
| Streams.CollectionToStream | SwiftStream/Stream.swift:137-147 | The source is the collection and the guess is Exactly(count). Every element continues unchanged, with the Unit state. |
| Streams.SequenceToStream | SwiftStream/Stream.swift:150-158 | The source is the sequence and the guess is LargerThan(underestimate). Every element continues unchanged. |
| Streams.SequenceFilterAccum | SwiftStream/Stream.swift:159-161 | Same source; the guess is Unknown. |
| Streams.SequenceTakeWhileAccum | SwiftStream/Stream.swift:162-164 | Same source; the guess is Unknown. |
| Streams.SequenceMapAccum | SwiftStream/Stream.swift:165-167 | Same source; the guess is Unknown. |
| Streams.ToStream | SwiftStream/Stream.swift:171-173 | Binds the stateful stream, unchanged, to the given initial state. |
| Streams.UnderestimateCount | SwiftStream/Stream.swift:220-226 | n for Exactly(n) and LargerThan(n); 0 for SmallerThan, Infinite and Unknown. |
| Realize.Drain | SwiftStream/Stream.swift:174-188 | A realization yields at most one value per source element. An empty source yields nothing, does not stop and keeps the state. |
| Realize.DrainWithoutStop | SwiftStream/Stream.swift:178-187 | With no Stop, the final state is the state after the last source element. |
| Realize.DrainStopsAt | SwiftStream/Stream.swift:178-184 | A stopped run stopped at some element k, whose own update gives the final state. Elements after k never influence the run. |
| Realize.Collect | SwiftStream/Stream.swift:212-219 | Array(stream) has at most as many elements as the source. |
| Realize.Pull | SwiftStream/Stream.swift:198-209 | One next() consumes at least one element of a non-empty source and at most all of them. The stored state is the state after the consumed elements. |
| Realize.PullDrain | SwiftStream/Stream.swift:198-209 | next() finds a value iff the remaining run yields one; the value is its first output. The run from where next() stopped is the rest of the outputs. When next() finds nothing, its state is the run's final state. |
| Realize.Reduce | SwiftStream/Stream.swift:174-188 | The result is the left fold of combine over the Continue payloads, in order, up to the first Stop. The state is the run's, including the update made by the element that said Stop. |
| Generators.StreamGenerator.constructor | SwiftStream/Stream.swift:213-219 | generate() starts at the source's first element in the stream's initial state. Its remaining run is the stream's whole run. |
| Generators.StreamGenerator.Next | SwiftStream/Stream.swift:198-209 | next() does one Pull from the cursor: the same value, stored state and advance. It returns the first output of the remaining run, which then loses that output, or nil when the remaining run yields nothing. |
| Generators.ToArray | SwiftStream/Stream.swift:212-219 | Asking a fresh generator until nil collects exactly the stream's outputs. |
| Generators.StopIsNotSticky | SwiftStream/Stream.swift:191-209 | Over [5, 1] with takeWhile(x < 3), next() answers nil, then 1. |
| Fusion.CollectCollection | SwiftStream/Stream.swift:137-147 | A collection's stream yields the collection and does not stop. |
| Fusion.CollectSequence | SwiftStream/Stream.swift:150-158 | A sequence's stream yields the sequence, whatever underestimate it reports. |
| Fusion.DrainMap | SwiftStream/Stream.swift:48-53 | map(f) over any upstream yields the mapped upstream outputs. It has the same final state and the same Stop. |
| Fusion.DrainFilter | SwiftStream/Stream.swift:60-65 | filter(p) over any upstream yields the filtered upstream outputs. It has the same final state and the same Stop. |
| Fusion.DrainTakeWhile | SwiftStream/Stream.swift:72-77 | takeWhile(p) over any upstream yields the longest prefix of the upstream outputs that p accepts. |
| Fusion.CollectMap | SwiftStream/Stream.swift:87-89 | Array(stream.map(f)) is the list map of Array(stream). |
| Fusion.CollectFilter | SwiftStream/Stream.swift:90-92 | Array(stream.filter(p)) is the list filter of Array(stream). |
| Fusion.CollectTakeWhile | SwiftStream/Stream.swift:93-95 | Array(stream.takeWhile(p)) is the longest accepted prefix of Array(stream). |
| Fusion.CollectPipeline | SwiftStream/Stream.swift:87-95 | xs.toStream().map(f).filter(p).takeWhile(q) yields the list composition on xs. |
| Fusion.DrainUnitMapAccum | SwiftStream/Stream.swift:124-134 | Over a Unit stream, mapAccum yields mapAccumL of the upstream outputs. The new state is threaded only through f, and the Stop comes from the upstream. |
| Fusion.DrainUnitFilterAccum | SwiftStream/Stream.swift:102-112 | Over a Unit stream, filterAccum yields the stateful filter of the upstream outputs, with its final state and the upstream's Stop. |
| Fusion.DrainUnitTakeWhileAccum | SwiftStream/Stream.swift:113-123 | Over a Unit stream, takeWhileAccum yields the stateful takeWhile of the upstream outputs. The final state includes the rejecting element's update. |
| Fusion.CollectSequenceAccum | SwiftStream/Stream.swift:159-167 | Sequence-level mapAccum, filterAccum and takeWhileAccum realize to the list-level stateful operations on the sequence. |
| Fusion.UnitStateless | SwiftStream/Stream.swift:101-135 | A Unit-state fused function keeps the state and does not depend on it. |
| Fusion.DrainStateless | SwiftStream/Stream.swift:174-188 | A stateless run gives the same outputs and Stop from every start state and ends in its start state. |
| Fusion.DrainMapAccum | SwiftStream/Stream.swift:54-59 | Over a stateless upstream, StatefulStream.mapAccum yields mapAccumL of the upstream outputs. |
| Fusion.DrainFilterAccum | SwiftStream/Stream.swift:66-71 | Over a stateless upstream, filterAccum yields the stateful filter of the upstream outputs. |
| Fusion.DrainTakeWhileAccum | SwiftStream/Stream.swift:78-83 | Over a stateless upstream, takeWhileAccum yields the stateful takeWhile of the upstream outputs. |
| Fusion.DrainSharedState | SwiftStream/Stream.swift:47-135 | A chain of stages that share a state introduced over a Unit stream realizes as its fused step run over the Unit stream's outputs. The state and outputs are the step's, and the run stops when the step stops or the Unit stream does. |
| Fusion.UnitStagesShareState | SwiftStream/Stream.swift:101-135 | The Unit-stream mapAccum, filterAccum and takeWhileAccum start such a chain. Their step is the stateful Step operation applied to each Continue payload of the Unit stream, which itself runs with a fresh Unit. |
| Fusion.PureStagesKeepSharing | SwiftStream/Stream.swift:48-77 | map, filter and takeWhile extend such a chain. The new step is the old one followed by the pure Step operation, and the state is the old step's. |
| Fusion.StatefulStagesKeepSharing | SwiftStream/Stream.swift:54-83 | mapAccum, filterAccum and takeWhileAccum extend such a chain. The new step applies the stateful Step operation to the old step's result, at the state the old step left. |
| Fusion.ChainedMapAccum | SwiftStream/Stream.swift:54-134 | u.mapAccum(f).mapAccum(g) threads one state through f then g, element by element. It yields mapAccumL of that combined step over u's outputs, with u's Stop. |
| SizeSoundness.DrainAllContinue | SwiftStream/Stream.swift:174-188 | If every element continues, a run yields one value per element and does not stop. |
| SizeSoundness.SizeGuessHolds | SwiftStream/Stream.swift:9-11 | The guess of a sound stream admits the length of every realization of it. |
| SizeSoundness.UnderestimateIsLowerBound | SwiftStream/Stream.swift:220-226 | For a sound stream, underestimateCount() is at most the number of values it yields. |
| SizeSoundness.FreshStreamsSound | SwiftStream/Stream.swift:137-158 | A collection's stream is sound. A sequence's stream is sound when its underestimate really is one. |
| SizeSoundness.CombinatorsKeepSound | SwiftStream/Stream.swift:47-84 | All six StatefulStream combinators keep a stream sound. |
| SizeSoundness.UnitCombinatorsKeepSound | SwiftStream/Stream.swift:101-135 | The Unit-stream filterAccum, takeWhileAccum and mapAccum keep a stream sound. |
| SizeSoundness.UnitMapAccumWeakens | SwiftStream/Stream.swift:124-134 | Over a collection of n elements, Unit mapAccum guesses SmallerThan(n) and yields exactly n. |
| States.Pure | SwiftStream/State.swift:17-19 | At every s, pure(a) returns (a, s). |
| States.Map | SwiftStream/State.swift:20-25 | The value is f of m's value, and the final state is m's. |
| States.FlatMap | SwiftStream/State.swift:26-31 | At every s, it runs f of m's value at m's final state. |
| States.EvalStateful | SwiftStream/State.swift:32-34 | Paired with execStateful, it gives runStateful(s). |
| States.ExecStateful | SwiftStream/State.swift:35-37 | The second component of runStateful(s). |
| States.Apply | SwiftStream/State.swift:42-47 | <^> runs rhs at lhs's final state and applies lhs's function to rhs's value. The final state is rhs's. |
| States.Then | SwiftStream/State.swift:51-53 | ^> runs rhs at lhs's final state and drops lhs's value. |
| States.Before | SwiftStream/State.swift:57-59 | <^ keeps lhs's value, and its final state comes from running lhs and then rhs. |
| States.Put | SwiftStream/State.swift:62-64 | At every s, returns ((), t). |
| States.Get | SwiftStream/State.swift:66-68 | At every s, returns (s, s). |
| States.Gets | SwiftStream/State.swift:70-72 | At every s, returns (f(s), s). |
| States.Modify | SwiftStream/State.swift:74-76 | At every s, returns ((), f(s)). |
| States.MapStateful | SwiftStream/State.swift:78-86 | Runs m on the focus f(s).0 and rebuilds the outer state with f(s).1. The value is m's. |
| States.LiftToState | SwiftStream/State.swift:88-90 | liftToState(f)(x) at s is f(x, s). |
| States.LeftIdentity | SwiftStream/State.swift:17-31 | pure(a).flatMap(f) behaves as f(a). |
| States.RightIdentity | SwiftStream/State.swift:17-31 | m.flatMap(pure) behaves as m. |
| States.Associativity | SwiftStream/State.swift:26-31 | flatMap is associative. |
| States.OperatorsViaFlatMap | SwiftStream/State.swift:20-59 | map, ^>, <^ and <^> are each flatMap with a particular continuation. |
| States.StateEquations | SwiftStream/State.swift:62-76 | get then put is a no-op; put then get reads what was put; put twice keeps the second; modify is get then put; gets is map of get. |
| States.MapStatefulFlatMap | SwiftStream/State.swift:78-86 | Over a lawful lens, mapStateful distributes over flatMap. |
| States.MapStatefulGetPut | SwiftStream/State.swift:78-86 | mapStateful of get reads the focus; of put replaces the focus. |
| States.LiftToStateFlatMap | SwiftStream/State.swift:88-90 | m.flatMap(liftToState(f)) threads m's value and final state into f. |
| Examples.AscendingFilter | SwiftStream/StreamPlayground.playground/Contents.swift:26-31 | [1,4,2,5,3,6,4,7,1,8].filterAccum{(s,n) in (n, s<n)}.toStream(0) yields [1,4,5,6,7,8]. |
| Examples.RunningTotal | SwiftStream/StreamPlayground.playground/Contents.swift:19-24 | The running-total mapAccum from 0 yields the partial sums and ends in state 41. |
| Examples.PlaygroundSizes | SwiftStream/StreamPlayground.playground/Contents.swift:35-39 | The array's stream guesses Exactly(10); after a filter it guesses SmallerThan(10). |
| Examples.Fibonacci | SwiftStream/StreamPlayground.playground/Contents.swift:41-51 | Over any source of at least 16 elements, the Fibonacci mapAccum with takeWhile(n < 1000) from (0, 1) yields 1, 2, 3, 5, …, 987. |

## Left out

- `SizeGuess.description` (SwiftStream/Stream.swift:23-33) is not modelled. It only formats an `Int` into a string.
- The `Stream.size` accessor (SwiftStream/Stream.swift:44) is not a separate member. The model reads `stream.stateful.size` directly.
- The `Stateful(_:)` initializer (SwiftStream/State.swift:14-16) is the datatype constructor `States.Stateful`.
- `curry` and `const` (SwiftStream/Utils.swift) are inlined as lambdas in `States.Before` and `States.LiftToState`.
- The host protocols are not modelled:
  - `SequenceType`, `CollectionType` and `GeneratorType`;
  - the `_UnitType` marker;
  - the operator precedence declarations.

  A source is a finite `seq<X>`, and a generator over it is the source plus a cursor. `count` is the sequence length. `underestimateCount()` of a host sequence is a parameter.
- Infinite sources are not modelled, since a finite sequence cannot be one. The `Infinite` size guess is kept, but no finite stream is sound with it.
  - `Examples.Fibonacci` states the playground's Fibonacci stream over every finite prefix of at least 16 elements. It does not state it over the unbounded `InfiniteSequence`, which is not part of this model.
- Fusion.DrainTakeWhile: states the outputs of a `takeWhile` stage but not its final state or its Stop flag. Those depend on where the upstream stops relative to the first rejected value.
- Fusion.DrainMapAccum, Fusion.DrainFilterAccum, Fusion.DrainTakeWhileAccum: each stage on its own is proved only over an upstream that neither reads nor writes the shared state (`Fusion.Stateless`). A stream whose state is `Unit` is like that (`Fusion.UnitStateless`). A chain that starts with a Unit-stream `mapAccum`, `filterAccum` or `takeWhileAccum`, such as `xs.mapAccum(f).filterAccum(p)`, is not: its stages interleave their updates of one state. Such chains are covered as a whole by `Fusion.DrainSharedState`, which gives the realization as one fused step run over the Unit stream's outputs. Only for `mapAccum` followed by `mapAccum` (`Fusion.ChainedMapAccum`) is that step further turned into a list-level definition.
- Aliasing of a host generator is not modelled. A generator is a value type in the host language; `StreamGenerator` here owns its cursor.
