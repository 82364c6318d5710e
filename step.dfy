/**
 * The three-way per-element signal of a stream stage (SwiftStream/Step.swift):
 * Continue(x) passes x on, Skip drops this element, Stop ends the stream.
 * Stateful variants thread a state through the user function and never consult
 * it for Skip or Stop; pure variants only rewrite the signal.
 */
module Steps {
  import opened Options

  datatype Step<+E> = Skip | Stop | Continue(value: E)

  // ---------------------------------------------------------------------------
  // Stateful variants: (State, Step) pairs, the state in the first position.
  // ---------------------------------------------------------------------------

  /** map(withState:f:): Continue(x) becomes Continue of f's result paired with
      f's new state; Skip and Stop keep their tag and the incoming state. */
  function MapWithState<E, S, R>(step: Step<E>, withState: S, f: (S, E) -> (S, R)): (r: (S, Step<R>))
    ensures r.1.Skip? <==> step.Skip?
    ensures r.1.Stop? <==> step.Stop?
    ensures !step.Continue? ==> r.0 == withState
    ensures step.Continue? ==>
              r.0 == f(withState, step.value).0 && r.1 == Continue(f(withState, step.value).1)
  {
    match step
    case Continue(x) =>
      var (t, y) := f(withState, x);
      (t, Continue(y))
    case Skip => (withState, Skip)
    case Stop => (withState, Stop)
  }

  /** condition(def:withState:p:): Continue(x) stays Continue(x) when p accepts
      it and becomes def otherwise, with p's new state either way; Skip and Stop
      pass through with the incoming state. */
  function ConditionWithState<E, S>(step: Step<E>, def: Step<E>, withState: S, p: (S, E) -> (S, bool)): (r: (S, Step<E>))
    ensures !step.Continue? ==> r == (withState, step)
    ensures step.Continue? ==> r.0 == p(withState, step.value).0
    ensures step.Continue? && p(withState, step.value).1 ==> r.1 == step
    ensures step.Continue? && !p(withState, step.value).1 ==> r.1 == def
  {
    match step
    case Continue(x) =>
      var (t, b) := p(withState, x);
      (t, if b then Continue(x) else def)
    case Skip => (withState, Skip)
    case Stop => (withState, Stop)
  }

  /** filter(withState:p:): condition falling back to Skip. */
  function FilterWithState<E, S>(step: Step<E>, withState: S, p: (S, E) -> (S, bool)): (r: (S, Step<E>))
    ensures !step.Continue? ==> r == (withState, step)
    ensures step.Continue? ==> r.0 == p(withState, step.value).0
    ensures step.Continue? ==> r.1 == if p(withState, step.value).1 then step else Skip
  {
    ConditionWithState(step, Skip, withState, p)
  }

  /** takeWhile(withState:p:): condition falling back to Stop. */
  function TakeWhileWithState<E, S>(step: Step<E>, withState: S, p: (S, E) -> (S, bool)): (r: (S, Step<E>))
    ensures !step.Continue? ==> r == (withState, step)
    ensures step.Continue? ==> r.0 == p(withState, step.value).0
    ensures step.Continue? ==> r.1 == if p(withState, step.value).1 then step else Stop
  {
    ConditionWithState(step, Stop, withState, p)
  }

  // ---------------------------------------------------------------------------
  // Pure variants.
  // ---------------------------------------------------------------------------

  /** map(f): rewrites the Continue payload, keeps the tag. */
  function Map<E, R>(step: Step<E>, f: E -> R): (r: Step<R>)
    ensures r.Skip? <==> step.Skip?
    ensures r.Stop? <==> step.Stop?
    ensures step.Continue? ==> r == Continue(f(step.value))
  {
    match step
    case Continue(x) => Continue(f(x))
    case Skip => Skip
    case Stop => Stop
  }

  /** condition(def:p:): a Continue that p rejects becomes def; anything else is
      returned unchanged. */
  function Condition<E>(step: Step<E>, def: Step<E>, p: E -> bool): (r: Step<E>)
    ensures step.Continue? && !p(step.value) ==> r == def
    ensures !(step.Continue? && !p(step.value)) ==> r == step
  {
    if step.Continue? && !p(step.value) then def else step
  }

  /** filter(p): a rejected Continue becomes Skip. */
  function Filter<E>(step: Step<E>, p: E -> bool): (r: Step<E>)
    ensures r.Continue? ==> r == step && p(r.value)
    ensures r == step || (step.Continue? && !p(step.value) && r.Skip?)
  {
    Condition(step, Skip, p)
  }

  /** takeWhile(p): a rejected Continue becomes Stop. */
  function TakeWhile<E>(step: Step<E>, p: E -> bool): (r: Step<E>)
    ensures r.Continue? ==> r == step && p(r.value)
    ensures r == step || (step.Continue? && !p(step.value) && r.Stop?)
  {
    Condition(step, Stop, p)
  }

  /** init(fromOptional:): nil is Stop, some x is Continue(x); never Skip. */
  function FromOptional<E>(o: Option<E>): (r: Step<E>)
    ensures !r.Skip?
    ensures r.Stop? <==> o.None?
    ensures o.Some? ==> r == Continue(o.value)
  {
    match o
    case Some(x) => Continue(x)
    case None => Stop
  }

  // ---------------------------------------------------------------------------
  // Laws.
  // ---------------------------------------------------------------------------

  /** map respects identity and composition. */
  lemma MapFunctor<E, R, T>(step: Step<E>, f: E -> R, g: R -> T)
    ensures Map(step, (x: E) => x) == step
    ensures Map(Map(step, f), g) == Map(step, (x: E) => g(f(x)))
  {
  }

  /** filter and takeWhile are idempotent. */
  lemma ConditionIdempotent<E>(step: Step<E>, p: E -> bool)
    ensures Filter(Filter(step, p), p) == Filter(step, p)
    ensures TakeWhile(TakeWhile(step, p), p) == TakeWhile(step, p)
  {
  }

  /** Stateful filter and takeWhile agree on the state and differ only where a
      rejected Continue becomes Skip in one and Stop in the other. */
  lemma FilterTakeWhileDiffer<E, S>(step: Step<E>, s: S, p: (S, E) -> (S, bool))
    ensures FilterWithState(step, s, p).0 == TakeWhileWithState(step, s, p).0
    ensures FilterWithState(step, s, p).1 == TakeWhileWithState(step, s, p).1
            || (FilterWithState(step, s, p).1.Skip? && TakeWhileWithState(step, s, p).1.Stop?
                && step.Continue? && !p(s, step.value).1)
  {
  }

  /** The stateful variants never consult the user function on Skip or Stop:
      swapping the function leaves the result unchanged. */
  lemma StatefulShortCircuit<E, S, R>(step: Step<E>, s: S, f: (S, E) -> (S, R), g: (S, E) -> (S, R),
                                      p: (S, E) -> (S, bool), q: (S, E) -> (S, bool), def: Step<E>)
    requires !step.Continue?
    ensures MapWithState(step, s, f) == MapWithState(step, s, g)
    ensures ConditionWithState(step, def, s, p) == ConditionWithState(step, def, s, q)
  {
  }

  /** With a function that ignores and keeps the state, the stateful variants
      are the pure ones. */
  lemma StatefulLiftsPure<E, S, R>(step: Step<E>, s: S, f: E -> R, p: E -> bool)
    ensures MapWithState(step, s, (t: S, x: E) => (t, f(x))) == (s, Map(step, f))
    ensures FilterWithState(step, s, (t: S, x: E) => (t, p(x))) == (s, Filter(step, p))
    ensures TakeWhileWithState(step, s, (t: S, x: E) => (t, p(x))) == (s, TakeWhile(step, p))
  {
  }
}
