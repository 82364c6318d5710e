/**
 * The state monad of SwiftStream/State.swift: a Stateful<S, A> wraps a
 * function from a state to a (value, new state) pair. Every operation builds a
 * new wrapper around a new function; nothing is mutated. Two computations are
 * compared extensionally, by what they return at every state.
 */
module States {

  datatype Stateful<!S, A> = Stateful(runStateful: S -> (A, S))

  /** Two computations that agree at every state. */
  ghost predicate Same<S(!new), A>(m: Stateful<S, A>, n: Stateful<S, A>) {
    forall s :: m.runStateful(s) == n.runStateful(s)
  }

  /** init(pure:): returns the value and leaves the state untouched. */
  function Pure<S(!new), A>(a: A): (m: Stateful<S, A>)
    ensures forall s :: m.runStateful(s) == (a, s)
  {
    Stateful((s: S) => (a, s))
  }

  /** map(f): applies f to the value; the final state is the one m produces. */
  function Map<S(!new), A, B>(m: Stateful<S, A>, f: A -> B): (r: Stateful<S, B>)
    ensures forall s :: r.runStateful(s).1 == m.runStateful(s).1
    ensures forall s :: r.runStateful(s).0 == f(m.runStateful(s).0)
  {
    Stateful((s: S) => var (x, n) := m.runStateful(s); (f(x), n))
  }

  /** flatMap(f): runs m, then runs f of its value at m's final state. */
  function FlatMap<S(!new), A, B>(m: Stateful<S, A>, f: A -> Stateful<S, B>): (r: Stateful<S, B>)
    ensures forall s :: r.runStateful(s) == f(m.runStateful(s).0).runStateful(m.runStateful(s).1)
  {
    Stateful((s: S) => var (x, n) := m.runStateful(s); f(x).runStateful(n))
  }

  /** evalStateful(s): the value m produces at s. */
  function EvalStateful<S, A>(m: Stateful<S, A>, s: S): (a: A)
    ensures (a, ExecStateful(m, s)) == m.runStateful(s)
  {
    m.runStateful(s).0
  }

  /** execStateful(s): the state m leaves behind when started at s. */
  function ExecStateful<S, A>(m: Stateful<S, A>, s: S): (t: S)
    ensures t == m.runStateful(s).1
  {
    m.runStateful(s).1
  }

  /** lhs <^> rhs: runs lhs for a function, then rhs at lhs's final state, and
      applies the function to rhs's value. */
  function Apply<S(!new), A, B>(lhs: Stateful<S, A -> B>, rhs: Stateful<S, A>): (r: Stateful<S, B>)
    ensures forall s :: r.runStateful(s).1 == rhs.runStateful(lhs.runStateful(s).1).1
    ensures forall s :: r.runStateful(s).0 == lhs.runStateful(s).0(rhs.runStateful(lhs.runStateful(s).1).0)
  {
    Stateful((s: S) => var (x, n) := lhs.runStateful(s); Map(rhs, x).runStateful(n))
  }

  /** lhs ^> rhs: runs rhs at lhs's final state; lhs's value is dropped. */
  function Then<S(!new), A, B>(lhs: Stateful<S, A>, rhs: Stateful<S, B>): (r: Stateful<S, B>)
    ensures forall s :: r.runStateful(s) == rhs.runStateful(lhs.runStateful(s).1)
  {
    var r := Stateful((s: S) => rhs.runStateful(ExecStateful(lhs, s)));
    assert forall s :: r.runStateful(s) == rhs.runStateful(ExecStateful(lhs, s));
    r
  }

  /** lhs <^ rhs: lhs.map(const) <^> rhs, so lhs's value with the state left by
      running lhs and then rhs. */
  function Before<S(!new), A, B>(lhs: Stateful<S, A>, rhs: Stateful<S, B>): (r: Stateful<S, A>)
    ensures forall s :: r.runStateful(s) == (lhs.runStateful(s).0, rhs.runStateful(lhs.runStateful(s).1).1)
  {
    Apply(Map(lhs, (a: A) => (b: B) => a), rhs)
  }

  /** put(t): ignores the incoming state and installs t. */
  function Put<S(!new)>(t: S): (m: Stateful<S, ()>)
    ensures forall s :: m.runStateful(s) == ((), t)
  {
    Stateful((_: S) => ((), t))
  }

  /** get(): returns the state as the value, state unchanged. */
  function Get<S(!new)>(): (m: Stateful<S, S>)
    ensures forall s :: m.runStateful(s) == (s, s)
  {
    Stateful((s: S) => (s, s))
  }

  /** gets(f): returns a projection of the state, state unchanged. */
  function Gets<S(!new), A>(f: S -> A): (m: Stateful<S, A>)
    ensures forall s :: m.runStateful(s) == (f(s), s)
  {
    Stateful((s: S) => (f(s), s))
  }

  /** modify(f): replaces the state by f of it. */
  function Modify<S(!new)>(f: S -> S): (m: Stateful<S, ()>)
    ensures forall s :: m.runStateful(s) == ((), f(s))
  {
    Stateful((s: S) => ((), f(s)))
  }

  /** mapStateful(f): runs a computation over a component of a larger state.
      f splits the outer state into a focus and a rebuild function; the inner
      computation runs on the focus and the rebuild function puts its final
      focus back. The value is the inner computation's. */
  function MapStateful<S(!new), T(!new), A(!new)>(f: T -> (S, S -> T)): (lift: Stateful<S, A> -> Stateful<T, A>)
    ensures forall m: Stateful<S, A>, s: T ::
              lift(m).runStateful(s) == (m.runStateful(f(s).0).0, f(s).1(m.runStateful(f(s).0).1))
  {
    (m: Stateful<S, A>) =>
      Stateful((s: T) =>
        var (c, b) := f(s);
        var (x, n) := m.runStateful(c);
        (x, b(n)))
  }

  /** liftToState(f): the computation that, at state s, is f(x, s). */
  function LiftToState<A(!new), B, S(!new)>(f: (A, S) -> (B, S)): (lift: A -> Stateful<S, B>)
    ensures forall x, s :: lift(x).runStateful(s) == f(x, s)
  {
    (x: A) => Stateful((s: S) => f(x, s))
  }

  // ---------------------------------------------------------------------------
  // Laws.
  // ---------------------------------------------------------------------------

  lemma LeftIdentity<S(!new), A, B>(a: A, f: A -> Stateful<S, B>)
    ensures Same(FlatMap(Pure(a), f), f(a))
  {
  }

  lemma RightIdentity<S(!new), A>(m: Stateful<S, A>)
    ensures Same(FlatMap(m, (a: A) => Pure(a)), m)
  {
  }

  lemma Associativity<S(!new), A, B, C>(m: Stateful<S, A>, f: A -> Stateful<S, B>, g: B -> Stateful<S, C>)
    ensures Same(FlatMap(FlatMap(m, f), g), FlatMap(m, (a: A) => FlatMap(f(a), g)))
  {
  }

  /** map is flatMap followed by pure; the sequencing operators are flatMap
      with a continuation that ignores or keeps a value. */
  lemma OperatorsViaFlatMap<S(!new), A, B>(m: Stateful<S, A>, f: A -> B, k: Stateful<S, A -> B>, n: Stateful<S, B>)
    ensures Same(Map(m, f), FlatMap(m, (a: A) => Pure(f(a))))
    ensures Same(Then(m, n), FlatMap(m, (_: A) => n))
    ensures Same(Before(m, n), FlatMap(m, (a: A) => Map(n, (_: B) => a)))
    ensures Same(Apply(k, m), FlatMap(k, (g: A -> B) => Map(m, g)))
  {
  }

  /** The equations between the primitive state operations. */
  lemma StateEquations<S(!new), A>(t: S, u: S, f: S -> S, g: S -> A)
    ensures Same(FlatMap(Get(), (s: S) => Put(s)), Pure(()))
    ensures Same(Then(Put(t), Get()), Then(Put(t), Pure(t)))
    ensures Same(Then(Put(t), Put(u)), Put(u))
    ensures Same(Modify(f), FlatMap(Get(), (s: S) => Put(f(s))))
    ensures Same(Gets(g), Map(Get(), g))
  {
  }

  /** A lawful lens: rebuilding with a focus and focusing again gives that
      focus back, and rebuilding twice keeps only the second focus. */
  ghost predicate LawfulLens<S(!new), T(!new)>(f: T -> (S, S -> T)) {
    && (forall s: T, n: S :: f(f(s).1(n)).0 == n)
    && (forall s: T, n: S, m: S :: f(f(s).1(n)).1(m) == f(s).1(m))
  }

  /** Over a lawful lens, mapStateful distributes over flatMap: running two
      computations on the focus one after the other is running each on it. */
  lemma MapStatefulFlatMap<S(!new), T(!new), A(!new), B(!new)>(f: T -> (S, S -> T), m: Stateful<S, A>, k: A -> Stateful<S, B>)
    requires LawfulLens(f)
    ensures Same(MapStateful(f)(FlatMap(m, k)),
                 FlatMap(MapStateful(f)(m), (a: A) => MapStateful(f)(k(a))))
  {
    forall s: T
      ensures MapStateful(f)(FlatMap(m, k)).runStateful(s)
              == FlatMap(MapStateful(f)(m), (a: A) => MapStateful(f)(k(a))).runStateful(s)
    {
      var (c, b) := f(s);
      var (x, n) := m.runStateful(c);
      assert f(b(n)).0 == n;
      assert f(b(n)).1(k(x).runStateful(n).1) == b(k(x).runStateful(n).1);
    }
  }

  /** mapStateful of get reads the focus; of put replaces it. */
  lemma MapStatefulGetPut<S(!new), T(!new)>(f: T -> (S, S -> T), v: S)
    ensures Same(MapStateful(f)(Get()), Stateful((s: T) => (f(s).0, f(s).1(f(s).0))))
    ensures Same(MapStateful(f)(Put(v)), Stateful((s: T) => ((), f(s).1(v))))
  {
  }

  /** liftToState turns a (value, state) function into the computation it
      describes, and flatMap through it threads the state into f. */
  lemma LiftToStateFlatMap<S(!new), A(!new), B>(m: Stateful<S, A>, f: (A, S) -> (B, S))
    ensures Same(FlatMap(m, LiftToState(f)),
                 Stateful((s: S) => f(m.runStateful(s).0, m.runStateful(s).1)))
  {
  }
}
