/**
 * The stream size guess of SwiftStream/Stream.swift:9-21 and its weakening
 * step `smaller`, applied once by every combinator that may drop elements.
 * Admits(g, k) says which finite output lengths k a guess is a correct claim
 * about; it is the meaning against which `smaller` is proved conservative.
 */
module SizeGuesses {

  datatype SizeGuess = LargerThan(n: int) | SmallerThan(n: int) | Exactly(n: int) | Infinite | Unknown

  /** The finite lengths a guess allows. LargerThan carries an underestimate,
      so it allows the bound itself; Infinite allows no finite length. */
  predicate Admits(g: SizeGuess, k: nat) {
    match g
    case LargerThan(n) => n <= k
    case SmallerThan(n) => k <= n
    case Exactly(n) => k == n
    case Infinite => false
    case Unknown => true
  }

  /** `smaller`: a lower bound is lost, an exact count becomes an upper bound,
      the other guesses are kept. The result never tightens the guess, never
      claims a lower bound, and keeps an upper bound or infinity it had. */
  function Smaller(g: SizeGuess): (r: SizeGuess)
    ensures forall k: nat :: Admits(g, k) ==> Admits(r, k)
    ensures !r.LargerThan? && !r.Exactly?
    ensures g.SmallerThan? || g.Infinite? ==> r == g
    ensures g.Exactly? ==> r == SmallerThan(g.n)
    ensures g.LargerThan? || g.Unknown? ==> r.Unknown?
  {
    match g
    case LargerThan(_) => Unknown
    case Exactly(n) => SmallerThan(n)
    case _ => g
  }

  /** Weakening twice is weakening once. */
  lemma SmallerIdempotent(g: SizeGuess)
    ensures Smaller(Smaller(g)) == Smaller(g)
  {
  }

  /** `smaller` is sound for any stage that only drops elements: if the guess
      was right for k elements, the weakened guess is right for any j <= k. */
  lemma SmallerSound(g: SizeGuess, k: nat, j: nat)
    requires Admits(g, k) && j <= k
    ensures Admits(Smaller(g), j)
  {
  }
}
