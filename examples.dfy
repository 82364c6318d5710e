/**
 * Plain recursive definitions of what the playground's streams compute,
 * written without function values, and their values on the playground's
 * inputs.
 */
module PlaygroundReference {

  /** The elements of xs larger than the element before them, the first
      compared against s. */
  function AscendingRecords(s: int, xs: seq<int>): seq<int>
    decreases |xs|
  {
    if xs == [] then [] else (if s < xs[0] then [xs[0]] else []) + AscendingRecords(xs[0], xs[1..])
  }

  /** The running totals of xs, starting from t. */
  function PartialSums(t: int, xs: seq<int>): seq<int>
    decreases |xs|
  {
    if xs == [] then [] else [t + xs[0]] + PartialSums(t + xs[0], xs[1..])
  }

  /** t plus the sum of xs. */
  function Total(t: int, xs: seq<int>): int
    decreases |xs|
  {
    if xs == [] then t else Total(t + xs[0], xs[1..])
  }

  /** The element before ys once xs has been read, starting from s. */
  function LastOf(s: int, xs: seq<int>): int {
    if xs == [] then s else xs[|xs| - 1]
  }

  /** Reading xs + ys records xs's records, then ys's against xs's last element. */
  lemma {:induction false} AscendingRecordsAppend(s: int, xs: seq<int>, ys: seq<int>)
    ensures AscendingRecords(s, xs + ys) == AscendingRecords(s, xs) + AscendingRecords(LastOf(s, xs), ys)
    decreases |xs|
  {
    if xs == [] {
      assert xs + ys == ys;
    } else {
      var head := if s < xs[0] then [xs[0]] else [];
      assert (xs + ys)[1..] == xs[1..] + ys;
      AscendingRecordsAppend(xs[0], xs[1..], ys);
      assert LastOf(xs[0], xs[1..]) == LastOf(s, xs);
      calc {
        AscendingRecords(s, xs + ys);
        head + AscendingRecords(xs[0], xs[1..] + ys);
        head + (AscendingRecords(xs[0], xs[1..]) + AscendingRecords(LastOf(s, xs), ys));
        (head + AscendingRecords(xs[0], xs[1..])) + AscendingRecords(LastOf(s, xs), ys);
      }
    }
  }

  /** Summing xs + ys runs on from xs's total. */
  lemma {:induction false} TotalAppend(t: int, xs: seq<int>, ys: seq<int>)
    ensures Total(t, xs + ys) == Total(Total(t, xs), ys)
    decreases |xs|
  {
    if xs == [] {
      assert xs + ys == ys;
    } else {
      assert (xs + ys)[1..] == xs[1..] + ys;
      TotalAppend(t + xs[0], xs[1..], ys);
    }
  }

  /** The running totals of xs + ys are xs's, then ys's from xs's total. */
  lemma {:induction false} PartialSumsAppend(t: int, xs: seq<int>, ys: seq<int>)
    ensures PartialSums(t, xs + ys) == PartialSums(t, xs) + PartialSums(Total(t, xs), ys)
    decreases |xs|
  {
    if xs == [] {
      assert xs + ys == ys;
    } else {
      assert (xs + ys)[1..] == xs[1..] + ys;
      PartialSumsAppend(t + xs[0], xs[1..], ys);
      assert Total(t, xs) == Total(t + xs[0], xs[1..]);
      calc {
        PartialSums(t, xs + ys);
        [t + xs[0]] + PartialSums(t + xs[0], xs[1..] + ys);
        [t + xs[0]] + (PartialSums(t + xs[0], xs[1..]) + PartialSums(Total(t, xs), ys));
        ([t + xs[0]] + PartialSums(t + xs[0], xs[1..])) + PartialSums(Total(t, xs), ys);
      }
    }
  }

  /** The playground's array, written as its two halves: each half is
      evaluated on its own and the halves are joined by the append lemmas. */
  const PlaygroundArray: seq<int> := [1, 4, 2, 5, 3] + [6, 4, 7, 1, 8]

  lemma AscendingOfPlayground()
    ensures AscendingRecords(0, PlaygroundArray) == [1, 4, 5, 6, 7, 8]
  {
    AscendingRecordsAppend(0, [1, 4, 2, 5, 3], [6, 4, 7, 1, 8]);
    FirstHalfRecords();
    SecondHalfRecords();
    assert [1, 4, 5] + [6, 7, 8] == [1, 4, 5, 6, 7, 8];
  }

  lemma FirstHalfRecords()
    ensures AscendingRecords(0, [1, 4, 2, 5, 3]) == [1, 4, 5]
  {
    assert AscendingRecords(5, [3]) == [];
    assert AscendingRecords(2, [5, 3]) == [5];
    assert AscendingRecords(4, [2, 5, 3]) == [5];
    assert AscendingRecords(1, [4, 2, 5, 3]) == [4, 5];
  }

  lemma SecondHalfRecords()
    ensures AscendingRecords(3, [6, 4, 7, 1, 8]) == [6, 7, 8]
  {
    assert AscendingRecords(1, [8]) == [8];
    assert AscendingRecords(7, [1, 8]) == [8];
    assert AscendingRecords(4, [7, 1, 8]) == [7, 8];
    assert AscendingRecords(6, [4, 7, 1, 8]) == [7, 8];
  }

  lemma PartialSumsOfPlayground()
    ensures PartialSums(0, PlaygroundArray) == [1, 5, 7, 12, 15, 21, 25, 32, 33, 41]
    ensures Total(0, PlaygroundArray) == 41
  {
    PartialSumsAppend(0, [1, 4, 2, 5, 3], [6, 4, 7, 1, 8]);
    TotalAppend(0, [1, 4, 2, 5, 3], [6, 4, 7, 1, 8]);
    FirstHalfSums();
    SecondHalfSums();
    assert [1, 5, 7, 12, 15] + [21, 25, 32, 33, 41] == [1, 5, 7, 12, 15, 21, 25, 32, 33, 41];
  }

  lemma FirstHalfSums()
    ensures PartialSums(0, [1, 4, 2, 5, 3]) == [1, 5, 7, 12, 15]
    ensures Total(0, [1, 4, 2, 5, 3]) == 15
  {
    assert PartialSums(12, [3]) == [15] && Total(12, [3]) == 15;
    assert PartialSums(7, [5, 3]) == [12, 15] && Total(7, [5, 3]) == 15;
    assert PartialSums(5, [2, 5, 3]) == [7, 12, 15] && Total(5, [2, 5, 3]) == 15;
    assert PartialSums(1, [4, 2, 5, 3]) == [5, 7, 12, 15] && Total(1, [4, 2, 5, 3]) == 15;
  }

  lemma SecondHalfSums()
    ensures PartialSums(15, [6, 4, 7, 1, 8]) == [21, 25, 32, 33, 41]
    ensures Total(15, [6, 4, 7, 1, 8]) == 41
  {
    assert PartialSums(33, [8]) == [41] && Total(33, [8]) == 41;
    assert PartialSums(32, [1, 8]) == [33, 41] && Total(32, [1, 8]) == 41;
    assert PartialSums(25, [7, 1, 8]) == [32, 33, 41] && Total(25, [7, 1, 8]) == 41;
    assert PartialSums(21, [4, 7, 1, 8]) == [25, 32, 33, 41] && Total(21, [4, 7, 1, 8]) == 41;
  }

  /** The n numbers that follow a and b in a Fibonacci-like sequence. */
  function Fibs(a: int, b: int, n: nat): (r: seq<int>)
    ensures |r| == n
    decreases n
  {
    if n == 0 then [] else [a + b] + Fibs(b, a + b, n - 1)
  }

  /** The last two numbers once n more have followed a and b. */
  function FibPair(a: int, b: int, n: nat): (int, int)
    decreases n
  {
    if n == 0 then (a, b) else FibPair(b, a + b, n - 1)
  }

  /** The first eight numbers after 0 and 1, ending in 21 and 34. */
  lemma FirstEight()
    ensures Fibs(0, 1, 8) == [1, 2, 3, 5, 8, 13, 21, 34]
    ensures FibPair(0, 1, 8) == (21, 34)
  {
  }

  /** The eight numbers after 21 and 34. */
  lemma SecondEight()
    ensures Fibs(21, 34, 8) == [55, 89, 144, 233, 377, 610, 987, 1597]
  {
  }

  /** The two runs of eight make up the sixteen numbers. */
  lemma Concat()
    ensures [1, 2, 3, 5, 8, 13, 21, 34] + [55, 89, 144, 233, 377, 610, 987, 1597] == [1, 2, 3, 5, 8, 13, 21, 34, 55, 89, 144, 233, 377, 610, 987, 1597]
  {
  }
}

/**
 * The worked examples of the library's playground
 * (SwiftStream/StreamPlayground.playground/Contents.swift), over its array
 * [1, 4, 2, 5, 3, 6, 4, 7, 1, 8]. An Array reports its count as its
 * underestimate, so the sequence-level stateful operations see 10.
 */
module Examples {
  import opened SizeGuesses
  import opened ListOps
  import opened Streams
  import opened Realize
  import Fusion
  import opened PlaygroundReference

  const A: seq<int> := PlaygroundArray

  /** The playground's filterAccum step: keep n when it exceeds the previous
      element, and make n the new state. */
  function AscendingStep(): (int, int) -> (int, bool) {
    (s: int, n: int) => (n, s < n)
  }

  /** The playground's mapAccum step: add n to the running total. */
  function RunningStep(): (int, int) -> (int, int) {
    (t: int, n: int) => (t + n, t + n)
  }

  /** The ascending filter keeps exactly the elements that exceed their predecessor. */
  lemma {:induction false} AscendingStepKeepsRecords(s: int, xs: seq<int>)
    ensures FilterAccumL(AscendingStep(), s, xs).1 == AscendingRecords(s, xs)
    decreases |xs|
  {
    if xs != [] {
      AscendingStepKeepsRecords(xs[0], xs[1..]);
    }
  }

  /** The running-total mapAccum yields the partial sums and ends in the total. */
  lemma {:induction false} RunningStepSums(t: int, xs: seq<int>)
    ensures MapAccumL(RunningStep(), t, xs) == (Total(t, xs), PartialSums(t, xs))
    decreases |xs|
  {
    if xs != [] {
      RunningStepSums(t + xs[0], xs[1..]);
    }
  }

  /** filterAccum { (s, n) in (n, s < n) } keeps each element larger than the
      one before it; realized from 0 it yields [1, 4, 5, 6, 7, 8]. */
  lemma AscendingFilter()
    ensures Collect(ToStream(SequenceFilterAccum(A, 10, AscendingStep()), 0)) == [1, 4, 5, 6, 7, 8]
  {
    Fusion.CollectSequenceAccum(A, 10, 0, RunningStep(), AscendingStep());
    AscendingStepKeepsRecords(0, A);
    AscendingOfPlayground();
  }

  /** mapAccum { (t, n) in (t + n, t + n) } is a running total: realized from
      0 it yields the partial sums and ends in state 41. */
  lemma RunningTotal()
    ensures Drain(SequenceMapAccum(A, 10, RunningStep()).transform, 0, A)
            == Run(41, [1, 5, 7, 12, 15, 21, 25, 32, 33, 41], false)
  {
    Fusion.CollectSequenceAccum(A, 10, 0, RunningStep(), AscendingStep());
    RunningStepSums(0, A);
    PartialSumsOfPlayground();
  }

  /** a.toStream() guesses exactly 10; after a filter, smaller than 10. */
  lemma PlaygroundSizes()
    ensures CollectionToStream(A).stateful.size == Exactly(10)
    ensures StreamFilter(CollectionToStream(A), (n: int) => n % 2 == 0).stateful.size == SmallerThan(10)
  {
  }

  /** The Fibonacci stream of the playground: a mapAccum over pairs, then
      takeWhile { n < 1000 }, from state (0, 1). Its source is unbounded; any
      finite prefix of at least 16 elements yields the same values. */
  function FibStep<X>(): ((int, int), X) -> ((int, int), int) {
    (t: (int, int), _: X) => ((t.1, t.0 + t.1), t.0 + t.1)
  }

  lemma Fibonacci<X>(src: seq<X>, underestimate: int)
    requires |src| >= 16
    ensures Collect(ToStream(TakeWhile(SequenceMapAccum(src, underestimate, FibStep<X>()), (n: int) => n < 1000), (0, 1)))
            == [1, 2, 3, 5, 8, 13, 21, 34, 55, 89, 144, 233, 377, 610, 987]
  {
    var f := FibStep<X>();
    var st := SequenceMapAccum(src, underestimate, f);
    Fusion.CollectSequenceAccum(src, underestimate, (0, 1), f, (s: (int, int), n: X) => (s, true));
    Fusion.DrainTakeWhile(st, (n: int) => n < 1000, (0, 1), src);
    FibonacciBelow1000(src);
  }

  lemma FibonacciBelow1000<X>(src: seq<X>)
    requires |src| >= 16
    ensures TakeWhileSeq((n: int) => n < 1000, MapAccumL(FibStep<X>(), (0, 1), src).1)
            == [1, 2, 3, 5, 8, 13, 21, 34, 55, 89, 144, 233, 377, 610, 987]
  {
    FibonacciPrefix(src);
    TakeWhileBelow1000(MapAccumL(FibStep<X>(), (0, 1), src).1);
  }

  /** The first sixteen values of the Fibonacci mapAccum. */
  lemma FibonacciPrefix<X>(src: seq<X>)
    requires |src| >= 16
    ensures MapAccumL(FibStep<X>(), (0, 1), src).1[..16] == [1, 2, 3, 5, 8, 13, 21, 34, 55, 89, 144, 233, 377, 610, 987, 1597]
  {
    var f := FibStep<X>();
    MapAccumLPrefix(f, (0, 1), src, 16);
    assert src[..16] == src[..8] + src[8..16];
    MapAccumLAppend(f, (0, 1), src[..8], src[8..16]);
    FibStepRuns(0, 1, src[..8]);
    FirstEight();
    FibStepRuns(21, 34, src[8..16]);
    SecondEight();
    Concat();
  }

  /** 1597 is the first of these at or above 1000. */
  lemma TakeWhileBelow1000(ys: seq<int>)
    requires |ys| >= 16 && ys[..16] == [1, 2, 3, 5, 8, 13, 21, 34, 55, 89, 144, 233, 377, 610, 987, 1597]
    ensures TakeWhileSeq((n: int) => n < 1000, ys) == [1, 2, 3, 5, 8, 13, 21, 34, 55, 89, 144, 233, 377, 610, 987]
  {
    forall i | 0 <= i < 16
      ensures ys[i] == ys[..16][i]
    {
    }
    TakeWhileSeqStopsAt((n: int) => n < 1000, ys, 15);
    assert ys[..15] == ys[..16][..15];
  }

  /** FibStep ignores the elements: mapAccum from (a, b) yields Fibs(a, b, |xs|)
      and ends in FibPair(a, b, |xs|). */
  lemma {:induction false} FibStepRuns<X>(a: int, b: int, xs: seq<X>)
    ensures MapAccumL(FibStep<X>(), (a, b), xs) == (FibPair(a, b, |xs|), Fibs(a, b, |xs|))
    decreases |xs|
  {
    if xs != [] {
      FibStepRuns(b, a + b, xs[1..]);
    }
  }
}
