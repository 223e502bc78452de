/** The sliding standard deviation (frontend/crypto/ta/StandardDeviation.cpp); the square root is left out. */
module StandardDeviation {
  import opened Common
  import opened RealProducts
  import opened Samples

  /** The fields of the class, as a value. */
  datatype Deviation = Deviation(interval: int, values: seq<Sample>, sum: real, sqSum: real)

  datatype Pushed = Pushed(state: Deviation, variance: Option<real>)

  function Square(x: real): real {
    Times(x, x)
  }

  function SumOf(values: seq<Sample>): real {
    if values == [] then 0.0 else values[0].value + SumOf(values[1..])
  }

  function SquaresOf(values: seq<Sample>): real {
    if values == [] then 0.0 else Square(values[0].value) + SquaresOf(values[1..])
  }

  /** What the pruning loop leaves. */
  function Prune(values: seq<Sample>, cutoff: int): (r: seq<Sample>)
    ensures |r| <= |values|
  {
    if values != [] && values[0].ts < cutoff then Prune(values[1..], cutoff) else values
  }

  /** `n` values with these sums: the mean of the squares less the square of the mean, clamped at zero. */
  function Variance(n: nat, sum: real, sqSum: real): real
    requires n > 0
  {
    var v := sqSum / n as real - Square(sum / n as real);
    if v < 0.0 then 0.0 else v
  }

  /** `push_value`, up to the square root of its result. */
  function Push(d: Deviation, s: Sample): Pushed {
    var values := Prune(d.values + [s], s.ts - d.interval);
    var dropped := (d.values + [s])[..|d.values| + 1 - |values|];
    var state := Deviation(d.interval, values, d.sum + s.value - SumOf(dropped),
        d.sqSum + Square(s.value) - SquaresOf(dropped));
    Pushed(state, if |values| < 2 then None else Some(Variance(|values|, state.sum, state.sqSum)))
  }

  lemma {:induction false} PruneIsSuffix(values: seq<Sample>, cutoff: int)
    ensures var p := Prune(values, cutoff); |p| <= |values| && p == values[|values| - |p|..]
  {
    if values != [] && values[0].ts < cutoff {
      PruneIsSuffix(values[1..], cutoff);
    }
  }

  lemma {:induction false} SumsAdd(a: seq<Sample>, b: seq<Sample>)
    ensures SumOf(a + b) == SumOf(a) + SumOf(b)
    ensures SquaresOf(a + b) == SquaresOf(a) + SquaresOf(b)
  {
    if a == [] {
      assert a + b == b;
    } else {
      assert (a + b)[1..] == a[1..] + b;
      SumsAdd(a[1..], b);
    }
  }

  lemma SumsOfOne(s: Sample)
    ensures SumOf([s]) == s.value && SquaresOf([s]) == Square(s.value)
  {
    assert [s][1..] == [];
  }

  // ----- the window -----

  /** The part of the history inside the interval. */
  function Recent(history: seq<Sample>, cutoff: int): seq<Sample> {
    if history == [] then []
    else (if history[0].ts >= cutoff then [history[0]] else []) + Recent(history[1..], cutoff)
  }

  lemma {:induction false} AllRecent(history: seq<Sample>, cutoff: int)
    requires forall i :: 0 <= i < |history| ==> history[i].ts >= cutoff
    ensures Recent(history, cutoff) == history
  {
    if history != [] {
      AllRecent(history[1..], cutoff);
    }
  }

  /** In a history in order the pruning loop keeps exactly the recent part. */
  lemma {:induction false} PruneIsRecent(history: seq<Sample>, cutoff: int)
    requires InOrder(history)
    ensures Prune(history, cutoff) == Recent(history, cutoff)
  {
    if history != [] {
      if history[0].ts < cutoff {
        PruneIsRecent(history[1..], cutoff);
      } else {
        AllRecent(history, cutoff);
      }
    }
  }

  /** Pruning twice, with a later cutoff, is pruning once. */
  lemma {:induction false} PruneTwice(history: seq<Sample>, s: Sample, cutoff: int, later: int)
    requires cutoff <= later
    ensures Prune(Prune(history, cutoff) + [s], later) == Prune(history + [s], later)
  {
    if history != [] && history[0].ts < cutoff {
      assert (history + [s])[1..] == history[1..] + [s];
      PruneTwice(history[1..], s, cutoff, later);
    }
  }

  function After(interval: int, history: seq<Sample>): Deviation {
    if history == [] then Deviation(interval, [], 0.0, 0.0)
    else Push(After(interval, history[..|history| - 1]), history[|history| - 1]).state
  }

  /** The window is the history inside the interval, and the running sums are its sums. */
  ghost predicate IsWindow(d: Deviation, history: seq<Sample>) {
    && d.values == (if history == [] then [] else Recent(history, history[|history| - 1].ts - d.interval))
    && d.sum == SumOf(d.values)
    && d.sqSum == SquaresOf(d.values)
  }

  lemma PushKeepsSums(d: Deviation, s: Sample)
    requires d.sum == SumOf(d.values) && d.sqSum == SquaresOf(d.values)
    ensures var d' := Push(d, s).state; d'.sum == SumOf(d'.values) && d'.sqSum == SquaresOf(d'.values)
  {
    var all := d.values + [s];
    var values := Prune(all, s.ts - d.interval);
    PruneIsSuffix(all, s.ts - d.interval);
    var dropped := all[..|all| - |values|];
    assert all == dropped + values;
    SumsAdd(dropped, values);
    SumsAdd(d.values, [s]);
    SumsOfOne(s);
  }

  lemma PushMovesWindow(d: Deviation, history: seq<Sample>, s: Sample)
    requires InOrder(history + [s]) && InOrder(history) && IsWindow(d, history)
    ensures IsWindow(Push(d, s).state, history + [s])
  {
    var later := s.ts - d.interval;
    PushKeepsSums(d, s);
    PruneIsRecent(history + [s], later);
    if history != [] {
      var cutoff := history[|history| - 1].ts - d.interval;
      assert (history + [s])[|history| - 1] == history[|history| - 1] && (history + [s])[|history|] == s;
      PruneIsRecent(history, cutoff);
      PruneTwice(history, s, cutoff, later);
    }
  }

  lemma {:induction false} WindowIsRecentHistory(interval: int, history: seq<Sample>)
    requires InOrder(history)
    ensures IsWindow(After(interval, history), history)
  {
    if history != [] {
      var n := |history| - 1;
      assert history == history[..n] + [history[n]];
      WindowIsRecentHistory(interval, history[..n]);
      PushMovesWindow(After(interval, history[..n]), history[..n], history[n]);
    }
  }

  // ----- the variance -----

  /** The sum of the squared deviations from `m`. */
  function SquaredDeviations(values: seq<Sample>, m: real): real {
    if values == [] then 0.0 else Square(values[0].value - m) + SquaredDeviations(values[1..], m)
  }

  /** The definition: the mean of the squared deviations from the mean. */
  function MeanSquaredDeviation(values: seq<Sample>): real
    requires values != []
  {
    SquaredDeviations(values, SumOf(values) / |values| as real) / |values| as real
  }

  lemma SquareOfDifference(x: real, m: real)
    ensures Square(x - m) == Square(x) - 2.0 * Times(m, x) + Square(m)
  {
  }

  lemma {:induction false} DeviationsExpand(values: seq<Sample>, m: real)
    ensures SquaredDeviations(values, m)
        == SquaresOf(values) - 2.0 * Times(m, SumOf(values)) + Times(|values| as real, Square(m))
    ensures SquaredDeviations(values, m) >= 0.0
  {
    if values == [] {
      assert Times(m, 0.0) == 0.0 && Times(0.0, Square(m)) == 0.0;
    } else {
      var x := values[0].value;
      DeviationsExpand(values[1..], m);
      SquareOfDifference(x, m);
      SquareIsNonNegative(x - m);
      TimesDistributesRight(m, x, SumOf(values[1..]));
      TimesDistributes(1.0, |values[1..]| as real, Square(m));
      assert Times(1.0, Square(m)) == Square(m);
    }
  }

  lemma TimesDistributesRight(m: real, a: real, b: real)
    ensures Times(m, a + b) == Times(m, a) + Times(m, b)
  {
  }

  /** With the mean for `m` the expansion loses its middle term. */
  lemma MeanOfSquaresLessSquareOfMean(n: real, sum: real, sqSum: real)
    requires n > 0.0
    ensures (sqSum - 2.0 * Times(sum / n, sum) + Times(n, Square(sum / n))) / n == sqSum / n - Square(sum / n)
  {
    var m := sum / n;
    assert Times(m, n) == sum;
    MeanTerms(m, n, sum);
    DivideDifference(sqSum, Square(m), n);
  }

  lemma MeanTerms(m: real, n: real, sum: real)
    requires Times(m, n) == sum
    ensures Times(m, sum) == Times(Square(m), n) && Times(n, Square(m)) == Times(Square(m), n)
  {
    ThreeFactors(m, n);
  }

  lemma ThreeFactors(m: real, n: real)
    ensures Times(m, Times(m, n)) == Times(Times(m, m), n)
    ensures Times(n, Times(m, m)) == Times(Times(m, m), n)
  {
  }

  lemma DivideDifference(a: real, b: real, n: real)
    requires n > 0.0
    ensures (a - Times(b, n)) / n == a / n - b
  {
  }

  lemma QuotientIsNonNegative(a: real, n: real)
    requires n > 0.0 && a >= 0.0
    ensures a / n >= 0.0
  {
  }

  lemma PushReturns(d: Deviation, history: seq<Sample>, s: Sample)
    requires IsWindow(Push(d, s).state, history + [s])
    ensures var window := Recent(history + [s], s.ts - d.interval);
      Push(d, s).variance == if |window| < 2 then None else Some(Variance(|window|, SumOf(window), SquaresOf(window)))
  {
    assert (history + [s])[|history|] == s;
  }

  /**
   * For every history in order the returned variance is the mean squared deviation of the values
   * inside the interval, and it is not negative before the clamp.
   */
  lemma VarianceIsExact(interval: int, history: seq<Sample>, s: Sample)
    requires InOrder(history + [s]) && InOrder(history)
    ensures var window := Recent(history + [s], s.ts - interval);
      && Push(After(interval, history), s).variance
         == (if |window| < 2 then None else Some(MeanSquaredDeviation(window)))
      && (window != [] ==> SquaresOf(window) / |window| as real - Square(SumOf(window) / |window| as real) >= 0.0)
  {
    var d := After(interval, history);
    PushedWindow(interval, history, s);
    PushReturns(d, history, s);
    var window := Recent(history + [s], s.ts - interval);
    if window != [] {
      VarianceOfWindow(window);
    }
  }

  lemma PushedWindow(interval: int, history: seq<Sample>, s: Sample)
    requires InOrder(history + [s]) && InOrder(history)
    ensures After(interval, history).interval == interval
    ensures IsWindow(Push(After(interval, history), s).state, history + [s])
  {
    IntervalStays(interval, history);
    WindowIsRecentHistory(interval, history);
    PushMovesWindow(After(interval, history), history, s);
  }

  lemma {:induction false} IntervalStays(interval: int, history: seq<Sample>)
    ensures After(interval, history).interval == interval
  {
    if history != [] {
      IntervalStays(interval, history[..|history| - 1]);
    }
  }

  lemma VarianceOfWindow(window: seq<Sample>)
    requires window != []
    ensures var n := |window| as real;
      var v := SquaresOf(window) / n - Square(SumOf(window) / n);
      v >= 0.0 && v == MeanSquaredDeviation(window)
    ensures Variance(|window|, SumOf(window), SquaresOf(window)) == MeanSquaredDeviation(window)
  {
    var n := |window| as real;
    DeviationsExpand(window, SumOf(window) / n);
    MeanOfSquaresLessSquareOfMean(n, SumOf(window), SquaresOf(window));
    QuotientIsNonNegative(SquaredDeviations(window, SumOf(window) / n), n);
  }

  // ----- the class -----

  class StandardDeviation {
    const interval: int
    var values: seq<Sample>
    var sum: real
    var sqSum: real

    function State(): Deviation
      reads this
    {
      Deviation(interval, values, sum, sqSum)
    }

    constructor (interval: int)
      ensures State() == After(interval, [])
    {
      this.interval, values, sum, sqSum := interval, [], 0.0, 0.0;
    }

    method PushValue(s: Sample) returns (variance: Option<real>)
      modifies this
      ensures State() == Push(old(State()), s).state && variance == Push(old(State()), s).variance
    {
      values := values + [s];
      sum := sum + s.value;
      sqSum := sqSum + Square(s.value);
      ghost var all, sum0, sqSum0 := values, sum, sqSum;
      var cutoff := s.ts - interval;
      ghost var popped := 0;
      while values != [] && values[0].ts < cutoff
        invariant 0 <= popped <= |all| && values == all[popped..]
        invariant Prune(values, cutoff) == Prune(all, cutoff)
        invariant sum == sum0 - SumOf(all[..popped]) && sqSum == sqSum0 - SquaresOf(all[..popped])
      {
        assert all[..popped + 1] == all[..popped] + [values[0]];
        SumsAdd(all[..popped], [values[0]]);
        SumsOfOne(values[0]);
        sum := sum - values[0].value;
        sqSum := sqSum - Square(values[0].value);
        values := values[1..];
        popped := popped + 1;
      }
      if |values| < 2 {
        return None;
      }
      var v := sqSum / |values| as real - Square(sum / |values| as real);
      if v < 0.0 {
        v := 0.0;
      }
      return Some(v);
    }
  }
}
