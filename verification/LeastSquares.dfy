/** Least squares over prices (frontend/crypto/util/OrdinaryLeastSquares.cpp and .h). */
module LeastSquares {
  import opened Common
  import opened RealProducts

  datatype Point = Point(x: real, y: real)

  /** `SimpleRegressionFunction` and `PriceRegressionFunction`: `k * x + c`. */
  datatype Line = Line(k: real, c: real) {
    function At(x: real): real {
      Times(k, x) + c
    }
  }

  datatype PricePoint = PricePoint(ts: int, price: real)

  const MILLISECONDS_IN_DAY := 24.0 * 60.0 * 60.0 * 1000.0

  // ----- sums -----

  function SumX(d: seq<Point>): real {
    if d == [] then 0.0 else SumX(d[..|d| - 1]) + d[|d| - 1].x
  }

  function SumY(d: seq<Point>): real {
    if d == [] then 0.0 else SumY(d[..|d| - 1]) + d[|d| - 1].y
  }

  function SumXY(d: seq<Point>): real {
    if d == [] then 0.0 else SumXY(d[..|d| - 1]) + Times(d[|d| - 1].x, d[|d| - 1].y)
  }

  function SumXX(d: seq<Point>): real {
    if d == [] then 0.0 else SumXX(d[..|d| - 1]) + Times(d[|d| - 1].x, d[|d| - 1].x)
  }

  function Numerator(d: seq<Point>): real {
    Times(|d| as real, SumXY(d)) - Times(SumX(d), SumY(d))
  }

  function Denominator(d: seq<Point>): real {
    Times(|d| as real, SumXX(d)) - Times(SumX(d), SumX(d))
  }

  /** The quotients of `solve`; None stands for a division by zero, whose result is not a number. */
  function LineOf(n: real, numerator: real, denominator: real, sumX: real, sumY: real): Option<Line>
    requires n > 0.0
  {
    if denominator == 0.0 then None
    else
      var k := numerator / denominator;
      Some(Line(k, (sumY - Times(k, sumX)) / n))
  }

  /** `solve`: fewer than two points give the zero line. */
  function Solve(d: seq<Point>): Option<Line> {
    if |d| < 2 then Some(Line(0.0, 0.0))
    else LineOf(|d| as real, Numerator(d), Denominator(d), SumX(d), SumY(d))
  }

  /** The sum of the squared errors of a line. */
  function SquaredError(f: Line, d: seq<Point>): real {
    if d == [] then 0.0
    else
      var p := d[|d| - 1];
      SquaredError(f, d[..|d| - 1]) + Times(p.y - f.At(p.x), p.y - f.At(p.x))
  }

  /** The square of `deviation`. */
  function MeanSquaredError(f: Line, d: seq<Point>): real {
    if |d| < 2 then 0.0 else SquaredError(f, d) / |d| as real
  }

  // ----- the denominator -----

  /** The sum of the squared distances of the abscissae from `m`. */
  function Spread(d: seq<Point>, m: real): real {
    if d == [] then 0.0 else Spread(d[..|d| - 1], m) + Times(d[|d| - 1].x - m, d[|d| - 1].x - m)
  }

  lemma SquareOfDifference(x: real, m: real)
    ensures Times(x - m, x - m) == Times(x, x) - 2.0 * Times(m, x) + Times(m, m)
  {
  }

  lemma {:induction false} SpreadExpands(d: seq<Point>, m: real)
    ensures Spread(d, m) == SumXX(d) - 2.0 * Times(m, SumX(d)) + Times(|d| as real, Times(m, m))
    ensures Spread(d, m) >= 0.0
    ensures Spread(d, m) == 0.0 <==> AllAt(d, m)
  {
    if d == [] {
      assert Times(m, 0.0) == 0.0 && Times(0.0, Times(m, m)) == 0.0;
    } else {
      var n := |d| - 1;
      SpreadExpands(d[..n], m);
      SquareOfDifference(d[n].x, m);
      SquareIsNonNegative(d[n].x - m);
      SquareOfZero(d[n].x - m);
      OneMore(m, SumX(d[..n]), d[n].x, n as real, Times(m, m));
      LastToo(d, m);
    }
  }

  /** All abscissae are `m`. */
  ghost predicate AllAt(d: seq<Point>, m: real) {
    forall i :: 0 <= i < |d| ==> d[i].x == m
  }

  lemma LastToo(d: seq<Point>, m: real)
    requires d != []
    ensures AllAt(d, m) <==> AllAt(d[..|d| - 1], m) && d[|d| - 1].x == m
  {
    if AllAt(d[..|d| - 1], m) && d[|d| - 1].x == m {
      forall i | 0 <= i < |d| ensures d[i].x == m {
        if i < |d| - 1 {
          assert d[..|d| - 1][i] == d[i];
        }
      }
    }
  }

  lemma SquareOfZero(u: real)
    ensures Times(u, u) == 0.0 <==> u == 0.0
  {
    if u > 0.0 {
      TimesLess(0.0, u, u);
    } else if u < 0.0 {
      TimesLess(0.0, -u, -u);
      assert Times(-u, -u) == Times(u, u);
    }
  }

  lemma OneMore(m: real, sum: real, x: real, n: real, square: real)
    ensures Times(m, sum + x) == Times(m, sum) + Times(m, x)
    ensures Times(n + 1.0, square) == Times(n, square) + square
  {
  }

  /** The denominator is `n` times the spread around the mean. */
  lemma DenominatorIsSpread(n: real, sumX: real, sumXX: real, m: real, spread: real)
    requires n > 0.0 && m == sumX / n && spread == sumXX - 2.0 * Times(m, sumX) + Times(n, Times(m, m))
    ensures Times(n, sumXX) - Times(sumX, sumX) == Times(n, spread)
  {
    assert Times(m, n) == sumX;
    NTimes(n, sumXX, m, sumX, spread);
  }

  lemma NTimes(n: real, sumXX: real, m: real, sumX: real, spread: real)
    requires sumX == Times(m, n) && spread == sumXX - 2.0 * Times(m, sumX) + Times(n, Times(m, m))
    ensures Times(n, spread) == Times(n, sumXX) - Times(sumX, sumX)
  {
    assert spread == sumXX - Times(n, Times(m, m)) by {
      TimesSwaps(m, n);
    }
    TimesOfDifference(n, sumXX, Times(n, Times(m, m)));
    TimesSquares(m, n);
  }

  lemma TimesSwaps(m: real, n: real)
    ensures Times(m, Times(m, n)) == Times(n, Times(m, m))
  {
  }

  lemma TimesOfDifference(n: real, a: real, b: real)
    ensures Times(n, a - b) == Times(n, a) - Times(n, b)
  {
  }

  lemma TimesSquares(m: real, n: real)
    ensures Times(n, Times(n, Times(m, m))) == Times(Times(m, n), Times(m, n))
  {
  }

  lemma SignOfProduct(n: real, s: real)
    requires n > 0.0 && s >= 0.0
    ensures Times(n, s) >= 0.0 && (Times(n, s) > 0.0 <==> s > 0.0)
  {
  }

  /** The denominator is never negative, and positive exactly when two abscissae differ. */
  lemma DenominatorIsPositiveExactly(d: seq<Point>)
    ensures Denominator(d) >= 0.0
    ensures Denominator(d) > 0.0 <==> exists i, j :: 0 <= i < j < |d| && d[i].x != d[j].x
  {
    if d == [] {
      assert Times(0.0, 0.0) == 0.0;
    } else {
      var n := |d| as real;
      var m := SumX(d) / n;
      SpreadExpands(d, m);
      DenominatorIsSpread(n, SumX(d), SumXX(d), m, Spread(d, m));
      SignOfProduct(n, Spread(d, m));
      if AllAt(d, d[0].x) {
        SpreadExpands(d, d[0].x);
        DenominatorIsSpreadAt(d, d[0].x);
      }
    }
  }

  lemma DenominatorIsSpreadAt(d: seq<Point>, m: real)
    requires d != [] && AllAt(d, m)
    ensures SumX(d) / |d| as real == m
  {
    SumOfEqual(d, m);
    TimesThenDivide(m, |d| as real);
  }

  lemma {:induction false} SumOfEqual(d: seq<Point>, m: real)
    requires AllAt(d, m)
    ensures SumX(d) == Times(m, |d| as real)
  {
    if d == [] {
      assert Times(m, 0.0) == 0.0;
    } else {
      SumOfEqual(d[..|d| - 1], m);
      OneMore(m, |d| as real - 1.0, 1.0, 0.0, 0.0);
      assert Times(m, 1.0) == m;
    }
  }

  // ----- the normal equations -----

  /** The sum of the errors, and of the errors weighted by the abscissae. */
  function Errors(f: Line, d: seq<Point>): real {
    if d == [] then 0.0 else Errors(f, d[..|d| - 1]) + (d[|d| - 1].y - f.At(d[|d| - 1].x))
  }

  function WeightedErrors(f: Line, d: seq<Point>): real {
    if d == [] then 0.0
    else WeightedErrors(f, d[..|d| - 1]) + Times(d[|d| - 1].x, d[|d| - 1].y - f.At(d[|d| - 1].x))
  }

  lemma {:induction false} ErrorsExpand(f: Line, d: seq<Point>)
    ensures Errors(f, d) == SumY(d) - Times(f.k, SumX(d)) - Times(|d| as real, f.c)
    ensures WeightedErrors(f, d) == SumXY(d) - Times(f.k, SumXX(d)) - Times(f.c, SumX(d))
  {
    if d == [] {
      assert Times(f.k, 0.0) == 0.0 && Times(0.0, f.c) == 0.0 && Times(f.c, 0.0) == 0.0;
    } else {
      var n := |d| - 1;
      var p := d[n];
      ErrorsExpand(f, d[..n]);
      OneMore(f.k, SumX(d[..n]), p.x, n as real, f.c);
      OneMore(f.k, SumXX(d[..n]), Times(p.x, p.x), 0.0, 0.0);
      OneMore(f.c, SumX(d[..n]), p.x, 0.0, 0.0);
      WeightedError(f, p);
    }
  }

  lemma WeightedError(f: Line, p: Point)
    ensures Times(p.x, p.y - f.At(p.x)) == Times(p.x, p.y) - Times(f.k, Times(p.x, p.x)) - Times(f.c, p.x)
  {
  }

  /** The solution satisfies both normal equations. */
  lemma SolutionIsNormal(n: real, sx: real, sy: real, sxy: real, sxx: real, f: Line)
    requires n > 0.0
    requires LineOf(n, Times(n, sxy) - Times(sx, sy), Times(n, sxx) - Times(sx, sx), sx, sy) == Some(f)
    ensures sy - Times(f.k, sx) - Times(n, f.c) == 0.0
    ensures sxy - Times(f.k, sxx) - Times(f.c, sx) == 0.0
  {
    var num, den := Times(n, sxy) - Times(sx, sy), Times(n, sxx) - Times(sx, sx);
    QuotientTimes(num, den);
    QuotientTimes(sy - Times(f.k, sx), n);
    TimesCommutes(f.c, n);
    SecondEquation(n, sx, sy, sxy, sxx, f.k, f.c);
  }

  lemma QuotientTimes(a: real, b: real)
    requires b != 0.0
    ensures Times(a / b, b) == a
  {
  }

  lemma SecondEquation(n: real, sx: real, sy: real, sxy: real, sxx: real, k: real, c: real)
    requires n > 0.0
    requires Times(k, Times(n, sxx) - Times(sx, sx)) == Times(n, sxy) - Times(sx, sy)
    requires Times(n, c) == sy - Times(k, sx)
    ensures sxy - Times(k, sxx) - Times(c, sx) == 0.0
  {
    ThreeProducts(n, sx, sxx, k, c, sy);
    TimesOfDifference(n, sxy, Times(k, sxx));
    TimesOfDifference(n, sxy - Times(k, sxx), Times(c, sx));
    ZeroFactor(n, sxy - Times(k, sxx) - Times(c, sx));
  }

  lemma ThreeProducts(n: real, sx: real, sxx: real, k: real, c: real, sy: real)
    requires Times(n, c) == sy - Times(k, sx)
    ensures Times(k, Times(n, sxx) - Times(sx, sx)) == Times(n, Times(k, sxx)) - Times(k, Times(sx, sx))
    ensures Times(n, Times(c, sx)) == Times(sx, sy) - Times(k, Times(sx, sx))
  {
    Regroup(n, c, sx);
    TimesOfDifference(sx, sy, Times(k, sx));
    TimesOfDifference(k, Times(n, sxx), Times(sx, sx));
    Regroup(k, n, sxx);
    Regroup(n, k, sxx);
    TimesCommutes(k, n);
    Regroup(sx, k, sx);
    Regroup(k, sx, sx);
    TimesCommutes(sx, k);
    TimesCommutes(Times(n, c), sx);
  }

  lemma Regroup(a: real, b: real, c: real)
    ensures Times(a, Times(b, c)) == Times(Times(a, b), c)
  {
  }

  lemma ZeroFactor(n: real, u: real)
    requires n > 0.0 && Times(n, u) == 0.0
    ensures u == 0.0
  {
  }

  // ----- optimality -----

  /** The sum of the squares of a line's values. */
  function SquaredValues(g: Line, d: seq<Point>): real {
    if d == [] then 0.0
    else SquaredValues(g, d[..|d| - 1]) + Times(g.At(d[|d| - 1].x), g.At(d[|d| - 1].x))
  }

  /** The error of another line: that of `f`, the squares of the difference, and a mixed term. */
  lemma {:induction false} ErrorSplits(f: Line, g: Line, d: seq<Point>)
    ensures var h := Line(f.k - g.k, f.c - g.c);
      SquaredError(g, d) == SquaredError(f, d) + SquaredValues(h, d)
                            + 2.0 * (Times(h.k, WeightedErrors(f, d)) + Times(h.c, Errors(f, d)))
    ensures SquaredValues(Line(f.k - g.k, f.c - g.c), d) >= 0.0
  {
    var h := Line(f.k - g.k, f.c - g.c);
    if d == [] {
      assert Times(h.k, 0.0) == 0.0 && Times(h.c, 0.0) == 0.0;
    } else {
      var n := |d| - 1;
      var p := d[n];
      var r := p.y - f.At(p.x);
      ErrorSplits(f, g, d[..n]);
      LineDifference(f, g, p.x);
      SquareOfSum(r, h.At(p.x));
      MixedTerm(h, p.x, r);
      OneMore(h.k, WeightedErrors(f, d[..n]), Times(p.x, r), 0.0, 0.0);
      OneMore(h.c, Errors(f, d[..n]), r, 0.0, 0.0);
      SquareIsNonNegative(h.At(p.x));
    }
  }

  lemma LineDifference(f: Line, g: Line, x: real)
    ensures f.At(x) - g.At(x) == Line(f.k - g.k, f.c - g.c).At(x)
  {
  }

  lemma SquareOfSum(r: real, e: real)
    ensures Times(r + e, r + e) == Times(r, r) + 2.0 * Times(r, e) + Times(e, e)
  {
  }

  lemma MixedTerm(h: Line, x: real, r: real)
    ensures Times(r, h.At(x)) == Times(h.k, Times(x, r)) + Times(h.c, r)
  {
  }

  /** No line has a smaller squared error than the solution, if there is one. */
  lemma SolutionIsOptimal(d: seq<Point>, g: Line)
    requires |d| >= 2 && Solve(d).Some?
    ensures SquaredError(Solve(d).value, d) <= SquaredError(g, d)
  {
    var f := Solve(d).value;
    SolutionIsNormal(|d| as real, SumX(d), SumY(d), SumXY(d), SumXX(d), f);
    ErrorsExpand(f, d);
    ErrorSplits(f, g, d);
    assert Times(f.k - g.k, 0.0) == 0.0 && Times(f.c - g.c, 0.0) == 0.0;
  }

  /** The mean squared error is the mean of the squared errors, and of all lines the solution has the least. */
  lemma SolutionHasLeastMeanError(d: seq<Point>, g: Line)
    requires |d| >= 2
    ensures Times(MeanSquaredError(g, d), |d| as real) == SquaredError(g, d)
    ensures MeanSquaredError(g, d) >= 0.0
    ensures Solve(d).Some? ==> MeanSquaredError(Solve(d).value, d) <= MeanSquaredError(g, d)
  {
    var n := |d| as real;
    QuotientTimes(SquaredError(g, d), n);
    ErrorIsNonNegative(g, d);
    assert Times(0.0, n) == 0.0;
    if MeanSquaredError(g, d) < 0.0 {
      TimesLess(MeanSquaredError(g, d), 0.0, n);
    }
    if Solve(d).Some? {
      var f := Solve(d).value;
      SolutionIsOptimal(d, g);
      QuotientTimes(SquaredError(f, d), n);
      if MeanSquaredError(g, d) < MeanSquaredError(f, d) {
        TimesLess(MeanSquaredError(g, d), MeanSquaredError(f, d), n);
      }
    }
  }

  /** Zero exactly if the line goes through every point. */
  lemma {:induction false} ErrorIsNonNegative(f: Line, d: seq<Point>)
    ensures SquaredError(f, d) >= 0.0
    ensures SquaredError(f, d) == 0.0 <==> forall i :: 0 <= i < |d| ==> f.At(d[i].x) == d[i].y
  {
    if d != [] {
      var n := |d| - 1;
      ErrorIsNonNegative(f, d[..n]);
      SquareIsNonNegative(d[n].y - f.At(d[n].x));
      SquareOfZero(d[n].y - f.At(d[n].x));
      assert forall i :: 0 <= i < n ==> d[..n][i] == d[i];
    }
  }

  // ----- prices -----

  function Days(ms: int): real {
    ms as real / MILLISECONDS_IN_DAY
  }

  /** `from_prices`: the time axis in days from the first price. */
  function FromPrices(prices: seq<PricePoint>): (d: seq<Point>)
    requires prices != []
    ensures |d| == |prices|
    ensures forall i :: 0 <= i < |d| ==> d[i] == Point(Days(prices[i].ts - prices[0].ts), prices[i].price)
  {
    seq(|prices|, i requires 0 <= i < |prices| => Point(Days(prices[i].ts - prices[0].ts), prices[i].price))
  }

  /** The constructor of `PriceRegressionFunction` from a line over days. */
  function Rescaled(f: Line, zeroTs: int): Line {
    Line(f.k / MILLISECONDS_IN_DAY, f.c - Times(f.k, zeroTs as real) / MILLISECONDS_IN_DAY)
  }

  /** `solve_prices`, without the deviation. */
  function SolvePrices(prices: seq<PricePoint>): Option<Line>
    requires prices != []
  {
    match Solve(FromPrices(prices))
    case None => None
    case Some(f) => Some(Rescaled(f, prices[0].ts))
  }

  function SquaredPriceError(f: Line, prices: seq<PricePoint>): real {
    if prices == [] then 0.0
    else
      var p := prices[|prices| - 1];
      SquaredPriceError(f, prices[..|prices| - 1]) + Times(p.price - f.At(p.ts as real), p.price - f.At(p.ts as real))
  }

  /** A line over timestamps, seen over days from `zeroTs`. */
  function InDays(g: Line, zeroTs: int): Line {
    Line(Times(g.k, MILLISECONDS_IN_DAY), g.c + Times(g.k, zeroTs as real))
  }

  lemma RescaledAgrees(f: Line, zeroTs: int, ts: int)
    ensures Rescaled(f, zeroTs).At(ts as real) == f.At(Days(ts - zeroTs))
  {
  }

  lemma InDaysAgrees(g: Line, zeroTs: int, ts: int)
    ensures g.At(ts as real) == InDays(g, zeroTs).At(Days(ts - zeroTs))
  {
  }

  /** Lines that agree at every point have the same error. */
  lemma {:induction false} SameErrors(f: Line, g: Line, d: seq<Point>, prices: seq<PricePoint>)
    requires |d| == |prices|
    requires forall i :: 0 <= i < |d| ==> d[i].y == prices[i].price && f.At(d[i].x) == g.At(prices[i].ts as real)
    ensures SquaredError(f, d) == SquaredPriceError(g, prices)
  {
    if d != [] {
      SameErrors(f, g, d[..|d| - 1], prices[..|d| - 1]);
    }
  }

  lemma DistinctTimesDistinctDays(prices: seq<PricePoint>, i: nat, j: nat)
    requires i < j < |prices| && prices[i].ts != prices[j].ts
    ensures FromPrices(prices)[i].x != FromPrices(prices)[j].x
  {
  }

  /**
   * For every price series with two distinct timestamps the denominator is positive, and the line over
   * timestamps has no larger squared error than any other line over timestamps.
   */
  lemma PriceLineIsOptimal(prices: seq<PricePoint>, i: nat, j: nat, g: Line)
    requires i < j < |prices| && prices[i].ts != prices[j].ts
    ensures Denominator(FromPrices(prices)) > 0.0
    ensures SolvePrices(prices).Some?
    ensures SquaredPriceError(SolvePrices(prices).value, prices) <= SquaredPriceError(g, prices)
  {
    var d := FromPrices(prices);
    var zeroTs := prices[0].ts;
    DistinctTimesDistinctDays(prices, i, j);
    DenominatorIsPositiveExactly(d);
    var f := Solve(d).value;
    SolutionIsOptimal(d, InDays(g, zeroTs));
    forall n | 0 <= n < |d|
      ensures f.At(d[n].x) == Rescaled(f, zeroTs).At(prices[n].ts as real)
      ensures InDays(g, zeroTs).At(d[n].x) == g.At(prices[n].ts as real)
    {
      RescaledAgrees(f, zeroTs, prices[n].ts);
      InDaysAgrees(g, zeroTs, prices[n].ts);
    }
    SameErrors(f, Rescaled(f, zeroTs), d, prices);
    SameErrors(InDays(g, zeroTs), g, d, prices);
  }

  // ----- the loops -----

  method SolveLoop(d: seq<Point>) returns (f: Option<Line>)
    ensures f == Solve(d)
  {
    var n := |d|;
    if n < 2 {
      return Some(Line(0.0, 0.0));
    }
    var sumX, sumY, sumXY, sumXX := 0.0, 0.0, 0.0, 0.0;
    var i := 0;
    while i < n
      invariant 0 <= i <= n
      invariant sumX == SumX(d[..i]) && sumY == SumY(d[..i]) && sumXY == SumXY(d[..i]) && sumXX == SumXX(d[..i])
    {
      assert d[..i + 1][..i] == d[..i];
      sumX := sumX + d[i].x;
      sumY := sumY + d[i].y;
      sumXY := sumXY + Times(d[i].x, d[i].y);
      sumXX := sumXX + Times(d[i].x, d[i].x);
      i := i + 1;
    }
    assert d[..n] == d;
    var denominator := Times(n as real, sumXX) - Times(sumX, sumX);
    if denominator == 0.0 {
      return None;
    }
    var k := (Times(n as real, sumXY) - Times(sumX, sumY)) / denominator;
    return Some(Line(k, (sumY - Times(k, sumX)) / n as real));
  }

  method DeviationLoop(f: Line, d: seq<Point>) returns (squared: real)
    ensures squared == MeanSquaredError(f, d)
  {
    if |d| < 2 {
      return 0.0;
    }
    var dev := 0.0;
    for i := 0 to |d|
      invariant dev == SquaredError(f, d[..i])
    {
      assert d[..i + 1][..i] == d[..i];
      var err := d[i].y - f.At(d[i].x);
      dev := dev + Times(err, err);
    }
    assert d[..|d|] == d;
    return dev / |d| as real;
  }

  method FromPricesLoop(prices: seq<PricePoint>) returns (d: seq<Point>)
    requires prices != []
    ensures d == FromPrices(prices)
  {
    d := [];
    var firstTs := prices[0].ts;
    for i := 0 to |prices|
      invariant d == FromPrices(prices)[..i]
    {
      d := d + [Point(Days(prices[i].ts - firstTs), prices[i].price)];
    }
  }
}
