/** Grid arithmetic (frontend/crypto/strategy/GridLevels.cpp and DynamicGridStrategy.cpp). */
module GridLevels {
  import opened Common
  import opened RealProducts

  /** The distance from the trend in level widths. */
  function Widths(price: real, trend: real, width: real): real
    requires width != 0.0
  {
    (price - trend) / width
  }

  /** `get_level_number`: truncation toward zero. */
  function LevelNumber(price: real, trend: real, width: real): int
    requires width != 0.0
  {
    var d := Widths(price, trend, width);
    if d > 0.0 then d.Floor else -((-d).Floor)
  }

  /** `get_price_from_level_number`. */
  function LevelPrice(level: int, trend: real, width: real): real {
    trend + Times(level as real, width)
  }

  /** `get_one_level_width`. */
  function LevelWidth(radiusPercent: real, levelsPerSide: nat, reference: real): real
    requires levelsPerSide > 0
  {
    radiusPercent * 0.01 * reference / levelsPerSide as real
  }

  datatype Bracket = Bracket(takeProfit: real, stopLoss: real)

  /** `calc_tp_sl_prices` for a filled order on `side`. */
  function BracketPrices(price: real, side: Side, trend: real, width: real, levelsPerSide: nat): Bracket
    requires width != 0.0
  {
    Bracket(LevelPrice(LevelNumber(price, trend, width) + side.Sign(), trend, width),
            Times(((levelsPerSide + 1) * -side.Sign()) as real, width) + price)
  }

  lemma WidthIsPositive(radiusPercent: real, levelsPerSide: nat, reference: real)
    requires levelsPerSide > 0 && radiusPercent > 0.0 && reference > 0.0
    ensures LevelWidth(radiusPercent, levelsPerSide, reference) > 0.0
  {
  }

  lemma WidthsOfPrice(price: real, trend: real, width: real)
    requires width != 0.0
    ensures price == trend + Times(Widths(price, trend, width), width)
  {
  }

  /** Truncation moves a level number toward zero by less than one. */
  lemma LevelNumberTruncates(price: real, trend: real, width: real)
    requires width != 0.0
    ensures var d := Widths(price, trend, width);
      && (d > 0.0 ==> 0.0 <= d - LevelNumber(price, trend, width) as real < 1.0)
      && (d <= 0.0 ==> 0.0 <= LevelNumber(price, trend, width) as real - d < 1.0)
  {
  }

  /**
   * Although truncation rounds toward the trend, the take profit lies strictly on the profit side
   * of the fill price and the stop loss strictly on its loss side.
   */
  lemma BracketIsStrict(price: real, side: Side, trend: real, width: real, levelsPerSide: nat)
    requires width > 0.0
    ensures var b := BracketPrices(price, side, trend, width, levelsPerSide);
      if side.Buy? then b.stopLoss < price < b.takeProfit else b.takeProfit < price < b.stopLoss
  {
    var n := LevelNumber(price, trend, width);
    var d := Widths(price, trend, width);
    LevelNumberTruncates(price, trend, width);
    WidthsOfPrice(price, trend, width);
    var top := levelsPerSide + 1;
    if side.Buy? {
      TimesLess(d, (n + 1) as real, width);
      TimesLess((top * -1) as real, 0.0, width);
    } else {
      TimesLess((n - 1) as real, d, width);
      TimesLess(0.0, (top * 1) as real, width);
    }
  }

  /**
   * The level `n` holds the price: it lies at least |n| and less than |n| + 1 widths from the trend, on n's side.
   */
  predicate HoldsPrice(n: int, price: real, trend: real, width: real) {
    if n > 0 then LevelPrice(n, trend, width) <= price < LevelPrice(n + 1, trend, width)
    else LevelPrice(n - 1, trend, width) < price <= LevelPrice(n, trend, width)
  }

  /** Apart from level zero, which reaches to both sides of the trend, the level number is the level of the price. */
  lemma LevelNumberExactly(n: int, price: real, trend: real, width: real)
    requires width > 0.0 && n != 0
    ensures LevelNumber(price, trend, width) == n <==> HoldsPrice(n, price, trend, width)
  {
    var d := Widths(price, trend, width);
    WidthsOfPrice(price, trend, width);
    OrderOfWidths(n as real, d, width);
    OrderOfWidths((n + 1) as real, d, width);
    OrderOfWidths((n - 1) as real, d, width);
    OrderOfWidths(0.0, d, width);
  }

  lemma OrderOfWidths(n: real, d: real, width: real)
    requires width > 0.0
    ensures n <= d <==> Times(n, width) <= Times(d, width)
    ensures n < d <==> Times(n, width) < Times(d, width)
  {
    if n < d {
      TimesLess(n, d, width);
    } else if d < n {
      TimesLess(d, n, width);
    }
  }

  /** The grid reaches from the trend to the radius, on both sides. */
  lemma GridSpansRadius(radiusPercent: real, levelsPerSide: int, trend: real)
    requires levelsPerSide > 0
    ensures var width := LevelWidth(radiusPercent, levelsPerSide, trend);
      && LevelPrice(levelsPerSide, trend, width) == trend + radiusPercent * 0.01 * trend
      && LevelPrice(-levelsPerSide, trend, width) == trend - radiusPercent * 0.01 * trend
  {
    var k := levelsPerSide as real;
    var width := LevelWidth(radiusPercent, levelsPerSide, trend);
    assert Times(k, width) == radiusPercent * 0.01 * trend;
    TimesDistributes(0.0, k, width);
    assert Times(0.0, width) == 0.0 && (-levelsPerSide) as real == 0.0 - k;
  }

  /** What a price gains on the way from a fill on `side`. */
  function Gain(fill: real, side: Side, price: real): real {
    Signed(price - fill, side)
  }

  /** A fill that the grid expects on `side`: a buy not above the trend, or a sell not below it. */
  predicate AgainstTrend(fill: real, side: Side, trend: real) {
    Gain(trend, side, fill) <= 0.0
  }

  /**
   * The bracket of a fill: the take profit is the level's price that gains at least one width and less than two
   * if the fill lies on its side of the trend, and at most one width if not; the stop loss loses the whole
   * number of levels of a side, and one more.
   */
  ghost predicate AtLevels(b: Bracket, fill: real, side: Side, trend: real, width: real, levelsPerSide: nat) {
    && (exists m :: b.takeProfit == LevelPrice(m, trend, width))
    && (if AgainstTrend(fill, side, trend) then width <= Gain(fill, side, b.takeProfit) < 2.0 * width
        else 0.0 < Gain(fill, side, b.takeProfit) <= width)
    && Gain(fill, side, b.stopLoss) == -Times((levelsPerSide + 1) as real, width)
  }

  lemma BracketIsAtLevels(fill: real, side: Side, trend: real, width: real, levelsPerSide: nat)
    requires width > 0.0
    ensures AtLevels(BracketPrices(fill, side, trend, width, levelsPerSide), fill, side, trend, width, levelsPerSide)
  {
    var b := BracketPrices(fill, side, trend, width, levelsPerSide);
    var n := LevelNumber(fill, trend, width);
    var m := n + side.Sign();
    var d := Widths(fill, trend, width);
    var top := (levelsPerSide + 1) as real;
    WidthsOfPrice(fill, trend, width);
    assert b.takeProfit == LevelPrice(m, trend, width);
    OrderOfWidths(d, 0.0, width);
    OrderOfWidths(0.0, d, width);
    assert Times(0.0, width) == 0.0 && Times(1.0, width) == width && Times(2.0, width) == 2.0 * width;
    OneSideUp(m as real, d, width);
    OneSideUp(d, m as real, width);
    TimesDistributes(0.0, top, width);
  }

  /** How far one price lies above another, in widths. */
  lemma OneSideUp(u: real, d: real, width: real)
    requires width > 0.0
    ensures Times(u, width) - Times(d, width) == Times(u - d, width)
    ensures u - d >= 1.0 <==> Times(u - d, width) >= Times(1.0, width)
    ensures u - d > 1.0 <==> Times(u - d, width) > Times(1.0, width)
    ensures u - d < 2.0 <==> Times(u - d, width) < Times(2.0, width)
    ensures u - d > 0.0 <==> Times(u - d, width) > Times(0.0, width)
  {
    TimesDistributes(u, d, width);
    OrderOfWidths(1.0, u - d, width);
    OrderOfWidths(u - d, 2.0, width);
    OrderOfWidths(0.0, u - d, width);
  }

  /** The only prices at levels are those of the bracket. */
  lemma AtLevelsExactly(b: Bracket, fill: real, side: Side, trend: real, width: real, levelsPerSide: nat)
    requires width > 0.0
    ensures AtLevels(b, fill, side, trend, width, levelsPerSide) <==>
      b == BracketPrices(fill, side, trend, width, levelsPerSide)
  {
    var c := BracketPrices(fill, side, trend, width, levelsPerSide);
    BracketIsAtLevels(fill, side, trend, width, levelsPerSide);
    if AtLevels(b, fill, side, trend, width, levelsPerSide) {
      var m :| b.takeProfit == LevelPrice(m, trend, width);
      var k :| c.takeProfit == LevelPrice(k, trend, width);
      assert Times(1.0, width) == width;
      LevelsApart(m, k, width);
      LevelsApart(k, m, width);
    }
  }

  lemma LevelsApart(m: int, k: int, width: real)
    requires width > 0.0
    ensures m < k ==> Times(k as real, width) - Times(m as real, width) >= Times(1.0, width)
  {
    if m < k {
      TimesDistributes(k as real, m as real, width);
      TimesLeq(1.0, (k - m) as real, width);
    }
  }

  /**
   * The stop loss lies beyond the outermost level of its side exactly if the fill is less than one width past
   * the trend; so it does for every fill on its side of the trend.
   */
  lemma StopLossBeyondGrid(fill: real, side: Side, trend: real, width: real, levelsPerSide: nat)
    requires width > 0.0
    ensures var b := BracketPrices(fill, side, trend, width, levelsPerSide);
      var outermost := LevelPrice((levelsPerSide as int) * -side.Sign(), trend, width);
      && (Gain(outermost, side, b.stopLoss) < 0.0 <==> Gain(trend, side, fill) < width)
      && (AgainstTrend(fill, side, trend) ==> Gain(outermost, side, b.stopLoss) < 0.0)
  {
    var l := levelsPerSide as real;
    TimesDistributes(l, 1.0, width);
    TimesDistributes(0.0, l, width);
    TimesDistributes(0.0, l + 1.0, width);
    assert Times(1.0, width) == width && Times(0.0, width) == 0.0;
    assert ((levelsPerSide + 1) * -side.Sign()) as real == (if side.Buy? then 0.0 - (l + 1.0) else l + 1.0);
    assert ((levelsPerSide as int) * -side.Sign()) as real == (if side.Buy? then 0.0 - l else l);
  }

  /** Level to price to level is the identity. */
  lemma LevelOfLevelPrice(level: int, trend: real, width: real)
    requires width != 0.0
    ensures LevelNumber(LevelPrice(level, trend, width), trend, width) == level
  {
    TimesThenDivide(level as real, width);
    assert Widths(LevelPrice(level, trend, width), trend, width) == level as real;
  }
}
