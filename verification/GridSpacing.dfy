/** Where the brackets of the grid lie: at the next level, and beyond the whole side, seen from the fill. */
module GridSpacing {
  import opened Common
  import opened RealProducts
  import opened Events
  import opened Gateway
  import opened OrderManager
  import opened DynamicGrid
  import opened GridInvariant
  import opened GridClose
  import opened GridPlace
  import opened GridBracket
  import opened GridStep
  import opened GridRun
  import opened GridTheorems
  import GridLevels
  import Candles

  /** The fill of a level and the prices at which its bracket rests. */
  datatype Placing = Placing(fill: real, side: Side, prices: GridLevels.Bracket)

  /** The three orders of the level are known. */
  ghost predicate Complete(s: Sys, l: Level) {
    && l.bracket.Some?
    && l.mo in s.om.orders && l.bracket.value.tp in s.om.conds.tp && l.bracket.value.sl in s.om.conds.sl
  }

  ghost function PlacingOf(s: Sys, l: Level): Placing
    requires Complete(s, l)
  {
    var o := s.om.orders[l.mo].order;
    var b := l.bracket.value;
    Placing(o.price, o.side,
            GridLevels.Bracket(s.om.conds.tp[b.tp].order.req.trigger, s.om.conds.sl[b.sl].order.req.trigger))
  }

  /** The bracket lies at the levels of a grid around this trend. */
  ghost predicate SpacedAround(cfg: Config, p: Placing, trend: real)
    requires cfg.levelsPerSide > 0
  {
    trend > 0.0 && GridLevels.AtLevels(p.prices, p.fill, p.side, trend, Width(cfg, trend), cfg.levelsPerSide)
  }

  ghost predicate LevelsSpaced(cfg: Config, w: World)
    requires cfg.levelsPerSide > 0
  {
    forall n :: n in w.grid.levels && w.grid.levels[n].bracket.Some? ==> LevelSpaced(cfg, w.sys, w.grid.levels[n])
  }

  ghost predicate LevelSpaced(cfg: Config, s: Sys, l: Level)
    requires cfg.levelsPerSide > 0
  {
    Complete(s, l) && exists trend :: SpacedAround(cfg, PlacingOf(s, l), trend)
  }

  /** The stop loss tells the trend at the fill: no two grids have the same. */
  lemma SpacedAroundOne(cfg: Config, p: Placing, a: real, b: real)
    requires ValidConfig(cfg) && SpacedAround(cfg, p, a) && SpacedAround(cfg, p, b)
    ensures a == b
  {
    var top := (cfg.levelsPerSide + 1) as real;
    if a < b {
      WidthGrows(cfg, a, b);
      GridLevels.OrderOfWidths(Width(cfg, a), Width(cfg, b), top);
    } else if b < a {
      WidthGrows(cfg, b, a);
      GridLevels.OrderOfWidths(Width(cfg, b), Width(cfg, a), top);
    }
    TimesCommutes(top, Width(cfg, a));
    TimesCommutes(top, Width(cfg, b));
  }

  lemma WidthGrows(cfg: Config, a: real, b: real)
    requires ValidConfig(cfg) && a < b
    ensures Width(cfg, a) < Width(cfg, b)
  {
  }

  // ----- steps that leave the brackets where they are -----

  /** Every bracket was there before, and its level's orders are as they were. */
  ghost predicate BracketsStay(w: World, w': World) {
    forall n :: n in w'.grid.levels && w'.grid.levels[n].bracket.Some? ==>
      && n in w.grid.levels && w.grid.levels[n] == w'.grid.levels[n]
      && OrdersStay(w.sys, w'.sys, w.grid.levels[n])
  }

  ghost predicate OrdersStay(s: Sys, s': Sys, l: Level) {
    Complete(s, l) ==> Complete(s', l) && PlacingOf(s', l) == PlacingOf(s, l)
  }

  lemma StayingKeepsSpacing(cfg: Config, w: World, w': World)
    requires ValidConfig(cfg) && LevelsSpaced(cfg, w) && BracketsStay(w, w')
    ensures LevelsSpaced(cfg, w')
  {
  }

  /** The market order of a level with a bracket waits for no news. */
  lemma BracketHasFill(cfg: Config, w: World, n: int)
    requires Protocol(cfg, w) && n in w.grid.levels && w.grid.levels[n].bracket.Some?
    ensures var mo := w.grid.levels[n].mo; OmAck(mo) !in w.sys.q && !TradeIn(w.sys.q, mo)
    ensures Complete(w.sys, w.grid.levels[n])
    ensures forall k: Kind :: var g := w.grid.levels[n].bracket.value.Get(k);
      g in w.sys.om.conds.Get(k) && w.sys.om.conds.Get(k)[g].subs == [n]
    ensures w.sys.om.orders[w.grid.levels[n].mo].subs == [n]
  {
    var l := w.grid.levels[n];
    assert LevelOk(cfg, w.sys, w.partner, n, l);
    assert OrderOk(cfg.step, w.sys, w.grid.levels, l.mo);
  }

  lemma PlainStepKeepsBrackets(cfg: Config, w: World)
    requires ValidConfig(cfg) && Good(cfg, w) && w.sys.q != [] && Handles(w, w.sys.q[0])
    requires !w.sys.q[0].MoCallback? && !w.sys.q[0].CondCallback?
    ensures BracketsStay(w, Step(cfg, w))
  {
    var w' := Step(cfg, w);
    PlainStepAddsNoBracket(cfg, w);
    forall n | n in w'.grid.levels && w'.grid.levels[n].bracket.Some?
      ensures OrdersStay(w.sys, w'.sys, w.grid.levels[n])
    {
      BracketHasFill(cfg, w, n);
      PlainStepKeepsBracket(cfg, w, n);
    }
  }

  lemma PlainStepAddsNoBracket(cfg: Config, w: World)
    requires ValidConfig(cfg) && w.sys.q != [] && Handles(w, w.sys.q[0])
    requires !w.sys.q[0].MoCallback? && !w.sys.q[0].CondCallback?
    ensures var levels := Step(cfg, w).grid.levels;
      forall n :: n in levels && levels[n].bracket.Some? ==> n in w.grid.levels && w.grid.levels[n] == levels[n]
  {
  }

  lemma PlainStepKeepsBracket(cfg: Config, w: World, n: int)
    requires ValidConfig(cfg) && w.sys.q != [] && Handles(w, w.sys.q[0])
    requires !w.sys.q[0].MoCallback? && !w.sys.q[0].CondCallback?
    requires n in w.grid.levels && Complete(w.sys, w.grid.levels[n])
    requires var mo := w.grid.levels[n].mo; OmAck(mo) !in w.sys.q && !TradeIn(w.sys.q, mo) && mo != w.sys.next
    requires forall k: Kind :: w.sys.om.conds.Get(k)[w.grid.levels[n].bracket.value.Get(k)].subs == [n]
    ensures OrdersStay(w.sys, Step(cfg, w).sys, w.grid.levels[n])
  {
  }

  // ----- a new bracket -----

  /** The new bracket lies at the levels of the present trend. */
  lemma NewBracketIsSpaced(cfg: Config, w: World, g: Guid)
    requires ValidConfig(cfg) && g in w.sys.om.orders && w.grid.trend > 0.0
    ensures var o := w.sys.om.orders[g].order;
      SpacedAround(cfg, Placing(o.price, o.side, PricesFor(cfg, w, g)), w.grid.trend)
  {
    var o := w.sys.om.orders[g].order;
    GridLevels.WidthIsPositive(cfg.radiusPercent, cfg.levelsPerSide, w.grid.trend);
    GridLevels.BracketIsAtLevels(o.price, o.side, w.grid.trend, Width(cfg, w.grid.trend), cfg.levelsPerSide);
  }

  /** The other levels keep their orders, and level `n` has the new ones. */
  lemma AttachedBrackets(cfg: Config, w: World, v: World, n: int, p: Placing, tp: Request, sl: Request)
    requires ValidConfig(cfg) && Protocol(cfg, w) && LevelsSpaced(cfg, w)
    requires v == w.(sys := v.sys) && v.sys.q != [] && n in w.grid.levels
    requires w.grid.levels[n].mo in w.sys.om.orders && w.grid.levels[n].bracket.None?
    requires v.sys.om == w.sys.om.(conds := Both(
      w.sys.om.conds.tp[w.sys.next := PlacedEntry(tp)], w.sys.om.conds.sl[w.sys.next + 1 := PlacedEntry(sl)]))
    requires var o := w.sys.om.orders[w.grid.levels[n].mo].order;
      p == Placing(o.price, o.side, GridLevels.Bracket(tp.trigger, sl.trigger))
    requires exists trend :: SpacedAround(cfg, p, trend)
    ensures LevelsSpaced(cfg, Attached(v, n, NewBracket(w)))
  {
    var w' := Attached(v, n, NewBracket(w));
    forall m | m in w'.grid.levels && w'.grid.levels[m].bracket.Some?
      ensures LevelSpaced(cfg, w'.sys, w'.grid.levels[m])
    {
      if m == n {
        assert PlacingOf(w'.sys, w'.grid.levels[n]) == p;
      } else {
        BracketHasFill(cfg, w, m);
        NextTwoAreFresh(cfg, w);
        assert LevelSpaced(cfg, w.sys, w.grid.levels[m]);
        assert PlacingOf(w'.sys, w.grid.levels[m]) == PlacingOf(w.sys, w.grid.levels[m]);
      }
    }
  }

  lemma BracketKeepsSpacing(cfg: Config, w: World, g: Guid, n: int)
    requires ValidConfig(cfg) && Good(cfg, w) && LevelsSpaced(cfg, w)
    requires w.sys.q != [] && w.sys.q[0] == MoCallback(g, n) && w.grid.trend > 0.0
    ensures LevelsSpaced(cfg, Step(cfg, w))
  {
    FilledOrderAttaches(cfg, w, g, n);
    FilledOrder(cfg, w, g, n);
    var o := w.sys.om.orders[g].order;
    var prices, volume := PricesFor(cfg, w, g), ClosingVolume(o);
    BothPlacedHolds(cfg, w, prices, volume, o.ts);
    NewBracketIsSpaced(cfg, w, g);
    assert SpacedAround(cfg, Placing(o.price, o.side, prices), w.grid.trend);
    AttachedBrackets(cfg, w, BothPlaced(cfg, w, prices, volume, o.ts), n, Placing(o.price, o.side, prices),
                     TpRequest(w, prices, volume), SlRequest(w, prices, volume));
  }

  // ----- a bracket that dissolves -----

  lemma ClosedKeepsBrackets(cfg: Config, w: World, k: Kind, n: int)
    requires Protocol(cfg, w) && w.sys.q != [] && n in w.grid.levels && w.grid.levels[n].bracket.Some?
    requires var b := w.grid.levels[n].bracket.value;
      IndexOf(w.sys.gw.lists.Get(k.Other()), b.Get(k.Other())) < |w.sys.gw.lists.Get(k.Other())|
    ensures BracketsStay(w, Closed(w, k, n))
  {
    var w' := Closed(w, k, n);
    BracketHasFill(cfg, w, n);
    forall m | m in w'.grid.levels && w'.grid.levels[m].bracket.Some?
      ensures OrdersStay(w.sys, w'.sys, w.grid.levels[m])
    {
      BracketHasFill(cfg, w, m);
      ClosedKeepsBracket(w, k, n, m);
    }
  }

  lemma ClosedKeepsBracket(w: World, k: Kind, n: int, m: int)
    requires w.sys.q != [] && n in w.grid.levels && m in w.grid.levels && m != n
    requires Complete(w.sys, w.grid.levels[n]) && Complete(w.sys, w.grid.levels[m])
    requires var b := w.grid.levels[n].bracket.value;
      IndexOf(w.sys.gw.lists.Get(k.Other()), b.Get(k.Other())) < |w.sys.gw.lists.Get(k.Other())|
    requires w.sys.om.orders[w.grid.levels[n].mo].subs == [n] && w.sys.om.orders[w.grid.levels[m].mo].subs == [m]
    requires forall j: int, kind: Kind :: j in {n, m} ==>
      w.sys.om.conds.Get(kind)[w.grid.levels[j].bracket.value.Get(kind)].subs == [j]
    ensures OrdersStay(w.sys, Closed(w, k, n).sys, w.grid.levels[m])
  {
    assert [n][0] == n && [m][0] == m;
    forall kind: Kind ensures w.grid.levels[m].bracket.value.Get(kind) != w.grid.levels[n].bracket.value.Get(kind) {
      assert w.sys.om.conds.Get(kind)[w.grid.levels[n].bracket.value.Get(kind)].subs == [n];
      assert w.sys.om.conds.Get(kind)[w.grid.levels[m].bracket.value.Get(kind)].subs == [m];
    }
    assert w.grid.levels[m].bracket.value.Get(Tp) != w.grid.levels[n].bracket.value.Get(Tp);
    assert w.grid.levels[m].bracket.value.Get(Sl) != w.grid.levels[n].bracket.value.Get(Sl);
  }

  lemma CondCallbackKeepsBrackets(cfg: Config, w: World, k: Kind, g: Guid, n: int)
    requires ValidConfig(cfg) && Good(cfg, w) && w.sys.q != [] && w.sys.q[0] == CondCallback(k, g, n)
    ensures BracketsStay(w, Step(cfg, w))
  {
    HeadIsHandled(cfg, w);
    if w.sys.om.conds.Get(k)[g].order.Status().Filled? {
      FilledCallbackCloses(cfg, w, k, g, n);
      ClosedKeepsBrackets(cfg, w, k, n);
    }
  }

  // ----- all runs -----

  lemma StepKeepsSpacing(cfg: Config, w: World)
    requires ValidConfig(cfg) && Sound(cfg, w) && LevelsSpaced(cfg, w) && w.sys.q != [] && Handles(w, w.sys.q[0])
    ensures LevelsSpaced(cfg, Step(cfg, w))
  {
    SoundIsGood(cfg, w);
    match w.sys.q[0]
    case MoCallback(g, n) => BracketKeepsSpacing(cfg, w, g, n);
    case CondCallback(k, g, n) =>
      CondCallbackKeepsBrackets(cfg, w, k, g, n);
      StayingKeepsSpacing(cfg, w, Step(cfg, w));
    case _ =>
      PlainStepKeepsBrackets(cfg, w);
      StayingKeepsSpacing(cfg, w, Step(cfg, w));
  }

  lemma {:induction false} DrainKeepsSpacing(cfg: Config, w: World)
    requires ValidConfig(cfg) && Sound(cfg, w) && LevelsSpaced(cfg, w)
    ensures LevelsSpaced(cfg, Drain(cfg, w))
    decreases Tally(CandleWeight, w.sys.q), |Bare(w.grid.levels)|, Resting(w.sys.gw), Tally(WorkWeight, w.sys.q)
  {
    if w.sys.q != [] && !w.crashed {
      StepLeadsOn(cfg, w);
      StepKeepsSpacing(cfg, w);
      DrainKeepsSpacing(cfg, Step(cfg, w));
    }
  }

  lemma PriceKeepsSpacing(cfg: Config, w: World, prices: seq<Candles.PublicTrade>, n: nat)
    requires ValidConfig(cfg) && Sound(cfg, w) && w.sys.q == [] && Prices(prices) && n < |prices|
    requires LevelsSpaced(cfg, w) && w.builder.start <= prices[n].ts
    ensures w.builder.timeframe > 0 && w.builder.start >= 0
    ensures Sound(cfg, PriceStep(cfg, w, prices[n]))
    ensures LevelsSpaced(cfg, Drain(cfg, PriceStep(cfg, w, prices[n])))
  {
    PriceLeadsOn(cfg, w, prices, n);
    StayingKeepsSpacing(cfg, w, PriceStep(cfg, w, prices[n]));
    DrainKeepsSpacing(cfg, PriceStep(cfg, w, prices[n]));
  }

  ghost predicate RunSpaced(cfg: Config, prices: seq<Candles.PublicTrade>, n: nat)
    requires ValidConfig(cfg) && Prices(prices) && n <= |prices|
  {
    LevelsSpaced(cfg, Run(cfg, prices, n))
  }

  lemma StartIsSpaced(cfg: Config, prices: seq<Candles.PublicTrade>)
    requires ValidConfig(cfg) && Prices(prices)
    ensures RunSpaced(cfg, prices, 0)
  {
  }

  lemma NextIsSpaced(cfg: Config, prices: seq<Candles.PublicTrade>, n: nat)
    requires ValidConfig(cfg) && Prices(prices) && n < |prices| && RunSpaced(cfg, prices, n)
    ensures RunSpaced(cfg, prices, n + 1)
  {
    var before := Run(cfg, prices, n);
    if !before.crashed {
      PriceKeepsSpacing(cfg, before, prices, n);
    }
  }

  /** In every run, crashed or not, each bracket lies at the levels of the trend that its fill saw. */
  lemma {:induction false} RunKeepsSpacing(cfg: Config, prices: seq<Candles.PublicTrade>, n: nat)
    requires ValidConfig(cfg) && Prices(prices) && n <= |prices|
    ensures RunSpaced(cfg, prices, n)
  {
    if n == 0 {
      StartIsSpaced(cfg, prices);
    } else {
      RunKeepsSpacing(cfg, prices, n - 1);
      NextIsSpaced(cfg, prices, n - 1);
    }
  }

  /**
   * Between two prices of a run that has not crashed both orders of every level rest, the take profit at the
   * next level's price and the stop loss a whole side and one level away, seen from the fill.
   */
  lemma RestingBracketsAreAtLevels(cfg: Config, prices: seq<Candles.PublicTrade>, n: nat, level: int)
    requires ValidConfig(cfg) && Prices(prices) && n <= |prices|
    ensures var w := Run(cfg, prices, n);
      !w.crashed && level in w.grid.levels ==>
        && Hedged(w.sys, w.grid.levels[level])
        && exists trend :: SpacedAround(cfg, PlacingOf(w.sys, w.grid.levels[level]), trend)
  {
    var w := Run(cfg, prices, n);
    RunKeepsSpacing(cfg, prices, n);
    RunAgrees(cfg, prices, n);
    if !w.crashed && level in w.grid.levels {
      assert LevelsHedged(cfg, w);
      assert LevelSpaced(cfg, w.sys, w.grid.levels[level]);
    }
  }
}
