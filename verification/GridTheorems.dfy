/** What every backtest run of the grid guarantees between two prices. */
module GridTheorems {
  import opened Common
  import opened Lots
  import opened Events
  import opened Gateway
  import opened OrderManager
  import opened DynamicGrid
  import opened GridInvariant
  import opened GridQuietSteps
  import opened GridBracket
  import opened GridCandle
  import opened GridPrice
  import opened GridStep
  import opened GridRun
  import Ledger
  import Candles
  import Averages = TimeWeightedAverage

  // ----- quiescent agreement -----

  /** The gateway holds this conditional order exactly as the manager asked for it, and it has not traded. */
  ghost predicate Rests(s: Sys, k: Kind, g: Guid) {
    && g in s.om.conds.Get(k)
    && s.om.conds.Get(k)[g].order.req.guid == g
    && s.om.conds.Get(k)[g].order.req in s.gw.lists.Get(k)
    && s.om.conds.Get(k)[g].order.filled == 0.0
    && !Traded(s.gw.log, g)
  }

  /** A level between two prices: its order has filled, and either order of its bracket closes exactly that fill. */
  ghost predicate Hedged(s: Sys, l: Level) {
    && l.mo in s.om.orders
    && l.bracket.Some?
    && s.om.orders[l.mo].order.Status().Filled?
    && s.om.orders[l.mo].order.filled == s.om.orders[l.mo].order.target
    && Rests(s, Tp, l.bracket.value.tp)
    && Rests(s, Sl, l.bracket.value.sl)
    && Hedges(s.om.orders[l.mo].order, s.om.conds.tp[l.bracket.value.tp].order.req)
    && Hedges(s.om.orders[l.mo].order, s.om.conds.sl[l.bracket.value.sl].order.req)
  }

  /** The manager's market orders are those of the levels, one each. */
  ghost predicate OrdersMatch(s: Sys, levels: map<int, Level>) {
    && (forall n :: n in levels ==> levels[n].mo in s.om.orders)
    && (forall g :: g in s.om.orders ==> exists n :: n in levels && levels[n].mo == g)
    && (forall n, m :: n in levels && m in levels && n != m ==> levels[n].mo != levels[m].mo)
  }

  /** The manager's orders of kind `k` are those of the levels' brackets, one each. */
  ghost predicate CondsMatch(s: Sys, levels: map<int, Level>, k: Kind) {
    && (forall n :: n in levels ==> levels[n].bracket.Some? && levels[n].bracket.value.Get(k) in s.om.conds.Get(k))
    && (forall g :: g in s.om.conds.Get(k) ==>
          exists n :: n in levels && levels[n].bracket.Some? && levels[n].bracket.value.Get(k) == g)
    && (forall n, m :: n in levels && m in levels && n != m && levels[n].bracket.Some? && levels[m].bracket.Some? ==>
          levels[n].bracket.value.Get(k) != levels[m].bracket.value.Get(k))
  }

  /** The gateway's list of kind `k` holds the manager's orders of that kind, once each. */
  ghost predicate ListMatches(s: Sys, k: Kind) {
    var l := s.gw.lists.Get(k);
    && (forall g :: g in s.om.conds.Get(k) <==> InList(l, g))
    && (forall i, j :: 0 <= i < j < |l| ==> l[i].guid != l[j].guid)
  }

  ghost predicate OneToOne(w: World) {
    && OrdersMatch(w.sys, w.grid.levels)
    && CondsMatch(w.sys, w.grid.levels, Tp)
    && CondsMatch(w.sys, w.grid.levels, Sl)
    && ListMatches(w.sys, Tp)
    && ListMatches(w.sys, Sl)
  }

  /** The signed fill of a level's order. */
  ghost function Fill(s: Sys, l: Level): real {
    if l.mo in s.om.orders then Signed(s.om.orders[l.mo].order.filled, s.om.orders[l.mo].order.side) else 0.0
  }

  ghost function Fills(s: Sys, levels: map<int, Level>): map<int, real> {
    map n | n in levels :: Fill(s, levels[n])
  }

  /**
   * The position is the sum of the fills of the levels, for the gateway, for the trades and for the position
   * manager.
   */
  ghost predicate PositionAgrees(cfg: Config, w: World) {
    && w.sys.gw.pos == Total(Fills(w.sys, w.grid.levels), -cfg.levelsPerSide, cfg.levelsPerSide)
    && w.sys.gw.pos == SumSigned(w.sys.gw.log)
    && (cfg.step > Ledger.DUST ==> w.sys.gw.pos == Ledger.Volume(w.pm))
  }

  ghost predicate LevelsHedged(cfg: Config, w: World) {
    forall n :: n in w.grid.levels ==> -cfg.levelsPerSide < n < cfg.levelsPerSide && Hedged(w.sys, w.grid.levels[n])
  }

  ghost predicate Agreement(cfg: Config, w: World) {
    && OneToOne(w)
    && LevelsHedged(cfg, w)
    && PositionAgrees(cfg, w)
    && (!w.crashed ==> w.sys.om.errors == 0)
  }

  /** A hedged level that owns its three orders. */
  ghost predicate Owns(s: Sys, n: int, l: Level) {
    && Hedged(s, l)
    && s.om.orders[l.mo].subs == [n]
    && s.om.conds.tp[l.bracket.value.tp].subs == [n]
    && s.om.conds.sl[l.bracket.value.sl].subs == [n]
  }

  lemma QuietLevel(cfg: Config, w: World, n: int)
    requires Protocol(cfg, w) && Settled(w.sys) && w.sys.q == [] && n in w.grid.levels
    ensures Owns(w.sys, n, w.grid.levels[n]) && -cfg.levelsPerSide < n < cfg.levelsPerSide
  {
    QuietOrders(cfg, w);
    var l := w.grid.levels[n];
    assert LevelOk(cfg, w.sys, w.partner, n, l);
    assert w.sys.om.orders[l.mo].traded && l.bracket.Some?;
    var b := l.bracket.value;
    assert b.tp in w.sys.om.conds.Get(Tp) && Live(w.sys, Tp, b.tp) && CondShape(cfg.step, w.sys, Tp, b.tp);
    assert b.sl in w.sys.om.conds.Get(Sl) && Live(w.sys, Sl, b.sl) && CondShape(cfg.step, w.sys, Sl, b.sl);
  }

  lemma HedgedHoldsItsFill(s: Sys, l: Level)
    requires Hedged(s, l)
    ensures Exposure(s, l) == Fill(s, l)
  {
  }

  lemma QuietList(cfg: Config, w: World, k: Kind)
    requires Protocol(cfg, w) && Settled(w.sys) && w.sys.q == []
    ensures ListMatches(w.sys, k)
  {
  }

  lemma CondsHaveLevels(s: Sys, levels: map<int, Level>, k: Kind)
    requires forall g :: g in s.om.conds.Get(k) ==>
      var subs := s.om.conds.Get(k)[g].subs;
      |subs| == 1 && subs[0] in levels && levels[subs[0]].bracket.Some? && levels[subs[0]].bracket.value.Get(k) == g
    requires forall n :: n in levels ==>
      && levels[n].bracket.Some?
      && levels[n].bracket.value.Get(k) in s.om.conds.Get(k)
      && s.om.conds.Get(k)[levels[n].bracket.value.Get(k)].subs == [n]
    ensures CondsMatch(s, levels, k)
  {
    forall g | g in s.om.conds.Get(k)
      ensures exists n :: n in levels && levels[n].bracket.Some? && levels[n].bracket.value.Get(k) == g
    {
      var n := s.om.conds.Get(k)[g].subs[0];
      assert n in levels && levels[n].bracket.Some? && levels[n].bracket.value.Get(k) == g;
    }
    forall n, m | n in levels && m in levels && n != m
      ensures levels[n].bracket.value.Get(k) != levels[m].bracket.value.Get(k)
    {
      assert s.om.conds.Get(k)[levels[n].bracket.value.Get(k)].subs == [n];
      assert s.om.conds.Get(k)[levels[m].bracket.value.Get(k)].subs == [m];
    }
  }

  lemma QuietMatches(cfg: Config, w: World)
    requires Protocol(cfg, w) && Settled(w.sys) && w.sys.q == []
    ensures OrdersMatch(w.sys, w.grid.levels)
    ensures CondsMatch(w.sys, w.grid.levels, Tp) && CondsMatch(w.sys, w.grid.levels, Sl)
  {
    forall n | n in w.grid.levels ensures Owns(w.sys, n, w.grid.levels[n]) {
      QuietLevel(cfg, w, n);
    }
    QuietOrdersMatch(cfg, w);
    QuietConds(cfg, w, Tp);
    QuietConds(cfg, w, Sl);
  }

  lemma QuietOrdersMatch(cfg: Config, w: World)
    requires OrdersOk(cfg.step, w.sys, w.grid.levels)
    requires forall n :: n in w.grid.levels ==> Owns(w.sys, n, w.grid.levels[n])
    ensures OrdersMatch(w.sys, w.grid.levels)
  {
  }

  lemma QuietConds(cfg: Config, w: World, k: Kind)
    requires CondsOk(cfg.step, w.sys, w.grid.levels) && Settled(w.sys)
    requires forall n :: n in w.grid.levels ==> Owns(w.sys, n, w.grid.levels[n])
    ensures CondsMatch(w.sys, w.grid.levels, k)
  {
    forall g | g in w.sys.om.conds.Get(k) ensures CondOk(cfg.step, w.sys, w.grid.levels, k, g) {
    }
    CondsHaveLevels(w.sys, w.grid.levels, k);
  }

  /**
   * Quiescent agreement: with an empty queue the levels, the manager's maps and the gateway's lists
   * are in bijection, every level is hedged, and the position is the sum of the levels' fills.
   */
  lemma QuiescentAgreement(cfg: Config, w: World)
    requires Good(cfg, w) && w.sys.q == []
    ensures Agreement(cfg, w)
  {
    QuietMatches(cfg, w);
    QuietList(cfg, w, Tp);
    QuietList(cfg, w, Sl);
    QuietPosition(cfg, w);
    QuietLevels(cfg, w);
  }

  lemma QuietLevels(cfg: Config, w: World)
    requires Protocol(cfg, w) && Settled(w.sys) && w.sys.q == []
    ensures LevelsHedged(cfg, w)
  {
    forall n | n in w.grid.levels
      ensures -cfg.levelsPerSide < n < cfg.levelsPerSide && Hedged(w.sys, w.grid.levels[n])
    {
      QuietLevel(cfg, w, n);
    }
  }

  lemma QuietPosition(cfg: Config, w: World)
    requires Inv(cfg, w) && Settled(w.sys) && w.sys.q == []
    ensures PositionAgrees(cfg, w)
  {
    QuietLevels(cfg, w);
    forall n | n in w.grid.levels ensures Exposure(w.sys, w.grid.levels[n]) == Fill(w.sys, w.grid.levels[n]) {
      HedgedHoldsItsFill(w.sys, w.grid.levels[n]);
    }
    assert Exposures(w.sys, w.grid.levels) == Fills(w.sys, w.grid.levels);
    assert PendingVolume(w.sys.q) == 0.0;
  }

  /** Every run that has not crashed agrees after every price. */
  lemma RunAgrees(cfg: Config, prices: seq<Candles.PublicTrade>, n: nat)
    requires ValidConfig(cfg) && Prices(prices) && n <= |prices|
    ensures Run(cfg, prices, n).crashed || Agreement(cfg, Run(cfg, prices, n))
  {
    if !Run(cfg, prices, n).crashed {
      SoundIsGood(cfg, Run(cfg, prices, n));
      QuiescentAgreement(cfg, Run(cfg, prices, n));
    }
  }

  /** Only a candle can crash a run: every other event leaves it running. */
  lemma OnlyCandlesCrash(cfg: Config, w: World)
    requires ValidConfig(cfg) && Good(cfg, w) && w.sys.q != [] && !w.sys.q[0].OnCandle?
    ensures Handles(w, w.sys.q[0]) && Step(cfg, w).crashed == w.crashed
  {
    HeadIsHandled(cfg, w);
    match w.sys.q[0]
    case MoCallback(g, n) =>
      FilledOrderAttaches(cfg, w, g, n);
      var o := w.sys.om.orders[g].order;
      BothPlacedHolds(cfg, w, PricesFor(cfg, w, g), ClosingVolume(o), o.ts);
    case _ =>
  }

  /** When a candle crashes the run: the grid lacks a level for it, and the amount is worth less than half a lot. */
  lemma CandleCrashes(cfg: Config, w: World, ts: int, close: real)
    requires ValidConfig(cfg) && Good(cfg, w) && w.sys.q != [] && w.sys.q[0] == OnCandle(ts, close) && !w.crashed
    ensures Handles(w, w.sys.q[0])
    ensures var average := Averages.Push(w.grid.twma, ts, close).result;
      Step(cfg, w).crashed <==>
        && average.Some? && !BuysLot(cfg.step, close)
        && exists n :: Lacks(cfg, w.grid.levels, average.value, close, n)
  {
    HeadIsHandled(cfg, w);
    CandleCrashesExactly(cfg, w, ts, close);
  }
}
