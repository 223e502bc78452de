/** A candle updates the trend and may open a level; both keep the grid's invariant. */
module GridCandle {
  import opened Common
  import opened RealProducts
  import opened Lots
  import opened Events
  import opened Gateway
  import opened OrderManager
  import opened DynamicGrid
  import opened GridInvariant
  import opened GridFire
  import opened GridQuietSteps
  import opened GridPlace
  import Averages = TimeWeightedAverage
  import GridLevels

  // ----- the trend -----

  /** A push that is in order keeps the moving average ready for everything later. */
  lemma PushStaysReady(t: Averages.Twma, ts: int, value: real, later: int)
    requires TrendReady(t, ts) && value > 0.0 && ts <= later
    ensures TrendReady(Averages.Push(t, ts, value).state, later)
  {
    Averages.PushKeepsValid(t, ts, value);
    var s := Averages.Push(t, ts, value).state;
    forall i | 0 <= i < |s.data| ensures s.data[i].value > 0.0 && s.data[i].ts <= later {
    }
  }

  /** The head event concerns no order, so taking it keeps the invariant. */
  lemma CandleLeaves(cfg: Config, w: World)
    requires Inv(cfg, w) && w.sys.q != [] && w.sys.q[0].OnCandle?
    ensures Inv(cfg, Pop(w))
  {
    HeadAndTail(w.sys.q);
    assert w.sys.q[1..] + [] == w.sys.q[1..];
    OtherOrders(cfg, w, Pop(w), [], w.sys.next);
    OtherConds(cfg, w, Pop(w), [], w.sys.next);
    NextIsUnused(cfg, w);
    BookStep(cfg, w, Pop(w), []);
  }

  /** Every part of the invariant but the trend's ignores the moving average. */
  lemma TrendUpdateKeepsInv(cfg: Config, w: World, u: World)
    requires Inv(cfg, w) && u == w.(grid := u.grid) && u.grid.levels == w.grid.levels
    requires TrendOk(u)
    ensures Inv(cfg, u)
  {
  }

  lemma TrendUpdated(cfg: Config, w: World, ts: int, close: real)
    requires Inv(cfg, w) && w.sys.q != [] && w.sys.q[0] == OnCandle(ts, close)
    ensures TrendReady(w.grid.twma, ts) && close > 0.0
    ensures Inv(cfg, UpdateTrend(Pop(w), ts, close).0)
  {
    assert EventOk(cfg.step, w.sys, w.sys.q[0]);
    CandleLeaves(cfg, w);
    HeadAndTail(w.sys.q);
    var u := UpdateTrend(Pop(w), ts, close).0;
    forall e | e in u.sys.q && e.OnCandle? ensures TrendReady(u.grid.twma, e.ts) {
      assert Before(w.sys.q[0], e);
      PushStaysReady(w.grid.twma, ts, close, e.ts);
    }
    PushStaysReady(w.grid.twma, ts, close, w.builder.start);
    TrendUpdateKeepsInv(cfg, Pop(w), u);
  }

  // ----- a new level -----

  /** The order's acknowledgement and trade are queued and the level is recorded. */
  function Opened(w: World, n: int, o: MarketOrder, t: Trade): World {
    var g := w.sys.next;
    w.(sys := Sys(w.sys.q + [OmAck(g)] + Emit(t),
                  w.sys.gw.(pos := w.sys.gw.pos + t.SignedVolume(), log := w.sys.gw.log + [t]),
                  w.sys.om.(orders := w.sys.om.orders[g := OrderEntry(o, false, false, [n])]),
                  g + 1),
       grid := w.grid.(levels := w.grid.levels[n := Level(g, None)]))
  }

  ghost predicate CanOpen(cfg: Config, w: World, n: int, o: MarketOrder, t: Trade) {
    && -cfg.levelsPerSide < n < cfg.levelsPerSide
    && n !in w.grid.levels
    && w.grid.trend > 0.0
    && o.filled == 0.0 && o.target > 0.0 && IsLot(cfg.step, o.target)
    && t.guid == w.sys.next && t.volume == o.target && t.side == o.side && t.price == w.sys.gw.lastPrice
  }

  lemma OpenedEvents(cfg: Config, w: World, n: int, o: MarketOrder, t: Trade)
    requires Arranged(w.sys.q) && EventsOk(cfg.step, w.sys) && CanOpen(cfg, w, n, o, t)
    requires w.sys.next !in w.sys.om.orders && !TradeIn(w.sys.q, w.sys.next)
    ensures Arranged(Opened(w, n, o, t).sys.q) && EventsOk(cfg.step, Opened(w, n, o, t).sys)
  {
    var w' := Opened(w, n, o, t);
    var news := [OmAck(t.guid)] + Emit(t);
    assert w'.sys.q == w.sys.q + news;
    forall a, b | a in w.sys.q && b in news ensures Before(a, b) {
      if a.OmTrade? {
        NotTradeIn(w.sys.q, t.guid, a.t);
      }
    }
    ArrangedAppend(w.sys.q, news);
    SignedLot(cfg.step, t.volume, t.side);
    forall e | e in w'.sys.q ensures EventOk(cfg.step, w'.sys, e) {
      if e in w.sys.q {
        assert EventOk(cfg.step, w.sys, e);
      }
    }
  }

  lemma OpenedNews(q: seq<Event>, t: Trade, g: Guid)
    requires g != t.guid
    ensures SameOrderNews(q, q + [OmAck(t.guid)] + Emit(t), g)
    ensures forall k: Kind :: SameCondNews(q, q + [OmAck(t.guid)] + Emit(t), k, g)
  {
    TradeInAppend(q, [OmAck(t.guid)] + Emit(t), g);
    assert q + [OmAck(t.guid)] + Emit(t) == q + ([OmAck(t.guid)] + Emit(t));
  }

  lemma OpenedOrders(cfg: Config, w: World, n: int, o: MarketOrder, t: Trade)
    requires EventsOk(cfg.step, w.sys) && OrdersOk(cfg.step, w.sys, w.grid.levels) && CanOpen(cfg, w, n, o, t)
    requires w.sys.next !in w.sys.om.orders
    ensures OrdersOk(cfg.step, Opened(w, n, o, t).sys, Opened(w, n, o, t).grid.levels)
  {
    var w' := Opened(w, n, o, t);
    forall g | g in w'.sys.om.orders ensures OrderOk(cfg.step, w'.sys, w'.grid.levels, g) {
      if g == t.guid {
        OpenedThisOrder(cfg, w, n, o, t);
      } else {
        OpenedNews(w.sys.q, t, g);
        OrderStays(cfg.step, w.sys, w'.sys, w.grid.levels, w'.grid.levels, g);
      }
    }
  }

  lemma OpenedThisOrder(cfg: Config, w: World, n: int, o: MarketOrder, t: Trade)
    requires EventsOk(cfg.step, w.sys) && CanOpen(cfg, w, n, o, t) && w.sys.next !in w.sys.om.orders
    ensures OrderOk(cfg.step, Opened(w, n, o, t).sys, Opened(w, n, o, t).grid.levels, t.guid)
  {
    var w' := Opened(w, n, o, t);
    assert w'.sys.q[|w.sys.q| + 1] == OmTrade(t);
    assert MoCallback(t.guid, n) in w.sys.q ==> EventOk(cfg.step, w.sys, MoCallback(t.guid, n));
  }

  lemma OpenedConds(cfg: Config, w: World, n: int, o: MarketOrder, t: Trade)
    requires CondsOk(cfg.step, w.sys, w.grid.levels) && CanOpen(cfg, w, n, o, t)
    ensures CondsOk(cfg.step, Opened(w, n, o, t).sys, Opened(w, n, o, t).grid.levels)
  {
    var w' := Opened(w, n, o, t);
    forall k: Kind, g | g in w'.sys.om.conds.Get(k) ensures CondOk(cfg.step, w'.sys, w'.grid.levels, k, g) {
      assert CondOk(cfg.step, w.sys, w.grid.levels, k, g);
      OpenedNews(w.sys.q, t, g);
      TradedAppend(w.sys.gw.log, t, g);
      CondStays(cfg.step, w.sys, w'.sys, w.grid.levels, w'.grid.levels, k, g);
    }
  }

  lemma OpenedLevels(cfg: Config, w: World, n: int, o: MarketOrder, t: Trade)
    requires LevelsOk(cfg, w.sys, w.partner, w.grid.levels) && CanOpen(cfg, w, n, o, t)
    requires w.sys.next !in w.sys.om.orders
    ensures LevelsOk(cfg, Opened(w, n, o, t).sys, w.partner, Opened(w, n, o, t).grid.levels)
  {
  }

  lemma OpenedGuids(cfg: Config, w: World, n: int, o: MarketOrder, t: Trade)
    requires GuidsOk(w.sys) && PartnersOk(w.sys, w.partner) && CanOpen(cfg, w, n, o, t)
    requires forall k: Kind :: w.sys.next !in w.sys.om.conds.Get(k)
    ensures GuidsOk(Opened(w, n, o, t).sys) && PartnersOk(Opened(w, n, o, t).sys, w.partner)
  {
    assert w.sys.next !in w.sys.om.conds.Get(Tp) && w.sys.next !in w.sys.om.conds.Get(Sl);
    forall g | g in w.partner
      ensures !(Traded(w.sys.gw.log + [t], g) && Traded(w.sys.gw.log + [t], w.partner[g]))
    {
      TradedAppend(w.sys.gw.log, t, g);
      TradedAppend(w.sys.gw.log, t, w.partner[g]);
    }
  }

  lemma OpenedTotal(cfg: Config, w: World, n: int, o: MarketOrder, t: Trade)
    requires LevelsOk(cfg, w.sys, w.partner, w.grid.levels) && CanOpen(cfg, w, n, o, t)
    requires w.sys.next !in w.sys.om.orders
    ensures TotalExposure(cfg, Opened(w, n, o, t)) == TotalExposure(cfg, w) + t.SignedVolume()
  {
    var w' := Opened(w, n, o, t);
    var before, after := Exposures(w.sys, w.grid.levels), Exposures(w'.sys, w'.grid.levels);
    forall m | m != n ensures ValueAt(before, m) == ValueAt(after, m) {
      if m in w.grid.levels {
        assert LevelOk(cfg, w.sys, w.partner, m, w.grid.levels[m]);
      }
    }
    TotalUpdate(before, after, n, -cfg.levelsPerSide, cfg.levelsPerSide);
  }

  lemma OpenedSums(w: World, n: int, o: MarketOrder, t: Trade)
    ensures var w' := Opened(w, n, o, t);
      && SumSigned(w'.sys.gw.log) == SumSigned(w.sys.gw.log) + t.SignedVolume()
      && PendingVolume(w'.sys.q) == PendingVolume(w.sys.q) + t.SignedVolume()
  {
    SumSignedAppend(w.sys.gw.log, t);
    PendingAppend(w.sys.q, [OmAck(w.sys.next)] + Emit(t) + []);
    PendingEmit([OmAck(w.sys.next)], t, []);
    assert w.sys.q + [OmAck(w.sys.next)] + Emit(t) == w.sys.q + ([OmAck(w.sys.next)] + Emit(t) + []);
  }

  lemma OpenedKeepsProtocol(cfg: Config, w: World, n: int, o: MarketOrder, t: Trade)
    requires Protocol(cfg, w) && CanOpen(cfg, w, n, o, t)
    ensures Protocol(cfg, Opened(w, n, o, t))
  {
    NextIsFresh(cfg, w);
    OpenedEvents(cfg, w, n, o, t);
    OpenedOrders(cfg, w, n, o, t);
    OpenedConds(cfg, w, n, o, t);
    OpenedLevels(cfg, w, n, o, t);
    OpenedGuids(cfg, w, n, o, t);
    assert ListsOk(Opened(w, n, o, t).sys) by {
      assert ListOk(w.sys, Tp) && ListOk(w.sys, Sl);
    }
  }

  lemma OpenedTrend(cfg: Config, w: World, n: int, o: MarketOrder, t: Trade)
    requires TrendOk(w) && BuilderOk(cfg, w) && w.grid.trend > 0.0
    ensures TrendOk(Opened(w, n, o, t)) && BuilderOk(cfg, Opened(w, n, o, t))
  {
  }

  lemma OpenedKeepsInv(cfg: Config, w: World, n: int, o: MarketOrder, t: Trade)
    requires Inv(cfg, w) && CanOpen(cfg, w, n, o, t)
    ensures Inv(cfg, Opened(w, n, o, t))
  {
    NextIsFresh(cfg, w);
    OpenedKeepsProtocol(cfg, w, n, o, t);
    OpenedTotal(cfg, w, n, o, t);
    OpenedSums(w, n, o, t);
    OpenedTrend(cfg, w, n, o, t);
  }

  // ----- push_candle -----

  /** The size of a new level's order, before rounding. */
  function LevelVolume(n: int, close: real): real
    requires close > 0.0
  {
    Signed(POSITION_AMOUNT / close, if n > 0 then Sell else Buy)
  }

  /** Opening a level fails exactly when the order is smaller than half a lot. */
  lemma OpenLevelForm(cfg: Config, w: World, n: int, ts: int, close: real)
    requires ValidConfig(cfg) && QuietGateway(w.sys) && close > 0.0
    ensures var a := AdjustedVolume(cfg.step, LevelVolume(n, close));
      && (a.None? <==> 2.0 * POSITION_AMOUNT / close < cfg.step)
      && (a.None? ==> OpenLevel(cfg, w, n, ts, close) == w.(sys := Reported(w.sys), crashed := true))
      && (a.Some? ==>
            && Abs(a.value) > 0.0 && IsLot(cfg.step, Abs(a.value))
            && var o := MarketOrder(SideOf(a.value), Abs(a.value), 0.0, close, ts);
               var t := PushOrder(w.sys.gw, w.sys.next, o.target, o.side, ts).gw.log[|w.sys.gw.log|];
               && t.guid == w.sys.next && t.volume == o.target && t.side == o.side && t.price == w.sys.gw.lastPrice
               && OpenLevel(cfg, w, n, ts, close) == Opened(w, n, o, t))
  {
    var v := LevelVolume(n, close);
    AdjustedVolumeIsStable(cfg.step, v);
    SizeOf(n, close);
    var a := AdjustedVolume(cfg.step, v);
    if a.Some? {
      SignedLot(cfg.step, a.value, Sell);
      OpenLevelOpens(cfg, w, n, ts, close, a.value);
    }
  }

  lemma SizeOf(n: int, close: real)
    requires close > 0.0
    ensures 2.0 * Abs(LevelVolume(n, close)) == 2.0 * POSITION_AMOUNT / close
  {
  }

  lemma OpenLevelOpens(cfg: Config, w: World, n: int, ts: int, close: real, a: real)
    requires ValidConfig(cfg) && QuietGateway(w.sys) && close > 0.0
    requires AdjustedVolume(cfg.step, LevelVolume(n, close)) == Some(a)
    ensures var o := MarketOrder(SideOf(a), Abs(a), 0.0, close, ts);
      var t := PushOrder(w.sys.gw, w.sys.next, o.target, o.side, ts).gw.log[|w.sys.gw.log|];
      && t.guid == w.sys.next && t.volume == o.target && t.side == o.side && t.price == w.sys.gw.lastPrice
      && OpenLevel(cfg, w, n, ts, close) == Opened(w, n, o, t)
  {
    var o := MarketOrder(SideOf(a), Abs(a), 0.0, close, ts);
    var g := w.sys.next;
    var r := PushOrder(w.sys.gw, g, o.target, o.side, ts);
    var t := r.gw.log[|w.sys.gw.log|];
    assert r.events == [OmAck(g)] + [] + Emit(t);
    assert w.sys.q + r.events == w.sys.q + [OmAck(g)] + Emit(t);
    assert [] + [n] == [n];
    var e := OrderEntry(o, false, false, []);
    assert w.sys.om.orders[g := e][g := e.(subs := [n])] == w.sys.om.orders[g := e.(subs := [n])];
  }

  /** What a candle does, as one equation. */
  lemma CandleForm(cfg: Config, w: World, ts: int, close: real)
    requires ValidConfig(cfg) && w.sys.q != [] && w.sys.q[0] == OnCandle(ts, close)
    requires TrendReady(w.grid.twma, ts) && close > 0.0
    ensures var (u, ready) := UpdateTrend(Pop(w), ts, close);
      Step(cfg, w) == if !ready || WantedLevel(cfg, u.grid, close).None? then u
        else OpenLevel(cfg, u, WantedLevel(cfg, u.grid, close).value, ts, close)
  {
  }

  /**
   * The grid lacks the level that holds the close: it is neither level zero nor beyond the grid, and no order is
   * in it.
   */
  ghost predicate Lacks(cfg: Config, levels: map<int, Level>, trend: real, close: real, n: int)
    requires cfg.levelsPerSide > 0
  {
    && n != 0 && -cfg.levelsPerSide < n < cfg.levelsPerSide
    && n !in levels
    && GridLevels.HoldsPrice(n, close, trend, Width(cfg, trend))
  }

  lemma WantedExactly(cfg: Config, grid: Grid, close: real)
    requires ValidConfig(cfg) && grid.trend > 0.0
    ensures forall n :: WantedLevel(cfg, grid, close) == Some(n) <==> Lacks(cfg, grid.levels, grid.trend, close, n)
  {
    GridLevels.WidthIsPositive(cfg.radiusPercent, cfg.levelsPerSide, grid.trend);
    var width := Width(cfg, grid.trend);
    forall n ensures WantedLevel(cfg, grid, close) == Some(n) <==> Lacks(cfg, grid.levels, grid.trend, close, n) {
      if n != 0 {
        GridLevels.LevelNumberExactly(n, close, grid.trend, width);
      }
    }
  }

  /**
   * A candle opens level `n`: a new order in it, of about the amount in whole lots, sells above the trend and
   * buys below it, and the gateway has filled it at the last price.
   */
  ghost predicate OpensLevel(cfg: Config, w: World, w': World, n: int, ts: int, close: real)
    requires close > 0.0
  {
    && n !in w.grid.levels
    && w'.grid.levels == w.grid.levels[n := Level(w.sys.next, None)]
    && w.sys.next in w'.sys.om.orders
    && var e := w'.sys.om.orders[w.sys.next];
       && e.subs == [n]
       && e.order.side == (if close > w'.grid.trend then Sell else Buy) && e.order.ts == ts
       && e.order.price == close && e.order.filled == 0.0
       && IsLot(cfg.step, e.order.target) && 2.0 * Abs(e.order.target - POSITION_AMOUNT / close) <= cfg.step
       && |w'.sys.gw.log| == |w.sys.gw.log| + 1 && w.sys.gw.log <= w'.sys.gw.log
       && var t := w'.sys.gw.log[|w.sys.gw.log|];
          && t.guid == w.sys.next && t.volume == e.order.target && t.side == e.order.side
          && t.price == w.sys.gw.lastPrice && t.ts == e.order.ts
          && w'.sys.gw.pos == w.sys.gw.pos + t.SignedVolume()
  }

  /**
   * What a candle does to the grid, exactly: the moving average becomes the trend, if it has a value; with a
   * trend from it the candle opens a level if and only if the grid lacks it and the amount is worth half a lot;
   * otherwise neither levels nor trades change.
   */
  lemma CandleOpensLevel(cfg: Config, w: World, ts: int, close: real)
    requires ValidConfig(cfg) && w.sys.q != [] && w.sys.q[0] == OnCandle(ts, close) && QuietGateway(w.sys)
    requires TrendReady(w.grid.twma, ts) && close > 0.0
    ensures var w' := Step(cfg, w);
      var average := Averages.Push(w.grid.twma, ts, close);
      && w'.grid.twma == average.state
      && w'.grid.trend == (if average.result.Some? then average.result.value else w.grid.trend)
      && (forall n :: OpensLevel(cfg, w, w', n, ts, close) <==>
            && average.result.Some? && BuysLot(cfg.step, close)
            && Lacks(cfg, w.grid.levels, average.result.value, close, n))
      && ((forall n :: !OpensLevel(cfg, w, w', n, ts, close)) ==>
            w'.grid.levels == w.grid.levels && w'.sys.gw == w.sys.gw)
  {
    CandleForm(cfg, w, ts, close);
    var (u, ready) := UpdateTrend(Pop(w), ts, close);
    var w' := Step(cfg, w);
    if ready {
      WantedExactly(cfg, u.grid, close);
      if WantedLevel(cfg, u.grid, close).Some? {
        var n := WantedLevel(cfg, u.grid, close).value;
        OpenLevelForm(cfg, u, n, ts, close);
        OrderSize(cfg.step, n, close);
        LevelSide(cfg, close, u.grid.trend, n);
        if AdjustedVolume(cfg.step, LevelVolume(n, close)).Some? {
          assert OpensLevel(cfg, w, w', n, ts, close);
        }
      }
    }
    forall n | OpensLevel(cfg, w, w', n, ts, close)
      ensures ready && WantedLevel(cfg, u.grid, close) == Some(n)
    {
      assert n in w'.grid.levels;
    }
  }

  lemma LevelSide(cfg: Config, close: real, trend: real, n: int)
    requires ValidConfig(cfg) && trend > 0.0 && n != 0
    requires GridLevels.HoldsPrice(n, close, trend, Width(cfg, trend))
    ensures n > 0 <==> close > trend
  {
    var width := Width(cfg, trend);
    GridLevels.WidthIsPositive(cfg.radiusPercent, cfg.levelsPerSide, trend);
    assert Times(0.0, width) == 0.0;
    GridLevels.OrderOfWidths(0.0, n as real, width);
    GridLevels.OrderOfWidths(n as real, 0.0, width);
  }

  /** The order of a level is the amount's volume, rounded to the nearest lot, on the level's side. */
  lemma OrderSize(step: real, n: int, close: real)
    requires step > 0.0 && close > 0.0
    ensures var a := AdjustedVolume(step, LevelVolume(n, close));
      a.Some? ==>
        && SideOf(a.value) == (if n > 0 then Sell else Buy)
        && 2.0 * Abs(Abs(a.value) - POSITION_AMOUNT / close) <= step
  {
    RoundToLotIsNearestAndIdempotent(step, LevelVolume(n, close));
    AmountIsPositive(close);
  }

  /** A candle keeps the invariant, whether it opens a level, does nothing, or crashes the run. */
  lemma CandleKeepsInv(cfg: Config, w: World, ts: int, close: real)
    requires ValidConfig(cfg) && Inv(cfg, w) && w.sys.q != [] && w.sys.q[0] == OnCandle(ts, close)
    ensures TrendReady(w.grid.twma, ts) && close > 0.0
    ensures Inv(cfg, Step(cfg, w))
  {
    TrendUpdated(cfg, w, ts, close);
    CandleForm(cfg, w, ts, close);
    var (u, ready) := UpdateTrend(Pop(w), ts, close);
    if ready {
      var n := WantedLevel(cfg, u.grid, close);
      if n.Some? {
        OpenedLevelKeepsInv(cfg, u, n.value, ts, close);
      }
    }
  }

  /** A candle crashes the run exactly when the grid lacks a level and the amount is worth less than half a lot. */
  lemma CandleCrashesExactly(cfg: Config, w: World, ts: int, close: real)
    requires ValidConfig(cfg) && w.sys.q != [] && w.sys.q[0] == OnCandle(ts, close) && QuietGateway(w.sys)
    requires TrendReady(w.grid.twma, ts) && close > 0.0
    ensures var average := Averages.Push(w.grid.twma, ts, close).result;
      Step(cfg, w).crashed <==>
        || w.crashed
        || (&& average.Some? && !BuysLot(cfg.step, close)
            && exists n :: Lacks(cfg, w.grid.levels, average.value, close, n))
  {
    CandleForm(cfg, w, ts, close);
    var (u, ready) := UpdateTrend(Pop(w), ts, close);
    if ready {
      WantedExactly(cfg, u.grid, close);
      if WantedLevel(cfg, u.grid, close).Some? {
        OpenLevelForm(cfg, u, WantedLevel(cfg, u.grid, close).value, ts, close);
      }
    }
  }

  lemma OpenedLevelKeepsInv(cfg: Config, w: World, n: int, ts: int, close: real)
    requires ValidConfig(cfg) && Inv(cfg, w) && close > 0.0 && w.grid.trend > 0.0
    requires WantedLevel(cfg, w.grid, close) == Some(n)
    ensures Inv(cfg, OpenLevel(cfg, w, n, ts, close))
  {
    OpenLevelForm(cfg, w, n, ts, close);
    var a := AdjustedVolume(cfg.step, LevelVolume(n, close));
    if a.Some? {
      var o := MarketOrder(SideOf(a.value), Abs(a.value), 0.0, close, ts);
      var t := PushOrder(w.sys.gw, w.sys.next, o.target, o.side, ts).gw.log[|w.sys.gw.log|];
      OpenedKeepsInv(cfg, w, n, o, t);
    } else {
      CrashKeepsInv(cfg, w);
    }
  }

  lemma CrashKeepsInv(cfg: Config, w: World)
    requires Inv(cfg, w)
    ensures Inv(cfg, w.(sys := Reported(w.sys), crashed := true))
  {
    var w' := w.(sys := Reported(w.sys), crashed := true);
    ReportKeepsOrders(cfg, w.sys, w'.sys, w.grid.levels);
    forall e | e in w'.sys.q ensures EventOk(cfg.step, w'.sys, e) {
      EventKept(cfg.step, w.sys, w'.sys, e);
    }
    LevelsKept(cfg, w, w');
    ListsKept(w.sys, w'.sys);
    TotalKept(cfg, w, w');
  }

  lemma ReportKeepsOrders(cfg: Config, s: Sys, s': Sys, levels: map<int, Level>)
    requires s' == Reported(s) && OrdersOk(cfg.step, s, levels) && CondsOk(cfg.step, s, levels)
    ensures OrdersOk(cfg.step, s', levels) && CondsOk(cfg.step, s', levels)
  {
    forall g | g in s'.om.orders ensures OrderOk(cfg.step, s', levels, g) {
      OrderStays(cfg.step, s, s', levels, levels, g);
    }
    forall k: Kind, g | g in s'.om.conds.Get(k) ensures CondOk(cfg.step, s', levels, k, g) {
      CondStays(cfg.step, s, s', levels, levels, k, g);
    }
  }
}
