/** A new price, taken when every earlier event has been handled, keeps the grid's invariant. */
module GridPrice {
  import opened Common
  import opened Events
  import opened Gateway
  import opened OrderManager
  import opened DynamicGrid
  import opened GridInvariant
  import opened GridFire
  import opened GridQuietSteps
  import opened GridPlace
  import Candles

  // ----- the new price itself -----

  function WithPrice(w: World, price: real): World {
    w.(sys := w.sys.(gw := w.sys.gw.(lastPrice := price)))
  }

  /** With an empty queue every market order has its bracket and every conditional order rests. */
  lemma QuietOrders(cfg: Config, w: World)
    requires Protocol(cfg, w) && Settled(w.sys) && w.sys.q == []
    ensures forall g :: g in w.sys.om.orders ==>
      && OrderOk(cfg.step, w.sys, w.grid.levels, g)
      && w.sys.om.orders[g].traded && w.grid.levels[w.sys.om.orders[g].subs[0]].bracket.Some?
    ensures forall k: Kind, g :: g in w.sys.om.conds.Get(k) ==>
      CondOk(cfg.step, w.sys, w.grid.levels, k, g) && Live(w.sys, k, g) && |w.sys.om.conds.Get(k)[g].subs| == 1
  {
  }

  lemma PriceKeepsOrders(cfg: Config, w: World, price: real)
    requires Protocol(cfg, w) && Settled(w.sys) && w.sys.q == []
    ensures var w' := WithPrice(w, price);
      OrdersOk(cfg.step, w'.sys, w'.grid.levels) && CondsOk(cfg.step, w'.sys, w'.grid.levels)
  {
    QuietOrders(cfg, w);
    var w' := WithPrice(w, price);
    forall g | g in w'.sys.om.orders ensures OrderOk(cfg.step, w'.sys, w'.grid.levels, g) {
      assert OrderOk(cfg.step, w.sys, w.grid.levels, g);
    }
    forall k: Kind, g | g in w'.sys.om.conds.Get(k) ensures CondOk(cfg.step, w'.sys, w'.grid.levels, k, g) {
      assert Live(w.sys, k, g);
    }
  }

  /** What does not look at the price stays. */
  lemma PriceKeepsRest(cfg: Config, w: World, price: real)
    requires LevelsOk(cfg, w.sys, w.partner, w.grid.levels) && ListsOk(w.sys) && GuidsOk(w.sys)
    requires PartnersOk(w.sys, w.partner)
    ensures var w' := WithPrice(w, price);
      && LevelsOk(cfg, w'.sys, w'.partner, w'.grid.levels) && ListsOk(w'.sys) && GuidsOk(w'.sys)
      && PartnersOk(w'.sys, w'.partner) && TotalExposure(cfg, w') == TotalExposure(cfg, w)
  {
    var w' := WithPrice(w, price);
    assert ListOk(w.sys, Tp) && ListOk(w.sys, Sl);
    forall n | n in w.grid.levels
      ensures LevelOk(cfg, w'.sys, w.partner, n, w.grid.levels[n])
      ensures Exposure(w'.sys, w.grid.levels[n]) == Exposure(w.sys, w.grid.levels[n])
    {
      assert LevelOk(cfg, w.sys, w.partner, n, w.grid.levels[n]);
    }
    assert Exposures(w'.sys, w.grid.levels) == Exposures(w.sys, w.grid.levels);
  }

  lemma PriceKeepsInv(cfg: Config, w: World, price: real)
    requires Inv(cfg, w) && Settled(w.sys) && w.sys.q == []
    ensures Inv(cfg, WithPrice(w, price))
  {
    PriceKeepsOrders(cfg, w, price);
    PriceKeepsRest(cfg, w, price);
  }

  // ----- the candles that the price completes -----

  function Completed(w: World, built: Candles.Built): World {
    w.(sys := w.sys.(q := w.sys.q + CandleEvents(built.candles)), builder := built.builder)
  }

  lemma CandlesAreNews(q: seq<Event>, candles: seq<Candles.Candle>, g: Guid)
    ensures SameOrderNews(q, q + CandleEvents(candles), g)
    ensures forall k: Kind :: SameCondNews(q, q + CandleEvents(candles), k, g)
  {
    TradeInAppend(q, CandleEvents(candles), g);
  }

  lemma CompletedArranged(q: seq<Event>, candles: seq<Candles.Candle>)
    requires Arranged(q) && forall e :: e in q ==> !e.OnCandle?
    requires forall i, j :: 0 <= i < j < |candles| ==> candles[i].ts < candles[j].ts
    ensures Arranged(q + CandleEvents(candles))
  {
  }

  lemma CompletedOrders(cfg: Config, w: World, built: Candles.Built)
    requires OrdersOk(cfg.step, w.sys, w.grid.levels) && CondsOk(cfg.step, w.sys, w.grid.levels)
    ensures var w' := Completed(w, built);
      OrdersOk(cfg.step, w'.sys, w'.grid.levels) && CondsOk(cfg.step, w'.sys, w'.grid.levels)
  {
    var w' := Completed(w, built);
    forall g | g in w'.sys.om.orders ensures OrderOk(cfg.step, w'.sys, w'.grid.levels, g) {
      CandlesAreNews(w.sys.q, built.candles, g);
      OrderStays(cfg.step, w.sys, w'.sys, w.grid.levels, w'.grid.levels, g);
    }
    forall k: Kind, g | g in w'.sys.om.conds.Get(k) ensures CondOk(cfg.step, w'.sys, w'.grid.levels, k, g) {
      CandlesAreNews(w.sys.q, built.candles, g);
      CondStays(cfg.step, w.sys, w'.sys, w.grid.levels, w'.grid.levels, k, g);
    }
  }

  lemma CompletedEvents(cfg: Config, w: World, built: Candles.Built)
    requires EventsOk(cfg.step, w.sys) && forall c :: c in built.candles ==> c.close > 0.0
    ensures EventsOk(cfg.step, Completed(w, built).sys)
  {
  }

  lemma CompletedTrend(cfg: Config, w: World, built: Candles.Built)
    requires TrendOk(w) && BuilderOk(cfg, w) && forall e :: e in w.sys.q ==> !e.OnCandle?
    requires w.builder.start <= built.builder.start
    requires forall i :: 0 <= i < |built.candles| ==> w.builder.start <= built.candles[i].ts < built.builder.start
    ensures TrendOk(Completed(w, built))
  {
  }

  lemma CompletedKeepsInv(cfg: Config, w: World, t: Candles.PublicTrade)
    requires Inv(cfg, w) && (forall e :: e in w.sys.q ==> !e.OnCandle?) && w.builder.start <= t.ts && t.price > 0.0
    ensures Inv(cfg, Completed(w, Candles.Push(w.builder, t)))
  {
    var built := Candles.Push(w.builder, t);
    var w' := Completed(w, built);
    Candles.EmittedTimestamps(w.builder, t);
    Candles.StartIsNonNegative(w.builder, t);
    PushedCloses(w.builder, t);
    CompletedArranged(w.sys.q, built.candles);
    CompletedOrders(cfg, w, built);
    CompletedEvents(cfg, w, built);
    CompletedTrend(cfg, w, built);
    PendingAppend(w.sys.q, CandleEvents(built.candles));
    PendingNone(CandleEvents(built.candles));
    CompletedKeepsRest(cfg, w, built);
  }

  /** What does not look at the queue or at the builder stays. */
  lemma CompletedKeepsRest(cfg: Config, w: World, built: Candles.Built)
    requires LevelsOk(cfg, w.sys, w.partner, w.grid.levels) && ListsOk(w.sys) && GuidsOk(w.sys)
    requires PartnersOk(w.sys, w.partner)
    ensures var w' := Completed(w, built);
      && LevelsOk(cfg, w'.sys, w'.partner, w'.grid.levels) && ListsOk(w'.sys) && GuidsOk(w'.sys)
      && PartnersOk(w'.sys, w'.partner) && TotalExposure(cfg, w') == TotalExposure(cfg, w)
  {
    var w' := Completed(w, built);
    assert ListOk(w.sys, Tp) && ListOk(w.sys, Sl);
    forall n | n in w.grid.levels
      ensures LevelOk(cfg, w'.sys, w.partner, n, w.grid.levels[n])
      ensures Exposure(w'.sys, w.grid.levels[n]) == Exposure(w.sys, w.grid.levels[n])
    {
      assert LevelOk(cfg, w.sys, w.partner, n, w.grid.levels[n]);
    }
    assert Exposures(w'.sys, w.grid.levels) == Exposures(w.sys, w.grid.levels);
  }

  /** Candles close at prices that were traded, and so does the open one. */
  lemma PushedCloses(b: Candles.Builder, t: Candles.PublicTrade)
    requires b.timeframe > 0 && b.start >= 0 && t.price > 0.0 && (b.start != 0 ==> b.close > 0.0)
    ensures forall c :: c in Candles.Push(b, t).candles ==> c.close > 0.0
    ensures Candles.Push(b, t).builder.close > 0.0
  {
  }

  // ----- the whole step -----

  /** The new price and the trigger loops, before the candles. */
  function Priced(cfg: Config, w: World, t: Candles.PublicTrade): World {
    var u := WithPrice(w, t.price);
    Replied(u, TriggerConditionals(u.sys.gw, t.ts, cfg.wrap))
  }

  /** The gateway of a grid run has no full-position stop, so a price only runs the trigger loops. */
  lemma PriceStepForm(cfg: Config, w: World, t: Candles.PublicTrade)
    requires ValidConfig(cfg) && w.builder.timeframe > 0 && w.builder.start >= 0 && QuietGateway(w.sys)
    ensures PriceStep(cfg, w, t) == Completed(Priced(cfg, w, t), Candles.Push(w.builder, t))
  {
  }

  lemma PricedKeepsInv(cfg: Config, w: World, t: Candles.PublicTrade)
    requires Inv(cfg, w) && Settled(w.sys) && w.sys.q == []
    ensures Inv(cfg, Priced(cfg, w, t))
  {
    PriceKeepsInv(cfg, w, t.price);
    TriggersKeepInv(cfg, WithPrice(w, t.price), t.ts);
  }

  lemma PricedHasNoCandles(cfg: Config, w: World, t: Candles.PublicTrade)
    requires w.sys.q == []
    ensures forall e :: e in Priced(cfg, w, t).sys.q ==> !e.OnCandle?
    ensures Priced(cfg, w, t).builder == w.builder
  {
    TriggersTouchLittle(WithPrice(w, t.price), t.ts, cfg.wrap);
  }

  /** A price keeps the invariant, provided that prices are positive and their timestamps do not descend. */
  lemma PriceStepKeepsInv(cfg: Config, w: World, t: Candles.PublicTrade)
    requires ValidConfig(cfg) && Inv(cfg, w) && Settled(w.sys) && w.sys.q == []
    requires w.builder.start <= t.ts && t.price > 0.0
    ensures Inv(cfg, PriceStep(cfg, w, t)) && PriceStep(cfg, w, t).builder.start <= t.ts
  {
    PricedKeepsInv(cfg, w, t);
    PricedHasNoCandles(cfg, w, t);
    CompletedKeepsInv(cfg, Priced(cfg, w, t), t);
    PriceStepForm(cfg, w, t);
    Candles.StartIsNonNegative(w.builder, t);
  }

  /**
   * What a price queues: first all that the gateway sends, which knows nothing of candles, then the candles; so
   * the manager has heard of every trade of the price when the strategy sees its candles.
   */
  lemma TradesBeforeCandles(cfg: Config, w: World, t: Candles.PublicTrade, i: nat, j: nat)
    requires ValidConfig(cfg) && Inv(cfg, w) && w.sys.q == []
    requires i < j < |PriceStep(cfg, w, t).sys.q|
    ensures var q := PriceStep(cfg, w, t).sys.q; q[i].OnCandle? ==> q[j].OnCandle?
  {
    PriceStepForm(cfg, w, t);
    PricedHasNoCandles(cfg, w, t);
    var sent := Priced(cfg, w, t).sys.q;
    if i < |sent| {
      assert sent[i] in sent;
    }
  }
}
