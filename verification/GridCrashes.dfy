/** Which backtest runs of the grid end by an exception: prices that afford half a lot never lead to one. */
module GridCrashes {
  import opened Common
  import opened Lots
  import opened Events
  import opened Gateway
  import opened OrderManager
  import opened DynamicGrid
  import opened GridInvariant
  import opened GridClose
  import opened GridPlace
  import opened GridBracket
  import opened GridCandle
  import opened GridPrice
  import opened GridStep
  import opened GridRun
  import opened GridTheorems
  import opened GridOneCancelsOther
  import Averages = TimeWeightedAverage
  import GridLevels
  import Candles

  /** At this price the order of a level is at least half a lot. */
  predicate Affords(cfg: Config, price: real) {
    price > 0.0 && BuysLot(cfg.step, price)
  }

  /** Every candle that is queued or still open closes at a price that affords an order. */
  ghost predicate CandlesAfford(cfg: Config, w: World) {
    && (forall e :: e in w.sys.q && e.OnCandle? ==> Affords(cfg, e.close))
    && (w.builder.start != 0 ==> Affords(cfg, w.builder.close))
  }

  // ----- candles come from prices only -----

  ghost predicate NoNewCandles(w: World, w': World) {
    forall e :: e in w'.sys.q && e.OnCandle? ==> e in w.sys.q
  }

  lemma AppendedNoCandles(w: World, w': World, news: seq<Event>)
    requires w.sys.q != [] && w'.sys.q == w.sys.q[1..] + news && forall e :: e in news ==> !e.OnCandle?
    ensures NoNewCandles(w, w')
  {
  }

  /** The callbacks that a trade or an update sends are no candles. */
  lemma ManagerSendsNoCandles(cfg: Config, w: World)
    requires ValidConfig(cfg) && w.sys.q != [] && (w.sys.q[0].OmTrade? || w.sys.q[0].OmCond?)
    ensures NoNewCandles(w, Step(cfg, w))
  {
    match w.sys.q[0]
    case OmTrade(t) => AppendedNoCandles(w, Step(cfg, w), OnTrade(w.sys.om, t).events);
    case OmCond(k, g, active) => AppendedNoCandles(w, Step(cfg, w), OnCond(w.sys.om, k, g, active).events);
  }

  lemma BracketSendsNoCandles(cfg: Config, w: World, g: Guid, n: int)
    requires ValidConfig(cfg) && Inv(cfg, w) && w.sys.q != [] && w.sys.q[0] == MoCallback(g, n) && w.grid.trend > 0.0
    ensures NoNewCandles(w, Step(cfg, w))
  {
    FilledOrderAttaches(cfg, w, g, n);
    var o := w.sys.om.orders[g].order;
    var prices, volume := PricesFor(cfg, w, g), ClosingVolume(o);
    var news := BothPlacedQueue(cfg, w, prices, volume, o.ts);
    AttachedNoCandles(w, BothPlaced(cfg, w, prices, volume, o.ts), n, NewBracket(w), news);
  }

  lemma AttachedNoCandles(w: World, v: World, n: int, b: Both<Guid>, news: seq<Event>)
    requires w.sys.q != [] && v.sys.q == w.sys.q + news && forall e :: e in news ==> !e.OnCandle?
    requires n in v.grid.levels && b.tp in v.sys.om.conds.tp && b.sl in v.sys.om.conds.sl
    ensures NoNewCandles(w, Attached(v, n, b))
  {
    assert (w.sys.q + news)[1..] == w.sys.q[1..] + news;
    AppendedNoCandles(w, Attached(v, n, b), news);
  }

  lemma ClosingSendsNoCandles(cfg: Config, w: World, k: Kind, g: Guid, n: int)
    requires ValidConfig(cfg) && Inv(cfg, w) && w.sys.q != [] && w.sys.q[0] == CondCallback(k, g, n)
    ensures NoNewCandles(w, Step(cfg, w))
  {
    HeadIsHandled(cfg, w);
    if w.sys.om.conds.Get(k)[g].order.Status().Filled? {
      FilledCallbackCloses(cfg, w, k, g, n);
      ClosedNoCandles(w, k, n);
    } else {
      AppendedNoCandles(w, Step(cfg, w), []);
    }
  }

  lemma ClosedNoCandles(w: World, k: Kind, n: int)
    requires w.sys.q != [] && n in w.grid.levels && w.grid.levels[n].bracket.Some?
    requires var b := w.grid.levels[n].bracket.value;
      IndexOf(w.sys.gw.lists.Get(k.Other()), b.Get(k.Other())) < |w.sys.gw.lists.Get(k.Other())|
    ensures NoNewCandles(w, Closed(w, k, n))
  {
    ClosedQueueMembers(w.sys.q[1..], k, n, w.grid.levels[n].mo, w.grid.levels[n].bracket.value);
  }

  lemma StepSendsNoCandles(cfg: Config, w: World)
    requires ValidConfig(cfg) && Good(cfg, w) && w.sys.q != [] && Handles(w, w.sys.q[0])
    ensures NoNewCandles(w, Step(cfg, w))
  {
    HeadIsHandled(cfg, w);
    match w.sys.q[0]
    case OmTrade(_) => ManagerSendsNoCandles(cfg, w);
    case OmCond(_, _, _) => ManagerSendsNoCandles(cfg, w);
    case OnCandle(ts, close) =>
      var news := CandleNews(cfg, w, ts, close);
      AppendedNoCandles(w, Step(cfg, w), news);
    case MoCallback(g, n) => BracketSendsNoCandles(cfg, w, g, n);
    case CondCallback(k, g, n) => ClosingSendsNoCandles(cfg, w, k, g, n);
    case _ =>
  }

  /** An event neither crashes a run whose candles are affordable nor adds one that is not. */
  lemma StepAffords(cfg: Config, w: World)
    requires ValidConfig(cfg) && Sound(cfg, w) && CandlesAfford(cfg, w) && w.sys.q != [] && !w.crashed
    requires Handles(w, w.sys.q[0])
    ensures CandlesAfford(cfg, Step(cfg, w)) && !Step(cfg, w).crashed
  {
    SoundIsGood(cfg, w);
    StepSendsNoCandles(cfg, w);
    StepKeepsBuilder(cfg, w);
    if w.sys.q[0].OnCandle? {
      CandleCrashes(cfg, w, w.sys.q[0].ts, w.sys.q[0].close);
    } else {
      OnlyCandlesCrash(cfg, w);
    }
  }

  lemma {:induction false} DrainAffords(cfg: Config, w: World)
    requires ValidConfig(cfg) && Sound(cfg, w) && CandlesAfford(cfg, w) && !w.crashed
    ensures CandlesAfford(cfg, Drain(cfg, w)) && !Drain(cfg, w).crashed
    decreases Tally(CandleWeight, w.sys.q), |Bare(w.grid.levels)|, Resting(w.sys.gw), Tally(WorkWeight, w.sys.q)
  {
    if w.sys.q != [] {
      StepLeadsOn(cfg, w);
      StepAffords(cfg, w);
      DrainAffords(cfg, Step(cfg, w));
    }
  }

  // ----- prices -----

  lemma PushedCandlesAfford(cfg: Config, b: Candles.Builder, t: Candles.PublicTrade)
    requires b.timeframe > 0 && b.start >= 0 && Affords(cfg, t.price) && (b.start != 0 ==> Affords(cfg, b.close))
    ensures forall c :: c in Candles.Push(b, t).candles ==> Affords(cfg, c.close)
    ensures Affords(cfg, Candles.Push(b, t).builder.close)
  {
  }

  lemma PriceAffords(cfg: Config, w: World, t: Candles.PublicTrade)
    requires ValidConfig(cfg) && Inv(cfg, w) && w.sys.q == [] && !w.crashed
    requires CandlesAfford(cfg, w) && Affords(cfg, t.price)
    ensures CandlesAfford(cfg, PriceStep(cfg, w, t)) && !PriceStep(cfg, w, t).crashed
  {
    PriceStepForm(cfg, w, t);
    PricedHasNoCandles(cfg, w, t);
    PushedCandlesAfford(cfg, w.builder, t);
    var candles := Candles.Push(w.builder, t).candles;
    forall e | e in PriceStep(cfg, w, t).sys.q && e.OnCandle? ensures Affords(cfg, e.close) {
      assert e in CandleEvents(candles);
      var i :| 0 <= i < |candles| && e == OnCandle(candles[i].ts, candles[i].close);
      assert candles[i] in candles;
    }
  }

  lemma NextAffords(cfg: Config, w: World, prices: seq<Candles.PublicTrade>, n: nat)
    requires ValidConfig(cfg) && Sound(cfg, w) && w.sys.q == [] && Prices(prices) && n < |prices|
    requires w.builder.start <= prices[n].ts && CandlesAfford(cfg, w) && Affords(cfg, prices[n].price) && !w.crashed
    ensures w.builder.timeframe > 0 && w.builder.start >= 0
    ensures Sound(cfg, PriceStep(cfg, w, prices[n]))
    ensures var w' := Drain(cfg, PriceStep(cfg, w, prices[n])); CandlesAfford(cfg, w') && !w'.crashed
  {
    PriceLeadsOn(cfg, w, prices, n);
    SoundIsGood(cfg, w);
    PriceAffords(cfg, w, prices[n]);
    DrainAffords(cfg, PriceStep(cfg, w, prices[n]));
  }

  /** The first `n` prices afford an order. */
  ghost predicate AllAfford(cfg: Config, prices: seq<Candles.PublicTrade>, n: nat)
    requires n <= |prices|
  {
    forall i :: 0 <= i < n ==> Affords(cfg, prices[i].price)
  }

  ghost predicate RunAffordable(cfg: Config, prices: seq<Candles.PublicTrade>, n: nat)
    requires ValidConfig(cfg) && Prices(prices) && n <= |prices|
  {
    CandlesAfford(cfg, Run(cfg, prices, n)) && !Run(cfg, prices, n).crashed
  }

  lemma StartAffords(cfg: Config, prices: seq<Candles.PublicTrade>)
    requires ValidConfig(cfg) && Prices(prices)
    ensures RunAffordable(cfg, prices, 0)
  {
  }

  lemma NextRunAffords(cfg: Config, prices: seq<Candles.PublicTrade>, n: nat)
    requires ValidConfig(cfg) && Prices(prices) && n < |prices| && RunAffordable(cfg, prices, n)
    requires Affords(cfg, prices[n].price)
    ensures RunAffordable(cfg, prices, n + 1)
  {
    NextAffords(cfg, Run(cfg, prices, n), prices, n);
  }

  /** What holds at the start and survives every price holds after each number of prices. */
  lemma {:induction false} AfterEachPrice(holds: nat -> bool, n: nat)
    requires holds(0)
    requires forall i: nat {:trigger holds(i)} :: i < n && holds(i) ==> holds(i + 1)
    ensures holds(n)
  {
    if n > 0 {
      AfterEachPrice(holds, n - 1);
      assert holds(n - 1);
    }
  }

  lemma RunAffords(cfg: Config, prices: seq<Candles.PublicTrade>, n: nat)
    requires ValidConfig(cfg) && Prices(prices) && n <= |prices| && AllAfford(cfg, prices, n)
    ensures RunAffordable(cfg, prices, n)
  {
    StartAffords(cfg, prices);
    forall i: nat | i < n && RunAffordable(cfg, prices, i) ensures RunAffordable(cfg, prices, i + 1) {
      assert Affords(cfg, prices[i].price);
      NextRunAffords(cfg, prices, i);
    }
    AfterEachPrice((i: nat) => i <= n && RunAffordable(cfg, prices, i), n);
  }

  /** A run does not crash as long as every price affords an order of half a lot. */
  lemma AffordableRunsDoNotCrash(cfg: Config, prices: seq<Candles.PublicTrade>, n: nat)
    requires ValidConfig(cfg) && Prices(prices) && n <= |prices|
    requires forall i :: 0 <= i < n ==> 2.0 * POSITION_AMOUNT / prices[i].price >= cfg.step
    ensures !Run(cfg, prices, n).crashed
  {
    RunAffords(cfg, prices, n);
    assert RunAffordable(cfg, prices, n);
  }

  /** Quiescent agreement, from configuration and prices alone. */
  lemma AffordableRunAgrees(cfg: Config, prices: seq<Candles.PublicTrade>, n: nat)
    requires ValidConfig(cfg) && Prices(prices) && n <= |prices|
    requires forall i :: 0 <= i < n ==> 2.0 * POSITION_AMOUNT / prices[i].price >= cfg.step
    ensures Agreement(cfg, Run(cfg, prices, n)) && Run(cfg, prices, n).sys.om.errors == 0
  {
    AffordableRunsDoNotCrash(cfg, prices, n);
    RunAgrees(cfg, prices, n);
  }

  /** One cancels the other, from configuration and prices alone. */
  lemma AffordableRunCancels(cfg: Config, prices: seq<Candles.PublicTrade>, n: nat, g: Guid)
    requires ValidConfig(cfg) && Prices(prices) && n <= |prices|
    requires forall i :: 0 <= i < n ==> 2.0 * POSITION_AMOUNT / prices[i].price >= cfg.step
    ensures var w := Run(cfg, prices, n);
      g in w.partner ==> PairRests(w, g, w.partner[g]) || PairDone(w, g, w.partner[g])
  {
    AffordableRunsDoNotCrash(cfg, prices, n);
    OneCancelsOther(cfg, prices, n, g);
  }

  // ----- a run that crashes -----

  /** A world in which nothing rests: a price only completes candles. */
  lemma PriceAlone(cfg: Config, w: World, t: Candles.PublicTrade)
    requires ValidConfig(cfg) && w.builder.timeframe > 0 && w.builder.start >= 0 && QuietGateway(w.sys)
    requires w.sys.q == [] && w.sys.gw.lists == Both([], [])
    ensures var built := Candles.Push(w.builder, t);
      PriceStep(cfg, w, t)
        == w.(sys := w.sys.(gw := w.sys.gw.(lastPrice := t.price), q := CandleEvents(built.candles)),
              builder := built.builder)
  {
    PriceStepForm(cfg, w, t);
    var u := WithPrice(w, t.price);
    assert TriggerConditionals(u.sys.gw, t.ts, cfg.wrap) == Reply(u.sys.gw, []);
    var events := CandleEvents(Candles.Push(w.builder, t).candles);
    assert w.sys.q + [] == [] && [] + events == events;
  }

  function CrashConfig(wrap: bool): Config {
    Config(1.0, 1, 1, 2, 100.0, wrap)
  }

  const CRASH_PRICES :=
    [Candles.PublicTrade(1, 1000.0, 1.0), Candles.PublicTrade(2, 1600.0, 1.0), Candles.PublicTrade(3, 1600.0, 1.0)]

  lemma FirstPrice(wrap: bool)
    ensures ValidConfig(CrashConfig(wrap)) && Prices(CRASH_PRICES)
    ensures var w := Run(CrashConfig(wrap), CRASH_PRICES, 1);
      && w.sys.q == [] && !w.crashed && w.sys.gw.lists == Both([], []) && w.grid == Start(CrashConfig(wrap)).grid
      && w.builder.start == 1 && w.builder.timeframe == 1 && w.builder.close == 1000.0
  {
    var cfg := CrashConfig(wrap);
    var w := Run(cfg, CRASH_PRICES, 0);
    PriceLeadsOn(cfg, w, CRASH_PRICES, 0);
    SoundIsGood(cfg, w);
    PriceAlone(cfg, w, CRASH_PRICES[0]);
  }

  /** The first candle gives the moving average its first point. */
  lemma SecondPrice(wrap: bool)
    ensures ValidConfig(CrashConfig(wrap)) && Prices(CRASH_PRICES)
    ensures var w := Run(CrashConfig(wrap), CRASH_PRICES, 2);
      && w.sys.q == [] && !w.crashed && w.sys.gw.lists == Both([], [])
      && w.grid.levels == map[] && w.grid.twma == Averages.Twma(1, [Averages.Point(1, 1000.0, 0.0)], 0.0, 0.0)
      && w.builder.start == 2 && w.builder.timeframe == 1 && w.builder.close == 1600.0
  {
    var cfg := CrashConfig(wrap);
    FirstPrice(wrap);
    var w := Run(cfg, CRASH_PRICES, 1);
    var t := CRASH_PRICES[1];
    PriceLeadsOn(cfg, w, CRASH_PRICES, 1);
    SoundIsGood(cfg, w);
    FirstCandleCloses(cfg, w, t);
    var p := PriceStep(cfg, w, t);
    FirstCandle(cfg, p);
    DrainOne(cfg, p);
  }

  lemma FirstCandleCloses(cfg: Config, w: World, t: Candles.PublicTrade)
    requires ValidConfig(cfg) && w.builder.timeframe == 1 && w.builder.start == 1 && w.builder.close == 1000.0
    requires w.sys.q == [] && w.sys.gw.lists == Both([], []) && QuietGateway(w.sys) && t.ts == 2 && t.price == 1600.0
    ensures var p := PriceStep(cfg, w, t);
      && p.sys.q == [OnCandle(1, 1000.0)] && p.sys.gw.lists == Both([], [])
      && p.crashed == w.crashed && p.grid == w.grid
      && p.builder.start == 2 && p.builder.timeframe == 1 && p.builder.close == 1600.0
  {
    PriceAlone(cfg, w, t);
    assert Candles.Frame(1, 2) == 2 && Candles.Frame(1, 1) == 1;
  }

  lemma FirstCandle(cfg: Config, w: World)
    requires ValidConfig(cfg) && w.sys.q == [OnCandle(1, 1000.0)] && w.grid.twma == Averages.Twma(1, [], 0.0, 0.0)
    ensures Handles(w, w.sys.q[0])
    ensures Step(cfg, w) == w.(sys := w.sys.(q := []),
                               grid := w.grid.(twma := Averages.Twma(1, [Averages.Point(1, 1000.0, 0.0)], 0.0, 0.0)))
  {
    assert w.grid.twma.data + [Averages.Point(1, 1000.0, 0.0)] == [Averages.Point(1, 1000.0, 0.0)];
    assert w.sys.q[1..] == [];
  }

  /** One event that causes no other, or that crashes the run. */
  lemma DrainOne(cfg: Config, w: World)
    requires ValidConfig(cfg) && Sound(cfg, w) && w.sys.q != [] && !w.crashed && Handles(w, w.sys.q[0])
    requires Step(cfg, w).sys.q == [] || Step(cfg, w).crashed
    ensures Drain(cfg, w) == Step(cfg, w)
  {
    StepLeadsOn(cfg, w);
    assert Drain(cfg, Step(cfg, w)) == Step(cfg, w);
  }

  /** The third price completes the second candle, whose close wants level 1 and affords only a sixteenth of a lot. */
  lemma ThirdPriceCrashes(wrap: bool)
    ensures ValidConfig(CrashConfig(wrap)) && Prices(CRASH_PRICES)
    ensures Run(CrashConfig(wrap), CRASH_PRICES, 3).crashed
  {
    var cfg := CrashConfig(wrap);
    SecondPrice(wrap);
    var w := Run(cfg, CRASH_PRICES, 2);
    var t := CRASH_PRICES[2];
    PriceLeadsOn(cfg, w, CRASH_PRICES, 2);
    SoundIsGood(cfg, w);
    PriceAlone(cfg, w, t);
    var p := PriceStep(cfg, w, t);
    assert p.sys.q == [OnCandle(2, 1600.0)];
    StepLeadsOn(cfg, p);
    SoundIsGood(cfg, p);
    CandleCrashes(cfg, p, 2, 1600.0);
    TrendOfSecondCandle(w.grid.twma);
    SecondCandleLacksLevel(cfg);
    DrainOne(cfg, p);
  }

  lemma TrendOfSecondCandle(t: Averages.Twma)
    requires t == Averages.Twma(1, [Averages.Point(1, 1000.0, 0.0)], 0.0, 0.0) && Averages.Valid(t)
    ensures Averages.Push(t, 2, 1600.0).result == Some(1000.0)
  {
    var closed := Averages.Closed(1, t.data, 2);
    assert closed == [Averages.Point(1, 1000.0, 1.0)];
  }

  lemma SecondCandleLacksLevel(cfg: Config)
    requires cfg.levelsPerSide == 2 && cfg.radiusPercent == 100.0
    ensures Lacks(cfg, map[], 1000.0, 1600.0, 1)
  {
    assert Width(cfg, 1000.0) == 500.0;
    assert GridLevels.LevelPrice(1, 1000.0, 500.0) == 1500.0 && GridLevels.LevelPrice(2, 1000.0, 500.0) == 2000.0;
  }
}
