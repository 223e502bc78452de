/** Whole backtest runs of the grid: the queue drains after every price, and the invariant holds throughout. */
module GridRun {
  import opened Common
  import opened Lots
  import opened Events
  import opened Gateway
  import opened OrderManager
  import opened DynamicGrid
  import opened GridInvariant
  import opened GridQuietSteps
  import opened GridClose
  import opened GridPlace
  import opened GridBracket
  import opened GridCandle
  import opened GridPrice
  import opened GridStep
  import GridLevels
  import Candles

  // ----- the measure -----

  function Tally(f: Event -> nat, q: seq<Event>): nat {
    if q == [] then 0 else f(q[0]) + Tally(f, q[1..])
  }

  function CandleWeight(e: Event): nat {
    if e.OnCandle? then 1 else 0
  }

  /** News of a trade or of a conditional order may call a subscriber back; nothing else causes events. */
  function WorkWeight(e: Event): nat {
    if e.OmTrade? || e.OmCond? then 2 else 1
  }

  function Bare(levels: map<int, Level>): set<int> {
    set n | n in levels && levels[n].bracket.None?
  }

  function Resting(gw: GatewayState): nat {
    |gw.lists.tp| + |gw.lists.sl|
  }

  /** Candles to come, levels without a bracket, resting conditional orders, events: in this order. */
  ghost predicate Closer(w': World, w: World) {
    var c', c := Tally(CandleWeight, w'.sys.q), Tally(CandleWeight, w.sys.q);
    var b', b := |Bare(w'.grid.levels)|, |Bare(w.grid.levels)|;
    var r', r := Resting(w'.sys.gw), Resting(w.sys.gw);
    || c' < c
    || (c' == c && b' < b)
    || (c' == c && b' == b && r' < r)
    || (c' == c && b' == b && r' == r && Tally(WorkWeight, w'.sys.q) < Tally(WorkWeight, w.sys.q))
  }

  lemma {:induction false} TallyAppend(f: Event -> nat, q: seq<Event>, r: seq<Event>)
    ensures Tally(f, q + r) == Tally(f, q) + Tally(f, r)
  {
    if q == [] {
      assert q + r == r;
    } else {
      assert (q + r)[1..] == q[1..] + r;
      TallyAppend(f, q[1..], r);
    }
  }

  lemma {:induction false} TallyNone(q: seq<Event>)
    requires forall e :: e in q ==> !e.OnCandle?
    ensures Tally(CandleWeight, q) == 0
  {
    if q != [] {
      TallyNone(q[1..]);
    }
  }

  lemma {:induction false} TallyDiscard(f: Event -> nat, q: seq<Event>, g: Guid)
    ensures Tally(f, Discard(q, g)) <= Tally(f, q)
  {
    if q != [] {
      TallyDiscard(f, q[1..], g);
      if !OwnedBy(q[0], g) {
        assert ([q[0]] + Discard(q[1..], g))[1..] == Discard(q[1..], g);
      }
    }
  }

  /** A step that only replaces the head by lighter news comes closer. */
  lemma LighterNews(w: World, w': World, news: seq<Event>)
    requires w.sys.q != [] && w'.sys.q == w.sys.q[1..] + news && !w.sys.q[0].OnCandle?
    requires forall e :: e in news ==> !e.OnCandle?
    requires Tally(WorkWeight, news) < WorkWeight(w.sys.q[0])
    requires w'.grid.levels == w.grid.levels && w'.sys.gw == w.sys.gw
    ensures Closer(w', w)
  {
    TallyAppend(CandleWeight, w.sys.q[1..], news);
    TallyAppend(WorkWeight, w.sys.q[1..], news);
    TallyNone(news);
  }

  lemma NothingNew(w: World, w': World)
    requires w.sys.q != [] && w'.sys.q == w.sys.q[1..] && !w.sys.q[0].OnCandle?
    requires w'.grid.levels == w.grid.levels && w'.sys.gw == w.sys.gw
    ensures Closer(w', w)
  {
  }

  lemma OneCallback(w: World, w': World, e: Event)
    requires w.sys.q != [] && w'.sys.q == w.sys.q[1..] + [e] && (w.sys.q[0].OmTrade? || w.sys.q[0].OmCond?)
    requires e.MoCallback? || e.CondCallback?
    requires w'.grid.levels == w.grid.levels && w'.sys.gw == w.sys.gw
    ensures Closer(w', w)
  {
    assert [e][1..] == [];
    assert Tally(WorkWeight, [e]) == WorkWeight(e);
    LighterNews(w, w', [e]);
  }

  // ----- the cases -----

  lemma OrderTradeCloser(cfg: Config, w: World, t: Trade)
    requires ValidConfig(cfg) && Protocol(cfg, w) && w.sys.q != [] && w.sys.q[0] == OmTrade(t)
    requires t.guid in w.sys.om.orders
    ensures Closer(Step(cfg, w), w)
  {
    HeadTradeOfOrder(cfg, w, t);
    var n := w.sys.om.orders[t.guid].subs[0];
    assert NotifyOrder(t.guid, w.sys.om.orders[t.guid].subs) == [MoCallback(t.guid, n)];
    OneCallback(w, Step(cfg, w), MoCallback(t.guid, n));
  }

  lemma CondTradeCloser(cfg: Config, w: World, t: Trade)
    requires ValidConfig(cfg) && Protocol(cfg, w) && Settled(w.sys) && w.sys.q != [] && w.sys.q[0] == OmTrade(t)
    requires t.guid !in w.sys.om.orders
    ensures Closer(Step(cfg, w), w)
  {
    var k := HeadTradeOfCond(cfg, w, t);
    OnTradeOfCond(w.sys.om, k, t);
    var n := w.sys.om.conds.Get(k)[t.guid].subs[0];
    assert NotifyCond(k, t.guid, w.sys.om.conds.Get(k)[t.guid].subs) == [CondCallback(k, t.guid, n)];
    OneCallback(w, Step(cfg, w), CondCallback(k, t.guid, n));
  }

  lemma TradeCloser(cfg: Config, w: World, t: Trade)
    requires ValidConfig(cfg) && Good(cfg, w) && w.sys.q != [] && w.sys.q[0] == OmTrade(t)
    ensures Closer(Step(cfg, w), w)
  {
    if t.guid in w.sys.om.orders {
      OrderTradeCloser(cfg, w, t);
    } else {
      CondTradeCloser(cfg, w, t);
    }
  }

  lemma CondNewsCloser(cfg: Config, w: World, k: Kind, g: Guid, active: bool)
    requires ValidConfig(cfg) && Settled(w.sys) && w.sys.q != [] && w.sys.q[0] == OmCond(k, g, active)
    ensures Closer(Step(cfg, w), w)
  {
    if g in w.sys.om.conds.Get(k) {
      var n := w.sys.om.conds.Get(k)[g].subs[0];
      assert NotifyCond(k, g, w.sys.om.conds.Get(k)[g].subs) == [CondCallback(k, g, n)];
      OneCallback(w, Step(cfg, w), CondCallback(k, g, n));
    } else {
      assert Pop(w).sys.q + [] == Pop(w).sys.q;
      NothingNew(w, Step(cfg, w));
    }
  }

  /** The candle is gone and sends no other. */
  lemma CandleCloser(cfg: Config, w: World, ts: int, close: real)
    requires ValidConfig(cfg) && Inv(cfg, w) && w.sys.q != [] && w.sys.q[0] == OnCandle(ts, close)
    requires TrendReady(w.grid.twma, ts) && close > 0.0
    ensures Closer(Step(cfg, w), w)
  {
    var news := CandleNews(cfg, w, ts, close);
    TallyAppend(CandleWeight, w.sys.q[1..], news);
    TallyNone(news);
  }

  lemma CandleNews(cfg: Config, w: World, ts: int, close: real) returns (news: seq<Event>)
    requires ValidConfig(cfg) && QuietGateway(w.sys) && w.sys.q != [] && w.sys.q[0] == OnCandle(ts, close)
    requires TrendReady(w.grid.twma, ts) && close > 0.0
    ensures Step(cfg, w).sys.q == w.sys.q[1..] + news && forall e :: e in news ==> !e.OnCandle?
  {
    var (u, ready) := UpdateTrend(Pop(w), ts, close);
    news := [];
    if ready {
      var n := WantedLevel(cfg, u.grid, close);
      if n.Some? {
        OpenLevelForm(cfg, u, n.value, ts, close);
        var a := AdjustedVolume(cfg.step, LevelVolume(n.value, close));
        if a.Some? {
          var o := MarketOrder(SideOf(a.value), Abs(a.value), 0.0, close, ts);
          var t := PushOrder(u.sys.gw, u.sys.next, o.target, o.side, ts).gw.log[|u.sys.gw.log|];
          news := [OmAck(u.sys.next)] + Emit(t);
          assert u.sys.q + news == u.sys.q + [OmAck(u.sys.next)] + Emit(t);
        }
      }
    }
  }

  lemma PlacedQueue(cfg: Config, w: World, k: Kind, req: Request, ts: int) returns (news: seq<Event>)
    ensures PlacedAndTriggered(cfg, w, k, req, ts).sys.q == w.sys.q + news && forall e :: e in news ==> !e.OnCandle?
  {
    var p := Placed(w, k, req);
    var r := TriggerConditionals(p.sys.gw, ts, cfg.wrap);
    TriggersTouchLittle(p, ts, cfg.wrap);
    news := [OmCond(k, req.guid, true)] + r.events;
    assert w.sys.q + news == w.sys.q + [OmCond(k, req.guid, true)] + r.events;
  }

  lemma BothPlacedQueue(cfg: Config, w: World, prices: GridLevels.Bracket, volume: real, ts: int)
    returns (news: seq<Event>)
    ensures BothPlaced(cfg, w, prices, volume, ts).sys.q == w.sys.q + news && forall e :: e in news ==> !e.OnCandle?
  {
    var a := PlacedQueue(cfg, w, Tp, TpRequest(w, prices, volume), ts);
    var b := PlacedQueue(cfg, TpPlaced(cfg, w, prices, volume, ts), Sl, SlRequest(w, prices, volume), ts);
    news := a + b;
    assert w.sys.q + a + b == w.sys.q + news;
  }

  /** The callback of a filled order gives its level a bracket. */
  lemma BracketCloser(cfg: Config, w: World, g: Guid, n: int)
    requires ValidConfig(cfg) && Inv(cfg, w) && w.sys.q != [] && w.sys.q[0] == MoCallback(g, n) && w.grid.trend > 0.0
    ensures Closer(Step(cfg, w), w)
  {
    FilledOrderAttaches(cfg, w, g, n);
    FilledOrder(cfg, w, g, n);
    var o := w.sys.om.orders[g].order;
    var prices, volume := PricesFor(cfg, w, g), ClosingVolume(o);
    var v := BothPlaced(cfg, w, prices, volume, o.ts);
    BothPlacedHolds(cfg, w, prices, volume, o.ts);
    var news := BothPlacedQueue(cfg, w, prices, volume, o.ts);
    BracketAttachedCloser(w, v, g, n, news, NewBracket(w));
  }

  lemma BracketAttachedCloser(w: World, v: World, g: Guid, n: int, news: seq<Event>, b: Both<Guid>)
    requires w.sys.q != [] && w.sys.q[0] == MoCallback(g, n)
    requires v.sys.q == w.sys.q + news && forall e :: e in news ==> !e.OnCandle?
    requires v.grid == w.grid && n in w.grid.levels && w.grid.levels[n].bracket.None?
    requires b.tp in v.sys.om.conds.tp && b.sl in v.sys.om.conds.sl
    ensures Closer(Attached(v, n, b), w)
  {
    assert (w.sys.q + news)[1..] == w.sys.q[1..] + news;
    TallyAppend(CandleWeight, w.sys.q[1..], news);
    TallyNone(news);
    assert Bare(Attached(v, n, b).grid.levels) == Bare(w.grid.levels) - {n};
    assert n in Bare(w.grid.levels);
  }

  lemma CondCallbackCloser(cfg: Config, w: World, k: Kind, g: Guid, n: int)
    requires ValidConfig(cfg) && Inv(cfg, w) && w.sys.q != [] && w.sys.q[0] == CondCallback(k, g, n)
    ensures Closer(Step(cfg, w), w)
  {
    HeadIsHandled(cfg, w);
    if w.sys.om.conds.Get(k)[g].order.Status().Filled? {
      FilledCallbackCloses(cfg, w, k, g, n);
      ClosedCloser(w, k, n);
    } else {
      NothingNew(w, Step(cfg, w));
    }
  }

  /** Closing a level takes the partner of the filled order out of the gateway. */
  lemma ClosedCloser(w: World, k: Kind, n: int)
    requires w.sys.q != [] && n in w.grid.levels && w.grid.levels[n].bracket.Some?
    requires var b := w.grid.levels[n].bracket.value;
      IndexOf(w.sys.gw.lists.Get(k.Other()), b.Get(k.Other())) < |w.sys.gw.lists.Get(k.Other())|
    ensures Closer(Closed(w, k, n), w)
  {
    var l := w.grid.levels[n];
    ClosedTally(w.sys.q[1..], k, n, l.mo, l.bracket.value);
    assert Bare(Closed(w, k, n).grid.levels) == Bare(w.grid.levels);
  }

  lemma ClosedTally(q: seq<Event>, k: Kind, n: int, mo: Guid, b: Both<Guid>)
    ensures Tally(CandleWeight, ClosedQueue(q, k, n, mo, b)) <= Tally(CandleWeight, q)
  {
    var c, d := [CondCallback(k.Other(), b.Get(k.Other()), n)], [OmCond(k.Other(), b.Get(k.Other()), false)];
    var x := q + c + d;
    TallyAppend(CandleWeight, q, c);
    TallyAppend(CandleWeight, q + c, d);
    TallyNone(c);
    TallyNone(d);
    TallyDiscard(CandleWeight, x, b.sl);
    TallyDiscard(CandleWeight, Discard(x, b.sl), b.tp);
    TallyDiscard(CandleWeight, Discard(Discard(x, b.sl), b.tp), mo);
  }

  /** Every event that is handled brings the run closer to the next price. */
  lemma StepCloser(cfg: Config, w: World)
    requires ValidConfig(cfg) && Good(cfg, w) && w.sys.q != [] && Handles(w, w.sys.q[0])
    ensures Closer(Step(cfg, w), w)
  {
    HeadIsHandled(cfg, w);
    match w.sys.q[0]
    case OmAck(g) => NothingNew(w, Step(cfg, w));
    case OmTrade(t) => TradeCloser(cfg, w, t);
    case OmCond(k, g, active) => CondNewsCloser(cfg, w, k, g, active);
    case SiTrade(t) => NothingNew(w, Step(cfg, w));
    case OnCandle(ts, close) => CandleCloser(cfg, w, ts, close);
    case MoCallback(g, n) => BracketCloser(cfg, w, g, n);
    case CondCallback(k, g, n) => CondCallbackCloser(cfg, w, k, g, n);
    case _ => assert false;
  }

  // ----- runs -----

  /** The event loop handles events of Normal priority until none is left, or the run crashes. */
  function Drain(cfg: Config, w: World): (r: World)
    requires ValidConfig(cfg) && Sound(cfg, w)
    ensures Sound(cfg, r)
    ensures r.sys.q == [] || r.crashed
    ensures r.builder == w.builder
    decreases Tally(CandleWeight, w.sys.q), |Bare(w.grid.levels)|, Resting(w.sys.gw), Tally(WorkWeight, w.sys.q)
  {
    if w.sys.q == [] || w.crashed then w
    else
      StepLeadsOn(cfg, w);
      Drain(cfg, Step(cfg, w))
  }

  /** What each turn of the event loop relies on and achieves. */
  lemma StepLeadsOn(cfg: Config, w: World)
    requires ValidConfig(cfg) && Sound(cfg, w) && w.sys.q != []
    ensures Handles(w, w.sys.q[0])
    ensures Sound(cfg, Step(cfg, w)) && Closer(Step(cfg, w), w) && Step(cfg, w).builder == w.builder
  {
    SoundIsGood(cfg, w);
    StepKeepsGood(cfg, w);
    StepCloser(cfg, w);
    StepKeepsBuilder(cfg, w);
    SoundIsGood(cfg, Step(cfg, w));
  }

  lemma StepKeepsBuilder(cfg: Config, w: World)
    requires ValidConfig(cfg) && w.sys.q != [] && Handles(w, w.sys.q[0])
    ensures Step(cfg, w).builder == w.builder
  {
  }

  /** The prices of a run: positive, in non-descending order of time, which does not begin before zero. */
  ghost predicate Prices(prices: seq<Candles.PublicTrade>) {
    && Candles.Ordered(prices)
    && forall i :: 0 <= i < |prices| ==> prices[i].price > 0.0
  }

  /**
   * The run through the first `n` prices. A price is of Low priority, so it is taken only when the
   * queue has drained.
   */
  function Run(cfg: Config, prices: seq<Candles.PublicTrade>, n: nat): (r: World)
    requires ValidConfig(cfg) && Prices(prices) && n <= |prices|
    ensures Sound(cfg, r)
    ensures r.sys.q == [] || r.crashed
    ensures n < |prices| && !r.crashed ==> r.builder.start <= prices[n].ts
  {
    if n == 0 then
      StartIsGood(cfg);
      Start(cfg)
    else
      var before := Run(cfg, prices, n - 1);
      if before.crashed then before
      else
        PriceLeadsOn(cfg, before, prices, n - 1);
        Drain(cfg, PriceStep(cfg, before, prices[n - 1]))
  }

  /** A price that is due can be taken. */
  lemma PriceLeadsOn(cfg: Config, w: World, prices: seq<Candles.PublicTrade>, n: nat)
    requires ValidConfig(cfg) && Sound(cfg, w) && w.sys.q == [] && Prices(prices) && n < |prices|
    requires w.builder.start <= prices[n].ts
    ensures w.builder.timeframe > 0 && w.builder.start >= 0
    ensures Sound(cfg, PriceStep(cfg, w, prices[n]))
    ensures n + 1 < |prices| ==> PriceStep(cfg, w, prices[n]).builder.start <= prices[n + 1].ts
  {
    SoundIsGood(cfg, w);
    PriceStepKeepsGood(cfg, w, prices[n]);
    SoundIsGood(cfg, PriceStep(cfg, w, prices[n]));
  }

  lemma StartIsGood(cfg: Config)
    requires ValidConfig(cfg)
    ensures Sound(cfg, Start(cfg)) && Start(cfg).builder.start == 0
  {
    var w := Start(cfg);
    assert Exposures(w.sys, w.grid.levels) == map[];
    TotalOfNothing(-cfg.levelsPerSide, cfg.levelsPerSide);
    assert IsLot(cfg.step, 0.0) by {
      assert 0.0 == LotsOf(0, cfg.step);
    }
    SoundIsGood(cfg, w);
  }

  lemma {:induction false} TotalOfNothing(lo: int, hi: int)
    ensures Total(map[], lo, hi) == 0.0
    decreases hi - lo
  {
    if lo < hi {
      TotalOfNothing(lo + 1, hi);
    }
  }

  lemma PriceStepKeepsGood(cfg: Config, w: World, t: Candles.PublicTrade)
    requires ValidConfig(cfg) && Good(cfg, w) && w.sys.q == [] && w.builder.start <= t.ts && t.price > 0.0
    ensures Good(cfg, PriceStep(cfg, w, t)) && PriceStep(cfg, w, t).builder.start <= t.ts
  {
    PriceStepKeepsInv(cfg, w, t);
    PriceStepForm(cfg, w, t);
  }
}
