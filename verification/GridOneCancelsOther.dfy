/** One cancels the other: of the two orders of a bracket at most one ever trades, and the other leaves the gateway. */
module GridOneCancelsOther {
  import opened Common
  import opened Events
  import opened Gateway
  import opened OrderManager
  import opened DynamicGrid
  import opened GridInvariant
  import opened GridQuietSteps
  import opened GridClose
  import opened GridPlace
  import opened GridBracket
  import opened GridPrice
  import opened GridStep
  import opened GridRun
  import opened GridTheorems
  import Candles

  /** The manager still keeps this conditional order. */
  predicate Known(om: OmState, g: Guid) {
    g in om.conds.tp || g in om.conds.sl
  }

  /** A bracket is whole, or both its orders are gone and one of them has traded. */
  ghost predicate PairOk(s: Sys, g: Guid, h: Guid) {
    || (Known(s.om, g) && Known(s.om, h))
    || (!Known(s.om, g) && !Known(s.om, h) && (Traded(s.gw.log, g) || Traded(s.gw.log, h)))
  }

  ghost predicate PairsOk(w: World) {
    forall g :: g in w.partner ==> PairOk(w.sys, g, w.partner[g])
  }

  // ----- the trades only grow -----

  lemma {:induction false} WalkExtendsLog(gw: GatewayState, k: Kind, i: nat, ts: int, wrap: bool)
    requires i <= |gw.lists.Get(k)|
    ensures gw.log <= Walk(gw, k, i, ts, wrap).gw.log
    decreases |gw.lists.Get(k)|, |gw.lists.Get(k)| - i
  {
    var l := gw.lists.Get(k);
    if i < |l| && Triggers(k, l[i], gw.lastPrice) {
      var r := Fire(gw, k, i, ts);
      if i + 1 < |l| {
        WalkExtendsLog(r.gw, k, i + 1, ts, wrap);
      } else if wrap {
        WalkExtendsLog(r.gw, k, 0, ts, wrap);
      }
    } else if i < |l| {
      WalkExtendsLog(gw, k, i + 1, ts, wrap);
    }
  }

  lemma TriggersExtendLog(gw: GatewayState, ts: int, wrap: bool)
    ensures gw.log <= TriggerConditionals(gw, ts, wrap).gw.log
  {
    WalkExtendsLog(gw, Sl, 0, ts, wrap);
    WalkExtendsLog(Walk(gw, Sl, 0, ts, wrap).gw, Tp, 0, ts, wrap);
  }

  /** The manager keeps the same conditional orders, and no bracket is added. */
  ghost predicate SamePairs(w: World, w': World) {
    && w'.partner == w.partner
    && w'.sys.om.conds.tp.Keys == w.sys.om.conds.tp.Keys
    && w'.sys.om.conds.sl.Keys == w.sys.om.conds.sl.Keys
    && w.sys.gw.log <= w'.sys.gw.log
  }

  lemma SamePairsKeepPairs(w: World, w': World)
    requires PairsOk(w) && SamePairs(w, w')
    ensures PairsOk(w')
  {
  }

  // ----- the steps that keep the brackets -----

  lemma TradeKeepsKeys(om: OmState, t: Trade)
    requires forall k: Kind, g :: g in om.conds.Get(k) ==> |om.conds.Get(k)[g].subs| == 1
    ensures OnTrade(om, t).om.conds.tp.Keys == om.conds.tp.Keys
    ensures OnTrade(om, t).om.conds.sl.Keys == om.conds.sl.Keys
  {
  }

  lemma CondNewsKeepsKeys(om: OmState, k: Kind, g: Guid, active: bool)
    ensures OnCond(om, k, g, active).om.conds.tp.Keys == om.conds.tp.Keys
    ensures OnCond(om, k, g, active).om.conds.sl.Keys == om.conds.sl.Keys
  {
  }

  lemma CandleKeepsPairs(cfg: Config, w: World, ts: int, close: real)
    requires ValidConfig(cfg) && TrendReady(w.grid.twma, ts) && close > 0.0
    ensures SamePairs(w, PushCandle(cfg, w, ts, close))
  {
  }

  lemma PlainStepKeepsPairs(cfg: Config, w: World)
    requires ValidConfig(cfg) && Good(cfg, w) && w.sys.q != [] && Handles(w, w.sys.q[0])
    requires !w.sys.q[0].MoCallback? && !w.sys.q[0].CondCallback?
    ensures SamePairs(w, Step(cfg, w))
  {
    match w.sys.q[0]
    case OmTrade(t) => TradeKeepsKeys(w.sys.om, t);
    case OmCond(k, g, active) => CondNewsKeepsKeys(w.sys.om, k, g, active);
    case OnCandle(ts, close) => CandleKeepsPairs(cfg, Pop(w), ts, close);
    case _ =>
  }

  // ----- a new bracket -----

  lemma PlacedExtendsLog(cfg: Config, w: World, k: Kind, req: Request, ts: int)
    ensures w.sys.gw.log <= PlacedAndTriggered(cfg, w, k, req, ts).sys.gw.log
  {
    TriggersExtendLog(Placed(w, k, req).sys.gw, ts, cfg.wrap);
  }

  lemma NewBracketKeepsPairs(w: World, v: World, n: int, tp: Request, sl: Request)
    requires PairsOk(w) && PartnersOk(w.sys, w.partner) && v.sys.q != [] && n in v.grid.levels
    requires v.partner == w.partner && w.sys.gw.log <= v.sys.gw.log
    requires v.sys.om.conds == Both(
      w.sys.om.conds.tp[w.sys.next := PlacedEntry(tp)], w.sys.om.conds.sl[w.sys.next + 1 := PlacedEntry(sl)])
    ensures PairsOk(Attached(v, n, NewBracket(w)))
    ensures forall g :: g in w.partner ==>
      g in Attached(v, n, NewBracket(w)).partner && Attached(v, n, NewBracket(w)).partner[g] == w.partner[g]
  {
    var w' := Attached(v, n, NewBracket(w));
    var tpG, slG := w.sys.next, w.sys.next + 1;
    assert w'.sys.om.conds.tp.Keys == w.sys.om.conds.tp.Keys + {tpG};
    assert w'.sys.om.conds.sl.Keys == w.sys.om.conds.sl.Keys + {slG};
    forall g | g in w'.partner ensures PairOk(w'.sys, g, w'.partner[g]) {
      if g != tpG && g != slG {
        OldPair(w.sys, w'.sys, g, w.partner[g]);
      }
    }
  }

  lemma OldPair(s: Sys, s': Sys, g: Guid, h: Guid)
    requires PairOk(s, g, h) && s.gw.log <= s'.gw.log
    requires (Known(s.om, g) <==> Known(s'.om, g)) && (Known(s.om, h) <==> Known(s'.om, h))
    ensures PairOk(s', g, h)
  {
  }

  lemma BracketKeepsPairs(cfg: Config, w: World, g: Guid, n: int)
    requires ValidConfig(cfg) && Good(cfg, w) && PairsOk(w)
    requires w.sys.q != [] && w.sys.q[0] == MoCallback(g, n) && w.grid.trend > 0.0
    ensures PairsOk(Step(cfg, w)) && PartnersStay(w, Step(cfg, w))
  {
    FilledOrderAttaches(cfg, w, g, n);
    var o := w.sys.om.orders[g].order;
    var prices, volume := PricesFor(cfg, w, g), ClosingVolume(o);
    var u := TpPlaced(cfg, w, prices, volume, o.ts);
    var v := BothPlaced(cfg, w, prices, volume, o.ts);
    BothPlacedHolds(cfg, w, prices, volume, o.ts);
    PlacedExtendsLog(cfg, w, Tp, TpRequest(w, prices, volume), o.ts);
    PlacedExtendsLog(cfg, u, Sl, SlRequest(w, prices, volume), o.ts);
    NewBracketKeepsPairs(w, v, n, TpRequest(w, prices, volume), SlRequest(w, prices, volume));
  }

  // ----- a bracket that dissolves -----

  lemma ClosedKeepsPairs(cfg: Config, w: World, k: Kind, n: int)
    requires PairsOk(w) && PartnersOk(w.sys, w.partner) && GuidsOk(w.sys) && w.sys.q != [] && Closing(cfg, w, k, n)
    requires var b := w.grid.levels[n].bracket.value;
      IndexOf(w.sys.gw.lists.Get(k.Other()), b.Get(k.Other())) < |w.sys.gw.lists.Get(k.Other())|
    ensures PairsOk(Closed(w, k, n))
  {
  }

  lemma CondCallbackKeepsPairs(cfg: Config, w: World, k: Kind, g: Guid, n: int)
    requires ValidConfig(cfg) && Good(cfg, w) && PairsOk(w) && w.sys.q != [] && w.sys.q[0] == CondCallback(k, g, n)
    ensures PairsOk(Step(cfg, w)) && PartnersStay(w, Step(cfg, w))
  {
    HeadIsHandled(cfg, w);
    if w.sys.om.conds.Get(k)[g].order.Status().Filled? {
      FilledCallbackCloses(cfg, w, k, g, n);
      ClosedKeepsPairs(cfg, w, k, n);
    } else {
      SamePairsKeepPairs(w, Step(cfg, w));
    }
  }

  // ----- all steps, all runs -----

  /** No bracket is ever forgotten. */
  ghost predicate PartnersStay(w: World, w': World) {
    forall g :: g in w.partner ==> g in w'.partner && w'.partner[g] == w.partner[g]
  }

  lemma StepKeepsPairs(cfg: Config, w: World)
    requires ValidConfig(cfg) && Good(cfg, w) && PairsOk(w) && w.sys.q != [] && Handles(w, w.sys.q[0])
    ensures PairsOk(Step(cfg, w)) && PartnersStay(w, Step(cfg, w))
  {
    match w.sys.q[0]
    case MoCallback(g, n) => BracketKeepsPairs(cfg, w, g, n);
    case CondCallback(k, g, n) => CondCallbackKeepsPairs(cfg, w, k, g, n);
    case _ =>
      PlainStepKeepsPairs(cfg, w);
      SamePairsKeepPairs(w, Step(cfg, w));
  }

  lemma PriceStepKeepsPairs(cfg: Config, w: World, t: Candles.PublicTrade)
    requires ValidConfig(cfg) && Inv(cfg, w) && PairsOk(w)
    ensures PairsOk(PriceStep(cfg, w, t)) && PartnersStay(w, PriceStep(cfg, w, t))
  {
    PriceStepForm(cfg, w, t);
    TriggersExtendLog(WithPrice(w, t.price).sys.gw, t.ts, cfg.wrap);
    SamePairsKeepPairs(w, PriceStep(cfg, w, t));
  }

  lemma {:induction false} DrainKeepsPairs(cfg: Config, w: World)
    requires ValidConfig(cfg) && Sound(cfg, w) && PairsOk(w)
    ensures PairsOk(Drain(cfg, w)) && PartnersStay(w, Drain(cfg, w))
    decreases Tally(CandleWeight, w.sys.q), |Bare(w.grid.levels)|, Resting(w.sys.gw), Tally(WorkWeight, w.sys.q)
  {
    if w.sys.q != [] && !w.crashed {
      StepLeadsOn(cfg, w);
      SoundStepKeepsPairs(cfg, w);
      DrainKeepsPairs(cfg, Step(cfg, w));
    }
  }

  lemma SoundStepKeepsPairs(cfg: Config, w: World)
    requires ValidConfig(cfg) && Sound(cfg, w) && PairsOk(w) && w.sys.q != [] && Handles(w, w.sys.q[0])
    ensures PairsOk(Step(cfg, w)) && PartnersStay(w, Step(cfg, w))
  {
    SoundIsGood(cfg, w);
    StepKeepsPairs(cfg, w);
  }

  lemma {:induction false} RunKeepsPairs(cfg: Config, prices: seq<Candles.PublicTrade>, n: nat)
    requires ValidConfig(cfg) && Prices(prices) && n <= |prices|
    ensures PairsOk(Run(cfg, prices, n))
  {
    if n == 0 {
      StartHasNoPairs(cfg, prices);
    } else {
      RunKeepsPairs(cfg, prices, n - 1);
      NextKeepsPairs(cfg, prices, n - 1);
    }
  }

  lemma StartHasNoPairs(cfg: Config, prices: seq<Candles.PublicTrade>)
    requires ValidConfig(cfg) && Prices(prices)
    ensures PairsOk(Run(cfg, prices, 0))
  {
  }

  lemma NextKeepsPairs(cfg: Config, prices: seq<Candles.PublicTrade>, n: nat)
    requires ValidConfig(cfg) && Prices(prices) && n < |prices| && PairsOk(Run(cfg, prices, n))
    ensures PairsOk(Run(cfg, prices, n + 1))
  {
    var before := Run(cfg, prices, n);
    if !before.crashed {
      PriceKeepsPairs(cfg, before, prices, n);
    }
  }

  lemma PriceKeepsPairs(cfg: Config, w: World, prices: seq<Candles.PublicTrade>, n: nat)
    requires ValidConfig(cfg) && Sound(cfg, w) && w.sys.q == [] && Prices(prices) && n < |prices| && PairsOk(w)
    requires w.builder.start <= prices[n].ts
    ensures w.builder.timeframe > 0 && w.builder.start >= 0
    ensures Sound(cfg, PriceStep(cfg, w, prices[n]))
    ensures PairsOk(Drain(cfg, PriceStep(cfg, w, prices[n])))
  {
    PriceLeadsOn(cfg, w, prices, n);
    SoundIsGood(cfg, w);
    PriceStepKeepsPairs(cfg, w, prices[n]);
    DrainKeepsPairs(cfg, PriceStep(cfg, w, prices[n]));
  }

  /**
   * One cancels the other, over whole runs: when the next price is due, every bracket ever placed
   * either rests whole and untraded, or has left the gateway with exactly one of its orders traded.
   */
  lemma OneCancelsOther(cfg: Config, prices: seq<Candles.PublicTrade>, n: nat, g: Guid)
    requires ValidConfig(cfg) && Prices(prices) && n <= |prices|
    ensures var w := Run(cfg, prices, n);
      !w.crashed && g in w.partner ==> PairRests(w, g, w.partner[g]) || PairDone(w, g, w.partner[g])
  {
    var w := Run(cfg, prices, n);
    RunKeepsPairs(cfg, prices, n);
    SoundIsGood(cfg, w);
    if !w.crashed && g in w.partner {
      QuietPair(cfg, w, g);
    }
  }

  /** Both orders of a bracket wait in the gateway, and neither has traded. */
  ghost predicate PairRests(w: World, g: Guid, h: Guid) {
    && InGateway(w.sys.gw, g) && InGateway(w.sys.gw, h)
    && !Traded(w.sys.gw.log, g) && !Traded(w.sys.gw.log, h)
  }

  /** Both orders of a bracket have left the gateway, and exactly one of them has traded. */
  ghost predicate PairDone(w: World, g: Guid, h: Guid) {
    && !InGateway(w.sys.gw, g) && !InGateway(w.sys.gw, h)
    && Traded(w.sys.gw.log, g) != Traded(w.sys.gw.log, h)
  }

  ghost predicate InGateway(gw: GatewayState, g: Guid) {
    InList(gw.lists.tp, g) || InList(gw.lists.sl, g)
  }

  lemma QuietPair(cfg: Config, w: World, g: Guid)
    requires Good(cfg, w) && w.sys.q == [] && PairsOk(w) && g in w.partner
    ensures PairRests(w, g, w.partner[g]) || PairDone(w, g, w.partner[g])
  {
    QuietOrders(cfg, w);
    QuietList(cfg, w, Tp);
    QuietList(cfg, w, Sl);
    KnownAreUntraded(cfg, w, g);
    KnownAreUntraded(cfg, w, w.partner[g]);
    assert PairOk(w.sys, g, w.partner[g]);
  }

  lemma KnownAreUntraded(cfg: Config, w: World, g: Guid)
    requires Protocol(cfg, w) && Settled(w.sys) && w.sys.q == []
    ensures Known(w.sys.om, g) ==> !Traded(w.sys.gw.log, g)
  {
    QuietOrders(cfg, w);
    assert g in w.sys.om.conds.tp ==> g in w.sys.om.conds.Get(Tp) && Live(w.sys, Tp, g);
    assert g in w.sys.om.conds.sl ==> g in w.sys.om.conds.Get(Sl) && Live(w.sys, Sl, g);
  }

  /** In every run, crashed or not, at most one order of a bracket has traded. */
  lemma NeverBothTrade(cfg: Config, prices: seq<Candles.PublicTrade>, n: nat, g: Guid)
    requires ValidConfig(cfg) && Prices(prices) && n <= |prices|
    ensures var w := Run(cfg, prices, n);
      g in w.partner ==> !(Traded(w.sys.gw.log, g) && Traded(w.sys.gw.log, w.partner[g]))
  {
    var w := Run(cfg, prices, n);
    SoundIsGood(cfg, w);
    assert PartnersOk(w.sys, w.partner);
  }
}
