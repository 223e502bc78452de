/** Every event keeps the grid's invariant, and every event brings the queue closer to empty. */
module GridStep {
  import opened Common
  import opened Events
  import opened Gateway
  import opened OrderManager
  import opened DynamicGrid
  import opened GridInvariant
  import opened GridQuietSteps
  import opened GridClose
  import opened GridPlace
  import opened GridBracket
  import opened GridCandle

  /** What holds between any two events of a run. */
  ghost predicate Good(cfg: Config, w: World) {
    Inv(cfg, w) && Settled(w.sys)
  }

  /** The parts of what holds between two events. */
  datatype Aspect = OfOrders | OfVolumes | OfTrend | OfCandles | OfPlacement

  ghost predicate Holds(a: Aspect, cfg: Config, w: World) {
    match a
    case OfOrders => Protocol(cfg, w)
    case OfVolumes => VolumesOk(cfg, w)
    case OfTrend => TrendOk(w)
    case OfCandles => BuilderOk(cfg, w)
    case OfPlacement => Settled(w.sys)
  }

  /** The same as Good, for proofs that only pass it on: whoever needs an aspect asks for it. */
  ghost predicate Sound(cfg: Config, w: World) {
    forall a: Aspect :: Holds(a, cfg, w)
  }

  lemma SoundIsGood(cfg: Config, w: World)
    ensures Sound(cfg, w) <==> Good(cfg, w)
  {
    if Sound(cfg, w) {
      assert Holds(OfOrders, cfg, w) && Holds(OfVolumes, cfg, w) && Holds(OfTrend, cfg, w);
      assert Holds(OfCandles, cfg, w) && Holds(OfPlacement, cfg, w);
    }
  }

  /** The invariant gives every handler what it needs. */
  lemma HeadIsHandled(cfg: Config, w: World)
    requires Inv(cfg, w) && w.sys.q != []
    ensures Handles(w, w.sys.q[0])
    ensures EventOk(cfg.step, w.sys, w.sys.q[0])
  {
  }

  lemma StepKeepsInv(cfg: Config, w: World)
    requires ValidConfig(cfg) && Good(cfg, w) && w.sys.q != []
    ensures Handles(w, w.sys.q[0]) && Inv(cfg, Step(cfg, w))
  {
    HeadIsHandled(cfg, w);
    match w.sys.q[0]
    case OmAck(g) => AckKeepsInv(cfg, w, g);
    case OmTrade(t) => TradeKeepsInv(cfg, w, t);
    case OmCond(k, g, active) => CondNewsKeepsInv(cfg, w, k, g, active);
    case SiTrade(t) => SiTradeKeepsInv(cfg, w, t);
    case OnCandle(ts, close) => CandleKeepsInv(cfg, w, ts, close);
    case MoCallback(g, n) => OrderCallbackKeepsInv(cfg, w, g, n);
    case CondCallback(k, g, n) => CondCallbackKeepsInv(cfg, w, k, g, n);
    case _ => assert false;
  }

  lemma TradeKeepsInv(cfg: Config, w: World, t: Trade)
    requires ValidConfig(cfg) && Good(cfg, w) && w.sys.q != [] && w.sys.q[0] == OmTrade(t)
    ensures Inv(cfg, Step(cfg, w))
  {
    if t.guid in w.sys.om.orders {
      OrderTradeKeepsInv(cfg, w, t);
    } else {
      CondTradeKeepsInv(cfg, w, t);
    }
  }

  lemma CondNewsKeepsInv(cfg: Config, w: World, k: Kind, g: Guid, active: bool)
    requires ValidConfig(cfg) && Good(cfg, w) && w.sys.q != [] && w.sys.q[0] == OmCond(k, g, active)
    ensures Inv(cfg, Step(cfg, w))
  {
    if g in w.sys.om.conds.Get(k) {
      CondUpdateKeepsInv(cfg, w, k, g, active);
    } else {
      StrayUpdateKeepsInv(cfg, w, k, g, active);
    }
  }

  lemma CondCallbackKeepsInv(cfg: Config, w: World, k: Kind, g: Guid, n: int)
    requires ValidConfig(cfg) && Inv(cfg, w) && w.sys.q != [] && w.sys.q[0] == CondCallback(k, g, n)
    ensures Inv(cfg, Step(cfg, w))
  {
    HeadIsHandled(cfg, w);
    if w.sys.om.conds.Get(k)[g].order.Status().Filled? {
      FilledCallbackKeepsInv(cfg, w, k, g, n);
    } else {
      QuietCallbackKeepsInv(cfg, w, k, g, n);
    }
  }

  // ----- no step leaves a conditional order without its subscriber -----

  /** The same subscribers for the conditional orders that remain. */
  ghost predicate SubsRemain(om: OmState, om': OmState) {
    forall k: Kind, g :: g in om'.conds.Get(k) ==>
      g in om.conds.Get(k) && om'.conds.Get(k)[g].subs == om.conds.Get(k)[g].subs
  }

  lemma TradeSubs(om: OmState, t: Trade)
    ensures SubsRemain(om, OnTrade(om, t).om)
  {
  }

  lemma CondSubs(om: OmState, k: Kind, g: Guid, active: bool)
    ensures SubsRemain(om, OnCond(om, k, g, active).om)
  {
  }

  lemma CandleSubs(cfg: Config, w: World, ts: int, close: real)
    requires ValidConfig(cfg) && TrendReady(w.grid.twma, ts) && close > 0.0
    ensures PushCandle(cfg, w, ts, close).sys.om.conds == w.sys.om.conds
  {
  }

  lemma BracketSubs(cfg: Config, w: World, g: Guid, n: int)
    requires ValidConfig(cfg) && Good(cfg, w) && w.sys.q != [] && w.sys.q[0] == MoCallback(g, n) && w.grid.trend > 0.0
    ensures Settled(Step(cfg, w).sys)
  {
    FilledOrderAttaches(cfg, w, g, n);
    var o := w.sys.om.orders[g].order;
    var v := BothPlaced(cfg, w, PricesFor(cfg, w, g), ClosingVolume(o), o.ts);
    BothPlacedHolds(cfg, w, PricesFor(cfg, w, g), ClosingVolume(o), o.ts);
    AttachedSettles(w, v, n, TpRequest(w, PricesFor(cfg, w, g), ClosingVolume(o)),
                    SlRequest(w, PricesFor(cfg, w, g), ClosingVolume(o)));
  }

  lemma AttachedSettles(w: World, v: World, n: int, tp: Request, sl: Request)
    requires Settled(w.sys) && v.sys.q != [] && n in v.grid.levels
    requires v.sys.om.conds == Both(
      w.sys.om.conds.tp[w.sys.next := PlacedEntry(tp)], w.sys.om.conds.sl[w.sys.next + 1 := PlacedEntry(sl)])
    ensures Settled(Attached(v, n, NewBracket(w)).sys)
  {
    var s := Attached(v, n, NewBracket(w)).sys;
    forall g | g in s.om.conds.tp ensures |s.om.conds.tp[g].subs| == 1 {
      assert g != w.sys.next ==> g in w.sys.om.conds.Get(Tp);
    }
    forall g | g in s.om.conds.sl ensures |s.om.conds.sl[g].subs| == 1 {
      assert g != w.sys.next + 1 ==> g in w.sys.om.conds.Get(Sl);
    }
  }

  lemma CallbackSubs(cfg: Config, w: World, k: Kind, g: Guid, n: int)
    requires ValidConfig(cfg) && Good(cfg, w) && w.sys.q != [] && w.sys.q[0] == CondCallback(k, g, n)
    ensures Settled(Step(cfg, w).sys)
  {
    HeadIsHandled(cfg, w);
    if w.sys.om.conds.Get(k)[g].order.Status().Filled? {
      FilledCallbackCloses(cfg, w, k, g, n);
      ClosedSettles(w, k, n);
    }
  }

  lemma ClosedSettles(w: World, k: Kind, n: int)
    requires Settled(w.sys) && w.sys.q != [] && n in w.grid.levels && w.grid.levels[n].bracket.Some?
    requires var b := w.grid.levels[n].bracket.value;
      IndexOf(w.sys.gw.lists.Get(k.Other()), b.Get(k.Other())) < |w.sys.gw.lists.Get(k.Other())|
    ensures Settled(Closed(w, k, n).sys)
  {
    var s := Closed(w, k, n).sys;
    forall g | g in s.om.conds.tp ensures |s.om.conds.tp[g].subs| == 1 {
      assert g in w.sys.om.conds.Get(Tp);
    }
    forall g | g in s.om.conds.sl ensures |s.om.conds.sl[g].subs| == 1 {
      assert g in w.sys.om.conds.Get(Sl);
    }
  }

  lemma StepSettles(cfg: Config, w: World)
    requires ValidConfig(cfg) && Good(cfg, w) && w.sys.q != [] && Handles(w, w.sys.q[0])
    ensures Settled(Step(cfg, w).sys)
  {
    match w.sys.q[0]
    case OmTrade(t) => TradeSubs(w.sys.om, t);
    case OmCond(k, g, active) => CondSubs(w.sys.om, k, g, active);
    case OnCandle(ts, close) => CandleSubs(cfg, Pop(w), ts, close);
    case MoCallback(g, n) => BracketSubs(cfg, w, g, n);
    case CondCallback(k, g, n) => CallbackSubs(cfg, w, k, g, n);
    case _ =>
  }

  /** One step of the event loop leads from a good state to a good state. */
  lemma StepKeepsGood(cfg: Config, w: World)
    requires ValidConfig(cfg) && Good(cfg, w) && w.sys.q != []
    ensures Handles(w, w.sys.q[0]) && Good(cfg, Step(cfg, w))
  {
    StepKeepsInv(cfg, w);
    StepSettles(cfg, w);
  }
}
