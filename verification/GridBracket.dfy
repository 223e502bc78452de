/** The callback of a filled market order places a bracket and keeps the grid's invariant. */
module GridBracket {
  import opened Common
  import opened Lots
  import opened Events
  import opened Gateway
  import opened OrderManager
  import opened DynamicGrid
  import opened GridInvariant
  import opened GridQuietSteps
  import opened GridPlace
  import GridLevels

  function TpRequest(w: World, prices: GridLevels.Bracket, volume: real): Request {
    Request(w.sys.next, SideOf(volume), prices.takeProfit, Abs(volume))
  }

  function SlRequest(w: World, prices: GridLevels.Bracket, volume: real): Request {
    Request(w.sys.next + 1, SideOf(volume), prices.stopLoss, Abs(volume))
  }

  /** The take profit is placed. */
  function TpPlaced(cfg: Config, w: World, prices: GridLevels.Bracket, volume: real, ts: int): World {
    PlacedAndTriggered(cfg, w, Tp, TpRequest(w, prices, volume), ts)
  }

  /** Both orders are placed, and the head event is still there. */
  function BothPlaced(cfg: Config, w: World, prices: GridLevels.Bracket, volume: real, ts: int): World {
    PlacedAndTriggered(cfg, TpPlaced(cfg, w, prices, volume, ts), Sl, SlRequest(w, prices, volume), ts)
  }

  function NewBracket(w: World): Both<Guid> {
    Both(w.sys.next, w.sys.next + 1)
  }

  lemma PlacementIgnoresSubscribers(s: Sys, k: Kind, req: Request, ts: int, wrap: bool, om: OmState)
    ensures var a := PlaceConditional(s.(om := om), k, req, ts, wrap);
      && a.q == PlaceConditional(s, k, req, ts, wrap).q
      && a.gw == PlaceConditional(s, k, req, ts, wrap).gw
      && a.next == req.guid + 1
      && a.om == WithCond(om, k, req.guid, PlacedEntry(req))
  {
  }

  lemma SubscribeIsOwned(s: Sys, k: Kind, g: Guid, n: int)
    requires g in s.om.conds.Get(k) && s.om.conds.Get(k)[g].subs == []
    ensures SubscribeCond(s, k, g, n) == s.(om := s.om.(conds := s.om.conds.Set(k, Owned(s.om.conds.Get(k), g, n))))
  {
    assert [] + [n] == [n];
  }

  lemma BothPlacedHolds(cfg: Config, w: World, prices: GridLevels.Bracket, volume: real, ts: int)
    requires w.sys.q != []
    ensures var v := BothPlaced(cfg, w, prices, volume, ts);
      && v.sys.q != [] && v.sys.q[0] == w.sys.q[0]
      && v == w.(sys := v.sys)
      && v.sys.om == w.sys.om.(conds := Both(
           w.sys.om.conds.tp[w.sys.next := PlacedEntry(TpRequest(w, prices, volume))],
           w.sys.om.conds.sl[w.sys.next + 1 := PlacedEntry(SlRequest(w, prices, volume))]))
      && v.sys.next == w.sys.next + 2
      && v.sys.gw.lastPrice == w.sys.gw.lastPrice
  {
    var u := TpPlaced(cfg, w, prices, volume, ts);
    PlacedAndTriggeredFrame(cfg, w, Tp, TpRequest(w, prices, volume), ts);
    PlacedAndTriggeredFrame(cfg, u, Sl, SlRequest(w, prices, volume), ts);
  }

  /** The two sending blocks are the two placements, and what they store is the attached bracket. */
  lemma PlaceBracketAttaches(cfg: Config, w: World, n: int, prices: GridLevels.Bracket, volume: real, ts: int)
    requires ValidConfig(cfg) && w.sys.q != [] && n in w.grid.levels
    requires AdjustedVolume(cfg.step, volume) == Some(volume)
    ensures var v := BothPlaced(cfg, w, prices, volume, ts);
      && v.sys.q != [] && n in v.grid.levels
      && w.sys.next in v.sys.om.conds.tp && w.sys.next + 1 in v.sys.om.conds.sl
      && PlaceBracket(cfg, Pop(w), n, prices, volume, ts) == Attached(v, n, NewBracket(w))
  {
    var tpReq, slReq := TpRequest(w, prices, volume), SlRequest(w, prices, volume);
    var u := TpPlaced(cfg, w, prices, volume, ts);
    var v := BothPlaced(cfg, w, prices, volume, ts);
    BothPlacedHolds(cfg, w, prices, volume, ts);
    PlacedAndTriggeredFrame(cfg, w, Tp, tpReq, ts);
    PlaceIsPlaced(cfg, w, Tp, tpReq, ts);
    var s1 := PlaceConditional(Pop(w).sys, Tp, tpReq, ts, cfg.wrap);
    assert s1 == u.sys.(q := u.sys.q[1..]);
    SubscribeIsOwned(s1, Tp, w.sys.next, n);
    var s2 := SubscribeCond(s1, Tp, w.sys.next, n);
    PlaceIsPlaced(cfg, u, Sl, slReq, ts);
    PlacementIgnoresSubscribers(Pop(u).sys, Sl, slReq, ts, cfg.wrap, s2.om);
    var s3 := PlaceConditional(s2, Sl, slReq, ts, cfg.wrap);
    assert s2 == Pop(u).sys.(om := s2.om);
    SubscribeIsOwned(s3, Sl, w.sys.next + 1, n);
  }

  /** The bracket prices that the callback of market order `g` computes. */
  function PricesFor(cfg: Config, w: World, g: Guid): GridLevels.Bracket
    requires ValidConfig(cfg) && g in w.sys.om.orders && w.grid.trend > 0.0
  {
    GridLevels.WidthIsPositive(cfg.radiusPercent, cfg.levelsPerSide, w.grid.trend);
    var o := w.sys.om.orders[g].order;
    GridLevels.BracketPrices(o.price, o.side, w.grid.trend, Width(cfg, w.grid.trend), cfg.levelsPerSide)
  }

  function ClosingVolume(o: MarketOrder): real {
    Signed(o.filled, o.side.Opposite())
  }

  /** Rounding leaves the volume of a fill alone. */
  lemma FillIsAdjusted(step: real, o: MarketOrder)
    requires step > 0.0 && o.filled == o.target && o.target > 0.0 && IsLot(step, o.target)
    ensures AdjustedVolume(step, ClosingVolume(o)) == Some(ClosingVolume(o))
    ensures SideOf(ClosingVolume(o)) == o.side.Opposite() && Abs(ClosingVolume(o)) == o.target
  {
    SignedLot(step, o.target, o.side.Opposite());
    AdjustedLot(step, ClosingVolume(o));
  }

  /** For every fill price, trend and width no price triggers both orders of the bracket, and the fill price neither. */
  lemma NoPriceTriggersBoth(fill: real, side: Side, trend: real, width: real, levelsPerSide: nat, volume: real,
      price: real)
    requires width > 0.0
    ensures var b := GridLevels.BracketPrices(fill, side, trend, width, levelsPerSide);
      var tp, sl := Request(1, side.Opposite(), b.takeProfit, volume), Request(2, side.Opposite(), b.stopLoss, volume);
      && !(Triggers(Tp, tp, price) && Triggers(Sl, sl, price))
      && !Triggers(Tp, tp, fill) && !Triggers(Sl, sl, fill)
  {
    GridLevels.BracketIsStrict(fill, side, trend, width, levelsPerSide);
  }

  /** At the fill price neither order of the new bracket triggers, and no price triggers both. */
  lemma BracketWaits(cfg: Config, w: World, g: Guid)
    requires ValidConfig(cfg) && g in w.sys.om.orders && w.grid.trend > 0.0
    requires var o := w.sys.om.orders[g].order;
      && o.filled == o.target && o.target > 0.0 && IsLot(cfg.step, o.target) && o.price == w.sys.gw.lastPrice
    ensures var o := w.sys.om.orders[g].order;
      var tp := TpRequest(w, PricesFor(cfg, w, g), ClosingVolume(o));
      var sl := SlRequest(w, PricesFor(cfg, w, g), ClosingVolume(o));
      && !Triggers(Tp, tp, w.sys.gw.lastPrice) && !Triggers(Sl, sl, w.sys.gw.lastPrice)
      && Separated(tp, sl) && Hedges(o, tp) && Hedges(o, sl)
  {
    var o := w.sys.om.orders[g].order;
    FillIsAdjusted(cfg.step, o);
    GridLevels.WidthIsPositive(cfg.radiusPercent, cfg.levelsPerSide, w.grid.trend);
    GridLevels.BracketIsStrict(o.price, o.side, w.grid.trend, Width(cfg, w.grid.trend), cfg.levelsPerSide);
  }

  /** The invariant survives both placements. */
  lemma BothPlacedKeepsInv(cfg: Config, w: World, prices: GridLevels.Bracket, volume: real, ts: int)
    requires Inv(cfg, w) && w.sys.q != []
    requires Abs(volume) > 0.0 && IsLot(cfg.step, Abs(volume))
    requires !Triggers(Tp, TpRequest(w, prices, volume), w.sys.gw.lastPrice)
    requires !Triggers(Sl, SlRequest(w, prices, volume), w.sys.gw.lastPrice)
    ensures Inv(cfg, BothPlaced(cfg, w, prices, volume, ts))
  {
    var u := TpPlaced(cfg, w, prices, volume, ts);
    PlacedAndTriggeredKeepsInv(cfg, w, Tp, TpRequest(w, prices, volume), ts);
    PlacedAndTriggeredFrame(cfg, w, Tp, TpRequest(w, prices, volume), ts);
    PlacedAndTriggeredKeepsInv(cfg, u, Sl, SlRequest(w, prices, volume), ts);
  }

  lemma NextTwoAreFresh(cfg: Config, w: World)
    requires Protocol(cfg, w)
    ensures forall g :: g >= w.sys.next ==>
      g !in w.partner && g !in w.sys.om.orders && (forall k: Kind :: g !in w.sys.om.conds.Get(k))
  {
  }

  /** The two new orders await the level of the filled order. */
  lemma BracketCanAttach(cfg: Config, w: World, v: World, g: Guid, n: int, tp: Request, sl: Request)
    requires w.sys.q != [] && w.sys.q[0] == MoCallback(g, n) && v.sys.q != [] && v.sys.q[0] == w.sys.q[0]
    requires v == w.(sys := v.sys)
    requires g in w.sys.om.orders && w.sys.om.orders[g].subs == [n] && w.sys.om.orders[g].traded
    requires n in w.grid.levels && w.grid.levels[n] == Level(g, None)
    requires v.sys.om == w.sys.om.(conds := Both(
      w.sys.om.conds.tp[w.sys.next := PlacedEntry(tp)], w.sys.om.conds.sl[w.sys.next + 1 := PlacedEntry(sl)]))
    requires Separated(tp, sl) && Hedges(w.sys.om.orders[g].order, tp) && Hedges(w.sys.om.orders[g].order, sl)
    requires w.sys.next !in w.partner && w.sys.next + 1 !in w.partner
    ensures CanAttach(v, g, n, NewBracket(w))
  {
  }

  /** What the callback of a filled order does, as one equation. */
  lemma FilledOrderAttaches(cfg: Config, w: World, g: Guid, n: int)
    requires ValidConfig(cfg) && Inv(cfg, w) && w.sys.q != [] && w.sys.q[0] == MoCallback(g, n)
    ensures g in w.sys.om.orders && w.grid.trend > 0.0
    ensures var o := w.sys.om.orders[g].order;
      var v := BothPlaced(cfg, w, PricesFor(cfg, w, g), ClosingVolume(o), o.ts);
      && Inv(cfg, v) && CanAttach(v, g, n, NewBracket(w))
      && Step(cfg, w) == Attached(v, n, NewBracket(w))
  {
    FilledOrder(cfg, w, g, n);
    var o := w.sys.om.orders[g].order;
    var prices, volume := PricesFor(cfg, w, g), ClosingVolume(o);
    FillIsAdjusted(cfg.step, o);
    BracketWaits(cfg, w, g);
    BothPlacedKeepsInv(cfg, w, prices, volume, o.ts);
    BothPlacedHolds(cfg, w, prices, volume, o.ts);
    NextTwoAreFresh(cfg, w);
    BracketCanAttach(cfg, w, BothPlaced(cfg, w, prices, volume, o.ts), g, n,
                     TpRequest(w, prices, volume), SlRequest(w, prices, volume));
    CallbackPlaces(cfg, w, g, n);
    PlaceBracketAttaches(cfg, w, n, prices, volume, o.ts);
  }

  /** The callback reaches the sending blocks. */
  lemma CallbackPlaces(cfg: Config, w: World, g: Guid, n: int)
    requires ValidConfig(cfg) && w.sys.q != [] && w.sys.q[0] == MoCallback(g, n) && w.grid.trend > 0.0
    requires g in w.sys.om.orders && w.sys.om.orders[g].order.Status().Filled?
    requires n in w.grid.levels && w.grid.levels[n].bracket.None?
    ensures var o := w.sys.om.orders[g].order;
      Step(cfg, w) == PlaceBracket(cfg, Pop(w), n, PricesFor(cfg, w, g), ClosingVolume(o), o.ts)
  {
  }

  lemma OrderCallbackKeepsInv(cfg: Config, w: World, g: Guid, n: int)
    requires ValidConfig(cfg) && Inv(cfg, w) && w.sys.q != [] && w.sys.q[0] == MoCallback(g, n)
    ensures w.grid.trend > 0.0
    ensures Inv(cfg, Step(cfg, w))
  {
    FilledOrderAttaches(cfg, w, g, n);
    var o := w.sys.om.orders[g].order;
    AttachedKeepsInv(cfg, BothPlaced(cfg, w, PricesFor(cfg, w, g), ClosingVolume(o), o.ts), g, n, NewBracket(w));
  }
}
