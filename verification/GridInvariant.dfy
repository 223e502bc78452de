/** What holds at every event boundary of a backtest run of the dynamic grid. */
module GridInvariant {
  import opened Common
  import opened Lots
  import opened Events
  import opened Gateway
  import opened OrderManager
  import opened DynamicGrid
  import Ledger
  import Candles

  // ----- the queue -----

  /** Which events may stand before which in the queue. */
  predicate Before(a: Event, b: Event) {
    && !(a.OmTrade? && b.OmTrade? && a.t.guid == b.t.guid)
    && !(a.OmTrade? && b.OmAck? && a.t.guid == b.g)
    && !(a.MoCallback? && b.MoCallback? && a.g == b.g)
    && (a.OnCandle? && b.OnCandle? ==> a.ts <= b.ts)
  }

  ghost predicate Arranged(q: seq<Event>) {
    forall i, j :: 0 <= i < j < |q| ==> Before(q[i], q[j])
  }

  /** Each event finds the order, the level and the prices that its handler expects. */
  ghost predicate EventOk(step: real, s: Sys, e: Event) {
    match e
    case OmAck(g) => g in s.om.orders
    case OmTrade(t) =>
      || (t.guid in s.om.orders && t.volume == s.om.orders[t.guid].order.target && t.price == s.gw.lastPrice)
      || (exists k: Kind :: t.guid in s.om.conds.Get(k) && t.volume == s.om.conds.Get(k)[t.guid].order.req.volume)
    case OmCond(k, g, active) => active ==> g in s.om.conds.Get(k)
    case SiTrade(t) => IsLot(step, t.SignedVolume())
    case OnCandle(_, close) => close > 0.0
    case MoCallback(g, n) => g in s.om.orders && s.om.orders[g].subs == [n]
    case CondCallback(k, g, n) => g in s.om.conds.Get(k) && s.om.conds.Get(k)[g].subs == [n]
    case _ => false
  }

  // ----- market orders -----

  /** An order belongs to one level. It waits for its trade, or for its callback, or has a bracket. */
  ghost predicate OrderOk(step: real, s: Sys, levels: map<int, Level>, g: Guid)
    requires g in s.om.orders
  {
    var e := s.om.orders[g];
    && g < s.next
    && |e.subs| == 1
    && e.order.target > 0.0
    && IsLot(step, e.order.target)
    && var n := e.subs[0];
    && n in levels
    && levels[n].mo == g
    && (if e.traded then OrderTraded(s, g, n, levels[n]) else OrderWaits(s, g, n, levels[n]))
  }

  ghost predicate OrderWaits(s: Sys, g: Guid, n: int, l: Level)
    requires g in s.om.orders
  {
    && s.om.orders[g].order.filled == 0.0
    && TradeIn(s.q, g)
    && MoCallback(g, n) !in s.q
    && l.bracket.None?
  }

  ghost predicate OrderTraded(s: Sys, g: Guid, n: int, l: Level)
    requires g in s.om.orders
  {
    var o := s.om.orders[g].order;
    && o.filled == o.target
    && !TradeIn(s.q, g)
    && OmAck(g) !in s.q
    && (l.bracket.None? ==> MoCallback(g, n) in s.q && o.price == s.gw.lastPrice)
    && (l.bracket.Some? ==> MoCallback(g, n) !in s.q)
  }

  // ----- conditional orders -----

  /** The order rests in the gateway and has not traded. */
  ghost predicate Live(s: Sys, k: Kind, g: Guid)
    requires g in s.om.conds.Get(k)
  {
    var o := s.om.conds.Get(k)[g].order;
    && o.req in s.gw.lists.Get(k)
    && o.filled == 0.0
    && !TradeIn(s.q, g)
    && !Traded(s.gw.log, g)
  }

  /** The activation of one of the bracket's orders is still queued. */
  ghost predicate Activating(q: seq<Event>, b: Both<Guid>) {
    exists k: Kind :: OmCond(k, b.Get(k), true) in q
  }

  /** The gateway has traded the order at the present price; the news, or its callback, is queued. */
  ghost predicate Fired(s: Sys, k: Kind, g: Guid, n: int)
    requires g in s.om.conds.Get(k)
  {
    var o := s.om.conds.Get(k)[g].order;
    && !InList(s.gw.lists.Get(k), g)
    && Traded(s.gw.log, g)
    && Triggers(k, o.req, s.gw.lastPrice)
    && (if o.filled == 0.0 then TradeIn(s.q, g)
        else !TradeIn(s.q, g) && o.filled == o.target && o.suspended == 0.0 && CondCallback(k, g, n) in s.q)
  }

  /** The order object itself: it was asked for a lot and is not cancelled. */
  ghost predicate CondShape(step: real, s: Sys, k: Kind, g: Guid)
    requires g in s.om.conds.Get(k)
  {
    var o := s.om.conds.Get(k)[g].order;
    && g < s.next
    && o.req.guid == g
    && o.req.volume > 0.0
    && IsLot(step, o.req.volume)
    && o.target == o.req.volume
    && !o.cancelRequested
    && (o.suspended == 0.0 || o.suspended == o.req.volume)
  }

  /**
   * A conditional order is being placed, or belongs to the bracket of one level; as long as an
   * activation of that bracket is queued the order cannot trigger.
   */
  ghost predicate CondOk(step: real, s: Sys, levels: map<int, Level>, k: Kind, g: Guid)
    requires g in s.om.conds.Get(k)
  {
    var e := s.om.conds.Get(k)[g];
    && CondShape(step, s, k, g)
    && |e.subs| <= 1
    && (e.subs == [] ==> Live(s, k, g) && !Triggers(k, e.order.req, s.gw.lastPrice))
    && (|e.subs| == 1 ==>
          var n := e.subs[0];
          && n in levels
          && levels[n].bracket.Some?
          && levels[n].bracket.value.Get(k) == g
          && (Live(s, k, g) || Fired(s, k, g, n))
          && (Activating(s.q, levels[n].bracket.value) ==> !Triggers(k, e.order.req, s.gw.lastPrice)))
  }

  // ----- levels -----

  /** No price triggers both orders of a bracket. */
  predicate Separated(tp: Request, sl: Request) {
    && tp.side == sl.side
    && if tp.side.Sell? then sl.trigger < tp.trigger else tp.trigger < sl.trigger
  }

  /** A bracket hedges its level: both orders close the fill, from opposite sides of the price. */
  ghost predicate BracketOk(s: Sys, n: int, l: Level)
    requires l.mo in s.om.orders && l.bracket.Some?
  {
    var o := s.om.orders[l.mo].order;
    var b := l.bracket.value;
    && b.tp in s.om.conds.tp
    && b.sl in s.om.conds.sl
    && s.om.conds.tp[b.tp].subs == [n]
    && s.om.conds.sl[b.sl].subs == [n]
    && Hedges(o, s.om.conds.tp[b.tp].order.req)
    && Hedges(o, s.om.conds.sl[b.sl].order.req)
    && Separated(s.om.conds.tp[b.tp].order.req, s.om.conds.sl[b.sl].order.req)
  }

  predicate Hedges(o: MarketOrder, r: Request) {
    r.volume == o.target && r.side == o.side.Opposite()
  }

  ghost predicate LevelOk(cfg: Config, s: Sys, partner: map<Guid, Guid>, n: int, l: Level) {
    && -cfg.levelsPerSide < n < cfg.levelsPerSide
    && l.mo in s.om.orders
    && s.om.orders[l.mo].subs == [n]
    && (l.bracket.Some? ==>
          && BracketOk(s, n, l)
          && l.bracket.value.tp in partner
          && partner[l.bracket.value.tp] == l.bracket.value.sl)
  }

  // ----- the gateway -----

  /** The list holds each order once, and only orders that the manager knows. */
  ghost predicate ListOk(s: Sys, k: Kind) {
    var l := s.gw.lists.Get(k);
    && (forall i, j :: 0 <= i < j < |l| ==> l[i].guid != l[j].guid)
    && (forall i :: 0 <= i < |l| ==>
          l[i].guid in s.om.conds.Get(k) && s.om.conds.Get(k)[l[i].guid].order.req == l[i])
  }

  /** Guids are never reused: not between the maps, not among the trades, not by the next order. */
  ghost predicate GuidsOk(s: Sys) {
    && s.om.orders.Keys !! s.om.conds.tp.Keys
    && s.om.orders.Keys !! s.om.conds.sl.Keys
    && s.om.conds.tp.Keys !! s.om.conds.sl.Keys
    && (forall i, j :: 0 <= i < j < |s.gw.log| ==> s.gw.log[i].guid != s.gw.log[j].guid)
    && (forall i :: 0 <= i < |s.gw.log| ==> s.gw.log[i].guid < s.next)
  }

  /** Of two partners at most one has ever traded. */
  ghost predicate PartnersOk(s: Sys, partner: map<Guid, Guid>) {
    forall g :: g in partner ==>
      && g < s.next
      && partner[g] in partner
      && partner[g] != g
      && partner[partner[g]] == g
      && !(Traded(s.gw.log, g) && Traded(s.gw.log, partner[g]))
  }

  // ----- volumes -----

  /** The volume that a level still holds: its fill, unless one of its bracket orders has gone off. */
  ghost function Exposure(s: Sys, l: Level): real {
    if l.mo !in s.om.orders then 0.0
    else if l.bracket.Some?
         && !(InList(s.gw.lists.tp, l.bracket.value.tp) && InList(s.gw.lists.sl, l.bracket.value.sl)) then 0.0
    else Signed(s.om.orders[l.mo].order.target, s.om.orders[l.mo].order.side)
  }

  ghost function Exposures(s: Sys, levels: map<int, Level>): map<int, real> {
    map n | n in levels :: Exposure(s, levels[n])
  }

  /** The sum of the values at the keys from `lo` up to `hi`. */
  ghost function Total(m: map<int, real>, lo: int, hi: int): real
    decreases hi - lo
  {
    if lo >= hi then 0.0 else (if lo in m then m[lo] else 0.0) + Total(m, lo + 1, hi)
  }

  /** The volume that all levels together still hold. */
  ghost function TotalExposure(cfg: Config, w: World): real {
    Total(Exposures(w.sys, w.grid.levels), -cfg.levelsPerSide, cfg.levelsPerSide)
  }

  /** The volume of the trades that the position manager has yet to hear of. */
  function PendingVolume(q: seq<Event>): real {
    if q == [] then 0.0
    else (if q[0].SiTrade? then q[0].t.SignedVolume() else 0.0) + PendingVolume(q[1..])
  }

  ghost predicate VolumesOk(cfg: Config, w: World) {
    && w.sys.gw.pos == TotalExposure(cfg, w)
    && w.sys.gw.pos == SumSigned(w.sys.gw.log)
    && (cfg.step > Ledger.DUST ==> ManagerAgrees(cfg, w))
  }

  /** What the position manager holds and has yet to hear of; it loses volumes that are no larger than dust. */
  ghost predicate ManagerAgrees(cfg: Config, w: World) {
    && w.sys.gw.pos == Ledger.Volume(w.pm) + PendingVolume(w.sys.q)
    && IsLot(cfg.step, Ledger.Volume(w.pm))
  }

  // ----- the trend and the candles -----

  ghost predicate TrendOk(w: World) {
    && TrendReady(w.grid.twma, w.builder.start)
    && (forall e :: e in w.sys.q && e.OnCandle? ==> TrendReady(w.grid.twma, e.ts) && e.ts <= w.builder.start)
    && (w.grid.levels != map[] ==> w.grid.trend > 0.0)
  }

  ghost predicate BuilderOk(cfg: Config, w: World) {
    && w.builder.timeframe == cfg.timeframe
    && w.builder.start >= 0
    && cfg.timeframe > 0
    && w.builder.start == Candles.Frame(cfg.timeframe, w.builder.start) * cfg.timeframe
    && (w.builder.start != 0 ==> w.builder.close > 0.0)
  }

  ghost predicate QuietGateway(s: Sys) {
    s.gw.tpsl.None? && s.gw.trailing.None? && s.om.trailing.None? && s.om.tpsl.None?
  }

  // ----- the invariant -----

  ghost predicate EventsOk(step: real, s: Sys) {
    forall e :: e in s.q ==> EventOk(step, s, e)
  }

  ghost predicate OrdersOk(step: real, s: Sys, levels: map<int, Level>) {
    forall g :: g in s.om.orders ==> OrderOk(step, s, levels, g)
  }

  ghost predicate CondsOk(step: real, s: Sys, levels: map<int, Level>) {
    forall k: Kind, g :: g in s.om.conds.Get(k) ==> CondOk(step, s, levels, k, g)
  }

  ghost predicate LevelsOk(cfg: Config, s: Sys, partner: map<Guid, Guid>, levels: map<int, Level>) {
    forall n :: n in levels ==> LevelOk(cfg, s, partner, n, levels[n])
  }

  ghost predicate ListsOk(s: Sys) {
    ListOk(s, Tp) && ListOk(s, Sl)
  }

  ghost predicate Protocol(cfg: Config, w: World) {
    && Arranged(w.sys.q)
    && EventsOk(cfg.step, w.sys)
    && OrdersOk(cfg.step, w.sys, w.grid.levels)
    && CondsOk(cfg.step, w.sys, w.grid.levels)
    && LevelsOk(cfg, w.sys, w.partner, w.grid.levels)
    && ListsOk(w.sys)
    && GuidsOk(w.sys)
    && PartnersOk(w.sys, w.partner)
    && QuietGateway(w.sys)
    && (!w.crashed ==> w.sys.om.errors == 0)
  }

  ghost predicate Inv(cfg: Config, w: World) {
    Protocol(cfg, w) && VolumesOk(cfg, w) && TrendOk(w) && BuilderOk(cfg, w)
  }

  // ----- what an order's part of the invariant depends on -----

  /** The queues hold the same news of market order `g`. */
  ghost predicate SameOrderNews(q: seq<Event>, q': seq<Event>, g: Guid) {
    && (TradeIn(q, g) <==> TradeIn(q', g))
    && (OmAck(g) in q <==> OmAck(g) in q')
    && (forall n :: MoCallback(g, n) in q <==> MoCallback(g, n) in q')
  }

  /** The queues hold the same news of conditional order `g`. */
  ghost predicate SameCondNews(q: seq<Event>, q': seq<Event>, k: Kind, g: Guid) {
    && (TradeIn(q, g) <==> TradeIn(q', g))
    && (forall n :: CondCallback(k, g, n) in q <==> CondCallback(k, g, n) in q')
  }

  /** The gateways agree about conditional order `g`. */
  ghost predicate SamePlace(gw: GatewayState, gw': GatewayState, k: Kind, g: Guid) {
    && (InList(gw.lists.Get(k), g) <==> InList(gw'.lists.Get(k), g))
    && (forall r: Request :: r.guid == g ==> (r in gw.lists.Get(k) <==> r in gw'.lists.Get(k)))
    && (Traded(gw.log, g) <==> Traded(gw'.log, g))
  }

  lemma OrderStays(step: real, s: Sys, s': Sys, levels: map<int, Level>, levels': map<int, Level>, g: Guid)
    requires g in s.om.orders && OrderOk(step, s, levels, g)
    requires g in s'.om.orders && s'.om.orders[g] == s.om.orders[g]
    requires s.next <= s'.next && s.gw.lastPrice == s'.gw.lastPrice && SameOrderNews(s.q, s'.q, g)
    requires var n := s.om.orders[g].subs[0]; n in levels' && levels'[n] == levels[n]
    ensures OrderOk(step, s', levels', g)
  {
  }

  lemma CondStays(step: real, s: Sys, s': Sys, levels: map<int, Level>, levels': map<int, Level>, k: Kind, g: Guid)
    requires g in s.om.conds.Get(k) && CondOk(step, s, levels, k, g)
    requires g in s'.om.conds.Get(k) && s'.om.conds.Get(k)[g] == s.om.conds.Get(k)[g]
    requires s.next <= s'.next && s.gw.lastPrice == s'.gw.lastPrice
    requires SameCondNews(s.q, s'.q, k, g) && SamePlace(s.gw, s'.gw, k, g)
    requires |s.om.conds.Get(k)[g].subs| == 1 ==>
      var n := s.om.conds.Get(k)[g].subs[0];
      && n in levels' && levels'[n] == levels[n]
      && (Activating(s'.q, levels[n].bracket.value) ==> Activating(s.q, levels[n].bracket.value))
    ensures CondOk(step, s', levels', k, g)
  {
  }

  lemma LevelStays(cfg: Config, s: Sys, s': Sys, partner: map<Guid, Guid>, partner': map<Guid, Guid>, n: int, l: Level)
    requires LevelOk(cfg, s, partner, n, l)
    requires l.mo in s'.om.orders && s'.om.orders[l.mo].subs == s.om.orders[l.mo].subs
    requires SameTerms(s.om.orders[l.mo].order, s'.om.orders[l.mo].order)
    requires l.bracket.Some? ==> forall k: Kind :: SameCond(s, s', k, l.bracket.value.Get(k))
    requires l.bracket.Some? ==>
      l.bracket.value.tp in partner' && partner'[l.bracket.value.tp] == partner[l.bracket.value.tp]
    ensures LevelOk(cfg, s', partner', n, l)
  {
    if l.bracket.Some? {
      assert SameCond(s, s', Tp, l.bracket.value.Get(Tp));
      assert SameCond(s, s', Sl, l.bracket.value.Get(Sl));
    }
  }

  predicate SameTerms(o: MarketOrder, o': MarketOrder) {
    o'.side == o.side && o'.target == o.target
  }

  predicate SameCond(s: Sys, s': Sys, k: Kind, g: Guid) {
    g in s.om.conds.Get(k) ==>
      && g in s'.om.conds.Get(k)
      && s'.om.conds.Get(k)[g].subs == s.om.conds.Get(k)[g].subs
      && s'.om.conds.Get(k)[g].order.req == s.om.conds.Get(k)[g].order.req
  }

  // ----- sums -----

  lemma {:induction false} TotalSame(m: map<int, real>, m': map<int, real>, lo: int, hi: int)
    requires forall n :: lo <= n < hi ==> ValueAt(m, n) == ValueAt(m', n)
    ensures Total(m, lo, hi) == Total(m', lo, hi)
    decreases hi - lo
  {
    if lo < hi {
      assert ValueAt(m, lo) == ValueAt(m', lo);
      TotalSame(m, m', lo + 1, hi);
    }
  }

  ghost function ValueAt(m: map<int, real>, n: int): real {
    if n in m then m[n] else 0.0
  }

  /** Changing one summand changes the total by the same amount. */
  lemma {:induction false} TotalUpdate(m: map<int, real>, m': map<int, real>, at: int, lo: int, hi: int)
    requires lo <= at < hi
    requires forall n :: lo <= n < hi && n != at ==> ValueAt(m, n) == ValueAt(m', n)
    ensures Total(m', lo, hi) == Total(m, lo, hi) + ValueAt(m', at) - ValueAt(m, at)
    decreases hi - lo
  {
    if lo == at {
      TotalSame(m, m', lo + 1, hi);
    } else {
      assert ValueAt(m, lo) == ValueAt(m', lo);
      TotalUpdate(m, m', at, lo + 1, hi);
    }
  }

  lemma {:induction false} PendingAppend(q: seq<Event>, r: seq<Event>)
    ensures PendingVolume(q + r) == PendingVolume(q) + PendingVolume(r)
  {
    if q == [] {
      assert q + r == r;
    } else {
      assert (q + r)[1..] == q[1..] + r;
      PendingAppend(q[1..], r);
    }
  }

  lemma PendingOne(e: Event)
    ensures PendingVolume([e]) == if e.SiTrade? then e.t.SignedVolume() else 0.0
  {
  }

  lemma {:induction false} PendingNone(q: seq<Event>)
    requires forall e :: e in q ==> !e.SiTrade?
    ensures PendingVolume(q) == 0.0
  {
    if q != [] {
      PendingNone(q[1..]);
    }
  }

  lemma PendingEmit(before: seq<Event>, t: Trade, after: seq<Event>)
    requires forall e :: e in before || e in after ==> !e.SiTrade?
    ensures PendingVolume(before + Emit(t) + after) == t.SignedVolume()
  {
    PendingAppend(before + Emit(t), after);
    PendingAppend(before, Emit(t));
    PendingAppend([OmTrade(t)], [SiTrade(t)]);
    assert Emit(t) == [OmTrade(t)] + [SiTrade(t)];
    PendingOne(OmTrade(t));
    PendingOne(SiTrade(t));
    PendingNone(before);
    PendingNone(after);
  }
}
