/** The trigger loops, and the events that change orders but no level, keep the grid's invariant. */
module GridQuietSteps {
  import opened Common
  import opened Lots
  import opened Events
  import opened Gateway
  import opened OrderManager
  import opened DynamicGrid
  import opened GridInvariant
  import opened GridFire
  import Ledger

  // ----- the trigger loops -----

  lemma RepliedTwice(w: World, a: Reply, b: Reply)
    ensures Replied(Replied(w, a), b) == Replied(w, Reply(b.gw, a.events + b.events))
  {
  }

  lemma RepliedNothing(w: World)
    ensures Replied(w, Reply(w.sys.gw, [])) == w
  {
  }

  /** Firing order `i` of list `k`, when it triggers, leads from `p` to `p`. */
  ghost predicate FiringKeeps(p: World -> bool, k: Kind, ts: int) {
    forall w: World, i: nat ::
      p(w) && i < |w.sys.gw.lists.Get(k)| && Triggers(k, w.sys.gw.lists.Get(k)[i], w.sys.gw.lastPrice)
      ==> p(Replied(w, Fire(w.sys.gw, k, i, ts)))
  }

  /** Whatever the skipping loop visits, it is a succession of allowed firings. */
  lemma {:induction false} WalkIsFirings(p: World -> bool, w: World, k: Kind, i: nat, ts: int, wrap: bool)
    requires FiringKeeps(p, k, ts) && p(w) && i <= |w.sys.gw.lists.Get(k)|
    ensures p(Replied(w, Walk(w.sys.gw, k, i, ts, wrap)))
    decreases |w.sys.gw.lists.Get(k)|, |w.sys.gw.lists.Get(k)| - i
  {
    var l := w.sys.gw.lists.Get(k);
    if i == |l| {
      RepliedNothing(w);
    } else if Triggers(k, l[i], w.sys.gw.lastPrice) {
      var r := Fire(w.sys.gw, k, i, ts);
      var w' := Replied(w, r);
      if i + 1 < |l| {
        WalkIsFirings(p, w', k, i + 1, ts, wrap);
        RepliedTwice(w, r, Walk(r.gw, k, i + 1, ts, wrap));
      } else if wrap {
        WalkIsFirings(p, w', k, 0, ts, wrap);
        RepliedTwice(w, r, Walk(r.gw, k, 0, ts, wrap));
      }
    } else {
      WalkIsFirings(p, w, k, i + 1, ts, wrap);
    }
  }

  lemma TriggersAreFirings(p: World -> bool, w: World, ts: int, wrap: bool)
    requires FiringKeeps(p, Sl, ts) && FiringKeeps(p, Tp, ts) && p(w)
    ensures p(Replied(w, TriggerConditionals(w.sys.gw, ts, wrap)))
  {
    var sl := Walk(w.sys.gw, Sl, 0, ts, wrap);
    WalkIsFirings(p, w, Sl, 0, ts, wrap);
    WalkIsFirings(p, Replied(w, sl), Tp, 0, ts, wrap);
    RepliedTwice(w, sl, Walk(sl.gw, Tp, 0, ts, wrap));
  }

  lemma FiringKeepsInv(cfg: Config, k: Kind, ts: int)
    ensures FiringKeeps(w => Inv(cfg, w), k, ts)
  {
    forall w: World, i: nat |
      Inv(cfg, w) && i < |w.sys.gw.lists.Get(k)| && Triggers(k, w.sys.gw.lists.Get(k)[i], w.sys.gw.lastPrice)
      ensures Inv(cfg, Replied(w, Fire(w.sys.gw, k, i, ts)))
    {
      FireKeepsInv(cfg, w, k, i, ts);
    }
  }

  /** `try_trigger_conditionals` keeps the invariant. */
  lemma TriggersKeepInv(cfg: Config, w: World, ts: int)
    requires Inv(cfg, w)
    ensures Inv(cfg, Replied(w, TriggerConditionals(w.sys.gw, ts, cfg.wrap)))
  {
    FiringKeepsInv(cfg, Sl, ts);
    FiringKeepsInv(cfg, Tp, ts);
    TriggersAreFirings(w' => Inv(cfg, w'), w, ts, cfg.wrap);
  }

  // ----- the queue loses its head -----

  /** No conditional order is half placed. */
  ghost predicate Settled(s: Sys) {
    forall k: Kind, g :: g in s.om.conds.Get(k) ==> |s.om.conds.Get(k)[g].subs| == 1
  }

  lemma HeadAndTail(q: seq<Event>)
    requires q != []
    ensures forall e :: e != q[0] ==> (e in q <==> e in q[1..])
    ensures forall e :: e in q[1..] ==> e in q
    ensures Arranged(q) ==> Arranged(q[1..])
    ensures Arranged(q) ==> forall e :: e in q[1..] ==> Before(q[0], e)
    ensures forall g :: !(q[0].OmTrade? && q[0].t.guid == g) ==> (TradeIn(q, g) <==> TradeIn(q[1..], g))
    ensures PendingVolume(q) == (if q[0].SiTrade? then q[0].t.SignedVolume() else 0.0) + PendingVolume(q[1..])
  {
  }

  /** After the head trade of `g` is gone, neither another trade nor the acknowledgement of `g` is queued. */
  lemma TradeAtHeadIsLast(q: seq<Event>, g: Guid)
    requires q != [] && Arranged(q) && q[0].OmTrade? && q[0].t.guid == g
    ensures !TradeIn(q[1..], g) && OmAck(g) !in q[1..]
  {
  }

  // ----- order updates that no level notices -----

  /** The order books agree on everything but the progress of the orders. */
  ghost predicate SameBook(om: OmState, om': OmState) {
    && om'.orders.Keys == om.orders.Keys
    && (forall g :: g in om.orders ==>
          om'.orders[g].subs == om.orders[g].subs && SameTerms(om.orders[g].order, om'.orders[g].order))
    && (forall k: Kind :: om'.conds.Get(k).Keys == om.conds.Get(k).Keys)
    && (forall k: Kind, g :: g in om.conds.Get(k) ==>
          && om'.conds.Get(k)[g].subs == om.conds.Get(k)[g].subs
          && om'.conds.Get(k)[g].order.req == om.conds.Get(k)[g].order.req)
  }

  lemma EventKept(step: real, s: Sys, s': Sys, e: Event)
    requires EventOk(step, s, e) && SameBook(s.om, s'.om) && s'.gw == s.gw
    ensures EventOk(step, s', e)
  {
  }

  lemma ExposureKept(w: World, w': World, n: int)
    requires SameBook(w.sys.om, w'.sys.om) && w'.sys.gw == w.sys.gw && w'.grid.levels == w.grid.levels
    requires n in w.grid.levels
    ensures Exposure(w'.sys, w'.grid.levels[n]) == Exposure(w.sys, w.grid.levels[n])
  {
  }

  lemma TotalKept(cfg: Config, w: World, w': World)
    requires SameBook(w.sys.om, w'.sys.om) && w'.sys.gw == w.sys.gw && w'.grid.levels == w.grid.levels
    ensures TotalExposure(cfg, w') == TotalExposure(cfg, w)
  {
    forall n | n in w.grid.levels ensures Exposure(w'.sys, w'.grid.levels[n]) == Exposure(w.sys, w.grid.levels[n]) {
      ExposureKept(w, w', n);
    }
    assert Exposures(w'.sys, w'.grid.levels) == Exposures(w.sys, w.grid.levels);
  }

  lemma LevelsKept(cfg: Config, w: World, w': World)
    requires LevelsOk(cfg, w.sys, w.partner, w.grid.levels) && SameBook(w.sys.om, w'.sys.om)
    ensures LevelsOk(cfg, w'.sys, w.partner, w.grid.levels)
  {
    forall n | n in w.grid.levels ensures LevelOk(cfg, w'.sys, w.partner, n, w.grid.levels[n]) {
      LevelStays(cfg, w.sys, w'.sys, w.partner, w.partner, n, w.grid.levels[n]);
    }
  }

  lemma ListsKept(s: Sys, s': Sys)
    requires ListsOk(s) && SameBook(s.om, s'.om) && s'.gw == s.gw
    ensures ListsOk(s')
  {
  }

  lemma GuidsKept(s: Sys, s': Sys)
    requires GuidsOk(s) && SameBook(s.om, s'.om) && s'.gw == s.gw && s'.next == s.next
    ensures GuidsOk(s')
  {
    assert s'.om.conds.Get(Tp).Keys == s.om.conds.Get(Tp).Keys;
    assert s'.om.conds.Get(Sl).Keys == s.om.conds.Get(Sl).Keys;
  }

  /** A step that keeps the book needs proof only of its queue, its orders and its conditionals. */
  lemma BookStep(cfg: Config, w: World, w': World, news: seq<Event>)
    requires Inv(cfg, w) && w.sys.q != []
    requires w'.sys.q == w.sys.q[1..] + news && Arranged(w'.sys.q)
    requires forall e :: e in news ==> EventOk(cfg.step, w.sys, e) && !e.OnCandle? && !e.SiTrade?
    requires SameBook(w.sys.om, w'.sys.om) && QuietGateway(w'.sys)
    requires w' == w.(sys := w'.sys, pm := w'.pm) && w'.sys.gw == w.sys.gw && w'.sys.next == w.sys.next
    requires w'.sys.om.errors == w.sys.om.errors
    requires cfg.step > Ledger.DUST ==>
      && IsLot(cfg.step, Ledger.Volume(w'.pm))
      && Ledger.Volume(w'.pm)
         == Ledger.Volume(w.pm) + if w.sys.q[0].SiTrade? then w.sys.q[0].t.SignedVolume() else 0.0
    requires OrdersOk(cfg.step, w'.sys, w'.grid.levels) && CondsOk(cfg.step, w'.sys, w'.grid.levels)
    ensures Inv(cfg, w')
  {
    HeadAndTail(w.sys.q);
    BookEvents(cfg, w, w', news);
    LevelsKept(cfg, w, w');
    ListsKept(w.sys, w'.sys);
    GuidsKept(w.sys, w'.sys);
    TotalKept(cfg, w, w');
    PendingAppend(w.sys.q[1..], news);
    PendingNone(news);
    BookTrend(cfg, w, w', news);
  }

  lemma BookEvents(cfg: Config, w: World, w': World, news: seq<Event>)
    requires EventsOk(cfg.step, w.sys) && w.sys.q != []
    requires w'.sys.q == w.sys.q[1..] + news
    requires forall e :: e in news ==> EventOk(cfg.step, w.sys, e)
    requires SameBook(w.sys.om, w'.sys.om) && w'.sys.gw == w.sys.gw
    ensures EventsOk(cfg.step, w'.sys)
  {
    HeadAndTail(w.sys.q);
    forall e | e in w'.sys.q ensures EventOk(cfg.step, w'.sys, e) {
      EventKept(cfg.step, w.sys, w'.sys, e);
    }
  }

  lemma BookTrend(cfg: Config, w: World, w': World, news: seq<Event>)
    requires TrendOk(w) && BuilderOk(cfg, w) && w.sys.q != []
    requires w'.sys.q == w.sys.q[1..] + news && forall e :: e in news ==> !e.OnCandle?
    requires w'.grid == w.grid && w'.builder == w.builder
    ensures TrendOk(w') && BuilderOk(cfg, w')
  {
  }

  // ----- one event at a time -----

  /** The event carries news of order `g`. */
  predicate About(e: Event, g: Guid) {
    match e
    case OmAck(h) => h == g
    case OmTrade(t) => t.guid == g
    case OmCond(_, h, _) => h == g
    case MoCallback(h, _) => h == g
    case CondCallback(_, h, _) => h == g
    case _ => false
  }

  /** Replacing the head by news of other orders changes no news of `g`. */
  lemma UntouchedNews(q: seq<Event>, news: seq<Event>, g: Guid)
    requires q != [] && !About(q[0], g) && forall e :: e in news ==> !About(e, g)
    ensures SameOrderNews(q, q[1..] + news, g)
    ensures forall k: Kind :: SameCondNews(q, q[1..] + news, k, g)
  {
    HeadAndTail(q);
    TradeInAppend(q[1..], news, g);
    forall i | 0 <= i < |news| ensures !About(news[i], g) {
      assert news[i] in news;
    }
  }

  /** All market orders that the step is not about keep their part of the invariant. */
  lemma OtherOrders(cfg: Config, w: World, w': World, news: seq<Event>, about: Guid)
    requires OrdersOk(cfg.step, w.sys, w.grid.levels) && w.sys.q != []
    requires w'.sys.q == w.sys.q[1..] + news
    requires forall g :: g != about ==> !About(w.sys.q[0], g)
    requires forall e, g :: e in news && g != about ==> !About(e, g)
    requires w'.sys.om.orders.Keys == w.sys.om.orders.Keys
    requires forall g :: g in w.sys.om.orders && g != about ==> w'.sys.om.orders[g] == w.sys.om.orders[g]
    requires w'.sys.gw == w.sys.gw && w'.sys.next == w.sys.next && w'.grid.levels == w.grid.levels
    ensures forall g :: g in w'.sys.om.orders && g != about ==> OrderOk(cfg.step, w'.sys, w'.grid.levels, g)
  {
    forall g | g in w'.sys.om.orders && g != about ensures OrderOk(cfg.step, w'.sys, w'.grid.levels, g) {
      UntouchedNews(w.sys.q, news, g);
      OrderStays(cfg.step, w.sys, w'.sys, w.grid.levels, w'.grid.levels, g);
    }
  }

  lemma NoNewActivation(q: seq<Event>, news: seq<Event>, b: Both<Guid>)
    requires q != [] && forall e :: e in news ==> !(e.OmCond? && e.active)
    ensures Activating(q[1..] + news, b) ==> Activating(q, b)
  {
  }

  lemma OtherConds(cfg: Config, w: World, w': World, news: seq<Event>, about: Guid)
    requires CondsOk(cfg.step, w.sys, w.grid.levels) && w.sys.q != []
    requires w'.sys.q == w.sys.q[1..] + news
    requires forall g :: g != about ==> !About(w.sys.q[0], g)
    requires forall e, g :: e in news && g != about ==> !About(e, g)
    requires forall e :: e in news ==> !(e.OmCond? && e.active)
    requires forall k: Kind :: w'.sys.om.conds.Get(k).Keys == w.sys.om.conds.Get(k).Keys
    requires forall k: Kind, g :: g in w.sys.om.conds.Get(k) && g != about ==>
      w'.sys.om.conds.Get(k)[g] == w.sys.om.conds.Get(k)[g]
    requires w'.sys.gw == w.sys.gw && w'.sys.next == w.sys.next && w'.grid.levels == w.grid.levels
    ensures forall k: Kind, g :: g in w'.sys.om.conds.Get(k) && g != about ==>
      CondOk(cfg.step, w'.sys, w'.grid.levels, k, g)
  {
    forall k: Kind, g | g in w'.sys.om.conds.Get(k) && g != about
      ensures CondOk(cfg.step, w'.sys, w'.grid.levels, k, g)
    {
      UntouchedNews(w.sys.q, news, g);
      if |w.sys.om.conds.Get(k)[g].subs| == 1 {
        NoNewActivation(w.sys.q, news, w.grid.levels[w.sys.om.conds.Get(k)[g].subs[0]].bracket.value);
      }
      CondStays(cfg.step, w.sys, w'.sys, w.grid.levels, w'.grid.levels, k, g);
    }
  }

  /** `on_order_response`: the acknowledgement comes before the trade, so the order is kept. */
  lemma AckKeepsInv(cfg: Config, w: World, g: Guid)
    requires ValidConfig(cfg) && Inv(cfg, w) && w.sys.q != [] && w.sys.q[0] == OmAck(g)
    ensures Inv(cfg, Step(cfg, w))
    ensures Step(cfg, w).sys.q == w.sys.q[1..]
  {
    var w' := Step(cfg, w);
    HeadAndTail(w.sys.q);
    assert EventOk(cfg.step, w.sys, w.sys.q[0]);
    assert OrderOk(cfg.step, w.sys, w.grid.levels, g);
    assert w'.sys.q == w.sys.q[1..] + [];
    assert g !in w.sys.om.conds.tp && g !in w.sys.om.conds.sl;
    AckKeepsOrders(cfg, w, w', g);
    BookStep(cfg, w, w', []);
  }

  lemma AckKeepsOrders(cfg: Config, w: World, w': World, g: Guid)
    requires OrdersOk(cfg.step, w.sys, w.grid.levels) && CondsOk(cfg.step, w.sys, w.grid.levels)
    requires w.sys.q != [] && w.sys.q[0] == OmAck(g)
    requires g in w.sys.om.orders && forall k: Kind :: g !in w.sys.om.conds.Get(k)
    requires !w.sys.om.orders[g].traded
    requires w' == w.(sys := w.sys.(q := w.sys.q[1..] + [], om := OnAck(w.sys.om, g)))
    ensures OrdersOk(cfg.step, w'.sys, w'.grid.levels) && CondsOk(cfg.step, w'.sys, w'.grid.levels)
  {
    HeadAndTail(w.sys.q);
    OtherOrders(cfg, w, w', [], g);
    OtherConds(cfg, w, w', [], g);
    assert w'.sys.q == w.sys.q[1..];
    assert OrderOk(cfg.step, w'.sys, w'.grid.levels, g);
  }

  /** A queued trade of a market order finds it waiting; of a conditional order, fired. */
  lemma HeadTradeOfOrder(cfg: Config, w: World, t: Trade)
    requires Protocol(cfg, w) && w.sys.q != [] && w.sys.q[0] == OmTrade(t) && t.guid in w.sys.om.orders
    ensures var e := w.sys.om.orders[t.guid];
      && !e.traded && |e.subs| == 1 && OrderWaits(w.sys, t.guid, e.subs[0], w.grid.levels[e.subs[0]])
      && t.volume == e.order.target && t.price == w.sys.gw.lastPrice
      && !TradeIn(w.sys.q[1..], t.guid) && OmAck(t.guid) !in w.sys.q[1..]
      && (forall n :: MoCallback(t.guid, n) !in w.sys.q)
      && (forall k: Kind :: t.guid !in w.sys.om.conds.Get(k))
  {
    assert EventOk(cfg.step, w.sys, w.sys.q[0]);
    assert OrderOk(cfg.step, w.sys, w.grid.levels, t.guid);
    TradeAtHeadIsLast(w.sys.q, t.guid);
    forall n | MoCallback(t.guid, n) in w.sys.q ensures n == w.sys.om.orders[t.guid].subs[0] {
      assert EventOk(cfg.step, w.sys, MoCallback(t.guid, n));
    }
  }

  lemma ArrangedAfter(q: seq<Event>, e: Event)
    requires q != [] && Arranged(q) && forall a :: a in q ==> Before(a, e)
    ensures Arranged(q[1..] + [e])
  {
  }

  /** The world after the head trade reached market order `t.guid` of level `n`. */
  function OrderChanged(w: World, t: Trade, n: int): World
    requires w.sys.q != [] && t.guid in w.sys.om.orders
  {
    w.(sys := w.sys.(q := w.sys.q[1..] + [MoCallback(t.guid, n)], om := TradeOrder(w.sys.om, t).om))
  }

  lemma OrderTradeForm(cfg: Config, w: World, t: Trade, n: int)
    requires ValidConfig(cfg) && w.sys.q != [] && w.sys.q[0] == OmTrade(t)
    requires t.guid in w.sys.om.orders && w.sys.om.orders[t.guid].subs == [n]
    ensures Step(cfg, w) == OrderChanged(w, t, n)
  {
  }

  lemma OrderTradeKeepsBook(om: OmState, t: Trade, n: int)
    requires t.guid in om.orders && om.orders[t.guid].subs == [n]
    ensures var om' := TradeOrder(om, t).om;
      && SameBook(om, om') && om'.errors == om.errors && om'.trailing == om.trailing && om'.tpsl == om.tpsl
      && om'.orders.Keys == om.orders.Keys && om'.orders[t.guid].subs == [n]
  {
  }

  /** The trade of a market order fills it at the last price and sends its callback. */
  lemma OrderTradeKeepsInv(cfg: Config, w: World, t: Trade)
    requires ValidConfig(cfg) && Inv(cfg, w) && w.sys.q != [] && w.sys.q[0] == OmTrade(t) && t.guid in w.sys.om.orders
    ensures Inv(cfg, Step(cfg, w))
  {
    HeadTradeOfOrder(cfg, w, t);
    var n := w.sys.om.orders[t.guid].subs[0];
    OrderTradeForm(cfg, w, t, n);
    ArrangedAfter(w.sys.q, MoCallback(t.guid, n));
    OrderTradeKeepsOrders(cfg, w, OrderChanged(w, t, n), t, n);
    OrderTradeKeepsBook(w.sys.om, t, n);
    BookStep(cfg, w, OrderChanged(w, t, n), [MoCallback(t.guid, n)]);
  }

  lemma OrderTradeKeepsOrders(cfg: Config, w: World, w': World, t: Trade, n: int)
    requires OrdersOk(cfg.step, w.sys, w.grid.levels) && CondsOk(cfg.step, w.sys, w.grid.levels)
    requires w.sys.q != [] && w.sys.q[0] == OmTrade(t)
    requires t.guid in w.sys.om.orders && forall k: Kind :: t.guid !in w.sys.om.conds.Get(k)
    requires w.sys.om.orders[t.guid].subs == [n] && !w.sys.om.orders[t.guid].traded
    requires t.volume == w.sys.om.orders[t.guid].order.target && t.price == w.sys.gw.lastPrice
    requires !TradeIn(w.sys.q[1..], t.guid) && OmAck(t.guid) !in w.sys.q[1..]
    requires w'.sys.q == w.sys.q[1..] + [MoCallback(t.guid, n)] && w'.grid.levels == w.grid.levels
    requires w'.sys.om == TradeOrder(w.sys.om, t).om && w'.sys.gw == w.sys.gw && w'.sys.next == w.sys.next
    ensures OrdersOk(cfg.step, w'.sys, w'.grid.levels) && CondsOk(cfg.step, w'.sys, w'.grid.levels)
  {
    OtherOrders(cfg, w, w', [MoCallback(t.guid, n)], t.guid);
    OtherConds(cfg, w, w', [MoCallback(t.guid, n)], t.guid);
    TradedOrder(cfg, w, w', t, n);
  }

  lemma TradedOrder(cfg: Config, w: World, w': World, t: Trade, n: int)
    requires w.sys.q != [] && t.guid in w.sys.om.orders && OrderOk(cfg.step, w.sys, w.grid.levels, t.guid)
    requires w.sys.om.orders[t.guid].subs == [n] && !w.sys.om.orders[t.guid].traded
    requires t.volume == w.sys.om.orders[t.guid].order.target && t.price == w.sys.gw.lastPrice
    requires !TradeIn(w.sys.q[1..], t.guid) && OmAck(t.guid) !in w.sys.q[1..]
    requires w'.sys.q == w.sys.q[1..] + [MoCallback(t.guid, n)] && w'.grid.levels == w.grid.levels
    requires w'.sys.om == TradeOrder(w.sys.om, t).om && w'.sys.gw == w.sys.gw && w'.sys.next == w.sys.next
    ensures OrderOk(cfg.step, w'.sys, w'.grid.levels, t.guid)
  {
  }

  lemma HeadTradeOfCond(cfg: Config, w: World, t: Trade) returns (k: Kind)
    requires Protocol(cfg, w) && Settled(w.sys) && w.sys.q != [] && w.sys.q[0] == OmTrade(t)
    requires t.guid !in w.sys.om.orders
    ensures t.guid in w.sys.om.conds.Get(k) && t.guid !in w.sys.om.conds.Get(k.Other())
    ensures var e := w.sys.om.conds.Get(k)[t.guid];
      && |e.subs| == 1 && Fired(w.sys, k, t.guid, e.subs[0]) && e.order.filled == 0.0
      && t.volume == e.order.req.volume
      && !TradeIn(w.sys.q[1..], t.guid)
  {
    assert EventOk(cfg.step, w.sys, w.sys.q[0]);
    k :| t.guid in w.sys.om.conds.Get(k) && t.volume == w.sys.om.conds.Get(k)[t.guid].order.req.volume;
    assert CondOk(cfg.step, w.sys, w.grid.levels, k, t.guid);
    HeadTradeFired(cfg.step, w, t, k);
    TradeAtHeadIsLast(w.sys.q, t.guid);
  }

  lemma HeadTradeFired(step: real, w: World, t: Trade, k: Kind)
    requires w.sys.q != [] && w.sys.q[0] == OmTrade(t) && t.guid in w.sys.om.conds.Get(k)
    requires CondOk(step, w.sys, w.grid.levels, k, t.guid) && Settled(w.sys)
    ensures var e := w.sys.om.conds.Get(k)[t.guid];
      |e.subs| == 1 && Fired(w.sys, k, t.guid, e.subs[0]) && e.order.filled == 0.0
  {
  }

  lemma OnTradeOfCond(om: OmState, k: Kind, t: Trade)
    requires t.guid !in om.orders && t.guid in om.conds.Get(k) && t.guid !in om.conds.Get(k.Other())
    ensures OnTrade(om, t) == TradeCond(om, k, t)
  {
  }

  function WithCond(om: OmState, k: Kind, g: Guid, e: CondEntry): OmState {
    om.(conds := om.conds.Set(k, om.conds.Get(k)[g := e]))
  }

  lemma WithCondGet(om: OmState, k: Kind, g: Guid, e: CondEntry)
    ensures WithCond(om, k, g, e).conds.Get(k) == om.conds.Get(k)[g := e]
    ensures forall k': Kind :: k' != k ==> WithCond(om, k, g, e).conds.Get(k') == om.conds.Get(k')
  {
  }

  /** Replacing one conditional order's progress keeps the book and every other entry. */
  lemma WithCondKeepsBook(om: OmState, k: Kind, g: Guid, e: CondEntry)
    requires g in om.conds.Get(k) && e.subs == om.conds.Get(k)[g].subs && e.order.req == om.conds.Get(k)[g].order.req
    ensures SameBook(om, WithCond(om, k, g, e))
    ensures forall k': Kind, h :: h in om.conds.Get(k') && h != g ==>
      WithCond(om, k, g, e).conds.Get(k')[h] == om.conds.Get(k')[h]
  {
  }

  /** The world after the head event changed one conditional order and notified its subscriber. */
  function CondChanged(w: World, k: Kind, g: Guid, e: CondEntry, n: int): World
    requires w.sys.q != []
  {
    w.(sys := w.sys.(q := w.sys.q[1..] + [CondCallback(k, g, n)], om := WithCond(w.sys.om, k, g, e)))
  }

  lemma CondChangeKeepsInv(cfg: Config, w: World, k: Kind, g: Guid, e: CondEntry, n: int)
    requires Inv(cfg, w) && w.sys.q != []
    requires (w.sys.q[0].OmTrade? && w.sys.q[0].t.guid == g) || (w.sys.q[0].OmCond? && w.sys.q[0].g == g)
    requires g in w.sys.om.conds.Get(k) && w.sys.om.conds.Get(k)[g].subs == [n]
    requires e.subs == [n] && e.order.req == w.sys.om.conds.Get(k)[g].order.req
    requires CondOk(cfg.step, CondChanged(w, k, g, e, n).sys, w.grid.levels, k, g)
    ensures Inv(cfg, CondChanged(w, k, g, e, n))
  {
    WithCondKeepsBook(w.sys.om, k, g, e);
    ArrangedAfter(w.sys.q, CondCallback(k, g, n));
    CondChangeKeepsOrders(cfg, w, k, g, e, n);
    BookStep(cfg, w, CondChanged(w, k, g, e, n), [CondCallback(k, g, n)]);
  }

  lemma CondChangeKeepsOrders(cfg: Config, w: World, k: Kind, g: Guid, e: CondEntry, n: int)
    requires w.sys.q != [] && GuidsOk(w.sys)
    requires OrdersOk(cfg.step, w.sys, w.grid.levels) && CondsOk(cfg.step, w.sys, w.grid.levels)
    requires (w.sys.q[0].OmTrade? && w.sys.q[0].t.guid == g) || (w.sys.q[0].OmCond? && w.sys.q[0].g == g)
    requires g in w.sys.om.conds.Get(k) && w.sys.om.conds.Get(k)[g].subs == [n]
    requires e.subs == [n] && e.order.req == w.sys.om.conds.Get(k)[g].order.req
    requires CondOk(cfg.step, CondChanged(w, k, g, e, n).sys, w.grid.levels, k, g)
    ensures var w' := CondChanged(w, k, g, e, n);
      OrdersOk(cfg.step, w'.sys, w.grid.levels) && CondsOk(cfg.step, w'.sys, w.grid.levels)
  {
    var w' := CondChanged(w, k, g, e, n);
    var news := [CondCallback(k, g, n)];
    assert g !in w.sys.om.orders && g !in w.sys.om.conds.Get(k.Other());
    WithCondKeepsBook(w.sys.om, k, g, e);
    OtherOrders(cfg, w, w', news, g);
    OtherConds(cfg, w, w', news, g);
    OnlyThisCond(cfg, w', k, g);
  }

  lemma OnlyThisCond(cfg: Config, w: World, k: Kind, g: Guid)
    requires g in w.sys.om.conds.Get(k) && CondOk(cfg.step, w.sys, w.grid.levels, k, g)
    requires g !in w.sys.om.conds.Get(k.Other())
    requires forall k': Kind, h :: h in w.sys.om.conds.Get(k') && h != g ==>
        CondOk(cfg.step, w.sys, w.grid.levels, k', h)
    ensures CondsOk(cfg.step, w.sys, w.grid.levels)
  {
  }

  lemma CondTradeForm(cfg: Config, w: World, t: Trade, k: Kind, n: int)
    requires ValidConfig(cfg) && w.sys.q != [] && w.sys.q[0] == OmTrade(t)
    requires t.guid !in w.sys.om.orders && t.guid in w.sys.om.conds.Get(k) && t.guid !in w.sys.om.conds.Get(k.Other())
    requires w.sys.om.conds.Get(k)[t.guid].subs == [n]
    ensures var e := w.sys.om.conds.Get(k)[t.guid];
      Step(cfg, w) == CondChanged(w, k, t.guid, e.(order := e.order.OnTrade(t)), n)
  {
  }

  /** The trade of a conditional order fills it and sends its callback. */
  lemma CondTradeKeepsInv(cfg: Config, w: World, t: Trade)
    requires ValidConfig(cfg) && Inv(cfg, w) && Settled(w.sys) && w.sys.q != [] && w.sys.q[0] == OmTrade(t)
    requires t.guid !in w.sys.om.orders
    ensures Inv(cfg, Step(cfg, w))
  {
    var k := HeadTradeOfCond(cfg, w, t);
    var e := w.sys.om.conds.Get(k)[t.guid];
    var n := e.subs[0];
    var e' := e.(order := e.order.OnTrade(t));
    assert CondOk(cfg.step, w.sys, w.grid.levels, k, t.guid);
    CondTradeForm(cfg, w, t, k, n);
    TradedCond(cfg, w, CondChanged(w, k, t.guid, e', n), k, t, n);
    CondChangeKeepsInv(cfg, w, k, t.guid, e', n);
  }

  lemma TradedCond(cfg: Config, w: World, w': World, k: Kind, t: Trade, n: int)
    requires w.sys.q != [] && t.guid in w.sys.om.conds.Get(k) && CondOk(cfg.step, w.sys, w.grid.levels, k, t.guid)
    requires w.sys.om.conds.Get(k)[t.guid].subs == [n] && Fired(w.sys, k, t.guid, n)
    requires w.sys.om.conds.Get(k)[t.guid].order.filled == 0.0
    requires t.volume == w.sys.om.conds.Get(k)[t.guid].order.req.volume && !TradeIn(w.sys.q[1..], t.guid)
    requires w'.sys.q == w.sys.q[1..] + [CondCallback(k, t.guid, n)] && w'.grid.levels == w.grid.levels
    requires w'.sys.om == TradeCond(w.sys.om, k, t).om && w'.sys.gw == w.sys.gw && w'.sys.next == w.sys.next
    ensures CondOk(cfg.step, w'.sys, w'.grid.levels, k, t.guid)
  {
  }

  lemma CondUpdateForm(cfg: Config, w: World, k: Kind, g: Guid, active: bool, n: int)
    requires ValidConfig(cfg) && w.sys.q != [] && w.sys.q[0] == OmCond(k, g, active)
    requires g in w.sys.om.conds.Get(k) && w.sys.om.conds.Get(k)[g].subs == [n]
    ensures var e := w.sys.om.conds.Get(k)[g];
      Step(cfg, w) == CondChanged(w, k, g, e.(order := e.order.OnStateChanged(active)), n)
  {
  }

  /** An activation or a removal that concerns a known order changes what it has suspended. */
  lemma CondUpdateKeepsInv(cfg: Config, w: World, k: Kind, g: Guid, active: bool)
    requires ValidConfig(cfg) && Inv(cfg, w) && Settled(w.sys) && w.sys.q != [] && w.sys.q[0] == OmCond(k, g, active)
    requires g in w.sys.om.conds.Get(k)
    ensures Inv(cfg, Step(cfg, w))
  {
    var e := w.sys.om.conds.Get(k)[g];
    var n := e.subs[0];
    var e' := e.(order := e.order.OnStateChanged(active));
    assert CondOk(cfg.step, w.sys, w.grid.levels, k, g);
    CondUpdateForm(cfg, w, k, g, active, n);
    UpdatedCond(cfg, w, CondChanged(w, k, g, e', n), k, g, active, n);
    CondChangeKeepsInv(cfg, w, k, g, e', n);
  }

  lemma StrayUpdateKeepsInv(cfg: Config, w: World, k: Kind, g: Guid, active: bool)
    requires ValidConfig(cfg) && Inv(cfg, w) && w.sys.q != [] && w.sys.q[0] == OmCond(k, g, active)
    requires g !in w.sys.om.conds.Get(k)
    ensures Inv(cfg, Step(cfg, w))
  {
    var w' := Step(cfg, w);
    assert EventOk(cfg.step, w.sys, w.sys.q[0]);
    HeadAndTail(w.sys.q);
    assert w'.sys.q == w.sys.q[1..] + [];
    StrayUpdate(cfg, w, w', k, g);
    BookStep(cfg, w, w', []);
  }

  /** The removal of an order that the manager has already forgotten concerns no one. */
  lemma StrayUpdate(cfg: Config, w: World, w': World, k: Kind, g: Guid)
    requires Protocol(cfg, w) && w.sys.q != [] && w.sys.q[0] == OmCond(k, g, false)
    requires w' == Pop(w)
    ensures OrdersOk(cfg.step, w'.sys, w'.grid.levels) && CondsOk(cfg.step, w'.sys, w'.grid.levels)
  {
    HeadAndTail(w.sys.q);
    forall h | h in w'.sys.om.orders ensures OrderOk(cfg.step, w'.sys, w'.grid.levels, h) {
      OrderStays(cfg.step, w.sys, w'.sys, w.grid.levels, w'.grid.levels, h);
    }
    forall k': Kind, h | h in w'.sys.om.conds.Get(k') ensures CondOk(cfg.step, w'.sys, w'.grid.levels, k', h) {
      CondStays(cfg.step, w.sys, w'.sys, w.grid.levels, w'.grid.levels, k', h);
    }
  }

  lemma UpdatedCond(cfg: Config, w: World, w': World, k: Kind, g: Guid, active: bool, n: int)
    requires w.sys.q != [] && w.sys.q[0] == OmCond(k, g, active)
    requires g in w.sys.om.conds.Get(k) && CondOk(cfg.step, w.sys, w.grid.levels, k, g)
    requires w.sys.om.conds.Get(k)[g].subs == [n]
    requires w'.sys.q == w.sys.q[1..] + [CondCallback(k, g, n)] && w'.grid.levels == w.grid.levels
    requires w'.sys.om == OnCond(w.sys.om, k, g, active).om && w'.sys.gw == w.sys.gw && w'.sys.next == w.sys.next
    ensures CondOk(cfg.step, w'.sys, w'.grid.levels, k, g)
  {
    TradeInAppend(w.sys.q[1..], [CondCallback(k, g, n)], g);
    HeadAndTail(w.sys.q);
  }

  /** The position manager catches up with one trade. */
  lemma SiTradeKeepsInv(cfg: Config, w: World, t: Trade)
    requires ValidConfig(cfg) && Inv(cfg, w) && w.sys.q != [] && w.sys.q[0] == SiTrade(t)
    ensures Inv(cfg, Step(cfg, w))
  {
    var w' := Step(cfg, w);
    HeadAndTail(w.sys.q);
    assert EventOk(cfg.step, w.sys, w.sys.q[0]);
    if cfg.step > Ledger.DUST {
      Ledger.ReceiveLotVolume(cfg.step, w.pm, t);
    }
    assert w'.sys.q == w.sys.q[1..] + [];
    OtherOrders(cfg, w, w', [], w.sys.next);
    OtherConds(cfg, w, w', [], w.sys.next);
    NextIsUnused(cfg, w);
    BookStep(cfg, w, w', []);
  }

  lemma NextIsUnused(cfg: Config, w: World)
    requires Protocol(cfg, w)
    ensures w.sys.next !in w.sys.om.orders && forall k: Kind :: w.sys.next !in w.sys.om.conds.Get(k)
  {
  }
}
