/** Placing the bracket of a filled order keeps the grid's invariant. */
module GridPlace {
  import opened Common
  import opened Lots
  import opened Events
  import opened Gateway
  import opened OrderManager
  import opened DynamicGrid
  import opened GridInvariant
  import opened GridFire
  import opened GridQuietSteps

  // ----- a new conditional order, still without a subscriber -----

  function PlacedEntry(req: Request): CondEntry {
    CondEntry(CondOrder(req, req.volume, 0.0, 0.0, false), [])
  }

  /** The order is with the manager and on the gateway's list, before the trigger loops run. */
  function Placed(w: World, k: Kind, req: Request): World {
    w.(sys := Sys(w.sys.q + [OmCond(k, req.guid, true)],
                  w.sys.gw.(lists := w.sys.gw.lists.Set(k, w.sys.gw.lists.Get(k) + [req])),
                  WithCond(w.sys.om, k, req.guid, PlacedEntry(req)),
                  req.guid + 1))
  }

  ghost predicate CanPlace(cfg: Config, w: World, k: Kind, req: Request) {
    && req.guid == w.sys.next
    && req.volume > 0.0
    && IsLot(cfg.step, req.volume)
    && !Triggers(k, req, w.sys.gw.lastPrice)
  }

  /** No event, trade, order or partner knows the next guid. */
  lemma NextIsFresh(cfg: Config, w: World)
    requires Protocol(cfg, w)
    ensures var g := w.sys.next;
      && g !in w.sys.om.orders && (forall k: Kind :: g !in w.sys.om.conds.Get(k))
      && !TradeIn(w.sys.q, g) && !Traded(w.sys.gw.log, g) && g !in w.partner
      && (forall k: Kind :: !InList(w.sys.gw.lists.Get(k), g))
  {
    var g := w.sys.next;
    NextIsUnused(cfg, w);
    forall i | 0 <= i < |w.sys.q| && w.sys.q[i].OmTrade? ensures w.sys.q[i].t.guid != g {
      assert EventOk(cfg.step, w.sys, w.sys.q[i]);
    }
    assert ListOk(w.sys, Tp) && ListOk(w.sys, Sl);
  }

  lemma PlacedEvents(cfg: Config, w: World, k: Kind, req: Request)
    requires EventsOk(cfg.step, w.sys) && Arranged(w.sys.q) && req.guid !in w.sys.om.conds.Get(k)
    ensures Arranged(Placed(w, k, req).sys.q) && EventsOk(cfg.step, Placed(w, k, req).sys)
  {
    var w' := Placed(w, k, req);
    ArrangedAppend(w.sys.q, [OmCond(k, req.guid, true)]);
    forall e | e in w'.sys.q ensures EventOk(cfg.step, w'.sys, e) {
      if e in w.sys.q {
        assert EventOk(cfg.step, w.sys, e);
        PlacedEvent(cfg, w, k, req, e);
      }
    }
  }

  lemma PlacedEvent(cfg: Config, w: World, k: Kind, req: Request, e: Event)
    requires EventOk(cfg.step, w.sys, e) && req.guid !in w.sys.om.conds.Get(k)
    ensures EventOk(cfg.step, Placed(w, k, req).sys, e)
  {
    var w' := Placed(w, k, req);
    WithCondGet(w.sys.om, k, req.guid, PlacedEntry(req));
    if e.OmTrade? && !(e.t.guid in w.sys.om.orders && e.t.volume == w.sys.om.orders[e.t.guid].order.target) {
      var k' :| e.t.guid in w.sys.om.conds.Get(k') && e.t.volume == w.sys.om.conds.Get(k')[e.t.guid].order.req.volume;
      assert w'.sys.om.conds.Get(k')[e.t.guid] == w.sys.om.conds.Get(k')[e.t.guid];
    }
  }

  lemma PlacedNews(q: seq<Event>, k: Kind, h: Guid, g: Guid)
    ensures SameOrderNews(q, q + [OmCond(k, h, true)], g)
    ensures forall k': Kind :: SameCondNews(q, q + [OmCond(k, h, true)], k', g)
  {
    TradeInAppend(q, [OmCond(k, h, true)], g);
  }

  lemma PlacedOrders(cfg: Config, w: World, k: Kind, req: Request)
    requires OrdersOk(cfg.step, w.sys, w.grid.levels) && req.guid == w.sys.next
    ensures OrdersOk(cfg.step, Placed(w, k, req).sys, w.grid.levels)
  {
    var w' := Placed(w, k, req);
    forall g | g in w'.sys.om.orders ensures OrderOk(cfg.step, w'.sys, w.grid.levels, g) {
      PlacedNews(w.sys.q, k, req.guid, g);
      OrderStays(cfg.step, w.sys, w'.sys, w.grid.levels, w.grid.levels, g);
    }
  }

  lemma PlacedActivations(q: seq<Event>, k: Kind, h: Guid, b: Both<Guid>)
    requires b.tp != h && b.sl != h
    ensures Activating(q + [OmCond(k, h, true)], b) ==> Activating(q, b)
  {
  }

  lemma PlacedPlace(gw: GatewayState, k: Kind, req: Request, k': Kind, g: Guid)
    requires g != req.guid
    ensures SamePlace(gw, gw.(lists := gw.lists.Set(k, gw.lists.Get(k) + [req])), k', g)
  {
    var l, m := gw.lists.Get(k), gw.lists.Get(k) + [req];
    if InList(m, g) {
      var i :| 0 <= i < |m| && m[i].guid == g;
      assert l[i].guid == g;
    }
    if InList(l, g) {
      var i :| 0 <= i < |l| && l[i].guid == g;
      assert m[i].guid == g;
    }
  }

  lemma PlacedOtherCond(cfg: Config, w: World, k: Kind, req: Request, k': Kind, g: Guid)
    requires g in w.sys.om.conds.Get(k') && CondOk(cfg.step, w.sys, w.grid.levels, k', g)
    requires CondsOk(cfg.step, w.sys, w.grid.levels) && LevelsOk(cfg, w.sys, w.partner, w.grid.levels)
    requires req.guid == w.sys.next
    ensures CondOk(cfg.step, Placed(w, k, req).sys, w.grid.levels, k', g)
  {
    var w' := Placed(w, k, req);
    var e := w.sys.om.conds.Get(k')[g];
    PlacedNews(w.sys.q, k, req.guid, g);
    PlacedPlace(w.sys.gw, k, req, k', g);
    if |e.subs| == 1 {
      var b := w.grid.levels[e.subs[0]].bracket.value;
      assert LevelOk(cfg, w.sys, w.partner, e.subs[0], w.grid.levels[e.subs[0]]);
      assert b.tp in w.sys.om.conds.Get(Tp) && CondOk(cfg.step, w.sys, w.grid.levels, Tp, b.tp);
      assert b.sl in w.sys.om.conds.Get(Sl) && CondOk(cfg.step, w.sys, w.grid.levels, Sl, b.sl);
      PlacedActivations(w.sys.q, k, req.guid, b);
    }
    CondStays(cfg.step, w.sys, w'.sys, w.grid.levels, w.grid.levels, k', g);
  }

  lemma PlacedThisCond(cfg: Config, w: World, k: Kind, req: Request)
    requires CanPlace(cfg, w, k, req) && !TradeIn(w.sys.q, req.guid) && !Traded(w.sys.gw.log, req.guid)
    ensures CondOk(cfg.step, Placed(w, k, req).sys, w.grid.levels, k, req.guid)
  {
  }

  lemma PlacedConds(cfg: Config, w: World, k: Kind, req: Request)
    requires Protocol(cfg, w) && CanPlace(cfg, w, k, req)
    ensures CondsOk(cfg.step, Placed(w, k, req).sys, w.grid.levels)
  {
    var w' := Placed(w, k, req);
    NextIsFresh(cfg, w);
    PlacedThisCond(cfg, w, k, req);
    forall k': Kind, g | g in w'.sys.om.conds.Get(k') ensures CondOk(cfg.step, w'.sys, w'.grid.levels, k', g) {
      WithCondGet(w.sys.om, k, req.guid, PlacedEntry(req));
      if g != req.guid {
        PlacedOtherCond(cfg, w, k, req, k', g);
      }
    }
  }

  lemma PlacedLevels(cfg: Config, w: World, k: Kind, req: Request)
    requires LevelsOk(cfg, w.sys, w.partner, w.grid.levels) && req.guid !in w.sys.om.conds.Get(k)
    ensures LevelsOk(cfg, Placed(w, k, req).sys, w.partner, w.grid.levels)
  {
  }

  lemma PlacedLists(w: World, k: Kind, req: Request)
    requires ListsOk(w.sys) && !InList(w.sys.gw.lists.Get(k), req.guid) && req.guid !in w.sys.om.conds.Get(k)
    ensures ListsOk(Placed(w, k, req).sys)
  {
    var w' := Placed(w, k, req);
    var l := w.sys.gw.lists.Get(k);
    assert ListOk(w.sys, k) && ListOk(w.sys, k.Other());
    forall i | 0 <= i < |l| ensures l[i].guid != req.guid {
    }
    assert ListOk(w'.sys, k);
    assert ListOk(w'.sys, k.Other());
  }

  lemma PlacedGuids(w: World, k: Kind, req: Request)
    requires GuidsOk(w.sys) && req.guid == w.sys.next
    requires req.guid !in w.sys.om.orders && forall k: Kind :: req.guid !in w.sys.om.conds.Get(k)
    ensures GuidsOk(Placed(w, k, req).sys)
  {
    assert req.guid !in w.sys.om.conds.Get(Tp) && req.guid !in w.sys.om.conds.Get(Sl);
  }

  lemma PlacedTotal(cfg: Config, w: World, k: Kind, req: Request)
    requires LevelsOk(cfg, w.sys, w.partner, w.grid.levels) && forall k: Kind :: req.guid !in w.sys.om.conds.Get(k)
    ensures TotalExposure(cfg, Placed(w, k, req)) == TotalExposure(cfg, w)
  {
    var w' := Placed(w, k, req);
    forall n | n in w.grid.levels ensures Exposure(w'.sys, w.grid.levels[n]) == Exposure(w.sys, w.grid.levels[n]) {
      assert LevelOk(cfg, w.sys, w.partner, n, w.grid.levels[n]);
      if w.grid.levels[n].bracket.Some? {
        var b := w.grid.levels[n].bracket.value;
        assert b.tp != req.guid && b.sl != req.guid by {
          assert req.guid !in w.sys.om.conds.Get(Tp) && req.guid !in w.sys.om.conds.Get(Sl);
        }
        PlacedPlace(w.sys.gw, k, req, Tp, b.tp);
        PlacedPlace(w.sys.gw, k, req, Sl, b.sl);
      }
    }
    assert Exposures(w'.sys, w'.grid.levels) == Exposures(w.sys, w.grid.levels);
  }

  lemma PlacedKeepsProtocol(cfg: Config, w: World, k: Kind, req: Request)
    requires Protocol(cfg, w) && CanPlace(cfg, w, k, req)
    ensures Protocol(cfg, Placed(w, k, req))
  {
    NextIsFresh(cfg, w);
    PlacedEvents(cfg, w, k, req);
    PlacedOrders(cfg, w, k, req);
    PlacedConds(cfg, w, k, req);
    PlacedLevels(cfg, w, k, req);
    PlacedLists(w, k, req);
    PlacedGuids(w, k, req);
  }

  lemma PlacedKeepsInv(cfg: Config, w: World, k: Kind, req: Request)
    requires Inv(cfg, w) && CanPlace(cfg, w, k, req)
    ensures Inv(cfg, Placed(w, k, req))
  {
    PlacedKeepsProtocol(cfg, w, k, req);
    NextIsFresh(cfg, w);
    PlacedTotal(cfg, w, k, req);
    PendingAppend(w.sys.q, [OmCond(k, req.guid, true)]);
    PendingOne(OmCond(k, req.guid, true));
    PlacedTrend(cfg, w, k, req);
  }

  lemma PlacedTrend(cfg: Config, w: World, k: Kind, req: Request)
    requires TrendOk(w) && BuilderOk(cfg, w)
    ensures TrendOk(Placed(w, k, req)) && BuilderOk(cfg, Placed(w, k, req))
  {
  }

  // ----- the level takes its bracket -----

  function Owned(m: map<Guid, CondEntry>, g: Guid, n: int): map<Guid, CondEntry>
    requires g in m
  {
    m[g := m[g].(subs := [n])]
  }

  /** The head callback is done: both new orders have a subscriber and the level has a bracket. */
  function Attached(w: World, n: int, b: Both<Guid>): World
    requires w.sys.q != [] && n in w.grid.levels && b.tp in w.sys.om.conds.tp && b.sl in w.sys.om.conds.sl
  {
    w.(sys := w.sys.(q := w.sys.q[1..],
                     om := w.sys.om.(conds := Both(Owned(w.sys.om.conds.tp, b.tp, n),
                                                   Owned(w.sys.om.conds.sl, b.sl, n)))),
       grid := w.grid.(levels := w.grid.levels[n := w.grid.levels[n].(bracket := Some(b))]),
       partner := w.partner[b.tp := b.sl][b.sl := b.tp])
  }

  /** An unsubscribed order that closes the fill of the level's market order. */
  ghost predicate Awaits(w: World, k: Kind, g: Guid, o: MarketOrder) {
    && g in w.sys.om.conds.Get(k)
    && w.sys.om.conds.Get(k)[g].subs == []
    && Hedges(o, w.sys.om.conds.Get(k)[g].order.req)
    && g !in w.partner
  }

  ghost predicate CanAttach(w: World, mo: Guid, n: int, b: Both<Guid>) {
    && w.sys.q != [] && w.sys.q[0] == MoCallback(mo, n)
    && n in w.grid.levels && w.grid.levels[n] == Level(mo, None)
    && mo in w.sys.om.orders && w.sys.om.orders[mo].subs == [n] && w.sys.om.orders[mo].traded
    && Awaits(w, Tp, b.tp, w.sys.om.orders[mo].order)
    && Awaits(w, Sl, b.sl, w.sys.om.orders[mo].order)
    && Separated(w.sys.om.conds.tp[b.tp].order.req, w.sys.om.conds.sl[b.sl].order.req)
  }

  lemma AttachedEvents(cfg: Config, w: World, mo: Guid, n: int, b: Both<Guid>)
    requires EventsOk(cfg.step, w.sys) && CanAttach(w, mo, n, b)
    ensures EventsOk(cfg.step, Attached(w, n, b).sys)
  {
    var w' := Attached(w, n, b);
    HeadAndTail(w.sys.q);
    forall e | e in w'.sys.q ensures EventOk(cfg.step, w'.sys, e) {
      assert EventOk(cfg.step, w.sys, e);
      AttachedEvent(cfg, w, mo, n, b, e);
    }
  }

  lemma AttachedEvent(cfg: Config, w: World, mo: Guid, n: int, b: Both<Guid>, e: Event)
    requires EventOk(cfg.step, w.sys, e) && CanAttach(w, mo, n, b)
    ensures EventOk(cfg.step, Attached(w, n, b).sys, e)
  {
    var w' := Attached(w, n, b);
    AttachedGet(w, n, b);
    if e.OmTrade? && !(e.t.guid in w.sys.om.orders && e.t.volume == w.sys.om.orders[e.t.guid].order.target) {
      var k :| e.t.guid in w.sys.om.conds.Get(k) && e.t.volume == w.sys.om.conds.Get(k)[e.t.guid].order.req.volume;
      assert e.t.guid in w'.sys.om.conds.Get(k);
    }
  }

  lemma AttachedGet(w: World, n: int, b: Both<Guid>)
    requires w.sys.q != [] && n in w.grid.levels && b.tp in w.sys.om.conds.tp && b.sl in w.sys.om.conds.sl
    ensures forall k: Kind :: b.Get(k) in w.sys.om.conds.Get(k)
    ensures forall k: Kind, g :: g in Attached(w, n, b).sys.om.conds.Get(k) <==> g in w.sys.om.conds.Get(k)
    ensures forall k: Kind, g :: g in w.sys.om.conds.Get(k) ==>
      Attached(w, n, b).sys.om.conds.Get(k)[g].order == w.sys.om.conds.Get(k)[g].order
    ensures forall k: Kind, g :: g in w.sys.om.conds.Get(k) && g != b.Get(k) ==>
      Attached(w, n, b).sys.om.conds.Get(k)[g] == w.sys.om.conds.Get(k)[g]
    ensures forall k: Kind :: Attached(w, n, b).sys.om.conds.Get(k)[b.Get(k)].subs == [n]
  {
  }

  lemma AttachedOrders(cfg: Config, w: World, mo: Guid, n: int, b: Both<Guid>)
    requires OrdersOk(cfg.step, w.sys, w.grid.levels) && Arranged(w.sys.q) && CanAttach(w, mo, n, b)
    ensures OrdersOk(cfg.step, Attached(w, n, b).sys, Attached(w, n, b).grid.levels)
  {
  }

  lemma AttachedConds(cfg: Config, w: World, mo: Guid, n: int, b: Both<Guid>)
    requires CondsOk(cfg.step, w.sys, w.grid.levels) && GuidsOk(w.sys) && CanAttach(w, mo, n, b)
    ensures CondsOk(cfg.step, Attached(w, n, b).sys, Attached(w, n, b).grid.levels)
  {
    var w' := Attached(w, n, b);
    AttachedGet(w, n, b);
    forall k: Kind, g | g in w'.sys.om.conds.Get(k) ensures CondOk(cfg.step, w'.sys, w'.grid.levels, k, g) {
      assert CondOk(cfg.step, w.sys, w.grid.levels, k, g);
      if g == b.Get(k) {
        AttachedThisCond(cfg, w, mo, n, b, k);
      } else {
        AttachedOtherCond(cfg, w, mo, n, b, k, g);
      }
    }
  }

  lemma AttachedThisCond(cfg: Config, w: World, mo: Guid, n: int, b: Both<Guid>, k: Kind)
    requires CanAttach(w, mo, n, b) && b.Get(k) in w.sys.om.conds.Get(k)
    requires CondOk(cfg.step, w.sys, w.grid.levels, k, b.Get(k))
    ensures b.Get(k) in Attached(w, n, b).sys.om.conds.Get(k)
    ensures CondOk(cfg.step, Attached(w, n, b).sys, Attached(w, n, b).grid.levels, k, b.Get(k))
  {
  }

  lemma AttachedOtherCond(cfg: Config, w: World, mo: Guid, n: int, b: Both<Guid>, k: Kind, g: Guid)
    requires CanAttach(w, mo, n, b) && g in w.sys.om.conds.Get(k) && g != b.Get(k) && g != mo
    requires CondOk(cfg.step, w.sys, w.grid.levels, k, g)
    ensures g in Attached(w, n, b).sys.om.conds.Get(k)
    ensures CondOk(cfg.step, Attached(w, n, b).sys, Attached(w, n, b).grid.levels, k, g)
  {
  }

  lemma AttachedLevels(cfg: Config, w: World, mo: Guid, n: int, b: Both<Guid>)
    requires LevelsOk(cfg, w.sys, w.partner, w.grid.levels) && CanAttach(w, mo, n, b) && b.tp != b.sl
    ensures var w' := Attached(w, n, b); LevelsOk(cfg, w'.sys, w'.partner, w'.grid.levels)
  {
  }

  lemma AttachedListsAndGuids(w: World, n: int, b: Both<Guid>)
    requires ListsOk(w.sys) && GuidsOk(w.sys)
    requires w.sys.q != [] && n in w.grid.levels && b.tp in w.sys.om.conds.tp && b.sl in w.sys.om.conds.sl
    ensures ListsOk(Attached(w, n, b).sys) && GuidsOk(Attached(w, n, b).sys)
  {
  }

  /** Adding a new pair to an involution without fixed points. */
  lemma PairAdded(partner: map<Guid, Guid>, tp: Guid, sl: Guid)
    requires forall g :: g in partner ==> partner[g] in partner && partner[g] != g && partner[partner[g]] == g
    requires tp !in partner && sl !in partner && tp != sl
    ensures var p := partner[tp := sl][sl := tp];
      && (forall g :: g in p ==> p[g] in p && p[g] != g && p[p[g]] == g)
      && (forall g :: g in p ==>
            (g in partner && p[g] == partner[g]) || (g == tp && p[g] == sl) || (g == sl && p[g] == tp))
  {
  }

  lemma AttachedPartners(cfg: Config, w: World, mo: Guid, n: int, b: Both<Guid>)
    requires PartnersOk(w.sys, w.partner) && CondsOk(cfg.step, w.sys, w.grid.levels) && CanAttach(w, mo, n, b)
    requires b.tp != b.sl
    ensures PartnersOk(Attached(w, n, b).sys, Attached(w, n, b).partner)
  {
    assert CondOk(cfg.step, w.sys, w.grid.levels, Tp, b.Get(Tp));
    assert CondOk(cfg.step, w.sys, w.grid.levels, Sl, b.Get(Sl));
    PairAdded(w.partner, b.tp, b.sl);
    NewPairUntraded(w.sys, w.partner, b);
  }

  lemma NewPairUntraded(s: Sys, partner: map<Guid, Guid>, b: Both<Guid>)
    requires PartnersOk(s, partner) && b.tp < s.next && b.sl < s.next && b.tp !in partner && b.sl !in partner
    requires b.tp != b.sl
    requires !Traded(s.gw.log, b.tp)
    ensures PartnersOk(s, partner[b.tp := b.sl][b.sl := b.tp])
  {
  }

  /** The level held its fill before it had a bracket and holds it now that both orders rest. */
  lemma AttachedTotal(cfg: Config, w: World, mo: Guid, n: int, b: Both<Guid>)
    requires CondsOk(cfg.step, w.sys, w.grid.levels) && CanAttach(w, mo, n, b)
    ensures TotalExposure(cfg, Attached(w, n, b)) == TotalExposure(cfg, w)
  {
    var w' := Attached(w, n, b);
    assert CondOk(cfg.step, w.sys, w.grid.levels, Tp, b.Get(Tp));
    assert CondOk(cfg.step, w.sys, w.grid.levels, Sl, b.Get(Sl));
    assert InList(w.sys.gw.lists.tp, b.tp) && InList(w.sys.gw.lists.sl, b.sl);
    forall m | m in w.grid.levels ensures Exposure(w'.sys, w'.grid.levels[m]) == Exposure(w.sys, w.grid.levels[m]) {
    }
    assert Exposures(w'.sys, w'.grid.levels) == Exposures(w.sys, w.grid.levels);
  }

  lemma AttachedTrend(cfg: Config, w: World, n: int, b: Both<Guid>)
    requires TrendOk(w) && BuilderOk(cfg, w)
    requires w.sys.q != [] && n in w.grid.levels && b.tp in w.sys.om.conds.tp && b.sl in w.sys.om.conds.sl
    ensures TrendOk(Attached(w, n, b)) && BuilderOk(cfg, Attached(w, n, b))
  {
  }

  lemma AttachedKeepsProtocol(cfg: Config, w: World, mo: Guid, n: int, b: Both<Guid>)
    requires Protocol(cfg, w) && CanAttach(w, mo, n, b)
    ensures Protocol(cfg, Attached(w, n, b))
  {
    HeadAndTail(w.sys.q);
    assert b.tp in w.sys.om.conds.tp && b.sl in w.sys.om.conds.sl && b.tp != b.sl;
    AttachedEvents(cfg, w, mo, n, b);
    AttachedOrders(cfg, w, mo, n, b);
    AttachedConds(cfg, w, mo, n, b);
    AttachedLevels(cfg, w, mo, n, b);
    AttachedListsAndGuids(w, n, b);
    AttachedPartners(cfg, w, mo, n, b);
  }

  lemma AttachedKeepsInv(cfg: Config, w: World, mo: Guid, n: int, b: Both<Guid>)
    requires Inv(cfg, w) && CanAttach(w, mo, n, b)
    ensures Inv(cfg, Attached(w, n, b))
  {
    AttachedKeepsProtocol(cfg, w, mo, n, b);
    HeadAndTail(w.sys.q);
    AttachedTotal(cfg, w, mo, n, b);
    AttachedTrend(cfg, w, n, b);
  }

  // ----- the whole callback of a filled market order -----

  /** One conditional order is placed and the trigger loops run. */
  function PlacedAndTriggered(cfg: Config, w: World, k: Kind, req: Request, ts: int): World {
    var p := Placed(w, k, req);
    Replied(p, TriggerConditionals(p.sys.gw, ts, cfg.wrap))
  }

  /** The trigger loops leave everything alone but the position, the lists, the trades and the queue's end. */
  lemma TriggersTouchLittle(w: World, ts: int, wrap: bool)
    ensures var r := TriggerConditionals(w.sys.gw, ts, wrap);
      && r.gw.lastPrice == w.sys.gw.lastPrice
      && r.gw.tpsl == w.sys.gw.tpsl && r.gw.trailing == w.sys.gw.trailing
      && (forall e :: e in r.events ==> e.OmTrade? || e.SiTrade? || e.OmCond?)
  {
    WalkTouchesLittle(w.sys.gw, Sl, 0, ts, wrap);
    WalkTouchesLittle(Walk(w.sys.gw, Sl, 0, ts, wrap).gw, Tp, 0, ts, wrap);
  }

  lemma {:induction false} WalkTouchesLittle(gw: GatewayState, k: Kind, i: nat, ts: int, wrap: bool)
    requires i <= |gw.lists.Get(k)|
    ensures var r := Walk(gw, k, i, ts, wrap);
      && r.gw.lastPrice == gw.lastPrice && r.gw.tpsl == gw.tpsl && r.gw.trailing == gw.trailing
      && (forall e :: e in r.events ==> e.OmTrade? || e.SiTrade? || e.OmCond?)
    decreases |gw.lists.Get(k)|, |gw.lists.Get(k)| - i
  {
    var l := gw.lists.Get(k);
    if i < |l| && Triggers(k, l[i], gw.lastPrice) {
      var r := Fire(gw, k, i, ts);
      if i + 1 < |l| {
        WalkTouchesLittle(r.gw, k, i + 1, ts, wrap);
      } else if wrap {
        WalkTouchesLittle(r.gw, k, 0, ts, wrap);
      }
    } else if i < |l| {
      WalkTouchesLittle(gw, k, i + 1, ts, wrap);
    }
  }

  lemma PlacedAndTriggeredKeepsInv(cfg: Config, w: World, k: Kind, req: Request, ts: int)
    requires Inv(cfg, w) && CanPlace(cfg, w, k, req)
    ensures Inv(cfg, PlacedAndTriggered(cfg, w, k, req, ts))
  {
    PlacedKeepsInv(cfg, w, k, req);
    TriggersKeepInv(cfg, Placed(w, k, req), ts);
  }

  lemma PlacedAndTriggeredFrame(cfg: Config, w: World, k: Kind, req: Request, ts: int)
    requires w.sys.q != []
    ensures var w' := PlacedAndTriggered(cfg, w, k, req, ts);
      && w'.sys.q != [] && w'.sys.q[0] == w.sys.q[0]
      && w' == w.(sys := w'.sys)
      && w'.sys.om == WithCond(w.sys.om, k, req.guid, PlacedEntry(req))
      && w'.sys.next == req.guid + 1
      && w'.sys.gw.lastPrice == w.sys.gw.lastPrice
  {
    TriggersTouchLittle(Placed(w, k, req), ts, cfg.wrap);
  }

  /** `PlaceConditional` is the same placement, up to the head event that the loop has already taken. */
  lemma PlaceIsPlaced(cfg: Config, w: World, k: Kind, req: Request, ts: int)
    requires w.sys.q != []
    ensures var w' := PlacedAndTriggered(cfg, w, k, req, ts);
      PlaceConditional(Pop(w).sys, k, req, ts, cfg.wrap) == w'.sys.(q := w'.sys.q[1..])
  {
  }

  /** A market order's callback finds the order filled at the last price, and its level without a bracket. */
  lemma FilledOrder(cfg: Config, w: World, g: Guid, n: int)
    requires Protocol(cfg, w) && MoCallback(g, n) in w.sys.q
    ensures g in w.sys.om.orders && w.sys.om.orders[g].subs == [n] && w.sys.om.orders[g].traded
    ensures n in w.grid.levels && w.grid.levels[n] == Level(g, None)
    ensures var o := w.sys.om.orders[g].order;
      && o.Status().Filled? && o.filled == o.target && o.target > 0.0 && IsLot(cfg.step, o.target)
      && o.price == w.sys.gw.lastPrice
  {
  }
}
