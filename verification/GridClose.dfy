/** Closing a level keeps the grid's invariant. */
module GridClose {
  import opened Common
  import opened Events
  import opened Gateway
  import opened OrderManager
  import opened DynamicGrid
  import opened GridInvariant
  import opened GridFire
  import opened GridQuietSteps

  // ----- discarding a subscriber's events -----

  lemma {:induction false} DiscardMembers(q: seq<Event>, g: Guid)
    ensures forall e :: e in Discard(q, g) <==> e in q && !OwnedBy(e, g)
  {
    if q != [] {
      DiscardMembers(q[1..], g);
      assert q == [q[0]] + q[1..];
    }
  }

  lemma {:induction false} DiscardArranged(q: seq<Event>, g: Guid)
    requires Arranged(q)
    ensures Arranged(Discard(q, g))
  {
    if q != [] {
      HeadAndTail(q);
      DiscardArranged(q[1..], g);
      DiscardMembers(q[1..], g);
      ArrangedAppend([q[0]], Discard(q[1..], g));
    }
  }

  lemma {:induction false} DiscardPending(q: seq<Event>, g: Guid)
    ensures PendingVolume(Discard(q, g)) == PendingVolume(q)
  {
    if q != [] {
      DiscardPending(q[1..], g);
      if !OwnedBy(q[0], g) {
        assert ([q[0]] + Discard(q[1..], g))[1..] == Discard(q[1..], g);
      }
    }
  }

  lemma TradeInIsMembership(q: seq<Event>, g: Guid)
    ensures TradeIn(q, g) <==> exists t: Trade :: OmTrade(t) in q && t.guid == g
  {
  }

  // ----- the closed form of erasing a level -----

  lemma IndexOfMissing(l: seq<Request>, g: Guid)
    requires !InList(l, g)
    ensures IndexOf(l, g) == |l|
  {
  }

  lemma IndexOfPresent(l: seq<Request>, g: Guid)
    requires InList(l, g)
    ensures IndexOf(l, g) < |l|
  {
  }

  /** Dropping the subscriber of an order that no longer rests in the gateway only forgets the order. */
  lemma DropGoneCond(s: Sys, k: Kind, g: Guid)
    requires g in s.om.conds.Get(k) && !InList(s.gw.lists.Get(k), g)
    ensures DropCond(s, k, g)
         == s.(q := Discard(s.q, g), om := s.om.(conds := s.om.conds.Set(k, s.om.conds.Get(k) - {g})))
  {
    IndexOfMissing(s.gw.lists.Get(k), g);
    var m := s.om.conds.Get(k);
    var unsubscribed := m[g := m[g].(subs := [])];
    var cancelled := unsubscribed[g := unsubscribed[g].(order := unsubscribed[g].order.Cancel())];
    assert cancelled - {g} == m - {g};
    assert s.q + [] + [] == s.q;
  }

  /** The gateway without resting order `g`. */
  function WithoutCond(gw: GatewayState, k: Kind, g: Guid): GatewayState
    requires IndexOf(gw.lists.Get(k), g) < |gw.lists.Get(k)|
  {
    gw.(lists := gw.lists.Set(k, EraseAt(gw.lists.Get(k), IndexOf(gw.lists.Get(k), g))))
  }

  function WithoutLevel(om: OmState, mo: Guid, b: Both<Guid>): OmState {
    om.(orders := om.orders - {mo}, conds := Both(om.conds.tp - {b.tp}, om.conds.sl - {b.sl}))
  }

  /** The queue that erasing a level leaves: the removal of the partner is announced, the level's callbacks go. */
  function ClosedQueue(q: seq<Event>, k: Kind, n: int, mo: Guid, b: Both<Guid>): seq<Event> {
    var o := b.Get(k.Other());
    Discard(Discard(Discard(q + [CondCallback(k.Other(), o, n)] + [OmCond(k.Other(), o, false)],
                            b.sl), b.tp), mo)
  }

  lemma CloseForm(s: Sys, k: Kind, n: int, mo: Guid, b: Both<Guid>)
    requires var o := b.Get(k.Other());
      && o in s.om.conds.Get(k.Other()) && s.om.conds.Get(k.Other())[o].subs == [n]
      && InList(s.gw.lists.Get(k.Other()), o)
    requires b.Get(k) in s.om.conds.Get(k) && !InList(s.gw.lists.Get(k), b.Get(k))
    requires var l := s.gw.lists.Get(k.Other()); forall i, j :: 0 <= i < j < |l| ==> l[i].guid != l[j].guid
    ensures IndexOf(s.gw.lists.Get(k.Other()), b.Get(k.Other())) < |s.gw.lists.Get(k.Other())|
    ensures DropLevel(CancelCond(s, k.Other(), b.Get(k.Other())), mo, b)
         == Sys(ClosedQueue(s.q, k, n, mo, b), WithoutCond(s.gw, k.Other(), b.Get(k.Other())),
                WithoutLevel(s.om, mo, b), s.next)
  {
    var ko := k.Other();
    var o := b.Get(ko);
    var l := s.gw.lists.Get(ko);
    IndexOfPresent(l, o);
    ErasedList(l, IndexOf(l, o));
    var c := CancelCond(s, ko, o);
    assert NotifyCond(ko, o, [n]) == [CondCallback(ko, o, n)];
    assert c.om.conds.Get(ko) - {o} == s.om.conds.Get(ko) - {o};
    DropGoneCond(c, Sl, b.sl);
    var d := DropCond(c, Sl, b.sl);
    DropGoneCond(d, Tp, b.tp);
  }

  // ----- the level that closes -----

  /** What the invariant says of a level one of whose orders has fired and been traded. */
  ghost predicate Closing(cfg: Config, w: World, k: Kind, n: int) {
    && n in w.grid.levels
    && LevelOk(cfg, w.sys, w.partner, n, w.grid.levels[n])
    && w.grid.levels[n].bracket.Some?
    && var l := w.grid.levels[n];
    && var b := l.bracket.value;
    && OrderOk(cfg.step, w.sys, w.grid.levels, l.mo)
    && w.sys.om.orders[l.mo].traded
    && Fired(w.sys, k, b.Get(k), n)
    && w.sys.om.conds.Get(k)[b.Get(k)].order.filled != 0.0
    && Live(w.sys, k.Other(), b.Get(k.Other()))
    && w.sys.om.conds.Get(k.Other())[b.Get(k.Other())].order.req.guid == b.Get(k.Other())
    && !Activating(w.sys.q, b)
  }

  /** A callback that finds its order filled finds a level that closes. */
  lemma FilledMeansClosing(cfg: Config, w: World, k: Kind, g: Guid, n: int)
    requires Protocol(cfg, w) && CondCallback(k, g, n) in w.sys.q
    ensures g in w.sys.om.conds.Get(k) && w.sys.om.conds.Get(k)[g].subs == [n]
    ensures w.sys.om.conds.Get(k)[g].order.Status().Filled? ==>
      Closing(cfg, w, k, n) && w.grid.levels[n].bracket.value.Get(k) == g
    ensures !w.sys.om.conds.Get(k)[g].order.Status().Filled? ==>
      Live(w.sys, k, g) || (Fired(w.sys, k, g, n) && w.sys.om.conds.Get(k)[g].order.filled == 0.0)
  {
    assert EventOk(cfg.step, w.sys, CondCallback(k, g, n));
    assert CondOk(cfg.step, w.sys, w.grid.levels, k, g);
    var l := w.grid.levels[n];
    assert LevelOk(cfg, w.sys, w.partner, n, l);
    assert OrderOk(cfg.step, w.sys, w.grid.levels, l.mo);
    assert CondOk(cfg.step, w.sys, w.grid.levels, k.Other(), l.bracket.value.Get(k.Other()));
  }

  /** A callback that finds its order unfilled changes nothing. */
  lemma QuietCallbackKeepsInv(cfg: Config, w: World, k: Kind, g: Guid, n: int)
    requires ValidConfig(cfg) && Inv(cfg, w) && w.sys.q != [] && w.sys.q[0] == CondCallback(k, g, n)
    requires g in w.sys.om.conds.Get(k) && !w.sys.om.conds.Get(k)[g].order.Status().Filled?
    ensures Inv(cfg, Step(cfg, w))
  {
    var w' := Step(cfg, w);
    FilledMeansClosing(cfg, w, k, g, n);
    HeadAndTail(w.sys.q);
    assert w'.sys.q == w.sys.q[1..] + [];
    QuietCallbackOrders(cfg, w, w', k, g, n);
    BookStep(cfg, w, w', []);
  }

  lemma QuietCallbackOrders(cfg: Config, w: World, w': World, k: Kind, g: Guid, n: int)
    requires w.sys.q != [] && w.sys.q[0] == CondCallback(k, g, n) && w' == Pop(w)
    requires OrdersOk(cfg.step, w.sys, w.grid.levels) && CondsOk(cfg.step, w.sys, w.grid.levels) && GuidsOk(w.sys)
    requires g in w.sys.om.conds.Get(k) && w.sys.om.conds.Get(k)[g].subs == [n]
    requires Live(w.sys, k, g) || (Fired(w.sys, k, g, n) && w.sys.om.conds.Get(k)[g].order.filled == 0.0)
    ensures OrdersOk(cfg.step, w'.sys, w'.grid.levels) && CondsOk(cfg.step, w'.sys, w'.grid.levels)
  {
    assert w'.sys.q == w.sys.q[1..] + [];
    HeadAndTail(w.sys.q);
    OtherOrders(cfg, w, w', [], g);
    OtherConds(cfg, w, w', [], g);
    assert g !in w.sys.om.orders && g !in w.sys.om.conds.Get(k.Other());
    assert CondOk(cfg.step, w.sys, w.grid.levels, k, g);
    assert CondOk(cfg.step, w'.sys, w'.grid.levels, k, g);
    OnlyThisCond(cfg, w', k, g);
  }

  // ----- the world after the level has closed -----

  function Closed(w: World, k: Kind, n: int): World
    requires w.sys.q != [] && n in w.grid.levels && w.grid.levels[n].bracket.Some?
    requires var b := w.grid.levels[n].bracket.value;
      IndexOf(w.sys.gw.lists.Get(k.Other()), b.Get(k.Other())) < |w.sys.gw.lists.Get(k.Other())|
  {
    var l := w.grid.levels[n];
    var b := l.bracket.value;
    w.(sys := Sys(ClosedQueue(w.sys.q[1..], k, n, l.mo, b), WithoutCond(w.sys.gw, k.Other(), b.Get(k.Other())),
                  WithoutLevel(w.sys.om, l.mo, b), w.sys.next),
       grid := w.grid.(levels := w.grid.levels - {n}))
  }

  lemma ClosedQueueMembers(q: seq<Event>, k: Kind, n: int, mo: Guid, b: Both<Guid>)
    ensures forall e :: e in ClosedQueue(q, k, n, mo, b) <==>
      (e in q || e == OmCond(k.Other(), b.Get(k.Other()), false))
      && !OwnedBy(e, b.sl) && !OwnedBy(e, b.tp) && !OwnedBy(e, mo)
    ensures forall g :: TradeIn(ClosedQueue(q, k, n, mo, b), g) <==> TradeIn(q, g)
  {
    var o := b.Get(k.Other());
    var x := q + [CondCallback(k.Other(), o, n)] + [OmCond(k.Other(), o, false)];
    DiscardMembers(x, b.sl);
    DiscardMembers(Discard(x, b.sl), b.tp);
    DiscardMembers(Discard(Discard(x, b.sl), b.tp), mo);
    assert OwnedBy(CondCallback(k.Other(), o, n), b.tp) || OwnedBy(CondCallback(k.Other(), o, n), b.sl);
    forall g ensures TradeIn(ClosedQueue(q, k, n, mo, b), g) <==> TradeIn(q, g) {
      TradeInIsMembership(q, g);
      TradeInIsMembership(ClosedQueue(q, k, n, mo, b), g);
    }
  }

  lemma ClosedQueueArranged(q: seq<Event>, k: Kind, n: int, mo: Guid, b: Both<Guid>)
    requires Arranged(q)
    ensures Arranged(ClosedQueue(q, k, n, mo, b))
    ensures PendingVolume(ClosedQueue(q, k, n, mo, b)) == PendingVolume(q)
  {
    var o := b.Get(k.Other());
    var c, d := [CondCallback(k.Other(), o, n)], [OmCond(k.Other(), o, false)];
    ArrangedAppend(q, c);
    ArrangedAppend(q + c, d);
    PendingAppend(q, c);
    PendingAppend(q + c, d);
    PendingNone(c);
    PendingNone(d);
    var x := q + c + d;
    DiscardArranged(x, b.sl);
    DiscardArranged(Discard(x, b.sl), b.tp);
    DiscardArranged(Discard(Discard(x, b.sl), b.tp), mo);
    DiscardPending(x, b.sl);
    DiscardPending(Discard(x, b.sl), b.tp);
    DiscardPending(Discard(Discard(x, b.sl), b.tp), mo);
  }

  /** No news of the closing level is left but the callbacks that its erasure discards. */
  lemma NoNewsOfClosing(cfg: Config, w: World, k: Kind, n: int)
    requires Closing(cfg, w, k, n)
    ensures var l := w.grid.levels[n]; var b := l.bracket.value;
      && OmAck(l.mo) !in w.sys.q
      && !TradeIn(w.sys.q, l.mo) && !TradeIn(w.sys.q, b.tp) && !TradeIn(w.sys.q, b.sl)
      && (forall k': Kind :: OmCond(k', b.Get(k'), true) !in w.sys.q)
  {
  }

  lemma ClosedEvents(cfg: Config, w: World, k: Kind, n: int)
    requires EventsOk(cfg.step, w.sys) && w.sys.q != [] && Closing(cfg, w, k, n)
    requires var b := w.grid.levels[n].bracket.value;
      IndexOf(w.sys.gw.lists.Get(k.Other()), b.Get(k.Other())) < |w.sys.gw.lists.Get(k.Other())|
    ensures EventsOk(cfg.step, Closed(w, k, n).sys)
  {
    var w' := Closed(w, k, n);
    var l := w.grid.levels[n];
    HeadAndTail(w.sys.q);
    ClosedQueueMembers(w.sys.q[1..], k, n, l.mo, l.bracket.value);
    NoNewsOfClosing(cfg, w, k, n);
    forall e | e in w'.sys.q ensures EventOk(cfg.step, w'.sys, e) {
      if e in w.sys.q {
        assert EventOk(cfg.step, w.sys, e);
        ClosedEvent(cfg, w, k, n, e);
      }
    }
  }

  lemma ClosedEvent(cfg: Config, w: World, k: Kind, n: int, e: Event)
    requires w.sys.q != [] && n in w.grid.levels && w.grid.levels[n].bracket.Some?
    requires var l := w.grid.levels[n]; var b := l.bracket.value;
      && IndexOf(w.sys.gw.lists.Get(k.Other()), b.Get(k.Other())) < |w.sys.gw.lists.Get(k.Other())|
      && !OwnedBy(e, b.sl) && !OwnedBy(e, b.tp) && !OwnedBy(e, l.mo)
      && e != OmAck(l.mo) && (e.OmTrade? ==> e.t.guid != l.mo && e.t.guid != b.tp && e.t.guid != b.sl)
      && (forall k': Kind :: e != OmCond(k', b.Get(k'), true))
    requires EventOk(cfg.step, w.sys, e)
    ensures EventOk(cfg.step, Closed(w, k, n).sys, e)
  {
    var b := w.grid.levels[n].bracket.value;
    var s' := Closed(w, k, n).sys;
    assert b.Get(Tp) == b.tp && b.Get(Sl) == b.sl;
    assert s'.om.conds.Get(Tp) == w.sys.om.conds.Get(Tp) - {b.tp};
    assert s'.om.conds.Get(Sl) == w.sys.om.conds.Get(Sl) - {b.sl};
    if e.OmTrade? {
      RemainingTrade(cfg.step, w.sys, s', w.grid.levels[n].mo, b, e.t);
    }
  }

  lemma RemainingTrade(step: real, s: Sys, s': Sys, mo: Guid, b: Both<Guid>, t: Trade)
    requires EventOk(step, s, OmTrade(t)) && t.guid != mo && t.guid != b.tp && t.guid != b.sl
    requires s'.om == WithoutLevel(s.om, mo, b) && s'.gw.lastPrice == s.gw.lastPrice
    ensures EventOk(step, s', OmTrade(t))
  {
    if !(t.guid in s.om.orders && t.volume == s.om.orders[t.guid].order.target && t.price == s.gw.lastPrice) {
      var k: Kind :| t.guid in s.om.conds.Get(k) && t.volume == s.om.conds.Get(k)[t.guid].order.req.volume;
      assert s'.om.conds.Get(k) == s.om.conds.Get(k) - {b.Get(k)};
      assert t.guid in s'.om.conds.Get(k);
    }
  }

  lemma ClosedNews(w: World, k: Kind, n: int, g: Guid)
    requires w.sys.q != [] && w.sys.q[0].CondCallback? && n in w.grid.levels && w.grid.levels[n].bracket.Some?
    requires var l := w.grid.levels[n]; var b := l.bracket.value;
      && IndexOf(w.sys.gw.lists.Get(k.Other()), b.Get(k.Other())) < |w.sys.gw.lists.Get(k.Other())|
      && g != l.mo && g != b.tp && g != b.sl && w.sys.q[0].g == b.Get(k)
    ensures SameOrderNews(w.sys.q, Closed(w, k, n).sys.q, g)
    ensures forall k': Kind :: SameCondNews(w.sys.q, Closed(w, k, n).sys.q, k', g)
  {
    var l := w.grid.levels[n];
    var q' := Closed(w, k, n).sys.q;
    HeadAndTail(w.sys.q);
    ClosedQueueMembers(w.sys.q[1..], k, n, l.mo, l.bracket.value);
    SameMembersSameNews(w.sys.q, q', g);
  }

  lemma SameMembersSameNews(q: seq<Event>, q': seq<Event>, g: Guid)
    requires TradeIn(q, g) <==> TradeIn(q', g)
    requires forall e: Event :: (e.MoCallback? || e.CondCallback? || e.OmAck?) && e.g == g ==> (e in q <==> e in q')
    ensures SameOrderNews(q, q', g)
    ensures forall k: Kind :: SameCondNews(q, q', k, g)
  {
  }

  lemma ClosedActivations(w: World, k: Kind, n: int, b: Both<Guid>)
    requires w.sys.q != [] && n in w.grid.levels && w.grid.levels[n].bracket.Some?
    requires var b := w.grid.levels[n].bracket.value;
      IndexOf(w.sys.gw.lists.Get(k.Other()), b.Get(k.Other())) < |w.sys.gw.lists.Get(k.Other())|
    ensures Activating(Closed(w, k, n).sys.q, b) ==> Activating(w.sys.q, b)
  {
  }

  lemma ClosedOrders(cfg: Config, w: World, k: Kind, n: int)
    requires OrdersOk(cfg.step, w.sys, w.grid.levels) && GuidsOk(w.sys)
    requires w.sys.q != [] && w.sys.q[0].CondCallback? && Closing(cfg, w, k, n)
    requires var b := w.grid.levels[n].bracket.value;
      && IndexOf(w.sys.gw.lists.Get(k.Other()), b.Get(k.Other())) < |w.sys.gw.lists.Get(k.Other())|
      && w.sys.q[0].g == b.Get(k)
    ensures OrdersOk(cfg.step, Closed(w, k, n).sys, Closed(w, k, n).grid.levels)
  {
    var w' := Closed(w, k, n);
    forall g | g in w'.sys.om.orders ensures OrderOk(cfg.step, w'.sys, w'.grid.levels, g) {
      assert OrderOk(cfg.step, w.sys, w.grid.levels, g);
      ClosedNews(w, k, n, g);
      OrderStays(cfg.step, w.sys, w'.sys, w.grid.levels, w'.grid.levels, g);
    }
  }

  lemma ClosedPlace(gw: GatewayState, k: Kind, o: Guid, k': Kind, g: Guid)
    requires IndexOf(gw.lists.Get(k), o) < |gw.lists.Get(k)| && g != o
    requires var l := gw.lists.Get(k); forall i, j :: 0 <= i < j < |l| ==> l[i].guid != l[j].guid
    ensures SamePlace(gw, WithoutCond(gw, k, o), k', g)
  {
    ErasedList(gw.lists.Get(k), IndexOf(gw.lists.Get(k), o));
  }

  lemma ClosedConds(cfg: Config, w: World, k: Kind, n: int)
    requires CondsOk(cfg.step, w.sys, w.grid.levels) && GuidsOk(w.sys) && ListsOk(w.sys)
    requires w.sys.q != [] && w.sys.q[0].CondCallback? && Closing(cfg, w, k, n)
    requires var b := w.grid.levels[n].bracket.value;
      && IndexOf(w.sys.gw.lists.Get(k.Other()), b.Get(k.Other())) < |w.sys.gw.lists.Get(k.Other())|
      && w.sys.q[0].g == b.Get(k)
    ensures CondsOk(cfg.step, Closed(w, k, n).sys, Closed(w, k, n).grid.levels)
  {
    var w' := Closed(w, k, n);
    assert ListOk(w.sys, k.Other());
    forall k': Kind, g | g in w'.sys.om.conds.Get(k') ensures CondOk(cfg.step, w'.sys, w'.grid.levels, k', g) {
      ClosedCond(cfg, w, k, n, k', g);
    }
  }

  lemma RemainingCond(w: World, k: Kind, n: int, k': Kind, g: Guid)
    requires GuidsOk(w.sys) && w.sys.q != [] && n in w.grid.levels && w.grid.levels[n].bracket.Some?
    requires var l := w.grid.levels[n]; var b := l.bracket.value;
      && l.mo in w.sys.om.orders && b.tp in w.sys.om.conds.tp && b.sl in w.sys.om.conds.sl
      && IndexOf(w.sys.gw.lists.Get(k.Other()), b.Get(k.Other())) < |w.sys.gw.lists.Get(k.Other())|
    requires g in Closed(w, k, n).sys.om.conds.Get(k')
    ensures var l := w.grid.levels[n]; var b := l.bracket.value;
      && g in w.sys.om.conds.Get(k') && g != b.tp && g != b.sl && g != l.mo
      && Closed(w, k, n).sys.om.conds.Get(k')[g] == w.sys.om.conds.Get(k')[g]
  {
  }

  lemma ClosedCond(cfg: Config, w: World, k: Kind, n: int, k': Kind, g: Guid)
    requires CondsOk(cfg.step, w.sys, w.grid.levels) && GuidsOk(w.sys) && ListOk(w.sys, k.Other())
    requires w.sys.q != [] && w.sys.q[0].CondCallback? && Closing(cfg, w, k, n)
    requires var b := w.grid.levels[n].bracket.value;
      && IndexOf(w.sys.gw.lists.Get(k.Other()), b.Get(k.Other())) < |w.sys.gw.lists.Get(k.Other())|
      && w.sys.q[0].g == b.Get(k)
    requires g in Closed(w, k, n).sys.om.conds.Get(k')
    ensures CondOk(cfg.step, Closed(w, k, n).sys, Closed(w, k, n).grid.levels, k', g)
  {
    var b := w.grid.levels[n].bracket.value;
    RemainingCond(w, k, n, k', g);
    assert CondOk(cfg.step, w.sys, w.grid.levels, k', g);
    ClosedNews(w, k, n, g);
    ClosedPlace(w.sys.gw, k.Other(), b.Get(k.Other()), k', g);
    if |w.sys.om.conds.Get(k')[g].subs| == 1 {
      ClosedActivations(w, k, n, w.grid.levels[w.sys.om.conds.Get(k')[g].subs[0]].bracket.value);
    }
    CondStays(cfg.step, w.sys, Closed(w, k, n).sys, w.grid.levels, Closed(w, k, n).grid.levels, k', g);
  }

  /** Everything that the remaining levels need is still there. */
  lemma ClosedLevels(cfg: Config, w: World, k: Kind, n: int)
    requires LevelsOk(cfg, w.sys, w.partner, w.grid.levels) && w.sys.q != [] && Closing(cfg, w, k, n)
    requires var b := w.grid.levels[n].bracket.value;
      IndexOf(w.sys.gw.lists.Get(k.Other()), b.Get(k.Other())) < |w.sys.gw.lists.Get(k.Other())|
    ensures var w' := Closed(w, k, n); LevelsOk(cfg, w'.sys, w'.partner, w'.grid.levels)
  {
  }

  lemma ClosedLists(cfg: Config, w: World, k: Kind, n: int)
    requires ListsOk(w.sys) && w.sys.q != [] && Closing(cfg, w, k, n)
    requires var b := w.grid.levels[n].bracket.value;
      IndexOf(w.sys.gw.lists.Get(k.Other()), b.Get(k.Other())) < |w.sys.gw.lists.Get(k.Other())|
    ensures ListsOk(Closed(w, k, n).sys)
  {
    var w' := Closed(w, k, n);
    var b := w.grid.levels[n].bracket.value;
    ClosedList(w.sys, w'.sys, k.Other(), b.Get(k.Other()));
    ClosedList(w.sys, w'.sys, k, b.Get(k));
  }

  /** Order `g` leaves the manager, and the gateway's list if it is still there. */
  lemma ClosedList(s: Sys, s': Sys, k: Kind, g: Guid)
    requires ListsOk(s) && s'.om.conds.Get(k) == s.om.conds.Get(k) - {g}
    requires if IndexOf(s.gw.lists.Get(k), g) < |s.gw.lists.Get(k)|
      then s'.gw.lists.Get(k) == EraseAt(s.gw.lists.Get(k), IndexOf(s.gw.lists.Get(k), g))
      else s'.gw.lists.Get(k) == s.gw.lists.Get(k)
    ensures ListOk(s', k)
  {
    var l, m := s.gw.lists.Get(k), s'.gw.lists.Get(k);
    assert ListOk(s, k);
    if IndexOf(l, g) < |l| {
      ErasedList(l, IndexOf(l, g));
    }
    forall i | 0 <= i < |m| ensures m[i].guid in s'.om.conds.Get(k) && s'.om.conds.Get(k)[m[i].guid].order.req == m[i] {
      assert m[i] in l;
      assert m[i].guid != g;
    }
  }

  lemma ClosedExposure(cfg: Config, w: World, k: Kind, n: int, m: int)
    requires LevelsOk(cfg, w.sys, w.partner, w.grid.levels) && w.sys.q != [] && Closing(cfg, w, k, n)
    requires ListOk(w.sys, k.Other())
    requires var b := w.grid.levels[n].bracket.value;
      IndexOf(w.sys.gw.lists.Get(k.Other()), b.Get(k.Other())) < |w.sys.gw.lists.Get(k.Other())|
    requires m in w.grid.levels && m != n
    ensures Exposure(Closed(w, k, n).sys, w.grid.levels[m]) == Exposure(w.sys, w.grid.levels[m])
  {
    assert LevelOk(cfg, w.sys, w.partner, m, w.grid.levels[m]);
    var o := w.grid.levels[n].bracket.value.Get(k.Other());
    if w.grid.levels[m].bracket.Some? {
      var b := w.grid.levels[m].bracket.value;
      assert w.sys.om.conds.Get(k.Other())[b.Get(k.Other())].subs == [m];
      ClosedPlace(w.sys.gw, k.Other(), o, k.Other(), b.Get(k.Other()));
    }
  }

  /** The closing level had nothing left to hold, so the total does not change. */
  lemma ClosedTotal(cfg: Config, w: World, k: Kind, n: int)
    requires LevelsOk(cfg, w.sys, w.partner, w.grid.levels) && w.sys.q != [] && Closing(cfg, w, k, n)
    requires ListOk(w.sys, k.Other())
    requires var b := w.grid.levels[n].bracket.value;
      IndexOf(w.sys.gw.lists.Get(k.Other()), b.Get(k.Other())) < |w.sys.gw.lists.Get(k.Other())|
    ensures TotalExposure(cfg, Closed(w, k, n)) == TotalExposure(cfg, w)
  {
    var w' := Closed(w, k, n);
    var before, after := Exposures(w.sys, w.grid.levels), Exposures(w'.sys, w'.grid.levels);
    assert Exposure(w.sys, w.grid.levels[n]) == 0.0;
    forall m ensures ValueAt(before, m) == ValueAt(after, m) {
      if m in w.grid.levels && m != n {
        ClosedExposure(cfg, w, k, n, m);
      }
    }
    TotalSame(before, after, -cfg.levelsPerSide, cfg.levelsPerSide);
  }

  lemma ClosedGuids(w: World, k: Kind, n: int)
    requires GuidsOk(w.sys) && w.sys.q != [] && n in w.grid.levels && w.grid.levels[n].bracket.Some?
    requires var b := w.grid.levels[n].bracket.value;
      IndexOf(w.sys.gw.lists.Get(k.Other()), b.Get(k.Other())) < |w.sys.gw.lists.Get(k.Other())|
    ensures GuidsOk(Closed(w, k, n).sys)
  {
  }

  lemma ClosedTrend(cfg: Config, w: World, k: Kind, n: int)
    requires TrendOk(w) && BuilderOk(cfg, w) && w.sys.q != []
    requires n in w.grid.levels && w.grid.levels[n].bracket.Some?
    requires var b := w.grid.levels[n].bracket.value;
      IndexOf(w.sys.gw.lists.Get(k.Other()), b.Get(k.Other())) < |w.sys.gw.lists.Get(k.Other())|
    ensures TrendOk(Closed(w, k, n)) && BuilderOk(cfg, Closed(w, k, n))
  {
    var l := w.grid.levels[n];
    ClosedQueueMembers(w.sys.q[1..], k, n, l.mo, l.bracket.value);
    HeadAndTail(w.sys.q);
    TrendStays(cfg, w, Closed(w, k, n));
  }

  lemma ClosedKeepsProtocol(cfg: Config, w: World, k: Kind, n: int)
    requires Protocol(cfg, w) && w.sys.q != [] && w.sys.q[0].CondCallback? && Closing(cfg, w, k, n)
    requires var b := w.grid.levels[n].bracket.value;
      && IndexOf(w.sys.gw.lists.Get(k.Other()), b.Get(k.Other())) < |w.sys.gw.lists.Get(k.Other())|
      && w.sys.q[0].g == b.Get(k)
    ensures Protocol(cfg, Closed(w, k, n))
  {
    var l := w.grid.levels[n];
    HeadAndTail(w.sys.q);
    ClosedQueueArranged(w.sys.q[1..], k, n, l.mo, l.bracket.value);
    ClosedEvents(cfg, w, k, n);
    ClosedOrders(cfg, w, k, n);
    ClosedConds(cfg, w, k, n);
    ClosedLevels(cfg, w, k, n);
    ClosedLists(cfg, w, k, n);
    ClosedGuids(w, k, n);
  }

  lemma ClosedKeepsInv(cfg: Config, w: World, k: Kind, n: int)
    requires Inv(cfg, w) && w.sys.q != [] && w.sys.q[0].CondCallback? && Closing(cfg, w, k, n)
    requires var b := w.grid.levels[n].bracket.value;
      && IndexOf(w.sys.gw.lists.Get(k.Other()), b.Get(k.Other())) < |w.sys.gw.lists.Get(k.Other())|
      && w.sys.q[0].g == b.Get(k)
    ensures Inv(cfg, Closed(w, k, n))
  {
    var l := w.grid.levels[n];
    ClosedKeepsProtocol(cfg, w, k, n);
    HeadAndTail(w.sys.q);
    ClosedQueueArranged(w.sys.q[1..], k, n, l.mo, l.bracket.value);
    assert ListOk(w.sys, k.Other());
    ClosedTotal(cfg, w, k, n);
    ClosedTrend(cfg, w, k, n);
  }

  /** The handler of a filled bracket order is exactly the closing of its level. */
  lemma FilledCallbackCloses(cfg: Config, w: World, k: Kind, g: Guid, n: int)
    requires ValidConfig(cfg) && Protocol(cfg, w) && w.sys.q != [] && w.sys.q[0] == CondCallback(k, g, n)
    requires g in w.sys.om.conds.Get(k) && w.sys.om.conds.Get(k)[g].order.Status().Filled?
    ensures Closing(cfg, w, k, n) && w.grid.levels[n].bracket.value.Get(k) == g
    ensures var b := w.grid.levels[n].bracket.value;
      && IndexOf(w.sys.gw.lists.Get(k.Other()), b.Get(k.Other())) < |w.sys.gw.lists.Get(k.Other())|
      && Step(cfg, w) == Closed(w, k, n)
  {
    FilledMeansClosing(cfg, w, k, g, n);
    var b := w.grid.levels[n].bracket.value;
    var o := b.Get(k.Other());
    assert ListOk(w.sys, k.Other());
    assert InList(w.sys.gw.lists.Get(k.Other()), o);
    assert w.sys.om.conds.Get(k.Other())[o].subs == [n];
    CloseForm(Pop(w).sys, k, n, w.grid.levels[n].mo, b);
  }

  lemma FilledCallbackKeepsInv(cfg: Config, w: World, k: Kind, g: Guid, n: int)
    requires ValidConfig(cfg) && Inv(cfg, w) && w.sys.q != [] && w.sys.q[0] == CondCallback(k, g, n)
    requires g in w.sys.om.conds.Get(k) && w.sys.om.conds.Get(k)[g].order.Status().Filled?
    ensures Inv(cfg, Step(cfg, w))
  {
    FilledCallbackCloses(cfg, w, k, g, n);
    ClosedKeepsInv(cfg, w, k, n);
  }
}
