/** Firing a conditional order keeps the grid's invariant. */
module GridFire {
  import opened Common
  import opened Lots
  import opened Events
  import opened Gateway
  import opened OrderManager
  import opened DynamicGrid
  import opened GridInvariant

  function Replied(w: World, r: Reply): World {
    w.(sys := w.sys.(gw := r.gw, q := w.sys.q + r.events))
  }

  /** Events may be appended when every queued event may stand before them and they are arranged themselves. */
  lemma ArrangedAppend(q: seq<Event>, r: seq<Event>)
    requires Arranged(q) && Arranged(r)
    requires forall a, b :: a in q && b in r ==> Before(a, b)
    ensures Arranged(q + r)
  {
  }

  lemma NotTradeIn(q: seq<Event>, g: Guid, t: Trade)
    requires !TradeIn(q, g) && OmTrade(t) in q
    ensures t.guid != g
  {
  }

  lemma ErasedList(l: seq<Request>, i: nat)
    requires i < |l| && forall a, b :: 0 <= a < b < |l| ==> l[a].guid != l[b].guid
    ensures var m := EraseAt(l, i);
      && (forall a, b :: 0 <= a < b < |m| ==> m[a].guid != m[b].guid)
      && !InList(m, l[i].guid)
      && (forall r :: r in m <==> r in l && r != l[i])
      && (forall g :: g != l[i].guid ==> (InList(m, g) <==> InList(l, g)))
  {
    var m := EraseAt(l, i);
    forall a | 0 <= a < |m| ensures m[a] == (if a < i then l[a] else l[a + 1]) && m[a].guid != l[i].guid {
    }
    forall r | r in l && r != l[i] ensures r in m {
      var a :| 0 <= a < |l| && l[a] == r;
      assert m[if a < i then a else a - 1] == r;
    }
    forall g | g != l[i].guid && InList(l, g) ensures InList(m, g) {
      var a :| 0 <= a < |l| && l[a].guid == g;
      assert m[if a < i then a else a - 1].guid == g;
    }
  }

  lemma FireArranges(s: Sys, k: Kind, i: nat, ts: int)
    requires Arranged(s.q) && i < |s.gw.lists.Get(k)| && !TradeIn(s.q, s.gw.lists.Get(k)[i].guid)
    ensures Arranged(s.q + Fire(s.gw, k, i, ts).events)
  {
  }

  /** The gateway's part of the state matters to queued events only through the last price. */
  lemma EventStays(step: real, s: Sys, s': Sys, e: Event)
    requires EventOk(step, s, e)
    requires s'.om == s.om && s'.gw.lastPrice == s.gw.lastPrice
    ensures EventOk(step, s', e)
  {
  }

  lemma FireEvents(cfg: Config, s: Sys, k: Kind, i: nat, ts: int)
    requires EventsOk(cfg.step, s) && i < |s.gw.lists.Get(k)|
    requires var o := s.gw.lists.Get(k)[i];
      o.guid in s.om.conds.Get(k) && s.om.conds.Get(k)[o.guid].order.req == o && IsLot(cfg.step, o.volume)
    ensures var r := Fire(s.gw, k, i, ts); EventsOk(cfg.step, s.(gw := r.gw, q := s.q + r.events))
  {
    var r := Fire(s.gw, k, i, ts);
    var s' := s.(gw := r.gw, q := s.q + r.events);
    var o := s.gw.lists.Get(k)[i];
    SignedLot(cfg.step, o.volume, o.side);
    forall e | e in s'.q ensures EventOk(cfg.step, s', e) {
      if e in s.q {
        EventStays(cfg.step, s, s', e);
      } else {
        assert e in r.events;
      }
    }
  }

  /** The news of a firing concerns only the order that fires. */
  lemma FireNews(q: seq<Event>, t: Trade, k: Kind, g: Guid)
    requires t.guid != g
    ensures var q' := q + (Emit(t) + [OmCond(k, t.guid, false)]);
      && SameOrderNews(q, q', g)
      && forall k': Kind :: SameCondNews(q, q', k', g)
  {
    TradeInAppend(q, Emit(t) + [OmCond(k, t.guid, false)], g);
  }

  lemma FireOrders(cfg: Config, w: World, k: Kind, i: nat, ts: int)
    requires OrdersOk(cfg.step, w.sys, w.grid.levels) && i < |w.sys.gw.lists.Get(k)|
    requires w.sys.gw.lists.Get(k)[i].guid !in w.sys.om.orders
    ensures OrdersOk(cfg.step, Replied(w, Fire(w.sys.gw, k, i, ts)).sys, w.grid.levels)
  {
    var r := Fire(w.sys.gw, k, i, ts);
    var s' := Replied(w, r).sys;
    forall g | g in s'.om.orders ensures OrderOk(cfg.step, s', w.grid.levels, g) {
      FireNews(w.sys.q, r.events[0].t, k, g);
      OrderStays(cfg.step, w.sys, s', w.grid.levels, w.grid.levels, g);
    }
  }

  lemma FireOtherConds(cfg: Config, w: World, k: Kind, i: nat, ts: int, k': Kind, g: Guid)
    requires i < |w.sys.gw.lists.Get(k)| && ListOk(w.sys, k)
    requires g in w.sys.om.conds.Get(k') && CondOk(cfg.step, w.sys, w.grid.levels, k', g)
    requires w.sys.gw.lists.Get(k)[i].guid != g
    ensures CondOk(cfg.step, Replied(w, Fire(w.sys.gw, k, i, ts)).sys, w.grid.levels, k', g)
  {
    var r := Fire(w.sys.gw, k, i, ts);
    var s' := Replied(w, r).sys;
    var t := r.events[0].t;
    FireNews(w.sys.q, t, k, g);
    TradedAppend(w.sys.gw.log, t, g);
    if k == k' {
      ErasedList(w.sys.gw.lists.Get(k), i);
    }
    CondStays(cfg.step, w.sys, s', w.grid.levels, w.grid.levels, k', g);
  }

  /** The order that fires goes from resting to fired. */
  lemma FireThisCond(cfg: Config, w: World, k: Kind, i: nat, ts: int)
    requires i < |w.sys.gw.lists.Get(k)| && ListOk(w.sys, k)
    requires Triggers(k, w.sys.gw.lists.Get(k)[i], w.sys.gw.lastPrice)
    requires CondOk(cfg.step, w.sys, w.grid.levels, k, w.sys.gw.lists.Get(k)[i].guid)
    ensures CondOk(cfg.step, Replied(w, Fire(w.sys.gw, k, i, ts)).sys, w.grid.levels, k, w.sys.gw.lists.Get(k)[i].guid)
  {
    var o := w.sys.gw.lists.Get(k)[i];
    var r := Fire(w.sys.gw, k, i, ts);
    assert InList(w.sys.gw.lists.Get(k), o.guid);
    ErasedList(w.sys.gw.lists.Get(k), i);
    assert r.events[0] == OmTrade(r.events[0].t) && r.events[0].t.guid == o.guid;
    TradeInAppend(w.sys.q, r.events, o.guid);
    TradedAppend(w.sys.gw.log, r.events[0].t, o.guid);
  }

  lemma FireConds(cfg: Config, w: World, k: Kind, i: nat, ts: int)
    requires i < |w.sys.gw.lists.Get(k)| && ListsOk(w.sys) && CondsOk(cfg.step, w.sys, w.grid.levels) && GuidsOk(w.sys)
    requires Triggers(k, w.sys.gw.lists.Get(k)[i], w.sys.gw.lastPrice)
    ensures CondsOk(cfg.step, Replied(w, Fire(w.sys.gw, k, i, ts)).sys, w.grid.levels)
  {
    var o := w.sys.gw.lists.Get(k)[i];
    var s' := Replied(w, Fire(w.sys.gw, k, i, ts)).sys;
    assert ListOk(w.sys, k);
    forall k': Kind, g | g in s'.om.conds.Get(k') ensures CondOk(cfg.step, s', w.grid.levels, k', g) {
      if g == o.guid {
        FireThisCond(cfg, w, k, i, ts);
      } else {
        FireOtherConds(cfg, w, k, i, ts, k', g);
      }
    }
  }

  lemma FireLists(w: World, k: Kind, i: nat, ts: int)
    requires i < |w.sys.gw.lists.Get(k)| && ListsOk(w.sys)
    ensures ListsOk(Replied(w, Fire(w.sys.gw, k, i, ts)).sys)
  {
    var l := w.sys.gw.lists.Get(k);
    assert ListOk(w.sys, k);
    ErasedList(l, i);
    var m := EraseAt(l, i);
    var s' := Replied(w, Fire(w.sys.gw, k, i, ts)).sys;
    forall a | 0 <= a < |m| ensures m[a].guid in s'.om.conds.Get(k) && s'.om.conds.Get(k)[m[a].guid].order.req == m[a] {
      assert m[a] in l;
    }
    assert ListOk(s', k);
    assert ListOk(w.sys, k.Other());
  }

  lemma FireGuids(w: World, k: Kind, i: nat, ts: int)
    requires i < |w.sys.gw.lists.Get(k)| && GuidsOk(w.sys)
    requires var g := w.sys.gw.lists.Get(k)[i].guid; g < w.sys.next && !Traded(w.sys.gw.log, g)
    ensures GuidsOk(Replied(w, Fire(w.sys.gw, k, i, ts)).sys)
  {
  }

  /** The level of the order that fires, and the order on its other side, which still rests. */
  lemma FiringLevel(cfg: Config, w: World, k: Kind, i: nat) returns (n: int)
    requires Protocol(cfg, w) && i < |w.sys.gw.lists.Get(k)|
    requires Triggers(k, w.sys.gw.lists.Get(k)[i], w.sys.gw.lastPrice)
    ensures var g := w.sys.gw.lists.Get(k)[i].guid;
      && g in w.sys.om.conds.Get(k)
      && w.sys.om.conds.Get(k)[g].subs == [n]
      && n in w.grid.levels
      && LevelOk(cfg, w.sys, w.partner, n, w.grid.levels[n])
      && w.grid.levels[n].bracket.Some?
      && w.grid.levels[n].bracket.value.Get(k) == g
      && Live(w.sys, k, g)
      && Live(w.sys, k.Other(), w.grid.levels[n].bracket.value.Get(k.Other()))
      && w.sys.om.conds.Get(k.Other())[w.grid.levels[n].bracket.value.Get(k.Other())].order.req.guid
         == w.grid.levels[n].bracket.value.Get(k.Other())
  {
    var o := w.sys.gw.lists.Get(k)[i];
    assert ListOk(w.sys, k);
    assert CondOk(cfg.step, w.sys, w.grid.levels, k, o.guid);
    assert InList(w.sys.gw.lists.Get(k), o.guid);
    n := w.sys.om.conds.Get(k)[o.guid].subs[0];
    assert LevelOk(cfg, w.sys, w.partner, n, w.grid.levels[n]);
    var other := w.grid.levels[n].bracket.value.Get(k.Other());
    assert CondOk(cfg.step, w.sys, w.grid.levels, k.Other(), other);
  }

  lemma FirePartners(cfg: Config, w: World, k: Kind, i: nat, ts: int)
    requires Protocol(cfg, w) && i < |w.sys.gw.lists.Get(k)|
    requires Triggers(k, w.sys.gw.lists.Get(k)[i], w.sys.gw.lastPrice)
    ensures PartnersOk(Replied(w, Fire(w.sys.gw, k, i, ts)).sys, w.partner)
  {
    var n := FiringLevel(cfg, w, k, i);
    var r := Fire(w.sys.gw, k, i, ts);
    var g := w.sys.gw.lists.Get(k)[i].guid;
    var other := w.grid.levels[n].bracket.value.Get(k.Other());
    assert w.partner[g] == other by {
      assert PartnersOk(w.sys, w.partner);
    }
    PartnersAfterTrade(w.sys, w.partner, r.events[0].t, g, other);
  }

  lemma PartnersAfterTrade(s: Sys, partner: map<Guid, Guid>, t: Trade, g: Guid, other: Guid)
    requires PartnersOk(s, partner) && g in partner && partner[g] == other && t.guid == g
    requires !Traded(s.gw.log, other)
    ensures forall x :: x in partner ==> !(Traded(s.gw.log + [t], x) && Traded(s.gw.log + [t], partner[x]))
  {
  }

  lemma FireExposure(cfg: Config, w: World, k: Kind, i: nat, ts: int, n: int, m: int)
    requires Protocol(cfg, w) && i < |w.sys.gw.lists.Get(k)|
    requires var g := w.sys.gw.lists.Get(k)[i].guid;
      && g in w.sys.om.conds.Get(k) && w.sys.om.conds.Get(k)[g].subs == [n]
    requires m in w.grid.levels && m != n
    ensures Exposure(Replied(w, Fire(w.sys.gw, k, i, ts)).sys, w.grid.levels[m]) == Exposure(w.sys, w.grid.levels[m])
  {
    assert ListOk(w.sys, k);
    ErasedList(w.sys.gw.lists.Get(k), i);
    assert LevelOk(cfg, w.sys, w.partner, m, w.grid.levels[m]);
  }

  lemma FireOtherExposures(cfg: Config, w: World, k: Kind, i: nat, ts: int, n: int)
    requires Protocol(cfg, w) && i < |w.sys.gw.lists.Get(k)|
    requires var g := w.sys.gw.lists.Get(k)[i].guid;
      && g in w.sys.om.conds.Get(k) && w.sys.om.conds.Get(k)[g].subs == [n]
    ensures forall m :: m != n ==>
      ValueAt(Exposures(w.sys, w.grid.levels), m)
      == ValueAt(Exposures(Replied(w, Fire(w.sys.gw, k, i, ts)).sys, w.grid.levels), m)
  {
    forall m | m != n && m in w.grid.levels
      ensures Exposure(Replied(w, Fire(w.sys.gw, k, i, ts)).sys, w.grid.levels[m]) == Exposure(w.sys, w.grid.levels[m])
    {
      FireExposure(cfg, w, k, i, ts, n, m);
    }
  }

  lemma FireTotal(cfg: Config, w: World, k: Kind, i: nat, ts: int)
    requires Protocol(cfg, w) && i < |w.sys.gw.lists.Get(k)|
    requires Triggers(k, w.sys.gw.lists.Get(k)[i], w.sys.gw.lastPrice)
    ensures var r := Fire(w.sys.gw, k, i, ts);
      TotalExposure(cfg, Replied(w, r)) == TotalExposure(cfg, w) + r.events[0].t.SignedVolume()
  {
    var n := FiringLevel(cfg, w, k, i);
    FireOtherExposures(cfg, w, k, i, ts, n);
    FireTotalAt(cfg, w, k, i, ts, n);
  }

  lemma FireTotalAt(cfg: Config, w: World, k: Kind, i: nat, ts: int, n: int)
    requires i < |w.sys.gw.lists.Get(k)| && ListOk(w.sys, k)
    requires n in w.grid.levels && LevelOk(cfg, w.sys, w.partner, n, w.grid.levels[n])
    requires w.grid.levels[n].bracket.Some?
    requires w.grid.levels[n].bracket.value.Get(k) == w.sys.gw.lists.Get(k)[i].guid
    requires Live(w.sys, k.Other(), w.grid.levels[n].bracket.value.Get(k.Other()))
    requires w.sys.om.conds.Get(k.Other())[w.grid.levels[n].bracket.value.Get(k.Other())].order.req.guid
          == w.grid.levels[n].bracket.value.Get(k.Other())
    requires forall m :: m != n ==>
      ValueAt(Exposures(w.sys, w.grid.levels), m)
      == ValueAt(Exposures(Replied(w, Fire(w.sys.gw, k, i, ts)).sys, w.grid.levels), m)
    ensures var r := Fire(w.sys.gw, k, i, ts);
      TotalExposure(cfg, Replied(w, r)) == TotalExposure(cfg, w) + r.events[0].t.SignedVolume()
  {
    FireOwnExposure(cfg, w, k, i, ts, n);
    TotalShift(Exposures(w.sys, w.grid.levels), Exposures(Replied(w, Fire(w.sys.gw, k, i, ts)).sys, w.grid.levels),
               n, w.sys.gw.lists.Get(k)[i], cfg.levelsPerSide);
  }

  lemma TotalShift(before: map<int, real>, after: map<int, real>, n: int, o: Request, levelsPerSide: int)
    requires forall m :: m != n ==> ValueAt(before, m) == ValueAt(after, m)
    requires ValueAt(after, n) == 0.0 && ValueAt(before, n) == -Signed(o.volume, o.side)
    requires -levelsPerSide < n < levelsPerSide
    ensures Total(after, -levelsPerSide, levelsPerSide)
         == Total(before, -levelsPerSide, levelsPerSide) + Signed(o.volume, o.side)
  {
    TotalUpdate(before, after, n, -levelsPerSide, levelsPerSide);
  }

  lemma FireVolumes(cfg: Config, w: World, k: Kind, i: nat, ts: int)
    requires Protocol(cfg, w) && VolumesOk(cfg, w) && i < |w.sys.gw.lists.Get(k)|
    requires Triggers(k, w.sys.gw.lists.Get(k)[i], w.sys.gw.lastPrice)
    ensures VolumesOk(cfg, Replied(w, Fire(w.sys.gw, k, i, ts)))
  {
    FireTotal(cfg, w, k, i, ts);
    FireSums(w, k, i, ts);
  }

  lemma FireSums(w: World, k: Kind, i: nat, ts: int)
    requires i < |w.sys.gw.lists.Get(k)|
    ensures var r := Fire(w.sys.gw, k, i, ts);
      && r.gw.pos == w.sys.gw.pos + r.events[0].t.SignedVolume()
      && SumSigned(r.gw.log) == SumSigned(w.sys.gw.log) + r.events[0].t.SignedVolume()
      && PendingVolume(w.sys.q + r.events) == PendingVolume(w.sys.q) + r.events[0].t.SignedVolume()
  {
    var r := Fire(w.sys.gw, k, i, ts);
    var t := r.events[0].t;
    SumSignedAppend(w.sys.gw.log, t);
    PendingAppend(w.sys.q, r.events);
    PendingEmit([], t, [OmCond(k, t.guid, false)]);
    assert r.events == [] + Emit(t) + [OmCond(k, t.guid, false)];
  }

  /** The firing level gives up exactly the volume that the fired order trades away. */
  lemma FireOwnExposure(cfg: Config, w: World, k: Kind, i: nat, ts: int, n: int)
    requires i < |w.sys.gw.lists.Get(k)| && ListOk(w.sys, k)
    requires n in w.grid.levels && LevelOk(cfg, w.sys, w.partner, n, w.grid.levels[n])
    requires w.grid.levels[n].bracket.Some?
    requires w.grid.levels[n].bracket.value.Get(k) == w.sys.gw.lists.Get(k)[i].guid
    requires Live(w.sys, k.Other(), w.grid.levels[n].bracket.value.Get(k.Other()))
    requires w.sys.om.conds.Get(k.Other())[w.grid.levels[n].bracket.value.Get(k.Other())].order.req.guid
          == w.grid.levels[n].bracket.value.Get(k.Other())
    ensures var r := Fire(w.sys.gw, k, i, ts);
      && Exposure(Replied(w, r).sys, w.grid.levels[n]) == 0.0
      && Exposure(w.sys, w.grid.levels[n]) == -r.events[0].t.SignedVolume()
  {
  }

  /** The trend's part of the invariant looks only at the candles in the queue. */
  lemma TrendStays(cfg: Config, w: World, w': World)
    requires TrendOk(w) && BuilderOk(cfg, w)
    requires w'.grid.twma == w.grid.twma && w'.grid.trend == w.grid.trend && w'.builder == w.builder
    requires forall e :: e in w'.sys.q && e.OnCandle? ==> e in w.sys.q
    requires w'.grid.levels != map[] ==> w.grid.levels != map[]
    ensures TrendOk(w') && BuilderOk(cfg, w')
  {
  }

  lemma FireTrend(cfg: Config, w: World, k: Kind, i: nat, ts: int)
    requires TrendOk(w) && BuilderOk(cfg, w) && i < |w.sys.gw.lists.Get(k)|
    ensures var w' := Replied(w, Fire(w.sys.gw, k, i, ts)); TrendOk(w') && BuilderOk(cfg, w')
  {
  }

  /** Firing a triggered order keeps the whole invariant. */
  lemma FireKeepsInv(cfg: Config, w: World, k: Kind, i: nat, ts: int)
    requires Inv(cfg, w) && i < |w.sys.gw.lists.Get(k)|
    requires Triggers(k, w.sys.gw.lists.Get(k)[i], w.sys.gw.lastPrice)
    ensures Inv(cfg, Replied(w, Fire(w.sys.gw, k, i, ts)))
  {
    FireVolumes(cfg, w, k, i, ts);
    FireKeepsProtocol(cfg, w, k, i, ts);
    FireTrend(cfg, w, k, i, ts);
  }

  lemma FireKeepsProtocol(cfg: Config, w: World, k: Kind, i: nat, ts: int)
    requires Protocol(cfg, w) && i < |w.sys.gw.lists.Get(k)|
    requires Triggers(k, w.sys.gw.lists.Get(k)[i], w.sys.gw.lastPrice)
    ensures Protocol(cfg, Replied(w, Fire(w.sys.gw, k, i, ts)))
  {
    var n := FiringLevel(cfg, w, k, i);
    var g := w.sys.gw.lists.Get(k)[i].guid;
    assert CondShape(cfg.step, w.sys, k, g) by {
      assert CondOk(cfg.step, w.sys, w.grid.levels, k, g);
    }
    assert w.sys.om.conds.Get(k)[g].order.req == w.sys.gw.lists.Get(k)[i] by {
      assert ListOk(w.sys, k);
    }
    FireArranges(w.sys, k, i, ts);
    FireEvents(cfg, w.sys, k, i, ts);
    FireOrders(cfg, w, k, i, ts);
    FireConds(cfg, w, k, i, ts);
    FireLists(w, k, i, ts);
    FireGuids(w, k, i, ts);
    FirePartners(cfg, w, k, i, ts);
    var w' := Replied(w, Fire(w.sys.gw, k, i, ts));
    forall m | m in w'.grid.levels ensures LevelOk(cfg, w'.sys, w'.partner, m, w'.grid.levels[m]) {
      assert LevelOk(cfg, w.sys, w.partner, m, w.grid.levels[m]);
    }
  }
}
