/**
 * The full-position take profit and stop loss over a sequence of prices (TPSL, in
 * frontend/crypto/gateway/BacktestTradingGateway.cpp), and what the order manager makes of a stop's trade.
 */
module PositionStops {
  import opened Common
  import opened Events
  import opened Gateway
  import opened OrderManager
  import opened TrailingStops

  /** The price has reached the take profit of a position on `side`. */
  predicate ReachesProfit(side: Side, tpsl: Tpsl, price: real) {
    if side.Buy? then price >= tpsl.takeProfit else price <= tpsl.takeProfit
  }

  predicate ReachesLoss(side: Side, tpsl: Tpsl, price: real) {
    if side.Buy? then price <= tpsl.stopLoss else price >= tpsl.stopLoss
  }

  predicate Reaches(side: Side, tpsl: Tpsl, price: real) {
    ReachesProfit(side, tpsl, price) || ReachesLoss(side, tpsl, price)
  }

  /** The first tick that reaches a limit, or the number of ticks. */
  function FirstReach(side: Side, tpsl: Tpsl, ticks: seq<Tick>): (n: nat)
    ensures n <= |ticks|
    ensures n < |ticks| ==> Reaches(side, tpsl, ticks[n].price)
    ensures forall i :: 0 <= i < n ==> !Reaches(side, tpsl, ticks[i].price)
  {
    if ticks == [] then 0
    else
      var n := |ticks| - 1;
      var before := FirstReach(side, tpsl, ticks[..n]);
      if before < n then before
      else if Reaches(side, tpsl, ticks[n].price) then n
      else |ticks|
  }

  /** A position that only a TPSL protects. */
  ghost predicate Guarded(gw: GatewayState, tpsl: Tpsl) {
    gw.tpsl == Some(tpsl) && gw.trailing.None? && gw.lists == Both([], []) && gw.pos != 0.0
  }

  /** Tick `t` has closed the position: the whole of it, on the opposite side, at the limit that `t` has reached. */
  ghost predicate ClosedAtLimit(gw: GatewayState, gw': GatewayState, tpsl: Tpsl, t: Tick) {
    && gw'.tpsl == None && gw'.pos == 0.0
    && |gw'.log| == |gw.log| + 1 && gw.log <= gw'.log
    && var trade := gw'.log[|gw.log|];
       && trade.guid == tpsl.guid && trade.ts == t.ts
       && trade.SignedVolume() == -gw.pos && trade.volume == Abs(gw.pos)
       && trade.fee == Fee(Abs(gw.pos), t.price)
       && trade.price == (if ReachesProfit(SideOf(gw.pos), tpsl, t.price) then tpsl.takeProfit else tpsl.stopLoss)
  }

  /**
   * The position is closed by the first price that reaches a limit, and by no other: at the take profit if that
   * price has reached it, and at the stop loss otherwise.
   */
  lemma {:induction false} TpslClosesAtLimit(gw: GatewayState, tpsl: Tpsl, ticks: seq<Tick>, wrap: bool)
    requires Guarded(gw, tpsl)
    ensures var n := FirstReach(SideOf(gw.pos), tpsl, ticks);
      var gw' := After(gw, ticks, wrap);
      && gw'.trailing.None? && gw'.lists == Both([], [])
      && (n == |ticks| ==> gw'.tpsl == Some(tpsl) && gw'.pos == gw.pos && gw'.log == gw.log)
      && (n < |ticks| ==> ClosedAtLimit(gw, gw', tpsl, ticks[n]))
  {
    if ticks != [] {
      var n := |ticks| - 1;
      TpslClosesAtLimit(gw, tpsl, ticks[..n], wrap);
      OneMoreTick(After(gw, ticks[..n], wrap), ticks[n], wrap);
    }
  }

  /** A price that meets no conditional order and no trailing stop is a matter of the TPSL alone. */
  lemma OneMoreTick(gw: GatewayState, t: Tick, wrap: bool)
    requires gw.trailing.None? && gw.lists == Both([], [])
    ensures OnNewPrice(gw, t.ts, t.price, wrap).gw == TryTpsl(gw.(lastPrice := t.price), t.ts).gw
  {
  }

  /** The same from the request on, for every position and every pair of limits. */
  lemma RequestedTpslClosesAtLimit(gw: GatewayState, tpsl: Tpsl, ticks: seq<Tick>, wrap: bool)
    requires gw.trailing.None? && gw.lists == Both([], []) && gw.pos != 0.0
    ensures var n := FirstReach(SideOf(gw.pos), tpsl, ticks);
      var gw' := After(PushTpsl(gw, tpsl).gw, ticks, wrap);
      && (n == |ticks| ==> gw'.tpsl == Some(tpsl) && gw'.pos == gw.pos && gw'.log == gw.log)
      && (n < |ticks| ==> ClosedAtLimit(gw, gw', tpsl, ticks[n]))
  {
    var placed := PushTpsl(gw, tpsl).gw;
    assert placed == gw.(tpsl := Some(tpsl));
    TpslClosesAtLimit(placed, tpsl, ticks, wrap);
  }

  /** Without a position a request sets nothing, and no price ever trades by it. */
  lemma FlatRequestNeverTrades(gw: GatewayState, tpsl: Tpsl, ticks: seq<Tick>, wrap: bool)
    requires gw.tpsl.None? && gw.trailing.None? && gw.lists == Both([], []) && gw.pos == 0.0
    ensures var gw' := After(PushTpsl(gw, tpsl).gw, ticks, wrap);
      gw'.log == gw.log && gw'.tpsl.None? && gw'.pos == 0.0
    ensures PushTpsl(gw, tpsl).events == [OmTpsl(tpsl.guid, true, false, true)]
  {
    NothingSetNothingTrades(gw, ticks, wrap);
  }

  lemma {:induction false} NothingSetNothingTrades(gw: GatewayState, ticks: seq<Tick>, wrap: bool)
    requires gw.tpsl.None? && gw.trailing.None? && gw.lists == Both([], [])
    ensures var gw' := After(gw, ticks, wrap); gw' == gw.(lastPrice := gw'.lastPrice)
  {
    if ticks != [] {
      var n := |ticks| - 1;
      NothingSetNothingTrades(gw, ticks[..n], wrap);
      OneMoreTick(After(gw, ticks[..n], wrap), ticks[n], wrap);
    }
  }

  // ----- the order manager hears of it -----

  /** The order manager's callback of an event, which is none for the events of other subscribers. */
  function Hear(om: OmState, e: Event): OmState {
    match e
    case OmAck(g) => OnAck(om, g)
    case OmTrade(t) => OnTrade(om, t).om
    case OmCond(k, g, active) => OnCond(om, k, g, active).om
    case OmTpsl(_, setUp, triggered, _) => OnTpsl(om, setUp, triggered)
    case OmTrailing(stop) => OnTrailing(om, stop)
    case _ => om
  }

  function HearAll(om: OmState, events: seq<Event>): OmState
    decreases |events|
  {
    if events == [] then om else HearAll(Hear(om, events[0]), events[1..])
  }

  /** No order of the manager has this guid. */
  predicate NoOrder(om: OmState, g: Guid) {
    g !in om.orders && g !in om.conds.tp && g !in om.conds.sl
  }

  lemma HearThree(om: OmState, a: Event, b: Event, c: Event)
    ensures HearAll(om, [a, b, c]) == Hear(Hear(Hear(om, a), b), c)
  {
    assert [a, b, c][1..] == [b, c] && [b, c][1..] == [c] && [c][1..] == [];
    assert HearAll(om, [a, b, c]) == HearAll(Hear(om, a), [b, c]);
    assert HearAll(Hear(om, a), [b, c]) == HearAll(Hear(Hear(om, a), b), [c]);
  }

  /**
   * A TPSL that trades is recognised, and no error is counted, exactly if the manager still keeps its guid as
   * that of its TPSL, or keeps another TPSL while the trailing stop has the guid; it is then the last TPSL.
   */
  lemma TpslIsRecognised(gw: GatewayState, ts: int, om: OmState)
    requires gw.tpsl.Some? && TryTpsl(gw, ts).gw.tpsl.None? && NoOrder(om, gw.tpsl.value.guid)
    ensures var om' := HearAll(om, TryTpsl(gw, ts).events);
      var g := gw.tpsl.value.guid;
      && (om'.errors == om.errors <==> om.tpsl.Some? && (om.tpsl == Some(g) || om.trailing == Some(g)))
      && (om.tpsl == Some(g) ==> om' == om.(tpsl := None, lastTpsl := Some(g)))
  {
    var r := TryTpsl(gw, ts);
    var t := r.gw.log[|gw.log|];
    var first := OmTpsl(gw.tpsl.value.guid, false, true, false);
    assert r.events == [first, OmTrade(t), SiTrade(t)];
    HearThree(om, first, OmTrade(t), SiTrade(t));
  }

  /**
   * A trailing stop that trades is recognised, and no error is counted, exactly if the manager keeps a trailing
   * stop and has the guid as that of one of its stops; it then keeps no trailing stop.
   */
  lemma TrailingIsRecognised(gw: GatewayState, ts: int, om: OmState)
    requires gw.trailing.Some? && TryTrailing(gw, ts).gw.trailing.None? && NoOrder(om, gw.trailing.value.guid)
    ensures var om' := HearAll(om, TryTrailing(gw, ts).events);
      var g := gw.trailing.value.guid;
      && (om'.errors == om.errors <==>
            om.trailing.Some? && (om.trailing == Some(g) || om.tpsl == Some(g) || om.lastTpsl == Some(g)))
      && (om.trailing == Some(g) ==> om' == om.(trailing := None))
  {
    var r := TryTrailing(gw, ts);
    var t := r.gw.log[|gw.log|];
    assert r.events == [OmTrade(t), SiTrade(t), OmTrailing(None)];
    HearThree(om, OmTrade(t), SiTrade(t), OmTrailing(None));
  }

  // ----- from the request to the trade -----

  /** What the manager has made of all that the gateway sent on some prices. */
  function HearTicks(gw: GatewayState, om: OmState, ticks: seq<Tick>, wrap: bool): OmState {
    if ticks == [] then om
    else
      var n := |ticks| - 1;
      HearAll(HearTicks(gw, om, ticks[..n], wrap),
              OnNewPrice(After(gw, ticks[..n], wrap), ticks[n].ts, ticks[n].price, wrap).events)
  }

  /** The manager knows the stops that the gateway has set. */
  ghost predicate Shared(gw: GatewayState, om: OmState) {
    && gw.lists == Both([], [])
    && (gw.tpsl.Some? ==> om.tpsl == Some(gw.tpsl.value.guid) && NoOrder(om, gw.tpsl.value.guid))
    && (gw.trailing.Some? ==> om.trailing == Some(gw.trailing.value.guid) && NoOrder(om, gw.trailing.value.guid))
  }

  lemma TpslStaysShared(gw: GatewayState, ts: int, om: OmState)
    requires Shared(gw, om)
    ensures var om' := HearAll(om, TryTpsl(gw, ts).events);
      Shared(TryTpsl(gw, ts).gw, om') && om'.errors == om.errors
  {
    if TryTpsl(gw, ts).gw.tpsl != gw.tpsl {
      TpslIsRecognised(gw, ts, om);
    }
  }

  lemma TrailingStaysShared(gw: GatewayState, ts: int, om: OmState)
    requires Shared(gw, om)
    ensures var om' := HearAll(om, TryTrailing(gw, ts).events);
      Shared(TryTrailing(gw, ts).gw, om') && om'.errors == om.errors
  {
    var r := TryTrailing(gw, ts);
    if gw.trailing.Some? && r.gw.trailing.None? {
      TrailingIsRecognised(gw, ts, om);
    } else if r.events != [] {
      assert r.events[1..] == [] && HearAll(om, r.events) == HearAll(Hear(om, r.events[0]), []);
    }
  }

  lemma {:induction false} HearAppend(om: OmState, a: seq<Event>, b: seq<Event>)
    ensures HearAll(om, a + b) == HearAll(HearAll(om, a), b)
    decreases |a|
  {
    if a == [] {
      assert a + b == b;
    } else {
      assert (a + b)[0] == a[0] && (a + b)[1..] == a[1..] + b;
      HearAppend(Hear(om, a[0]), a[1..], b);
    }
  }

  /**
   * Stops that the manager knows stay known, through every move and until the trade that ends them, and no
   * price makes the manager count an error: it hears of no stop that it does not know.
   */
  lemma {:induction false} StopsStayShared(gw: GatewayState, om: OmState, ticks: seq<Tick>, wrap: bool)
    requires Shared(gw, om)
    ensures Shared(After(gw, ticks, wrap), HearTicks(gw, om, ticks, wrap))
    ensures HearTicks(gw, om, ticks, wrap).errors == om.errors
  {
    if ticks != [] {
      var n := |ticks| - 1;
      StopsStayShared(gw, om, ticks[..n], wrap);
      PriceStaysShared(After(gw, ticks[..n], wrap), HearTicks(gw, om, ticks[..n], wrap), ticks[n], wrap);
    }
  }

  lemma PriceStaysShared(gw: GatewayState, om: OmState, t: Tick, wrap: bool)
    requires Shared(gw, om)
    ensures var r := OnNewPrice(gw, t.ts, t.price, wrap);
      Shared(r.gw, HearAll(om, r.events)) && HearAll(om, r.events).errors == om.errors
  {
    var a := TryTpsl(gw.(lastPrice := t.price), t.ts);
    var b := TryTrailing(a.gw, t.ts);
    TpslStaysShared(gw.(lastPrice := t.price), t.ts, om);
    TrailingStaysShared(a.gw, t.ts, HearAll(om, a.events));
    HearAppend(om, a.events, b.events);
    assert OnNewPrice(gw, t.ts, t.price, wrap) == Reply(b.gw, a.events + b.events + []);
    assert a.events + b.events + [] == a.events + b.events;
  }
}
