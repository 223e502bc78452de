/** The order manager as the object that it is in the program, proved against OrderManager. */
module TradingEngine {
  import opened Common
  import opened Events
  import opened PriorityQueue
  import opened Gateway
  import opened Lots
  import opened BacktestGateway
  import opened Orders = OrderManager

  class OrderManager {
    const loop: EventLoop
    const gateway: BacktestTradingGateway
    const step: real
    var orders: map<Guid, OrderEntry>
    var conds: Both<map<Guid, CondEntry>>
    var trailingStop: Option<Guid>
    var tpsl: Option<Guid>
    var lastTpsl: Option<Guid>
    var errors: nat
    /** The supply of fresh guids. */
    var next: Guid

    ghost function State(): OmState
      reads this
    {
      OmState(orders, conds, trailingStop, tpsl, lastTpsl, errors)
    }

    ghost function System(): Sys
      reads this, gateway, loop
    {
      Sys(loop.queues.normal, gateway.State(), State(), next)
    }

    ghost predicate Valid()
      reads this, gateway, loop
    {
      gateway.loop == loop && Accepting(loop) && step >= 0.0
    }

    /** The manager keeps its state apart from these fields, and the loop keeps what is not of Normal priority. */
    twostate predicate Keeps()
      reads this, gateway, loop
    {
      loop.queues == old(loop.queues).(normal := loop.queues.normal)
    }

    constructor (loop: EventLoop, gateway: BacktestTradingGateway, step: real)
      requires gateway.loop == loop && Accepting(loop) && step >= 0.0
      ensures this.loop == loop && this.gateway == gateway && this.step == step
      ensures Valid() && State() == NO_ORDERS && next == 0
    {
      this.loop, this.gateway, this.step := loop, gateway, step;
      orders, conds, trailingStop, tpsl, lastTpsl, errors, next := map[], Both(map[], map[]), None, None, None, 0, 0;
    }

    method SendMarketOrder(price: real, volume: real, ts: int) returns (g: Option<Guid>)
      requires Valid()
      modifies this, gateway, loop
      ensures Valid() && Keeps()
      ensures match Orders.SendMarketOrder(old(System()), step, price, volume, ts)
        case None => g == None && System() == Reported(old(System()))
        case Some(s) => g == Some(old(next)) && System() == s
    {
      var adjusted := AdjustedVolume(step, volume);
      if adjusted.None? {
        errors := errors + 1;
        return None;
      }
      var guid := next;
      next := next + 1;
      var order := MarketOrder(SideOf(adjusted.value), Abs(adjusted.value), 0.0, price, ts);
      orders := orders[guid := OrderEntry(order, false, false, [])];
      gateway.PushOrderRequest(guid, order.target, order.side, ts);
      return Some(guid);
    }

    /** The subscription of a strategy to the channel of a market order. */
    method SubscribeToOrder(g: Guid, level: int)
      requires Valid() && g in orders
      modifies this
      ensures Valid() && System() == SubscribeOrder(old(System()), g, level)
    {
      var e := orders[g];
      orders := orders[g := e.(subs := e.subs + [level])];
    }

    /** `send_take_profit` and `send_stop_loss`. */
    method SendConditional(k: Kind, price: real, volume: real, ts: int) returns (g: Option<Guid>)
      requires Valid()
      modifies this, gateway, loop
      ensures Valid() && Keeps()
      ensures match Orders.SendConditional(old(System()), step, k, price, volume, ts, gateway.wrap)
        case None => g == None && System() == Reported(old(System()))
        case Some(s) => g == Some(old(next)) && System() == s
    {
      var adjusted := AdjustedVolume(step, volume);
      if adjusted.None? {
        errors := errors + 1;
        return None;
      }
      var guid := next;
      next := next + 1;
      var request := Request(guid, SideOf(adjusted.value), price, Abs(adjusted.value));
      var entry := CondEntry(CondOrder(request, request.volume, 0.0, 0.0, false), []);
      conds := conds.Set(k, conds.Get(k)[guid := entry]);
      gateway.PushConditionalRequest(k, request, ts);
      return Some(guid);
    }

    method SubscribeToConditional(k: Kind, g: Guid, level: int)
      requires Valid() && g in conds.Get(k)
      modifies this
      ensures Valid() && System() == SubscribeCond(old(System()), k, g, level)
    {
      var e := conds.Get(k)[g];
      conds := conds.Set(k, conds.Get(k)[g := e.(subs := e.subs + [level])]);
    }

    /** `cancel_take_profit` and `cancel_stop_loss`. */
    method CancelConditional(k: Kind, g: Guid)
      requires Valid()
      modifies this, gateway, loop
      ensures Valid() && Keeps() && System() == CancelCond(old(System()), k, g)
    {
      if g !in conds.Get(k) {
        errors := errors + 1;
        return;
      }
      var e := conds.Get(k)[g];
      conds := conds.Set(k, conds.Get(k)[g := e.(order := e.order.Cancel())]);
      Enqueue(loop, NotifyCond(k, g, e.subs));
      gateway.CancelConditionalRequest(k, g);
    }

    method OnOrderResponse(g: Guid)
      requires Valid()
      modifies this
      ensures Valid() && System() == old(System()).(om := OnAck(old(State()), g))
    {
      if g !in orders {
        errors := errors + 1;
        return;
      }
      orders := orders[g := orders[g].(acked := true)];
      if orders[g].traded {
        orders := orders - {g};
      }
    }

    method TryTradeMarketOrder(t: Trade) returns (found: bool)
      requires Valid()
      modifies this, loop
      ensures Valid() && Keeps() && found == (t.guid in old(orders))
      ensures if found
        then System() == After(old(System()), TradeOrder(old(State()), t))
        else System() == old(System())
    {
      if t.guid !in orders {
        return false;
      }
      var e := orders[t.guid];
      orders := orders[t.guid := e.(order := e.order.OnTrade(t), traded := true)];
      Enqueue(loop, NotifyOrder(t.guid, e.subs));
      if e.subs == [] {
        if e.acked {
          orders := orders - {t.guid};
        }
      }
      return true;
    }

    /** `try_trade_take_profit` and `try_trade_stop_loss`. */
    method TryTradeConditional(k: Kind, t: Trade) returns (found: bool)
      requires Valid()
      modifies this, loop
      ensures Valid() && Keeps() && found == (t.guid in old(conds).Get(k))
      ensures if found
        then System() == After(old(System()), TradeCond(old(State()), k, t))
        else System() == old(System())
    {
      if t.guid !in conds.Get(k) {
        return false;
      }
      var e := conds.Get(k)[t.guid];
      conds := conds.Set(k, conds.Get(k)[t.guid := e.(order := e.order.OnTrade(t))]);
      Enqueue(loop, NotifyCond(k, t.guid, e.subs));
      if e.subs == [] {
        conds := conds.Set(k, conds.Get(k) - {t.guid});
        assert conds.Get(k) == old(conds).Get(k) - {t.guid};
      }
      return true;
    }

    method OnTrade(t: Trade)
      requires Valid()
      modifies this, loop
      ensures Valid() && Keeps() && System() == After(old(System()), Orders.OnTrade(old(State()), t))
    {
      var found := TryTradeMarketOrder(t);
      if found {
        return;
      }
      found := TryTradeConditional(Tp, t);
      if found {
        return;
      }
      found := TryTradeConditional(Sl, t);
      if found {
        return;
      }
      if trailingStop == Some(t.guid) || tpsl == Some(t.guid) || lastTpsl == Some(t.guid) {
        return;
      }
      errors := errors + 1;
    }

    /** `on_take_profit_response` and `on_stop_loss_reposnse`. */
    method OnConditionalResponse(k: Kind, g: Guid, active: bool)
      requires Valid()
      modifies this, loop
      ensures Valid() && Keeps() && System() == After(old(System()), OnCond(old(State()), k, g, active))
    {
      if g !in conds.Get(k) {
        if active {
          errors := errors + 1;
        }
        return;
      }
      var e := conds.Get(k)[g];
      conds := conds.Set(k, conds.Get(k)[g := e.(order := e.order.OnStateChanged(active))]);
      Enqueue(loop, NotifyCond(k, g, e.subs));
    }

    method OnTrailingStopResponse(stop: Option<real>)
      requires Valid()
      modifies this
      ensures Valid() && System() == old(System()).(om := OnTrailing(old(State()), stop))
    {
      if trailingStop.None? {
        errors := errors + 1;
        return;
      }
      if stop.Some? {
        return;
      }
      trailingStop := None;
    }

    method OnTpslResponse(setUp: bool, triggered: bool)
      requires Valid()
      modifies this
      ensures Valid() && System() == old(System()).(om := OnTpsl(old(State()), setUp, triggered))
    {
      if tpsl.None? {
        errors := errors + 1;
        return;
      }
      if !setUp && triggered {
        lastTpsl := tpsl;
        tpsl := None;
      }
    }

    /** `discard_subscriber_events` for the subscriber of order `g`. */
    method DiscardSubscriberEvents(g: Guid)
      requires Valid()
      modifies loop
      ensures Valid() && Keeps() && System() == old(System()).(q := Orders.Discard(old(System()).q, g))
    {
      KeepEverything(loop.queues.high, SubscriberTest(g));
      KeepEverything(loop.queues.low, SubscriberTest(g));
      KeepEverything(loop.queues.barrier, SubscriberTest(g));
      OthersArePrices(loop);
      loop.DiscardEvents(SubscriberTest(g));
    }

    /** The destructor of the only subscriber of a conditional order, with the sub-count callback. */
    method DestroyConditionalSubscriber(k: Kind, g: Guid)
      requires Valid()
      modifies this, gateway, loop
      ensures Valid() && Keeps() && System() == DropCond(old(System()), k, g)
    {
      if g in conds.Get(k) {
        conds := conds.Set(k, conds.Get(k)[g := conds.Get(k)[g].(subs := [])]);
        CancelConditional(k, g);
        conds := conds.Set(k, conds.Get(k) - {g});
      }
      DiscardSubscriberEvents(g);
    }

    method DestroyOrderSubscriber(g: Guid)
      requires Valid()
      modifies this, loop
      ensures Valid() && Keeps() && System() == DropOrder(old(System()), g)
    {
      orders := orders - {g};
      DiscardSubscriberEvents(g);
    }
  }

  /** The system after a handler that only changed the manager and queued some events. */
  function After(s: Sys, r: OmReply): Sys {
    s.(om := r.om, q := s.q + r.events)
  }

  lemma {:induction false} KeepEverything(q: seq<Event>, discard: Event -> bool)
    ensures (forall e :: e in q ==> !discard(e)) ==> Keep(q, discard) == q
  {
    if q != [] {
      KeepEverything(q[1..], discard);
      assert q == [q[0]] + q[1..];
    }
  }

  lemma OthersArePrices(loop: EventLoop)
    requires Accepting(loop)
    ensures forall e: Event :: e in loop.queues.high || e in loop.queues.low || e in loop.queues.barrier ==> e.OnPrice?
  {
    assert loop.queues.Get(High) == loop.queues.high && loop.queues.Get(Low) == loop.queues.low;
    assert loop.queues.Get(Barrier) == loop.queues.barrier;
  }
}
