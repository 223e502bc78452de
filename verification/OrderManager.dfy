/** The order book-keeping (frontend/crypto/trading_engine/OrderManager.cpp) as functions on its state. */
module OrderManager {
  import opened Common
  import opened Events
  import opened Gateway
  import opened Lots
  import PriorityQueue

  datatype OrderStatus = Pending | Suspended | Filled | Cancelled | Rejected

  /** `MarketOrder`: the price is the signal's until the order trades, then the trade's. */
  datatype MarketOrder = MarketOrder(side: Side, target: real, filled: real, price: real, ts: int) {
    function Status(): OrderStatus {
      if filled < target then Pending else Filled
    }

    function OnTrade(t: Trade): MarketOrder {
      this.(filled := filled + t.volume, price := t.price)
    }
  }

  /** `ConditionalMarketOrder`; `req` holds the fields that never change. */
  datatype CondOrder = CondOrder(req: Request, target: real, filled: real, suspended: real, cancelRequested: bool) {
    function Status(): OrderStatus {
      if cancelRequested then (if target != filled then Pending else Cancelled)
      else if suspended > 0.0 then Suspended
      else if filled < target then Pending
      else Filled
    }

    function OnStateChanged(active: bool): CondOrder {
      this.(suspended := if active then target else 0.0)
    }

    function Cancel(): CondOrder {
      this.(cancelRequested := true, target := filled)
    }

    function OnTrade(t: Trade): CondOrder {
      this.(filled := filled + t.volume,
            suspended := if suspended < t.volume then suspended else suspended - t.volume)
    }
  }

  /** An order's channel: the object and, per subscription, the level that its callback captured. */
  datatype OrderEntry = OrderEntry(order: MarketOrder, acked: bool, traded: bool, subs: seq<int>)

  datatype CondEntry = CondEntry(order: CondOrder, subs: seq<int>)

  /**
   * `errors` counts what is pushed to the error channel and what is logged as an error
   * by a handler that finds nothing to handle.
   */
  datatype OmState = OmState(
    orders: map<Guid, OrderEntry>,
    conds: Both<map<Guid, CondEntry>>,
    trailing: Option<Guid>,
    tpsl: Option<Guid>,
    lastTpsl: Option<Guid>,
    errors: nat)

  datatype OmReply = OmReply(om: OmState, events: seq<Event>)

  const NO_ORDERS := OmState(map[], Both(map[], map[]), None, None, None, 0)

  /** `EventObjectChannel::update` notifies every subscriber, in order of subscription. */
  function NotifyOrder(g: Guid, subs: seq<int>): (r: seq<Event>)
    ensures |r| == |subs|
    ensures forall i :: 0 <= i < |r| ==> r[i] == MoCallback(g, subs[i])
  {
    seq(|subs|, i requires 0 <= i < |subs| => MoCallback(g, subs[i]))
  }

  function NotifyCond(k: Kind, g: Guid, subs: seq<int>): (r: seq<Event>)
    ensures |r| == |subs|
    ensures forall i :: 0 <= i < |r| ==> r[i] == CondCallback(k, g, subs[i])
  {
    seq(|subs|, i requires 0 <= i < |subs| => CondCallback(k, g, subs[i]))
  }

  /** `on_order_response` without a reject, which the backtest gateway never sends. */
  function OnAck(om: OmState, g: Guid): OmState {
    if g !in om.orders then om.(errors := om.errors + 1)
    else
      var e := om.orders[g];
      if e.traded then om.(orders := om.orders - {g})
      else om.(orders := om.orders[g := e.(acked := true)])
  }

  /** `try_trade_market_order` on an order that it finds. */
  function TradeOrder(om: OmState, t: Trade): OmReply
    requires t.guid in om.orders
  {
    var e := om.orders[t.guid];
    var e' := e.(order := e.order.OnTrade(t), traded := true);
    var orders := if e.subs == [] && e.acked then om.orders - {t.guid} else om.orders[t.guid := e'];
    OmReply(om.(orders := orders), NotifyOrder(t.guid, e.subs))
  }

  /** `try_trade_take_profit` and `try_trade_stop_loss` on an order that they find. */
  function TradeCond(om: OmState, k: Kind, t: Trade): OmReply
    requires t.guid in om.conds.Get(k)
  {
    var m := om.conds.Get(k);
    var e := m[t.guid];
    var m' := if e.subs == [] then m - {t.guid} else m[t.guid := e.(order := e.order.OnTrade(t))];
    OmReply(om.(conds := om.conds.Set(k, m')), NotifyCond(k, t.guid, e.subs))
  }

  /** `on_trade`. */
  function OnTrade(om: OmState, t: Trade): OmReply {
    if t.guid in om.orders then TradeOrder(om, t)
    else if t.guid in om.conds.tp then TradeCond(om, Tp, t)
    else if t.guid in om.conds.sl then TradeCond(om, Sl, t)
    else if om.trailing == Some(t.guid) || om.tpsl == Some(t.guid) || om.lastTpsl == Some(t.guid) then OmReply(om, [])
    else OmReply(om.(errors := om.errors + 1), [])
  }

  /** `on_take_profit_response` and `on_stop_loss_reposnse`. */
  function OnCond(om: OmState, k: Kind, g: Guid, active: bool): OmReply {
    var m := om.conds.Get(k);
    if g !in m then OmReply(if active then om.(errors := om.errors + 1) else om, [])
    else
      var e := m[g];
      OmReply(om.(conds := om.conds.Set(k, m[g := e.(order := e.order.OnStateChanged(active))])),
              NotifyCond(k, g, e.subs))
  }

  /** `on_trailing_stop_response`, without the channel of the exit strategy. */
  function OnTrailing(om: OmState, stop: Option<real>): OmState {
    if om.trailing.None? then om.(errors := om.errors + 1)
    else if stop.Some? then om
    else om.(trailing := None)
  }

  /** `on_tpsl_reposnse`, without the channel of the exit strategy. */
  function OnTpsl(om: OmState, setUp: bool, triggered: bool): OmState {
    if om.tpsl.None? then om.(errors := om.errors + 1)
    else if !setUp && triggered then om.(lastTpsl := om.tpsl, tpsl := None)
    else om
  }

  /** The event loop's queue, the exchange, the order manager and the supply of fresh guids. */
  datatype Sys = Sys(q: seq<Event>, gw: GatewayState, om: OmState, next: Guid)

  /** Removes the queued callbacks of the subscriber of order `g` (`discard_subscriber_events`). */
  function Discard(q: seq<Event>, g: Guid): seq<Event> {
    PriorityQueue.Keep(q, SubscriberTest(g))
  }

  function SubscriberTest(g: Guid): Event -> bool {
    (e: Event) => OwnedBy(e, g)
  }

  predicate OwnedBy(e: Event, g: Guid) {
    (e.MoCallback? && e.g == g) || (e.CondCallback? && e.g == g)
  }

  /** What a volume that adjusts to an error leaves: the error has been reported when `std::get` throws. */
  function Reported(s: Sys): Sys {
    s.(om := s.om.(errors := s.om.errors + 1))
  }

  /** `send_market_order`; None is the exception of `std::get`, which leaves `Reported`. */
  function SendMarketOrder(s: Sys, step: real, price: real, volume: real, ts: int): Option<Sys>
    requires step >= 0.0
  {
    match AdjustedVolume(step, volume)
    case None => None
    case Some(v) =>
      var g := s.next;
      var order := MarketOrder(SideOf(v), Abs(v), 0.0, price, ts);
      var om := s.om.(orders := s.om.orders[g := OrderEntry(order, false, false, [])]);
      var r := PushOrder(s.gw, g, order.target, order.side, ts);
      Some(Sys(s.q + r.events, r.gw, om, g + 1))
  }

  /** The subscription that the strategy makes to the channel that `send_market_order` returned. */
  function SubscribeOrder(s: Sys, g: Guid, level: int): Sys
    requires g in s.om.orders
  {
    var e := s.om.orders[g];
    s.(om := s.om.(orders := s.om.orders[g := e.(subs := e.subs + [level])]))
  }

  /** `send_take_profit` and `send_stop_loss`. */
  function SendConditional(s: Sys, step: real, k: Kind, price: real, volume: real, ts: int, wrap: bool): Option<Sys>
    requires step >= 0.0
  {
    match AdjustedVolume(step, volume)
    case None => None
    case Some(v) =>
      var req := Request(s.next, SideOf(v), price, Abs(v));
      Some(PlaceConditional(s, k, req, ts, wrap))
  }

  function PlaceConditional(s: Sys, k: Kind, req: Request, ts: int, wrap: bool): Sys {
    var entry := CondEntry(CondOrder(req, req.volume, 0.0, 0.0, false), []);
    var om := s.om.(conds := s.om.conds.Set(k, s.om.conds.Get(k)[req.guid := entry]));
    var r := PushConditional(s.gw, k, req, ts, wrap);
    Sys(s.q + r.events, r.gw, om, req.guid + 1)
  }

  function SubscribeCond(s: Sys, k: Kind, g: Guid, level: int): Sys
    requires g in s.om.conds.Get(k)
  {
    var m := s.om.conds.Get(k);
    s.(om := s.om.(conds := s.om.conds.Set(k, m[g := m[g].(subs := m[g].subs + [level])])))
  }

  /** `cancel_take_profit` and `cancel_stop_loss`. */
  function CancelCond(s: Sys, k: Kind, g: Guid): Sys {
    var m := s.om.conds.Get(k);
    if g !in m then s.(om := s.om.(errors := s.om.errors + 1))
    else
      var e := m[g];
      var om := s.om.(conds := s.om.conds.Set(k, m[g := e.(order := e.order.Cancel())]));
      var r := CancelConditional(s.gw, k, g);
      Sys(s.q + NotifyCond(k, g, e.subs) + r.events, r.gw, om, s.next)
  }

  /**
   * The only subscriber of a conditional order is destroyed: the channel loses its subscription,
   * the sub-count callback cancels the order and erases it, and the subscriber's events go.
   */
  function DropCond(s: Sys, k: Kind, g: Guid): Sys {
    var m := s.om.conds.Get(k);
    if g !in m then s.(q := Discard(s.q, g))
    else
      var unsubscribed := s.(om := s.om.(conds := s.om.conds.Set(k, m[g := m[g].(subs := [])])));
      var c := CancelCond(unsubscribed, k, g);
      Sys(Discard(c.q, g), c.gw, c.om.(conds := c.om.conds.Set(k, c.om.conds.Get(k) - {g})), c.next)
  }

  /** The only subscriber of a market order is destroyed: the sub-count callback erases the order. */
  function DropOrder(s: Sys, g: Guid): Sys {
    Sys(Discard(s.q, g), s.gw, s.om.(orders := s.om.orders - {g}), s.next)
  }
}
