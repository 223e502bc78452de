/** Acknowledgements, trades and subscribers of market orders may come and go in any order. */
module OrderAcks {
  import opened Common
  import opened Events
  import opened Gateway
  import opened OrderManager

  /** One subscriber of a market order's channel goes; the sub-count callback erases the order with the last one. */
  function Unsubscribe(om: OmState, g: Guid): OmState {
    if g !in om.orders || om.orders[g].subs == [] then om
    else
      var e := om.orders[g];
      if |e.subs| == 1 then om.(orders := om.orders - {g})
      else om.(orders := om.orders[g := e.(subs := e.subs[..|e.subs| - 1])])
  }

  function UnsubscribeAll(om: OmState, g: Guid): OmState
    decreases if g in om.orders then |om.orders[g].subs| else 0
  {
    if g !in om.orders || om.orders[g].subs == [] then om else UnsubscribeAll(Unsubscribe(om, g), g)
  }

  lemma {:induction false} UnsubscribeAllErases(om: OmState, g: Guid)
    requires g in om.orders && om.orders[g].subs != []
    ensures UnsubscribeAll(om, g) == om.(orders := om.orders - {g})
    decreases |om.orders[g].subs|
  {
    var next := Unsubscribe(om, g);
    if |om.orders[g].subs| > 1 {
      UnsubscribeAllErases(next, g);
      assert next.orders - {g} == om.orders - {g};
    }
  }

  /** An order that has been sent and not yet answered. */
  ghost predicate Fresh(om: OmState, g: Guid) {
    && g in om.orders && !om.orders[g].acked && !om.orders[g].traded && om.orders[g].order.filled == 0.0
    && g !in om.conds.tp && g !in om.conds.sl
  }

  /** What the subscribers of order `g` find when the trade's notification runs. */
  function Filled(om: OmState, t: Trade): bool
    requires t.guid in om.orders
  {
    om.orders[t.guid].order.OnTrade(t).Status().Filled?
  }

  lemma AckThenTrade(om: OmState, t: Trade)
    requires Fresh(om, t.guid) && t.volume == om.orders[t.guid].order.target
    ensures var acked := OnAck(om, t.guid);
      var r := OnTrade(acked, t);
      && Filled(acked, t)
      && r.events == NotifyOrder(t.guid, om.orders[t.guid].subs)
      && UnsubscribeAll(r.om, t.guid) == om.(orders := om.orders - {t.guid})
  {
    var g := t.guid;
    var acked := OnAck(om, g);
    var r := OnTrade(acked, t);
    assert acked.orders - {g} == om.orders - {g};
    if om.orders[g].subs != [] {
      UnsubscribeAllErases(r.om, g);
      assert r.om.orders - {g} == om.orders - {g};
    }
  }

  lemma TradeThenAck(om: OmState, t: Trade)
    requires Fresh(om, t.guid) && t.volume == om.orders[t.guid].order.target
    ensures var r := OnTrade(om, t);
      && Filled(om, t)
      && r.events == NotifyOrder(t.guid, om.orders[t.guid].subs)
      && UnsubscribeAll(OnAck(r.om, t.guid), t.guid) == om.(orders := om.orders - {t.guid})
  {
  }

  /**
   * Confluence: whichever of acknowledgement and trade comes first, once the subscribers have gone
   * the order is filled, announced once, removed, and no error has been counted.
   */
  lemma AckAndTradeConfluent(om: OmState, t: Trade)
    requires Fresh(om, t.guid) && t.volume == om.orders[t.guid].order.target
    ensures var ackFirst := OnTrade(OnAck(om, t.guid), t);
      var tradeFirst := OnTrade(om, t);
      && ackFirst.events == tradeFirst.events
      && Filled(OnAck(om, t.guid), t) && Filled(om, t)
      && UnsubscribeAll(ackFirst.om, t.guid) == UnsubscribeAll(OnAck(tradeFirst.om, t.guid), t.guid)
      && t.guid !in UnsubscribeAll(ackFirst.om, t.guid).orders
      && UnsubscribeAll(ackFirst.om, t.guid).errors == om.errors
  {
    AckThenTrade(om, t);
    TradeThenAck(om, t);
  }

  /** The two orders differ on the way: a trade before the acknowledgement removes an order that has subscribers. */
  lemma EarlyTradeRemovesSubscribed(om: OmState, t: Trade)
    requires Fresh(om, t.guid)
    ensures t.guid !in OnAck(OnTrade(om, t).om, t.guid).orders
    ensures om.orders[t.guid].subs != [] ==> t.guid in OnTrade(OnAck(om, t.guid), t).om.orders
  {
  }

  // ----- no order is left over -----

  /** Every stored order that has been acknowledged and traded has a subscriber, who will remove it. */
  ghost predicate NoneLeftOver(om: OmState) {
    forall g :: g in om.orders && om.orders[g].acked && om.orders[g].traded ==> om.orders[g].subs != []
  }

  /** What happens to the manager's market orders. */
  datatype Call =
    | Sent(g: Guid, order: MarketOrder)
    | Subscribed(g: Guid, level: int)
    | Unsubscribed(g: Guid)
    | Acked(g: Guid)
    | TradedBy(t: Trade)
    | CondChanged(k: Kind, g: Guid, active: bool)

  function Apply(om: OmState, c: Call): OmState {
    match c
    case Sent(g, order) =>
      if g in om.orders then om else om.(orders := om.orders[g := OrderEntry(order, false, false, [])])
    case Subscribed(g, level) =>
      if g in om.orders then om.(orders := om.orders[g := om.orders[g].(subs := om.orders[g].subs + [level])]) else om
    case Unsubscribed(g) => Unsubscribe(om, g)
    case Acked(g) => OnAck(om, g)
    case TradedBy(t) => OnTrade(om, t).om
    case CondChanged(k, g, active) => OnCond(om, k, g, active).om
  }

  function ApplyAll(calls: seq<Call>): OmState {
    if calls == [] then NO_ORDERS else Apply(ApplyAll(calls[..|calls| - 1]), calls[|calls| - 1])
  }

  lemma CallLeavesNone(om: OmState, c: Call)
    requires NoneLeftOver(om)
    ensures NoneLeftOver(Apply(om, c))
  {
  }

  lemma {:induction false} NeverLeftOver(calls: seq<Call>)
    ensures NoneLeftOver(ApplyAll(calls))
  {
    if calls != [] {
      NeverLeftOver(calls[..|calls| - 1]);
      CallLeavesNone(ApplyAll(calls[..|calls| - 1]), calls[|calls| - 1]);
    }
  }

  // ----- the life of a conditional order -----

  /** A conditional order as it is sent. */
  function NewConditional(req: Request): CondOrder {
    CondOrder(req, req.volume, 0.0, 0.0, false)
  }

  /**
   * The status that a subscriber sees: pending when sent, suspended when active, filled once its whole volume
   * has traded, whether or not the order has heard that it is no longer active, with the same outcome in either
   * order of the two; pending again if it has only heard that, and cancelled if it is given up before a trade.
   */
  lemma ConditionalLife(req: Request, t: Trade)
    requires req.volume > 0.0 && t.volume == req.volume
    ensures var sent := NewConditional(req);
      var active := sent.OnStateChanged(true);
      && sent.Status().Pending? && active.Status().Suspended?
      && active.OnTrade(t).Status().Filled? && active.OnStateChanged(false).Status().Pending?
      && active.OnTrade(t).OnStateChanged(false) == active.OnStateChanged(false).OnTrade(t)
      && active.OnTrade(t).OnStateChanged(false).Status().Filled?
      && active.Cancel().Status().Cancelled? && active.Cancel().OnStateChanged(false).Status().Cancelled?
  {
  }
}
