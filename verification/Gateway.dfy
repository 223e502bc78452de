/** The backtest exchange (frontend/crypto/gateway/BacktestTradingGateway.cpp) as functions on its state. */
module Gateway {
  import opened Common
  import opened Events

  const TAKER_FEE_RATE := 0.001

  /** What the gateway keeps of a conditional order: its own copy, taken when the request arrives. */
  datatype Request = Request(guid: Guid, side: Side, trigger: real, volume: real)

  datatype Tpsl = Tpsl(guid: Guid, takeProfit: real, stopLoss: real)

  datatype Trailing = Trailing(guid: Guid, distance: real, side: Side, stop: real)

  /** `log` is the history of the trade channel: every trade ever pushed. */
  datatype GatewayState = GatewayState(
    pos: real,
    lastPrice: real,
    tpsl: Option<Tpsl>,
    trailing: Option<Trailing>,
    lists: Both<seq<Request>>,
    log: seq<Trade>)

  /** A new gateway state and the events that the call pushed, in order. */
  datatype Reply = Reply(gw: GatewayState, events: seq<Event>)

  const FLAT := GatewayState(0.0, 0.0, None, None, Both([], []), [])

  /** The trigger conditions of the two loops. */
  predicate Triggers(k: Kind, r: Request, price: real) {
    match k
    case Sl => if r.side.Sell? then price <= r.trigger else price >= r.trigger
    case Tp => if r.side.Sell? then price >= r.trigger else price <= r.trigger
  }

  function Fee(volume: real, price: real): real {
    volume * price * TAKER_FEE_RATE
  }

  /** The body of the `trigger` lambda, with the erasure that follows it. */
  function Fire(gw: GatewayState, k: Kind, i: nat, ts: int): Reply
    requires i < |gw.lists.Get(k)|
  {
    var o := gw.lists.Get(k)[i];
    var t := Trade(o.guid, ts, o.trigger, o.volume, o.side, Fee(o.volume, gw.lastPrice));
    Reply(gw.(pos := gw.pos + t.SignedVolume(),
              lists := gw.lists.Set(k, EraseAt(gw.lists.Get(k), i)),
              log := gw.log + [t]),
          Emit(t) + [OmCond(k, o.guid, false)])
  }

  /**
   * One trigger loop from index `i`. After a firing, `erase` yields the next element and the
   * increment skips it. When the last element fires the increment passes the end, which C++ leaves
   * undefined; `wrap` selects between the two outcomes that do not crash: the loop ends, or it
   * resumes at the front, as a circular list does.
   */
  function Walk(gw: GatewayState, k: Kind, i: nat, ts: int, wrap: bool): Reply
    requires i <= |gw.lists.Get(k)|
    decreases |gw.lists.Get(k)|, |gw.lists.Get(k)| - i
  {
    var l := gw.lists.Get(k);
    if i == |l| then Reply(gw, [])
    else if Triggers(k, l[i], gw.lastPrice) then
      var r := Fire(gw, k, i, ts);
      if i + 1 < |l| then
        var rest := Walk(r.gw, k, i + 1, ts, wrap);
        Reply(rest.gw, r.events + rest.events)
      else if wrap then
        var rest := Walk(r.gw, k, 0, ts, wrap);
        Reply(rest.gw, r.events + rest.events)
      else r
    else Walk(gw, k, i + 1, ts, wrap)
  }

  /** `try_trigger_conditionals`: stop losses first. */
  function TriggerConditionals(gw: GatewayState, ts: int, wrap: bool): Reply {
    var sl := Walk(gw, Sl, 0, ts, wrap);
    var tp := Walk(sl.gw, Tp, 0, ts, wrap);
    Reply(tp.gw, sl.events + tp.events)
  }

  /** The price at which a full-position take profit or stop loss trades, if it does. */
  function TpslPrice(pos: real, tpsl: Tpsl, price: real): Option<real> {
    match SideOf(pos)
    case Buy =>
      if price >= tpsl.takeProfit then Some(tpsl.takeProfit)
      else if price <= tpsl.stopLoss then Some(tpsl.stopLoss)
      else None
    case Sell =>
      if price <= tpsl.takeProfit then Some(tpsl.takeProfit)
      else if price >= tpsl.stopLoss then Some(tpsl.stopLoss)
      else None
  }

  /** The closing trade of the whole position. */
  function ClosingTrade(gw: GatewayState, g: Guid, ts: int, price: real): Trade {
    Trade(g, ts, price, Abs(gw.pos), SideOf(gw.pos).Opposite(), Fee(Abs(gw.pos), gw.lastPrice))
  }

  /** The TPSL part of `on_new_price`, with `try_trade_tpsl`. */
  function TryTpsl(gw: GatewayState, ts: int): Reply {
    match gw.tpsl
    case None => Reply(gw, [])
    case Some(tpsl) =>
      match TpslPrice(gw.pos, tpsl, gw.lastPrice)
      case None => Reply(gw, [])
      case Some(price) =>
        var t := ClosingTrade(gw, tpsl.guid, ts, price);
        Reply(gw.(pos := 0.0, tpsl := None, log := gw.log + [t]),
              [OmTpsl(tpsl.guid, false, true, false)] + Emit(t))
  }

  /** `TrailingStopLoss::calc_new_stop_loss` with a previous stop. */
  function NewStop(distance: real, side: Side, price: real, previous: real): Option<real> {
    var stop := price + Signed(distance, side);
    if Signed(stop, side) >= Signed(previous, side) then None else Some(stop)
  }

  /** The trailing-stop part of `on_new_price`, with `BacktestTrailingStopLoss::on_price_updated`. */
  function TryTrailing(gw: GatewayState, ts: int): Reply {
    match gw.trailing
    case None => Reply(gw, [])
    case Some(tr) =>
      match NewStop(tr.distance, tr.side, gw.lastPrice, tr.stop)
      case Some(stop) => Reply(gw.(trailing := Some(tr.(stop := stop))), [OmTrailing(Some(stop))])
      case None =>
        if (if SideOf(gw.pos).Buy? then gw.lastPrice < tr.stop else gw.lastPrice > tr.stop) then
          var t := ClosingTrade(gw, tr.guid, ts, tr.stop);
          Reply(gw.(pos := 0.0, trailing := None, log := gw.log + [t]), Emit(t) + [OmTrailing(None)])
        else Reply(gw, [])
  }

  /** `on_new_price`. */
  function OnNewPrice(gw: GatewayState, ts: int, price: real, wrap: bool): Reply {
    var a := TryTpsl(gw.(lastPrice := price), ts);
    var b := TryTrailing(a.gw, ts);
    var c := TriggerConditionals(b.gw, ts, wrap);
    Reply(c.gw, a.events + b.events + c.events)
  }

  /** `push_order_request`: a market order is acknowledged and filled at the last price. */
  function PushOrder(gw: GatewayState, g: Guid, volume: real, side: Side, ts: int): Reply {
    var t := Trade(g, ts, gw.lastPrice, volume, side, Fee(volume, gw.lastPrice));
    var pos := gw.pos + Signed(volume, side);
    var tpslGone := if pos == 0.0 && gw.tpsl.Some? then [OmTpsl(gw.tpsl.value.guid, false, false, false)] else [];
    Reply(gw.(pos := pos, log := gw.log + [t]), [OmAck(g)] + tpslGone + Emit(t))
  }

  /** `push_tpsl_request`. */
  function PushTpsl(gw: GatewayState, tpsl: Tpsl): Reply {
    if gw.pos == 0.0 then Reply(gw, [OmTpsl(tpsl.guid, true, false, true)])
    else Reply(gw.(tpsl := Some(tpsl)), [OmTpsl(tpsl.guid, true, false, false)])
  }

  /** `push_trailing_stop_request`, with the constructor of `BacktestTrailingStopLoss`. */
  function PushTrailing(gw: GatewayState, g: Guid, distance: real, side: Side): Reply {
    var stop := gw.lastPrice + Signed(distance, side);
    Reply(gw.(trailing := Some(Trailing(g, distance, side, stop))), [OmTrailing(Some(stop))])
  }

  /** `push_take_profit_request` and `push_stop_loss_request`. */
  function PushConditional(gw: GatewayState, k: Kind, r: Request, ts: int, wrap: bool): Reply {
    var placed := gw.(lists := gw.lists.Set(k, gw.lists.Get(k) + [r]));
    var fired := TriggerConditionals(placed, ts, wrap);
    Reply(fired.gw, [OmCond(k, r.guid, true)] + fired.events)
  }

  /** Position of the first request with this guid, or the length of the list. */
  function IndexOf(l: seq<Request>, g: Guid): (i: nat)
    ensures i <= |l|
    ensures i < |l| ==> l[i].guid == g
    ensures forall j :: 0 <= j < i ==> l[j].guid != g
  {
    if l == [] || l[0].guid == g then 0 else 1 + IndexOf(l[1..], g)
  }

  /** `cancel_take_profit_request` and `cancel_stop_loss_request`: an unknown guid is ignored. */
  function CancelConditional(gw: GatewayState, k: Kind, g: Guid): Reply {
    var l := gw.lists.Get(k);
    var i := IndexOf(l, g);
    if i == |l| then Reply(gw, [])
    else Reply(gw.(lists := gw.lists.Set(k, EraseAt(l, i))), [OmCond(k, g, false)])
  }

  /** A conditional order with this guid is in the list. */
  ghost predicate InList(l: seq<Request>, g: Guid) {
    exists i :: 0 <= i < |l| && l[i].guid == g
  }
}
