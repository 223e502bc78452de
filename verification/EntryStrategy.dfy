/** The base of the entry strategies as the object that it is in the program, proved against SinglePosition. */
module EntryStrategy {
  import opened Common
  import opened Lots
  import opened Events
  import opened BacktestGateway
  import TradingEngine
  import opened SinglePosition
  import Ledger

  class StrategyBase {
    const orders: TradingEngine.OrderManager
    var hasOpenedPos: bool
    /** The event loop has ended with an exception of this strategy. */
    var crashed: bool

    /** The run, of which the strategy and its orders are a part. */
    ghost function View(pm: Ledger.Pm): Run
      reads this, orders, orders.gateway, orders.loop
    {
      Run(orders.System(), hasOpenedPos, pm, crashed)
    }

    constructor (orders: TradingEngine.OrderManager)
      ensures this.orders == orders && !hasOpenedPos && !crashed
    {
      this.orders, hasOpenedPos, crashed := orders, false, false;
    }

    /** The callback on the opened-position channel. */
    method OnOpenedPosition(v: bool)
      modifies this
      ensures hasOpenedPos == v && crashed == old(crashed)
    {
      hasOpenedPos := v;
    }

    method TrySendOrder(ghost pm: Ledger.Pm, side: Side, price: real, ts: int) returns (sent: bool)
      requires orders.Valid() && !crashed
      modifies this, orders, orders.gateway, orders.loop
      ensures orders.Valid() && orders.Keeps()
      ensures View(pm) == SinglePosition.TrySendOrder(old(View(pm)), orders.step, side, price, ts)
      ensures sent <==> old(orders.orders) == map[] && !old(hasOpenedPos) && price > 0.0 && !crashed
    {
      if orders.orders != map[] {
        return false;
      }
      if hasOpenedPos {
        return false;
      }
      if price <= 0.0 {
        return false;
      }
      var g := orders.SendMarketOrder(price, Signed(POSITION_AMOUNT / price, side), ts);
      if g.None? {
        crashed := true;
        return false;
      }
      return true;
    }
  }
}
