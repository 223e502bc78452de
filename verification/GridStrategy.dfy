/** The dynamic grid strategy as the object that it is in the program, proved against DynamicGrid. */
module GridStrategy {
  import opened Common
  import opened Lots
  import opened Events
  import opened Gateway
  import opened BacktestGateway
  import TradingEngine
  import opened DynamicGrid
  import Orders = OrderManager
  import GridLevels
  import Averages = TimeWeightedAverage

  class DynamicGridStrategy {
    ghost const cfg: Config
    const levelsPerSide: int
    const radiusPercent: real
    const orders: TradingEngine.OrderManager
    const average: Averages.TimeWeightedMovingAverage
    var trend: real
    var levels: map<int, Level>
    /** The event loop has ended with an exception of this strategy. */
    var crashed: bool
    ghost var partner: map<Guid, Guid>

    ghost function State(): Grid
      reads this, average
    {
      Grid(levels, average.State(), trend)
    }

    /** The run, of which the strategy and its orders are a part. */
    ghost function View(context: World): World
      reads this, average, orders, orders.gateway, orders.loop
    {
      World(orders.System(), State(), context.pm, context.builder, partner, crashed)
    }

    ghost predicate Valid()
      reads this, orders, orders.gateway, orders.loop
    {
      && orders.Valid()
      && ValidConfig(cfg)
      && orders.step == cfg.step
      && orders.gateway.wrap == cfg.wrap
      && levelsPerSide == cfg.levelsPerSide
      && radiusPercent == cfg.radiusPercent
    }

    constructor (cfg: Config, orders: TradingEngine.OrderManager)
      requires ValidConfig(cfg) && orders.Valid() && orders.step == cfg.step && orders.gateway.wrap == cfg.wrap
      ensures Valid() && this.cfg == cfg && this.orders == orders && fresh(average)
      ensures State() == Start(cfg).grid && !crashed && partner == map[]
    {
      this.cfg, levelsPerSide, radiusPercent, this.orders := cfg, cfg.levelsPerSide, cfg.radiusPercent, orders;
      average := new Averages.TimeWeightedMovingAverage(cfg.interval);
      trend, levels, crashed, partner := 0.0, map[], false, map[];
    }

    function LevelWidth(): real
      requires levelsPerSide > 0
      reads this
    {
      GridLevels.LevelWidth(radiusPercent, levelsPerSide, trend)
    }

    method PushCandle(ghost context: World, ts: int, close: real)
      requires Valid() && !crashed && TrendReady(average.State(), ts) && close > 0.0
      modifies this, average, orders, orders.gateway, orders.loop
      ensures Valid() && orders.Keeps()
      ensures View(context) == DynamicGrid.PushCandle(cfg, old(View(context)), ts, close)
    {
      Averages.PositiveAverage(average.State(), ts, close);
      var value := average.PushValue(ts, close);
      if value.None? {
        return;
      }
      trend := value.value;
      GridLevels.WidthIsPositive(radiusPercent, levelsPerSide, trend);
      var level := GridLevels.LevelNumber(close, trend, LevelWidth());
      if level == 0 {
        return;
      }
      if (if level < 0 then -level else level) >= levelsPerSide {
        return;
      }
      if level in levels {
        return;
      }
      var side := if level > 0 then Sell else Buy;
      var g := orders.SendMarketOrder(close, Signed(POSITION_AMOUNT / close, side), ts);
      if g.None? {
        crashed := true;
        return;
      }
      orders.SubscribeToOrder(g.value, level);
      levels := levels[level := Level(g.value, None)];
    }

    method OnOrderTraded(ghost context: World, order: Orders.MarketOrder, level: int, ghost g: Guid)
      requires Valid() && !crashed && trend > 0.0 && g in orders.orders && orders.orders[g].order == order
      modifies this, orders, orders.gateway, orders.loop
      ensures Valid() && orders.Keeps()
      ensures View(context) == DynamicGrid.OnOrderTraded(cfg, old(View(context)), g, level)
    {
      if level !in levels {
        orders.errors := orders.errors + 1;
        return;
      }
      if levels[level].bracket.Some? {
        orders.errors := orders.errors + 1;
        return;
      }
      GridLevels.WidthIsPositive(radiusPercent, levelsPerSide, trend);
      var prices := GridLevels.BracketPrices(order.price, order.side, trend, LevelWidth(), levelsPerSide);
      var volume := Signed(order.filled, order.side.Opposite());
      var tp := orders.SendConditional(Tp, prices.takeProfit, volume, order.ts);
      if tp.None? {
        crashed := true;
        return;
      }
      orders.SubscribeToConditional(Tp, tp.value, level);
      // the volume that was accepted for the take profit is accepted again
      var sl := orders.SendConditional(Sl, prices.stopLoss, volume, order.ts);
      orders.SubscribeToConditional(Sl, sl.value, level);
      levels := levels[level := levels[level].(bracket := Some(Both(tp.value, sl.value)))];
      partner := partner[tp.value := sl.value][sl.value := tp.value];
    }

    /** `on_take_profit_traded` and `on_stop_loss_traded`. */
    method OnConditionalTraded(ghost context: World, k: Kind, level: int)
      requires Valid()
      modifies this, orders, orders.gateway, orders.loop
      ensures Valid() && orders.Keeps()
      ensures View(context) == OnCondTraded(old(View(context)), k, level)
    {
      if level !in levels || levels[level].bracket.None? {
        orders.errors := orders.errors + 1;
        return;
      }
      var l := levels[level];
      var b := l.bracket.value;
      orders.CancelConditional(k.Other(), b.Get(k.Other()));
      // the erased level's members are destroyed in reverse order of declaration
      orders.DestroyConditionalSubscriber(Sl, b.sl);
      orders.DestroyConditionalSubscriber(Tp, b.tp);
      orders.DestroyOrderSubscriber(l.mo);
      levels := levels - {level};
    }

    /** The callback on the channel of a market order. */
    method OnOrderUpdate(ghost context: World, g: Guid, level: int)
      requires Valid() && !crashed && trend > 0.0
      modifies this, orders, orders.gateway, orders.loop
      ensures Valid() && orders.Keeps()
      ensures View(context) == OnMoCallback(cfg, old(View(context)), g, level)
    {
      if g !in orders.orders {
        orders.errors := orders.errors + 1;
        return;
      }
      var order := orders.orders[g].order;
      if order.Status().Filled? {
        OnOrderTraded(context, order, level, g);
      }
    }

    /** The callbacks on the channels of a bracket. */
    method OnConditionalUpdate(ghost context: World, k: Kind, g: Guid, level: int)
      requires Valid()
      modifies this, orders, orders.gateway, orders.loop
      ensures Valid() && orders.Keeps()
      ensures View(context) == OnCondCallback(old(View(context)), k, g, level)
    {
      if g !in orders.conds.Get(k) {
        orders.errors := orders.errors + 1;
        return;
      }
      if orders.conds.Get(k)[g].order.Status().Filled? {
        OnConditionalTraded(context, k, level);
      }
    }
  }
}
