/** The strategy instance and the event loop's thread, proved to carry out exactly the runs of GridRun. */
module Backtest {
  import opened Events
  import opened PriorityQueue
  import opened Gateway
  import opened BacktestGateway
  import TradingEngine
  import opened DynamicGrid
  import opened GridStep
  import opened GridRun
  import opened GridStrategy
  import opened Positions
  import Candles

  // ----- the turns of the event loop -----

  /** A state on the way through the run: when its queue has drained, the first `done` prices have been handled. */
  ghost predicate OnTheWay(cfg: Config, w: World, prices: seq<Candles.PublicTrade>, done: nat)
    requires ValidConfig(cfg) && Prices(prices) && done <= |prices|
  {
    Sound(cfg, w) && Drain(cfg, w) == Run(cfg, prices, done)
  }

  lemma SetsOut(cfg: Config, prices: seq<Candles.PublicTrade>)
    requires ValidConfig(cfg) && Prices(prices)
    ensures OnTheWay(cfg, Start(cfg), prices, 0)
  {
    StartIsGood(cfg);
  }

  lemma EventOnTheWay(cfg: Config, w: World, prices: seq<Candles.PublicTrade>, done: nat)
    requires ValidConfig(cfg) && Prices(prices) && done <= |prices|
    requires OnTheWay(cfg, w, prices, done) && w.sys.q != [] && !w.crashed
    ensures Handles(w, w.sys.q[0])
    ensures OnTheWay(cfg, Step(cfg, w), prices, done) && Closer(Step(cfg, w), w)
  {
    StepLeadsOn(cfg, w);
  }

  lemma PriceOnTheWay(cfg: Config, w: World, prices: seq<Candles.PublicTrade>, done: nat)
    requires ValidConfig(cfg) && Prices(prices) && done < |prices|
    requires OnTheWay(cfg, w, prices, done) && w.sys.q == [] && !w.crashed
    ensures w.builder.timeframe > 0 && w.builder.start >= 0
    ensures OnTheWay(cfg, PriceStep(cfg, w, prices[done]), prices, done + 1)
  {
    assert w == Run(cfg, prices, done);
    PriceLeadsOn(cfg, w, prices, done);
  }

  lemma Arrived(cfg: Config, w: World, prices: seq<Candles.PublicTrade>, done: nat)
    requires ValidConfig(cfg) && Prices(prices) && done <= |prices| && OnTheWay(cfg, w, prices, done)
    requires w.crashed || w.sys.q == []
    ensures w == Run(cfg, prices, done)
  {
  }

  /** What one turn of the loop does: an event, or the next price when there is none, or nothing any more. */
  ghost predicate Turned(cfg: Config, w: World, w': World, prices: seq<Candles.PublicTrade>, done: nat, taken: nat,
      again: bool) {
    && ValidConfig(cfg)
    && if w.sys.q != [] then
         Handles(w, w.sys.q[0]) && w' == Step(cfg, w) && taken == done && again == !w'.crashed
       else if done < |prices| then
         && w.builder.timeframe > 0 && w.builder.start >= 0
         && w' == PriceStep(cfg, w, prices[done]) && taken == done + 1 && again == !w'.crashed
       else
         w' == w && taken == done && !again
  }

  lemma TurnOnTheWay(cfg: Config, w: World, w': World, prices: seq<Candles.PublicTrade>, done: nat, taken: nat,
      again: bool)
    requires ValidConfig(cfg) && Prices(prices) && done <= |prices| && OnTheWay(cfg, w, prices, done) && !w.crashed
    requires Turned(cfg, w, w', prices, done, taken, again)
    ensures taken <= |prices| && OnTheWay(cfg, w', prices, taken)
    ensures if again then !w'.crashed && (taken > done || (taken == done && Closer(w', w)))
      else w'.crashed || (w'.sys.q == [] && taken == |prices|)
  {
    if w.sys.q != [] {
      EventOnTheWay(cfg, w, prices, done);
    } else if done < |prices| {
      PriceOnTheWay(cfg, w, prices, done);
    }
  }

  /** The first turn finds what its handler needs. */
  lemma ReadyToTurn(cfg: Config, w: World, prices: seq<Candles.PublicTrade>, done: nat)
    requires ValidConfig(cfg) && Prices(prices) && done <= |prices| && OnTheWay(cfg, w, prices, done)
    ensures w.sys.q != [] ==> Handles(w, w.sys.q[0])
  {
    if w.sys.q != [] {
      StepLeadsOn(cfg, w);
    }
  }

  // ----- the objects -----

  class StrategyInstance {
    ghost const cfg: Config
    const loop: EventLoop
    const gateway: BacktestTradingGateway
    const orders: TradingEngine.OrderManager
    const strategy: DynamicGridStrategy
    const candleBuilder: Candles.CandleBuilder
    const positionManager: PositionManager

    ghost function View(): World
      reads Repr(), this
    {
      World(orders.System(), strategy.State(), positionManager.State(), candleBuilder.State(), strategy.partner,
            strategy.crashed)
    }

    ghost function Repr(): set<object>
      reads this, positionManager
    {
      {this, loop, gateway, orders, orders.gateway, orders.loop, strategy, strategy.average, candleBuilder}
      + positionManager.Repr()
    }

    ghost predicate Valid()
      reads Repr(), this
    {
      && strategy.orders == orders && orders.gateway == gateway && orders.loop == loop && gateway.loop == loop
      && strategy.Valid() && strategy.cfg == cfg
      && candleBuilder.Valid()
    }

    constructor (cfg: Config)
      requires ValidConfig(cfg)
      ensures Valid() && this.cfg == cfg && View() == Start(cfg) && fresh(Repr())
      ensures loop.queues == Empty()
    {
      this.cfg := cfg;
      var builder := new Candles.CandleBuilder(cfg.timeframe);
      var positions := new PositionManager();
      candleBuilder, positionManager := builder, positions;
      var queue := new ThreadSafePriorityQueue<Event>(EventPriority);
      var exchange := new BacktestTradingGateway(queue, cfg.wrap);
      var manager := new TradingEngine.OrderManager(queue, exchange, cfg.step);
      loop, gateway, orders := queue, exchange, manager;
      strategy := new DynamicGridStrategy(cfg, manager);
    }

    method PushCandles(candles: seq<Candles.Candle>)
      requires Accepting(loop)
      modifies loop
      ensures Accepting(loop) && Queued(old(loop.queues), loop.queues, CandleEvents(candles))
    {
      var i := 0;
      while i < |candles|
        invariant 0 <= i <= |candles| && Accepting(loop)
        invariant Queued(old(loop.queues), loop.queues, CandleEvents(candles)[..i])
      {
        Enqueue(loop, [OnCandle(candles[i].ts, candles[i].close)]);
        assert CandleEvents(candles)[..i + 1]
            == CandleEvents(candles)[..i] + [OnCandle(candles[i].ts, candles[i].close)];
        i := i + 1;
      }
      assert CandleEvents(candles)[..i] == CandleEvents(candles);
    }

    /** `handle_event(MDPriceEvent)`: the gateway subscribes to the price channel and runs inside the push. */
    method HandlePrice(t: Candles.PublicTrade)
      requires Valid()
      modifies Repr()
      ensures Valid() && orders.Keeps() && Repr() == old(Repr())
      ensures View() == PriceStep(cfg, old(View()), t)
    {
      gateway.OnNewPrice(t.ts, t.price);
      var candles := candleBuilder.PushTrade(t);
      PushCandles(candles);
    }

    /** The callbacks of the order manager. */
    method DispatchToOrders(e: Event)
      requires Valid() && (e.OmAck? || e.OmTrade? || e.OmCond? || e.OmTpsl? || e.OmTrailing?)
      modifies orders, loop
      ensures Valid() && orders.Keeps() && Repr() == old(Repr())
      ensures View() == Handle(cfg, old(View()), e)
    {
      match e {
        case OmAck(g) => orders.OnOrderResponse(g);
        case OmTrade(t) => orders.OnTrade(t);
        case OmCond(k, g, active) => orders.OnConditionalResponse(k, g, active);
        case OmTpsl(_, setUp, triggered, _) => orders.OnTpslResponse(setUp, triggered);
        case OmTrailing(stop) => orders.OnTrailingStopResponse(stop);
      }
    }

    /** The callbacks of the strategy. */
    method DispatchToStrategy(e: Event)
      requires Valid() && !strategy.crashed && Handles(View(), e) && (e.OnCandle? || e.MoCallback? || e.CondCallback?)
      modifies strategy, strategy.average, orders, orders.gateway, orders.loop
      ensures Valid() && orders.Keeps() && Repr() == old(Repr())
      ensures View() == Handle(cfg, old(View()), e)
    {
      match e {
        case OnCandle(ts, close) => strategy.PushCandle(View(), ts, close);
        case MoCallback(g, n) => strategy.OnOrderUpdate(View(), g, n);
        case CondCallback(k, g, n) => strategy.OnConditionalUpdate(View(), k, g, n);
      }
    }

    /** The callback of one event. */
    method Dispatch(e: Event)
      requires Valid() && !strategy.crashed && Handles(View(), e)
      modifies Repr()
      ensures Valid() && orders.Keeps() && fresh(Repr() - old(Repr()))
      ensures View() == Handle(cfg, old(View()), e)
    {
      if e.OmAck? || e.OmTrade? || e.OmCond? || e.OmTpsl? || e.OmTrailing? {
        DispatchToOrders(e);
      } else if e.OnCandle? || e.MoCallback? || e.CondCallback? {
        DispatchToStrategy(e);
      } else if e.SiTrade? {
        var _ := positionManager.OnTradeReceived(e.t);
      }
    }

    /**
     * Between two turns of the loop the next price, if there is one, is queued, and nothing else but events of
     * Normal priority.
     */
    ghost predicate Waiting(prices: seq<Candles.PublicTrade>, done: nat)
      reads loop
      requires done <= |prices|
    {
      loop.queues == Queues([], loop.queues.normal, if done < |prices| then [OnPrice(prices[done])] else [], [], true)
    }

    /** The events that a price causes are queued, and the generator's next price after them. */
    method HandleHistoricalPrice(t: Candles.PublicTrade, prices: seq<Candles.PublicTrade>, next: nat)
      requires Valid() && next <= |prices| && loop.queues == Empty()
      modifies Repr()
      ensures Valid() && Repr() == old(Repr()) && View() == PriceStep(cfg, old(View()), t) && Waiting(prices, next)
    {
      HandlePrice(t);
      if next < |prices| {
        var _ := loop.PushValue(OnPrice(prices[next]));
      }
    }

    /** The loop runs the callback of an event that it has taken; the next price goes on waiting. */
    method HandleEvent(e: Event, prices: seq<Candles.PublicTrade>, done: nat)
      requires Valid() && !strategy.crashed && done <= |prices| && Waiting(prices, done) && Handles(View(), e)
      modifies Repr()
      ensures Valid() && fresh(Repr() - old(Repr())) && Waiting(prices, done)
      ensures View() == Handle(cfg, old(View()), e)
    {
      Dispatch(e);
    }

    /** What the loop takes: the oldest event of Normal priority, or the next price when there is none. */
    method Take(prices: seq<Candles.PublicTrade>, done: nat) returns (d: Delivery<Event>)
      requires Valid() && done <= |prices| && Waiting(prices, done)
      modifies loop
      ensures Valid() && Repr() == old(Repr()) && strategy.crashed == old(strategy.crashed)
      ensures old(View()).sys.q != [] ==>
        && d == Delivered(Normal, old(View()).sys.q[0])
        && View() == DynamicGrid.Pop(old(View())) && Waiting(prices, done)
      ensures old(View()).sys.q == [] && done < |prices| ==>
        d == Delivered(Low, OnPrice(prices[done])) && View() == old(View()) && loop.queues == Empty()
      ensures old(View()).sys.q == [] && done == |prices| ==>
        d == Blocked && View() == old(View()) && Waiting(prices, done)
    {
      d := loop.WaitAndPop();
    }

    /** One turn: the loop takes an event of Normal priority, or the next price when there is none. */
    method Turn(prices: seq<Candles.PublicTrade>, done: nat) returns (again: bool, taken: nat)
      requires Valid() && !strategy.crashed && done <= |prices| && Waiting(prices, done)
      requires loop.queues.normal != [] ==> Handles(View(), loop.queues.normal[0])
      modifies Repr()
      ensures Valid() && fresh(Repr() - old(Repr())) && taken <= |prices| && Waiting(prices, taken)
      ensures Turned(cfg, old(View()), View(), prices, done, taken, again)
    {
      var d := Take(prices, done);
      if !d.Delivered? {
        return false, done;
      } else if d.priority.Normal? {
        HandleEvent(d.value, prices, done);
        return !strategy.crashed, done;
      } else {
        HandleHistoricalPrice(d.value.price, prices, done + 1);
        return true, done + 1;
      }
    }

    /** A turn from a state from which the run is finished leads to another one, closer to the end. */
    method Advance(prices: seq<Candles.PublicTrade>, done: nat) returns (again: bool, taken: nat)
      requires Valid() && !strategy.crashed && Prices(prices) && done <= |prices| && Waiting(prices, done)
      requires OnTheWay(cfg, View(), prices, done)
      modifies Repr()
      ensures Valid() && fresh(Repr() - old(Repr())) && taken <= |prices| && Waiting(prices, taken)
      ensures OnTheWay(cfg, View(), prices, taken)
      ensures if again then !View().crashed && (taken > done || (taken == done && Closer(View(), old(View()))))
        else View().crashed || (View().sys.q == [] && taken == |prices|)
    {
      ghost var w := View();
      ReadyToTurn(cfg, w, prices, done);
      again, taken := Turn(prices, done);
      TurnOnTheWay(cfg, w, View(), prices, done, taken, again);
    }

    /** The thread of the event loop, until it would wait for ever or ends with an exception. */
    method RunLoop(prices: seq<Candles.PublicTrade>) returns (taken: nat)
      requires Valid() && !strategy.crashed && Prices(prices) && Waiting(prices, 0) && OnTheWay(cfg, View(), prices, 0)
      modifies Repr()
      ensures taken <= |prices| && OnTheWay(cfg, View(), prices, taken)
      ensures View().crashed || (View().sys.q == [] && taken == |prices|)
    {
      taken := 0;
      var again := true;
      ghost var w := View();
      while again
        invariant Valid() && fresh(Repr() - old(Repr())) && taken <= |prices| && Waiting(prices, taken) && w == View()
        invariant OnTheWay(cfg, w, prices, taken)
        invariant if again then !w.crashed else w.crashed || (w.sys.q == [] && taken == |prices|)
        decreases again, |prices| - taken, Tally(CandleWeight, w.sys.q), |Bare(w.grid.levels)|, Resting(w.sys.gw),
                  Tally(WorkWeight, w.sys.q)
      {
        again, taken := Advance(prices, taken);
        w := View();
      }
    }

    /**
     * A backtest with the event loop, the exchange, the order manager and the grid ends as the run
     * says, after all prices unless the run has crashed.
     */
    method Backtest(prices: seq<Candles.PublicTrade>) returns (taken: nat)
      requires Valid() && View() == Start(cfg) && loop.queues == Empty() && Prices(prices)
      modifies Repr()
      ensures taken <= |prices| && View() == Run(cfg, prices, taken)
      ensures View().crashed || taken == |prices|
    {
      SetsOut(cfg, prices);
      if prices != [] {
        var _ := loop.PushValue(OnPrice(prices[0]));
      }
      taken := RunLoop(prices);
      Arrived(cfg, View(), prices, taken);
    }
  }
}
