/** The dynamic grid strategy and the backtest loop that drives it, as functions on the whole state. */
module DynamicGrid {
  import opened Common
  import opened Lots
  import opened Events
  import opened Gateway
  import opened OrderManager
  import GridLevels
  import Averages = TimeWeightedAverage
  import Ledger
  import Candles

  /** `wrap` resolves the undefined increment of the gateway's trigger loops (see Gateway.Walk). */
  datatype Config = Config(
    step: real, timeframe: int, interval: int, levelsPerSide: int, radiusPercent: real, wrap: bool)

  ghost predicate ValidConfig(cfg: Config) {
    cfg.step > 0.0 && cfg.timeframe > 0 && cfg.interval > 0 && cfg.levelsPerSide > 0 && cfg.radiusPercent > 0.0
  }

  /** `Level`: the market order of a level and, once it has filled, the guids of its bracket. */
  datatype Level = Level(mo: Guid, bracket: Option<Both<Guid>>)

  datatype Grid = Grid(levels: map<int, Level>, twma: Averages.Twma, trend: real)

  /**
   * Everything a backtest run of the grid changes. `partner` is a history: it maps each conditional
   * order ever placed to the other one of its bracket. A run crashes when `std::get` throws.
   */
  datatype World = World(
    sys: Sys, grid: Grid, pm: Ledger.Pm, builder: Candles.Builder, partner: map<Guid, Guid>, crashed: bool)

  function Start(cfg: Config): World {
    World(Sys([], FLAT, NO_ORDERS, 0), Grid(map[], Averages.Twma(cfg.interval, [], 0.0, 0.0), 0.0),
          Ledger.NO_POSITION, Candles.Fresh(cfg.timeframe), map[], false)
  }

  /** The moving average is in order, has seen only positive prices, and accepts this timestamp. */
  ghost predicate TrendReady(t: Averages.Twma, ts: int) {
    && Averages.Valid(t)
    && (forall i :: 0 <= i < |t.data| ==> t.data[i].value > 0.0 && t.data[i].ts <= ts)
  }

  function Complain(w: World): World {
    w.(sys := w.sys.(om := w.sys.om.(errors := w.sys.om.errors + 1)))
  }

  /** The part of `push_candle` that updates the trend. */
  function UpdateTrend(w: World, ts: int, close: real): (r: (World, bool))
    requires TrendReady(w.grid.twma, ts)
    ensures r.1 ==> r.0.grid.trend > 0.0
    ensures r.0 == w.(grid := r.0.grid) && r.0.grid.levels == w.grid.levels
    ensures !r.1 ==> r.0.grid.trend == w.grid.trend
  {
    Averages.PositiveAverage(w.grid.twma, ts, close);
    var p := Averages.Push(w.grid.twma, ts, close);
    match p.result
    case None => (w.(grid := w.grid.(twma := p.state)), false)
    case Some(v) => (w.(grid := w.grid.(twma := p.state, trend := v)), true)
  }

  function Width(cfg: Config, trend: real): real
    requires cfg.levelsPerSide > 0
  {
    GridLevels.LevelWidth(cfg.radiusPercent, cfg.levelsPerSide, trend)
  }

  /** The level in which `push_candle` wants to open a position, if any. */
  function WantedLevel(cfg: Config, grid: Grid, close: real): Option<int>
    requires ValidConfig(cfg) && grid.trend > 0.0
  {
    GridLevels.WidthIsPositive(cfg.radiusPercent, cfg.levelsPerSide, grid.trend);
    var n := GridLevels.LevelNumber(close, grid.trend, Width(cfg, grid.trend));
    if n == 0 || n >= cfg.levelsPerSide || -n >= cfg.levelsPerSide || n in grid.levels then None else Some(n)
  }

  /** `push_candle`. */
  function PushCandle(cfg: Config, w: World, ts: int, close: real): World
    requires ValidConfig(cfg) && TrendReady(w.grid.twma, ts) && close > 0.0
  {
    var (u, ready) := UpdateTrend(w, ts, close);
    if !ready then u
    else
      match WantedLevel(cfg, u.grid, close)
      case None => u
      case Some(n) => OpenLevel(cfg, u, n, ts, close)
  }

  /** The part of `push_candle` that sends the order and records the level. */
  function OpenLevel(cfg: Config, w: World, n: int, ts: int, close: real): World
    requires ValidConfig(cfg) && close > 0.0
  {
    var side := if n > 0 then Sell else Buy;
    var g := w.sys.next;
    match SendMarketOrder(w.sys, cfg.step, close, Signed(POSITION_AMOUNT / close, side), ts)
    case None => w.(sys := Reported(w.sys), crashed := true)
    case Some(s) =>
      w.(sys := SubscribeOrder(s, g, n), grid := w.grid.(levels := w.grid.levels[n := Level(g, None)]))
  }

  /** `on_order_traded`. */
  function OnOrderTraded(cfg: Config, w: World, g: Guid, n: int): World
    requires ValidConfig(cfg) && g in w.sys.om.orders && w.grid.trend > 0.0
  {
    if n !in w.grid.levels || w.grid.levels[n].bracket.Some? then Complain(w)
    else
      GridLevels.WidthIsPositive(cfg.radiusPercent, cfg.levelsPerSide, w.grid.trend);
      var order := w.sys.om.orders[g].order;
      var prices := GridLevels.BracketPrices(order.price, order.side, w.grid.trend, Width(cfg, w.grid.trend),
          cfg.levelsPerSide);
      PlaceBracket(cfg, w, n, prices, Signed(order.filled, order.side.Opposite()), order.ts)
  }

  /** The two blocks of `on_order_traded` that send and subscribe to the take profit and the stop loss. */
  function PlaceBracket(cfg: Config, w: World, n: int, prices: GridLevels.Bracket, volume: real, ts: int): World
    requires ValidConfig(cfg) && n in w.grid.levels
  {
    var tp := w.sys.next;
    match SendConditional(w.sys, cfg.step, Tp, prices.takeProfit, volume, ts, cfg.wrap)
    case None => w.(sys := Reported(w.sys), crashed := true)
    case Some(s1) =>
      var s2 := SubscribeCond(s1, Tp, tp, n);
      var sl := s2.next;
      match SendConditional(s2, cfg.step, Sl, prices.stopLoss, volume, ts, cfg.wrap)
      case None => w.(sys := Reported(s2), crashed := true)
      case Some(s3) =>
        var s4 := SubscribeCond(s3, Sl, sl, n);
        w.(sys := s4,
           grid := w.grid.(levels := w.grid.levels[n := w.grid.levels[n].(bracket := Some(Both(tp, sl)))]),
           partner := w.partner[tp := sl][sl := tp])
  }

  /** `on_take_profit_traded` and `on_stop_loss_traded`, with the destruction of the erased level. */
  function OnCondTraded(w: World, k: Kind, n: int): World {
    if n !in w.grid.levels || w.grid.levels[n].bracket.None? then Complain(w)
    else
      var level := w.grid.levels[n];
      var b := level.bracket.value;
      var s1 := CancelCond(w.sys, k.Other(), b.Get(k.Other()));
      w.(sys := DropLevel(s1, level.mo, b), grid := w.grid.(levels := w.grid.levels - {n}))
  }

  /** The members of a level are destroyed in reverse order of declaration. */
  function DropLevel(s: Sys, mo: Guid, b: Both<Guid>): Sys {
    DropOrder(DropCond(DropCond(s, Sl, b.sl), Tp, b.tp), mo)
  }

  /** The callback that the strategy attached to a market order's channel. */
  function OnMoCallback(cfg: Config, w: World, g: Guid, n: int): World
    requires ValidConfig(cfg) && w.grid.trend > 0.0
  {
    if g !in w.sys.om.orders then Complain(w)
    else if w.sys.om.orders[g].order.Status().Filled? then OnOrderTraded(cfg, w, g, n)
    else w
  }

  /** The callbacks that the strategy attached to the channels of a bracket. */
  function OnCondCallback(w: World, k: Kind, g: Guid, n: int): World {
    if g !in w.sys.om.conds.Get(k) then Complain(w)
    else if w.sys.om.conds.Get(k)[g].order.Status().Filled? then OnCondTraded(w, k, n)
    else w
  }

  function WithOm(w: World, r: OmReply): World {
    w.(sys := w.sys.(om := r.om, q := w.sys.q + r.events))
  }

  /** What an event needs of the strategy's state so that its handler is defined. */
  ghost predicate Handles(w: World, e: Event) {
    match e
    case OnCandle(ts, close) => TrendReady(w.grid.twma, ts) && close > 0.0
    case MoCallback(_, _) => w.grid.trend > 0.0
    case _ => true
  }

  /** The callback of one event, which has already left the queue. */
  function Handle(cfg: Config, w: World, e: Event): World
    requires ValidConfig(cfg) && Handles(w, e)
  {
    match e
    case OmAck(g) => w.(sys := w.sys.(om := OnAck(w.sys.om, g)))
    case OmTrade(t) => WithOm(w, OnTrade(w.sys.om, t))
    case OmCond(k, g, active) => WithOm(w, OnCond(w.sys.om, k, g, active))
    case OmTpsl(_, setUp, triggered, _) => w.(sys := w.sys.(om := OnTpsl(w.sys.om, setUp, triggered)))
    case OmTrailing(stop) => w.(sys := w.sys.(om := OnTrailing(w.sys.om, stop)))
    case SiTrade(t) => w.(pm := Ledger.Receive(w.pm, t).pm)
    case OnCandle(ts, close) => PushCandle(cfg, w, ts, close)
    case MoCallback(g, n) => OnMoCallback(cfg, w, g, n)
    case CondCallback(k, g, n) => OnCondCallback(w, k, g, n)
    case _ => w
  }

  function Pop(w: World): World
    requires w.sys.q != []
  {
    w.(sys := w.sys.(q := w.sys.q[1..]))
  }

  /** The event loop takes the oldest event of Normal priority and runs its callback. */
  function Step(cfg: Config, w: World): World
    requires ValidConfig(cfg) && w.sys.q != [] && Handles(w, w.sys.q[0])
  {
    Handle(cfg, Pop(w), w.sys.q[0])
  }

  function CandleEvents(candles: seq<Candles.Candle>): (r: seq<Event>)
    ensures |r| == |candles|
    ensures forall i :: 0 <= i < |r| ==> r[i] == OnCandle(candles[i].ts, candles[i].close)
  {
    seq(|candles|, i requires 0 <= i < |candles| => OnCandle(candles[i].ts, candles[i].close))
  }

  /** `handle_event(MDPriceEvent)`: the gateway runs inside the price push, then the candles go out. */
  function PriceStep(cfg: Config, w: World, t: Candles.PublicTrade): World
    requires ValidConfig(cfg) && w.builder.timeframe > 0 && w.builder.start >= 0
  {
    var r := OnNewPrice(w.sys.gw, t.ts, t.price, cfg.wrap);
    var built := Candles.Push(w.builder, t);
    w.(sys := w.sys.(gw := r.gw, q := w.sys.q + r.events + CandleEvents(built.candles)), builder := built.builder)
  }
}
