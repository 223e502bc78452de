# A verified model of a backtesting crypto trader

The program trades a strategy against a simulated exchange. One thread takes events from a queue with
four priorities. A market-data price has Low priority; handling it runs the backtest gateway inside the
price channel's push and queues Normal events: acknowledgements, trades, updates of conditional orders,
completed candles. All of these, and all that their handlers queue, are handled before the next price.
The order manager, the gateway, the dynamic grid and the entry strategies are correct only because of
this order, and the main theorems are about whole runs of it.

Prices, volumes and fees are exact reals; timestamps are milliseconds as integers; identifiers are drawn
fresh. Each component that updates its fields in place is a class whose methods are proved to perform a
transition of a specification on values, and the laws are proved about those transitions:

| module | what it models |
|---|---|
| Common, RealProducts, Events, Lots | sides, options, products of reals, events and their priorities, lot rounding |
| PriorityQueue | the event loop's queue |
| Gateway, GatewayLaws, TriggerLoops, StaleStops, BacktestGateway | the simulated exchange: specification, laws, what its loops leave behind, stops that outlive their position, class |
| TrailingStops, PositionStops, ConditionalOrders, Subsequences | trailing stop, full-position TPSL and conditional orders over a price sequence |
| OrderManager, TradingEngine, OrderAcks | order book-keeping: specification, class; acknowledgements and trades in any order |
| GridLevels, DynamicGrid, GridStrategy | grid arithmetic, the whole system as one state machine, the strategy class |
| GridInvariant, GridFire, GridQuietSteps, GridClose, GridPlace, GridBracket, GridCandle, GridPrice, GridStep | the protocol invariant and its preservation, event by event |
| GridRun, GridTheorems, GridOneCancelsOther, GridSpacing, GridCrashes | runs, their termination measure, the theorems about them, where brackets lie, and which runs crash |
| Backtest | the event loop over the real objects, proved to perform exactly those runs |
| SinglePosition, EntryStrategy | strategies that hold one position at a time |
| Ledger, LedgerLaws, Positions | position accounting: specification, conservation, classes |
| TimeseriesChannel, Subscribers | the channels: two locks interleaved; lifetime of subscribers |
| Candles, Samples, TimeWeightedAverage, StandardDeviation, LeastSquares, ConfigGenerator | algorithms with a simple specification |

How the grid theorems fit together: `GridInvariant.Inv` is the protocol invariant between two events.
`GridStep.StepKeepsGood` and `GridPrice.PriceStepKeepsInv` keep it; `GridRun.StepCloser` shows that the
events of one price come to an end, which is what makes the function `GridRun.Drain` total; `GridRun.Run`
takes the prices one by one. `Backtest.StrategyInstance.Backtest` is the imperative program, and its
contract says that it ends in the state that `Run` gives. What holds of every run is then said in
`GridTheorems`, `GridOneCancelsOther`, `GridSpacing` and `GridCrashes`.

Where the code differs from its names or its documentation the model follows the code:

- `get_qty_floored` rounds to the nearest lot (`Lots.RoundToLotIsNearestAndIdempotent`).
- The trigger loops skip the element after a fired one, so a triggered order may rest until the next
  price (`TriggerLoops.SecondNeighbourIsSkipped`). When the last element fires, the program increments an
  iterator at the end, which is undefined; `wrap` stands for its two outcomes on a linked list (the loop
  ends, or goes on at the front). Every safety theorem holds for both, and `TriggerLoops.LoopFiresAllExactly`
  gives for each of them the exact condition under which no triggered order is left.
- `CandleBuilder` takes frame zero for "no candle yet" (`Candles.FrameZeroExactly`).
- Sending an order whose volume rounds to nothing reports the error and then throws: the run ends
  (`GridTheorems.CandleCrashes`, `GridTheorems.OnlyCandlesCrash`). Prices at which the order amount affords
  half a lot never get there (`GridCrashes.AffordableRunsDoNotCrash`, and without the crash case
  `AffordableRunAgrees` and `AffordableRunCancels`); three prices can (`GridCrashes.ThirdPriceCrashes`).
- `EventSubcriber` promises that nothing is executed after its destructor. That holds exactly when no copy
  of it is left (`Subscribers.SilentExactlyWithoutCopies`, `Subscribers.ExecutedAfterDestructor`), and
  destroying any copy discards what is queued for all of them (`Subscribers.AnyCopyDiscards`).
- A market order that flattens the position leaves its TPSL and its trailing stop set, the latter without a
  word, and a later price can trade a volume of zero by either. `StaleStops.StopsTradeNothingExactly` says for
  every gateway and price when that happens, `StaleStops.FlattenedRunTradesNothing` gives calls that get there.
- The manager takes the trade of a TPSL for unknown if it has been given another one since, even one that the
  gateway has rejected (`PositionStops.TpslIsRecognised`).
- The moving average drops one sample for each result, however many are older than the interval
  (`TimeWeightedAverage.WindowDropsOnePerResult`).
- The manager keeps an opened position that holds nothing exactly as long as none of its trades is larger
  than 1e-8 (`LedgerLaws.EmptyPositionExactly`); for a first trade that means a volume of at most 1e-8
  (`LedgerLaws.DustOpensEmptyPosition`).

`dafny verify dfyconfig.toml` checks everything.

## Model

| member | source | states |
|---|---|---|
| GridTheorems.RunAgrees | frontend/crypto/strategy/DynamicGridStrategy.cpp:145-254 | after every price of every run that has not crashed: the grid levels, the order map, the two conditional maps and the gateway lists are in bijection; each level is filled and its take profit and stop loss each close exactly its fill; the position is the sum of the live fills and of all trades, and, for a lot step larger than 1e-8, what the position manager holds; no error was reported |
| GridTheorems.QuiescentAgreement | frontend/crypto/strategy/DynamicGridStrategy.cpp:145-254 | the same agreement for every state that satisfies the run invariant and has an empty queue |
| GridOneCancelsOther.OneCancelsOther | frontend/crypto/strategy/DynamicGridStrategy.cpp:157-255 | in every run, when the next price is due, a bracket ever placed either rests whole and untraded, or both its orders have left the gateway and exactly one of them has traded |
| GridOneCancelsOther.NeverBothTrade | frontend/crypto/trading_engine/OrderManager.cpp:181-217 | in every run, crashed or not, never both orders of one bracket have traded |
| GridOneCancelsOther.RunKeepsPairs | frontend/crypto/trading_engine/OrderManager.cpp:143-148 | the history behind it: a bracket is known whole to the manager, or neither order is known and one has traded |
| GridSpacing.RestingBracketsAreAtLevels | frontend/crypto/strategy/DynamicGridStrategy.cpp:157-270 | between two prices of every run that has not crashed, both orders of every level rest: the take profit at a level price that gains at least one and less than two widths (at most one, if the fill lies past the trend), the stop loss exactly levels per side + 1 widths from the fill, for one trend |
| GridSpacing.RunKeepsSpacing | frontend/crypto/strategy/DynamicGridStrategy.cpp:157-227 | the same for every bracket of every run, crashed or not |
| GridSpacing.NewBracketIsSpaced | frontend/crypto/strategy/DynamicGridStrategy.cpp:157-173 | a new bracket has this place around the trend of that moment |
| GridSpacing.SpacedAroundOne | frontend/crypto/strategy/DynamicGridStrategy.cpp:257-270 | a resting bracket tells the trend at its fill: it has this place around one trend only |
| GridBracket.NoPriceTriggersBoth | frontend/crypto/strategy/DynamicGridStrategy.cpp:257-270 | for every fill price, trend and width: no price triggers both orders of the bracket, and the fill price neither |
| GridStep.StepKeepsGood | frontend/crypto/util/EventLoop.h:55-70 | one turn of the event loop, whatever event is first, finds the state its handler needs and keeps the whole protocol invariant |
| GridPrice.PriceStepKeepsInv | frontend/crypto/StrategyInstance.cpp:385-408 | a price taken on an empty queue (gateway synchronously, then the completed candles) keeps the invariant |
| GridPrice.TradesBeforeCandles | frontend/crypto/StrategyInstance.cpp:385-408 | in what a price queues no candle stands before an event of the gateway |
| GridCandle.CandleKeepsInv | frontend/crypto/strategy/DynamicGridStrategy.cpp:90-155 | a candle keeps the invariant whether it moves the trend, opens a level, or throws |
| GridCandle.CandleOpensLevel | frontend/crypto/strategy/DynamicGridStrategy.cpp:90-155 | what a candle does, exactly: the average, if there is one, becomes the trend; level n is then opened if and only if its two prices enclose the close, 0 < abs(n) < levels per side, it is free and the amount is worth half a lot; its order sells above the trend and buys below it, within half a lot of the amount, and is filled at the last price; in every other case levels and trades stay |
| GridCandle.CandleCrashesExactly | frontend/crypto/trading_engine/OrderManager.cpp:58-86 | a candle throws exactly when there is an average, the grid lacks the level that encloses the close, and the amount is worth less than half a lot |
| GridBracket.BracketWaits | frontend/crypto/strategy/DynamicGridStrategy.cpp:173-226 | neither order of a new bracket triggers at the fill price, no price triggers both, and both close exactly the fill |
| GridBracket.FilledOrderAttaches | frontend/crypto/strategy/DynamicGridStrategy.cpp:157-227 | the callback of a filled order finds the order and its level, and leaves the level with a bracket of two fresh resting orders |
| GridBracket.OrderCallbackKeepsInv | frontend/crypto/strategy/DynamicGridStrategy.cpp:136-143 | every callback of a market order keeps the invariant |
| GridClose.FilledCallbackCloses | frontend/crypto/strategy/DynamicGridStrategy.cpp:229-255 | the callback of a filled take profit or stop loss finds its level, and closes it: the partner leaves the gateway, and level, three orders and their queued callbacks go |
| GridRun.StepCloser | frontend/crypto/StrategyInstance.cpp:372-408 | run to completion: every handled event decreases (candles to come, levels without bracket, resting conditionals, weight of the queue) lexicographically |
| GridRun.StepLeadsOn | frontend/crypto/StrategyInstance.cpp:372-408 | the sealed form on which the draining of the queue is defined: handler ready, invariant kept, measure decreased, candle builder untouched |
| GridRun.PriceLeadsOn | frontend/crypto/StrategyInstance.cpp:372-383 | a price that is due on an empty queue leads to a state that can be drained, and the next price is in order for the candle builder |
| GridTheorems.OnlyCandlesCrash | frontend/crypto/trading_engine/OrderManager.cpp:78-86 | no event other than a candle can end a run by an exception |
| GridTheorems.CandleCrashes | frontend/crypto/trading_engine/OrderManager.cpp:58-86 | in every reachable state a candle ends the run if and only if there is an average, a level between whose prices it lies is inside the grid and free, and the amount is worth less than half a lot |
| GridCrashes.AffordableRunsDoNotCrash | frontend/crypto/trading_engine/OrderManager.cpp:58-86 | from configuration and prices alone: a run does not crash as long as the order amount affords half a lot at every price |
| GridCrashes.AffordableRunAgrees | frontend/crypto/strategy/DynamicGridStrategy.cpp:145-254 | every such run has the agreement of levels, maps, lists, volumes and position after every price, and no error was reported |
| GridCrashes.AffordableRunCancels | frontend/crypto/strategy/DynamicGridStrategy.cpp:157-255 | in every such run, when the next price is due, each bracket ever placed rests whole or exactly one of its orders has traded and both have left |
| GridCrashes.ThirdPriceCrashes | frontend/crypto/strategy/DynamicGridStrategy.cpp:90-155 | a configuration and three prices whose run crashes, for both outcomes of the increment past the end |
| Backtest.StrategyInstance.constructor | frontend/crypto/StrategyInstance.cpp:94-128 | a new instance is in the start state of the run and its event queue is empty |
| Backtest.StrategyInstance.Backtest | frontend/crypto/StrategyInstance.cpp:372-408 | the loop over the real queue and the real objects terminates, and ends in exactly the state of the specified run, after all prices unless an exception ended it |
| Backtest.StrategyInstance.RunLoop | frontend/crypto/util/EventLoop.h:55-70 | the event loop thread keeps the state on the way of the run and stops only with a drained queue after the last price, or crashed |
| Backtest.StrategyInstance.Advance | frontend/crypto/util/EventLoop.h:55-70 | a turn takes the next price or comes strictly closer to it |
| Backtest.StrategyInstance.Turn | frontend/crypto/StrategyInstance.cpp:94-128 | a turn handles the oldest Normal event, and a price (Low) only when there is none |
| Backtest.StrategyInstance.Dispatch | frontend/crypto/StrategyInstance.cpp:437-467 | each callback on the objects has the effect that the specification gives its event |
| Backtest.StrategyInstance.DispatchToOrders | frontend/crypto/trading_engine/OrderManager.cpp:219-472 | each event of the gateway reaches the order manager with the specified effect, and nothing but the orders and the queue changes |
| Backtest.StrategyInstance.DispatchToStrategy | frontend/crypto/strategy/DynamicGridStrategy.cpp:90-155 | each candle and each order callback reaches the strategy with the specified effect, and the accounts and the candle builder stay |
| Backtest.StrategyInstance.HandleEvent | frontend/crypto/util/EventLoop.h:55-70 | the callback of a taken event runs while the next price goes on waiting |
| Backtest.StrategyInstance.Take | frontend/crypto/util/ThreadSafePriorityQueue.h:70-96 | what the loop takes: the oldest Normal event, the waiting price only when there is none, and nothing when there is neither |
| Backtest.StrategyInstance.HandlePrice | frontend/crypto/StrategyInstance.cpp:385-408 | a price first runs the gateway, then queues the completed candles behind what the gateway has queued |
| Backtest.StrategyInstance.HandleHistoricalPrice | frontend/crypto/StrategyInstance.cpp:372-383 | the generator hands over one price at a time, so exactly one price waits in the queue |
| Backtest.StrategyInstance.PushCandles | frontend/crypto/StrategyInstance.cpp:404-407 | candles are queued in their order |
| GridStrategy.DynamicGridStrategy.constructor | frontend/crypto/strategy/DynamicGridStrategy.cpp:44-62 | a new strategy has no levels and an empty trend |
| GridStrategy.DynamicGridStrategy.PushCandle | frontend/crypto/strategy/DynamicGridStrategy.cpp:90-155 | the object, its order manager, the gateway and the queue change as the specified transition |
| GridStrategy.DynamicGridStrategy.OnOrderTraded | frontend/crypto/strategy/DynamicGridStrategy.cpp:157-227 | a fill places the bracket, or reports an unknown or already bracketed level |
| GridStrategy.DynamicGridStrategy.OnConditionalTraded | frontend/crypto/strategy/DynamicGridStrategy.cpp:229-255 | the partner is cancelled before the level and its three subscribers are destroyed |
| GridStrategy.DynamicGridStrategy.OnOrderUpdate | frontend/crypto/strategy/DynamicGridStrategy.cpp:136-143 | only a filled order is acted upon |
| GridStrategy.DynamicGridStrategy.OnConditionalUpdate | frontend/crypto/strategy/DynamicGridStrategy.cpp:184-223 | only a filled conditional order is acted upon |
| SinglePosition.SignalsSendExactly | frontend/crypto/strategy/StrategyBase.cpp:19-41 | in every run a turn sends an order if and only if it is that of a signal to enter, the map is empty, the flag is down, the price is positive and the amount is worth half a lot: exactly one trade, on the side of the signal, at the last price, in whole lots within half a lot of the amount, which takes the position from flat to it; in every other case nothing is sent, and the run crashes exactly if only the amount is too small |
| SinglePosition.OrdersAreSentFlat | frontend/crypto/strategy/StrategyBase.cpp:19-41 | for every positive lot step, in every run of every strategy that enters by try_send_order and leaves by trailing stop or TPSL: an order is sent only when the gateway position is zero, the order map is empty and no acknowledgement is in flight |
| SinglePosition.ExitClosesAtLimit | frontend/crypto/trading_engine/OrderManager.cpp:390-419 | in every run a decision to set a TPSL on a position without a trailing stop: the position is closed at the decided limits by the first price that reaches one, and the manager never meets an unknown stop |
| SinglePosition.ExitFollowsBest | frontend/crypto/trading_engine/OrderManager.cpp:369-388 | in every run a decision to set a trailing stop on a position without a TPSL: the stop follows the best price from then on at the decided distance, and closes at the first larger retreat |
| SinglePosition.FlagIsRightWhenQuiet | frontend/crypto/strategy/StrategyBase.cpp:12-16 | whenever the queue is empty the flag equals the presence of a position in the manager, no order is pending, without the flag the gateway is flat, and the manager holds the gateway position: as it is for a lot step larger than 1e-8, snapped to zero below that size otherwise |
| SinglePosition.EventsDrain | frontend/crypto/util/EventLoop.h:55-70 | run to completion: whatever the callbacks decide, as many turns as the queue counts empty it or the run has crashed |
| SinglePosition.TurnIsCloser | frontend/crypto/StrategyInstance.cpp:437-467 | every turn decreases that count: signals, trades and exits weigh more than all that they cause |
| SinglePosition.AlwaysOk | frontend/crypto/StrategyInstance.cpp:437-467 | the invariant over all runs: no flag and no acknowledgement stands before an entry signal of the same price, the flag still to come equals the position manager's state, and the trades still to come bring the manager to the gateway position, up to the snap at 1e-8 |
| EntryStrategy.StrategyBase.constructor | frontend/crypto/strategy/StrategyBase.cpp:5-17 | starts without a position |
| EntryStrategy.StrategyBase.OnOpenedPosition | frontend/crypto/strategy/StrategyBase.cpp:12-16 | the flag follows the channel |
| EntryStrategy.StrategyBase.TrySendOrder | frontend/crypto/strategy/StrategyBase.cpp:19-41 | the object performs the transition that the single-position theorem is about, and reports true exactly if nothing was pending, the flag was down, the price was positive and no exception was thrown |
| GatewayLaws.PositionIsTradedVolume | frontend/crypto/gateway/BacktestTradingGateway.cpp:25-66 | after every sequence of gateway calls the position equals the signed volume of all trades ever emitted, by market orders, TPSL, trailing stop and conditionals |
| GatewayLaws.StreamIsHistory | frontend/crypto/gateway/BacktestTradingGateway.cpp:125-143 | the trades delivered on the trade channel are exactly the emitted ones, in order, once each |
| GatewayLaws.ManagerHoldsPosition | frontend/crypto/PositionManager.cpp:10-57 | a position manager that folds the delivered stream of whole-lot trades holds the gateway position |
| GatewayLaws.FeesAreAtMarketPrice | frontend/crypto/gateway/BacktestTradingGateway.cpp:107-137 | every trade that a call causes pays the taker rate on its volume at the market price of that call, also when it is executed at a stop or trigger price |
| StaleStops.StopsTradeNothingExactly | frontend/crypto/gateway/BacktestTradingGateway.cpp:25-66 | for every gateway, exactly when the TPSL and the trailing stop make of a price a trade of volume zero: the TPSL of a flat position is reached, or the trailing stop is reached without a position, be it that the TPSL has just closed it |
| StaleStops.PriceTradesNothingExactly | frontend/crypto/gateway/BacktestTradingGateway.cpp:25-66 | the same for a whole price, conditional orders included, as long as each of these asks for a volume |
| StaleStops.FlatteningLeavesStops | frontend/crypto/gateway/BacktestTradingGateway.cpp:180-214 | no market order touches a stop; it announces the end of the TPSL if and only if it flattens the position, and never anything of the trailing stop |
| StaleStops.FlattenedTradesNothingExactly | frontend/crypto/gateway/BacktestTradingGateway.cpp:180-214 | after such an order, exactly a price beyond a TPSL limit or below the trailing stop trades nothing |
| StaleStops.FlattenedRunTradesNothing | frontend/crypto/gateway/BacktestTradingGateway.cpp:180-214 | calls on a new gateway that get there: inside the TPSL limits the trailing stop trades nothing, and beyond them the TPSL |
| StaleStops.NothingOpensPosition | frontend/crypto/PositionManager.cpp:12-16 | a position manager without a position takes such a trade for a new position |
| PositionStops.TpslClosesAtLimit | frontend/crypto/gateway/BacktestTradingGateway.cpp:68-123 | for both sides and every price sequence: a position protected by a TPSL only is closed by the first price that reaches a limit and by no other, the whole volume on the opposite side, at the take profit if that price has reached it and at the stop loss otherwise |
| PositionStops.RequestedTpslClosesAtLimit | frontend/crypto/gateway/BacktestTradingGateway.cpp:216-236 | the same from the request on, for every position and every pair of limits |
| PositionStops.FlatRequestNeverTrades | frontend/crypto/gateway/BacktestTradingGateway.cpp:216-236 | a request without a position is rejected, and no price ever trades by it |
| PositionStops.TpslIsRecognised | frontend/crypto/trading_engine/OrderManager.cpp:339-472 | a TPSL that trades makes the manager count no error if and only if it still keeps its guid as that of its TPSL, or keeps another TPSL while its trailing stop has the guid |
| PositionStops.TrailingIsRecognised | frontend/crypto/trading_engine/OrderManager.cpp:339-449 | a trailing stop that trades makes the manager count no error if and only if it keeps a trailing stop and has the guid as that of one of its stops |
| PositionStops.StopsStayShared | frontend/crypto/trading_engine/OrderManager.cpp:421-472 | over every price sequence: stops that the manager knows stay known, through every move and until the trade that ends them, without an error |
| ConditionalOrders.OrdersFireWhenMet | frontend/crypto/gateway/BacktestTradingGateway.cpp:125-178 | at most one order of each kind, over every price sequence: nothing happens before the first price that meets one of them (a take profit at its trigger or better for the position it closes, a stop loss at its trigger or worse), and that price fires those that it meets, whole, at their triggers, with the fee of the market price |
| ConditionalOrders.NewOrderFiresIfMet | frontend/crypto/gateway/BacktestTradingGateway.cpp:250-264 | a new order fires at once if and only if the last price meets it |
| ConditionalOrders.StopLossesFirst | frontend/crypto/gateway/BacktestTradingGateway.cpp:147-178 | of what one price or request fires, all trades of stop losses come before those of take profits |
| ConditionalOrders.ListsKeepOrder | frontend/crypto/gateway/BacktestTradingGateway.cpp:250-264 | after every sequence of calls the orders of a list stand in the order in which they were requested |
| GatewayLaws.LoopFiresOnlyAllowed | frontend/crypto/gateway/BacktestTradingGateway.cpp:147-177 | what a trigger loop fires was listed and triggered by the price, is filled with its own volume, side and trigger price, fires once, leaves the list, and pays the fee of the market price |
| TriggerLoops.LoopFiresAllExactly | frontend/crypto/gateway/BacktestTradingGateway.cpp:147-177 | exactly when a trigger loop fires every triggered order, for both outcomes of its increment past the end: if the loop ends there, when no two neighbours of the list trigger together; if it goes on at the front, when for some q the block of triggered orders at the end has 2^q - 1 orders and no block of triggered neighbours has 2^(q+1) |
| TriggerLoops.LonelyOrdersFire | frontend/crypto/gateway/BacktestTradingGateway.cpp:147-177 | for both outcomes: when no two neighbours trigger together, no triggered order is left |
| TriggerLoops.WalkFromFront | frontend/crypto/gateway/BacktestTradingGateway.cpp:147-161 | what the in-place loop leaves is a sequence of passes over the list, of which each but the last fires the last order |
| TriggerLoops.PassHalvesLongest | frontend/crypto/gateway/BacktestTradingGateway.cpp:147-161 | a pass halves the longest block of triggered neighbours |
| TriggerLoops.LongestIsLongest | frontend/crypto/gateway/BacktestTradingGateway.cpp:147-161 | the number that the condition speaks of is the length of the longest such block |
| TriggerLoops.SecondNeighbourIsSkipped | frontend/crypto/gateway/BacktestTradingGateway.cpp:147-161 | a list on which a triggered stop loss stays behind, for both outcomes |
| TriggerLoops.ThreeNeighbours | frontend/crypto/gateway/BacktestTradingGateway.cpp:147-161 | a list on which the two outcomes differ: three triggered neighbours all fire in the one and not in the other |
| BacktestGateway.BacktestTradingGateway.constructor | frontend/crypto/gateway/BacktestTradingGateway.cpp:1-23 | a new gateway is flat |
| BacktestGateway.BacktestTradingGateway.OnNewPrice | frontend/crypto/gateway/BacktestTradingGateway.cpp:25-66 | TPSL, then trailing stop, then conditionals: new state and queued events as specified |
| BacktestGateway.BacktestTradingGateway.TryTradeTpsl | frontend/crypto/gateway/BacktestTradingGateway.cpp:68-123 | trades the whole position at the take profit, or else at the stop loss, exactly when the price has reached it |
| BacktestGateway.BacktestTradingGateway.HandleTpsl | frontend/crypto/gateway/BacktestTradingGateway.cpp:30-37 | a triggered TPSL leaves no position and no TPSL |
| BacktestGateway.BacktestTradingGateway.HandleTrailingStop | frontend/crypto/gateway/BacktestTradingGateway.cpp:287-327 | a stop that moves does not trigger; a triggered stop leaves no position and no stop |
| BacktestGateway.BacktestTradingGateway.TryTriggerConditionals | frontend/crypto/gateway/BacktestTradingGateway.cpp:125-178 | both in-place loops, stop losses first, equal the recursive walk whose laws are proved |
| BacktestGateway.BacktestTradingGateway.TriggerLoop | frontend/crypto/gateway/BacktestTradingGateway.cpp:147-161 | one in-place erasing loop equals the walk that skips the element after a fired one |
| BacktestGateway.BacktestTradingGateway.Trigger | frontend/crypto/gateway/BacktestTradingGateway.cpp:127-145 | one firing: position, trade, update event |
| BacktestGateway.BacktestTradingGateway.PushTrade | frontend/crypto/gateway/BacktestTradingGateway.cpp:33 | a trade reaches the order manager and the strategy instance, in this order |
| BacktestGateway.BacktestTradingGateway.PushOrderRequest | frontend/crypto/gateway/BacktestTradingGateway.cpp:180-214 | the acknowledgement is queued before the fill |
| BacktestGateway.BacktestTradingGateway.PushTpslRequest | frontend/crypto/gateway/BacktestTradingGateway.cpp:216-236 | rejected without a position |
| BacktestGateway.BacktestTradingGateway.PushTrailingStopRequest | frontend/crypto/gateway/BacktestTradingGateway.cpp:238-248 | the first stop lies at the distance from the last price |
| BacktestGateway.BacktestTradingGateway.PushConditionalRequest | frontend/crypto/gateway/BacktestTradingGateway.cpp:250-264 | a new conditional is announced before it can trigger |
| BacktestGateway.BacktestTradingGateway.CancelConditionalRequest | frontend/crypto/gateway/BacktestTradingGateway.cpp:364-384 | the first listed order with the guid leaves the list and is announced; an unknown guid changes nothing |
| OrderAcks.AckAndTradeConfluent | frontend/crypto/trading_engine/OrderManager.cpp:251-297 | for a filled market order both arrival orders of acknowledgement and trade, followed by the last unsubscription, lead to the same state: filled, announced once, removed, no error |
| OrderAcks.EarlyTradeRemovesSubscribed | frontend/crypto/trading_engine/OrderManager.cpp:270-273 | on the way they differ: an acknowledgement after the trade removes an order that still has subscribers |
| OrderAcks.NeverLeftOver | frontend/crypto/trading_engine/OrderManager.cpp:106-110 | in every reachable state an order that is acknowledged and traded has a subscriber who will remove it |
| OrderAcks.ConditionalLife | frontend/crypto/trading_primitives/ConditionalOrders.cpp:7-51 | the status of a conditional order: pending, suspended when active, filled with the trade in whichever order it hears of trade and deactivation, cancelled when given up |
| TradingEngine.OrderManager.constructor | frontend/crypto/trading_engine/OrderManager.cpp:1-56 | no orders |
| TradingEngine.OrderManager.SendMarketOrder | frontend/crypto/trading_engine/OrderManager.cpp:78-115 | the rounded order is stored before the gateway is called; a volume that rounds to nothing reports an error and throws, and changes nothing else |
| TradingEngine.OrderManager.SubscribeToOrder | frontend/crypto/util/EventObjectChannel.h:142-167 | a subscription of an order channel keeps its order of arrival |
| TradingEngine.OrderManager.SendConditional | frontend/crypto/trading_engine/OrderManager.cpp:117-191 | the rounded order is stored before the gateway is called, so that an immediate trigger finds it; a volume that rounds to nothing reports an error and throws |
| TradingEngine.OrderManager.SubscribeToConditional | frontend/crypto/util/EventObjectChannel.h:142-167 | the same for a conditional order |
| TradingEngine.OrderManager.CancelConditional | frontend/crypto/trading_engine/OrderManager.cpp:193-217 | subscribers are told before the gateway; an unknown order is reported |
| TradingEngine.OrderManager.OnOrderResponse | frontend/crypto/trading_engine/OrderManager.cpp:251-274 | an acknowledgement removes a traded order and marks the others; an unknown one is an error |
| TradingEngine.OrderManager.TryTradeMarketOrder | frontend/crypto/trading_engine/OrderManager.cpp:276-297 | found exactly when stored; removed only if acknowledged and without subscribers |
| TradingEngine.OrderManager.TryTradeConditional | frontend/crypto/trading_engine/OrderManager.cpp:299-337 | found exactly when stored; removed only without subscribers |
| TradingEngine.OrderManager.OnTrade | frontend/crypto/trading_engine/OrderManager.cpp:339-367 | a trade concerns one order at most; a trade of no known order, stop or TPSL is an error |
| TradingEngine.OrderManager.OnConditionalResponse | frontend/crypto/trading_engine/OrderManager.cpp:219-249 | only an active update of an unknown order is an error |
| TradingEngine.OrderManager.OnTrailingStopResponse | frontend/crypto/trading_engine/OrderManager.cpp:421-449 | a response without a stop removes the trailing stop |
| TradingEngine.OrderManager.OnTpslResponse | frontend/crypto/trading_engine/OrderManager.cpp:451-472 | a triggered TPSL is remembered as the last one |
| TradingEngine.OrderManager.DiscardSubscriberEvents | frontend/crypto/util/EventLoop.h:40-46 | removes exactly the queued callbacks of one subscriber |
| TradingEngine.OrderManager.DestroyConditionalSubscriber | frontend/crypto/trading_engine/OrderManager.cpp:143-148 | the last unsubscription cancels the order in the gateway, then erases it |
| TradingEngine.OrderManager.DestroyOrderSubscriber | frontend/crypto/trading_engine/OrderManager.cpp:106-110 | the last unsubscription erases the order |
| Lots.RoundToLotIsNearestAndIdempotent | frontend/crypto/trading_primitives/Symbol.h:22-32 | the result is a whole number of lots, at most half a lot away (of two equally near ones the larger), on the side of the argument, zero exactly below half a lot, and rounding it again changes nothing (the function rounds to nearest although its name says floor) |
| Lots.AdjustedVolumeIsStable | frontend/crypto/trading_engine/OrderManager.cpp:58-76 | an error exactly for a lot size of zero or below half a lot; what survives is a non-zero lot of the same sign that survives adjustment unchanged, and so does its negation |
| GridLevels.BracketIsStrict | frontend/crypto/strategy/DynamicGridStrategy.cpp:257-270 | truncation toward zero included, the take profit lies strictly on the profit side of the order price and the stop loss strictly on the loss side |
| GridLevels.BracketIsAtLevels | frontend/crypto/strategy/DynamicGridStrategy.cpp:257-270 | for every fill: the take profit is a level price that gains at least one and less than two widths if the fill is not past the trend, and at most one if it is; the stop loss loses exactly levels per side + 1 widths |
| GridLevels.AtLevelsExactly | frontend/crypto/strategy/DynamicGridStrategy.cpp:257-270 | this determines both prices: no other pair has it |
| GridLevels.StopLossBeyondGrid | frontend/crypto/strategy/DynamicGridStrategy.cpp:262-267 | the stop loss lies beyond the outermost level of its side if and only if the fill is less than one width past the trend |
| GridLevels.LevelNumberExactly | frontend/crypto/strategy/GridLevels.cpp:15-25 | a level other than zero is the level of a price if and only if its two prices enclose the price |
| GridLevels.GridSpansRadius | frontend/crypto/strategy/DynamicGridStrategy.cpp:23-27 | the outermost levels lie at the radius, in percent of the trend, on both sides |
| GridLevels.LevelOfLevelPrice | frontend/crypto/strategy/GridLevels.cpp:15-31 | level to price to level is the identity |
| GridLevels.LevelNumberTruncates | frontend/crypto/strategy/GridLevels.cpp:15-25 | the level number lies toward the trend, by less than one |
| GridLevels.WidthIsPositive | frontend/crypto/strategy/DynamicGridStrategy.cpp:23-27 | a positive trend gives a positive level width |
| PriorityQueue.FifoWithoutLoss | frontend/crypto/util/ThreadSafePriorityQueue.h:36-96 | for every sequence of pushes, pops, discards and stops and every priority, delivered values followed by queued ones are the pushed and not discarded ones in order of push |
| PriorityQueue.DeliveryIsFirst | frontend/crypto/util/ThreadSafePriorityQueue.h:70-96 | a delivery is the oldest value of its priority and no higher priority has anything queued; it blocks exactly when running and empty |
| PriorityQueue.Discard | frontend/crypto/util/ThreadSafePriorityQueue.h:36-50 | a discard removes exactly the values that satisfy the predicate, at every priority |
| PriorityQueue.ThreadSafePriorityQueue.constructor | frontend/crypto/util/ThreadSafePriorityQueue.h:16-22 | empty and running |
| PriorityQueue.ThreadSafePriorityQueue.Stop | frontend/crypto/util/ThreadSafePriorityQueue.h:29-34 | what is queued stays, nothing is delivered any more |
| PriorityQueue.ThreadSafePriorityQueue.PushValue | frontend/crypto/util/ThreadSafePriorityQueue.h:52-68 | appended to its own priority; refused by a stopped queue |
| PriorityQueue.ThreadSafePriorityQueue.WaitAndPop | frontend/crypto/util/ThreadSafePriorityQueue.h:70-96 | the object delivers what the proved Pop delivers |
| PriorityQueue.ThreadSafePriorityQueue.DiscardFrom | frontend/crypto/util/ThreadSafePriorityQueue.h:41-48 | the erasing loop keeps exactly the others, in order |
| PriorityQueue.ThreadSafePriorityQueue.DiscardEvents | frontend/crypto/util/ThreadSafePriorityQueue.h:36-50 | all priorities are filtered |
| LedgerLaws.LedgerConserves | frontend/crypto/trading_primitives/Position.cpp:13-56 | for every trade sequence, flips included: raw realised profit = cash flow + average entry * open volume + what dust has lost, and closed fees + remaining entry fee = fees |
| LedgerLaws.SequenceConserves | frontend/crypto/PositionManager.cpp:10-57 | for every trade sequence as a whole: all results that the manager reports plus what the open position has realised = cash flow - fees + average entry * open volume + remaining entry fee + the errors of the full closes + dust lost |
| LedgerLaws.LotSequenceConserves | frontend/crypto/PositionManager.cpp:10-57 | with volumes that are multiples of a step larger than 1e-8 the same without any error |
| LedgerLaws.ClosedPositionsAccount | frontend/crypto/PositionManager.cpp:39-57 | the reported results of the full closes, less their errors, are the cash flow less fees of all trades before the open position |
| LedgerLaws.PartialCloseReportsRealised | frontend/crypto/PositionManager.cpp:22-57 | after every trade sequence a partial result is the sum of what the reducing trades of the open position have realised against the average price, less the fees but the entry fee still carried; equally their cash flow plus average entry * open volume, off only by dust; it names the time of the first trade |
| LedgerLaws.LotPartialCloseReports | frontend/crypto/PositionManager.cpp:22-57 | with volumes that are multiples of a step larger than 1e-8 a partial result is exactly that cash flow less these fees |
| LedgerLaws.ReducingTradesReport | frontend/crypto/PositionManager.cpp:10-57 | a trade reports a result if and only if it has a volume against the open position; the result is partial if and only if more than 1e-8 is left |
| LedgerLaws.ReducingKeepsAverage | frontend/crypto/trading_primitives/Position.cpp:13-56 | a reducing trade realises its distance from the average price, keeps that price and takes its share of the entry fee along; any other trade realises nothing and moves the average toward its own price |
| LedgerLaws.RealisedIsBooked | frontend/crypto/PositionManager.cpp:22-37 | what is booked as realised, and as closed volume, is the sum over the reducing trades of the open position |
| LedgerLaws.OpenTimeIsFirstTrade | frontend/crypto/PositionManager.cpp:12-16 | an opened position remembers the time of its first trade |
| LedgerLaws.BooksFollowManager | frontend/crypto/PositionManager.cpp:10-57 | the books that the law speaks of are those of the manager, over the latest trades of the sequence |
| LedgerLaws.FullCloseReportsCashFlow | frontend/crypto/PositionManager.cpp:39-57 | at a full close the reported profit is the cash flow less fees, off by exactly average entry * residual + leftover entry fee + dust lost, with a residual of at most 1e-8 |
| LedgerLaws.LargeTradesReport | frontend/crypto/trading_primitives/Position.cpp:20-25 | with every trade larger than 1e-8 the error is exactly average entry * residual + leftover entry fee |
| LedgerLaws.NothingLost | frontend/crypto/trading_primitives/Position.cpp:20-25 | with every trade larger than 1e-8 dust loses nothing on the way |
| LedgerLaws.LotsReportExactly | frontend/crypto/PositionManager.cpp:39-57 | with volumes that are multiples of a step larger than 1e-8 every full close reports exactly the cash flow and exactly the fees |
| LedgerLaws.LotCloseIsExact | frontend/crypto/trading_primitives/Position.cpp:72-80 | a full close by whole lots leaves no residual and extracts the whole entry fee |
| LedgerLaws.EmptyPositionExactly | frontend/crypto/trading_primitives/Position.cpp:13-25 | after every trade sequence, an opened position holds nothing if and only if none of the trades since it was opened is larger than 1e-8, whatever they add up to |
| LedgerLaws.DustOpensEmptyPosition | frontend/crypto/PositionManager.cpp:12-16 | a first trade opens a position that holds nothing if and only if it is no larger than 1e-8; its fee is booked unless it has no volume |
| LedgerLaws.EmptyTradeOpensPosition | frontend/crypto/trading_primitives/Position.cpp:15-18 | a first trade without volume leaves nothing at all in the position that it opens |
| Ledger.ReceiveLotVolume | frontend/crypto/trading_primitives/Position.cpp:20-25 | on whole lots larger than 1e-8 the snap to zero is invisible |
| Ledger.FoldHoldsVolume | frontend/crypto/PositionManager.cpp:10-57 | a manager that folds whole-lot trades holds their signed sum |
| Positions.OpenedPosition.constructor | frontend/crypto/trading_primitives/Position.cpp:6-11 | a first trade is a trade on an empty position |
| Positions.OpenedPosition.ExtractFee | frontend/crypto/trading_primitives/Position.cpp:72-80 | the share of the entry fee moves out of the position |
| Positions.OpenedPosition.OnTrade | frontend/crypto/trading_primitives/Position.cpp:13-45 | the object performs the transition that the conservation law is proved for |
| Positions.PositionManager.constructor | frontend/crypto/PositionManager.cpp:10-16 | no position |
| Positions.PositionManager.OnTradeReceived | frontend/crypto/PositionManager.cpp:10-57 | open, increase, partial close, flip and full close on the object equal the proved specification, with the reported result |
| TimeseriesChannel.NoLostUpdate | frontend/crypto/util/EventTimeseriesChannel.h:88-142 | in every interleaving of the two lock scopes of push with subscribe and unsubscribe: a live subscriber's snapshot comes first, is a prefix of the data, and once no push is between its scopes every value appended was in the snapshot or has been received |
| TimeseriesChannel.DuplicatesWereInFlight | frontend/crypto/util/EventTimeseriesChannel.h:88-142 | an increment is never repeated, and is also in the snapshot only if its push was in flight at subscription |
| TimeseriesChannel.DuplicatesExactly | frontend/crypto/util/EventTimeseriesChannel.h:88-142 | once no push is between its scopes, the values that a live subscriber has received twice are exactly those whose push was between its scopes when the snapshot was taken |
| TimeseriesChannel.DuplicateHappens | frontend/crypto/util/EventTimeseriesChannel.h:88-142 | an interleaving in which such a duplicate is delivered |
| TimeseriesChannel.AlwaysOk | frontend/crypto/util/EventTimeseriesChannel.h:88-158 | the invariant of the interleaving, for every sequence of steps |
| TimeseriesChannel.CappedDropsOldPrefix | frontend/crypto/util/EventTimeseriesChannel.h:94-96 | the capacity drops only a prefix, all of it older than the capacity, and leaves none such at the front |
| TimeseriesChannel.UninterruptedPush | frontend/crypto/util/EventTimeseriesChannel.h:88-114 | in every reachable state the two scopes of a push, when no step comes between, send each subscriber the value once, as the push of the class does |
| TimeseriesChannel.UninterruptedSubscribe | frontend/crypto/util/EventTimeseriesChannel.h:116-142 | the same for the scope of a subscription, whose snapshot is the whole of the data |
| TimeseriesChannel.EventTimeseriesChannel.constructor | frontend/crypto/util/EventTimeseriesChannel.h:60 | empty, without capacity |
| TimeseriesChannel.EventTimeseriesChannel.Push | frontend/crypto/util/EventTimeseriesChannel.h:88-114 | the data grow by the value after the capacity is applied, and each subscriber is sent it once, in order |
| TimeseriesChannel.EventTimeseriesChannel.Subscribe | frontend/crypto/util/EventTimeseriesChannel.h:116-142 | the snapshot is the whole of the data |
| TimeseriesChannel.EventTimeseriesChannel.UnsubscribeOne | frontend/crypto/util/EventTimeseriesChannel.h:144-158 | one entry is removed, the others keep their order |
| Subscribers.NothingAfterLastDestruction | frontend/crypto/util/EventLoopSubscriber.h:10-37 | after the last copy of a subscriber is destroyed, whatever follows: no channel lists it, none of its events is queued, none is ever executed |
| Subscribers.DestructionOfLastCopy | frontend/crypto/util/EventLoopSubscriber.h:33-37 | the destruction removes exactly its events, and the events of every other subscriber keep their order |
| Subscribers.OthersKeepOrder | frontend/crypto/util/ThreadSafePriorityQueue.h:36-50 | discarding one subscriber's events keeps the sequence of any other's |
| Subscribers.SilentExactlyWithoutCopies | frontend/crypto/util/EventLoopSubscriber.h:17-20 | the documented guarantee, exactly: nothing of a subscriber is ever executed again if and only if no copy of it is left |
| Subscribers.LiveIsReached | frontend/crypto/util/EventLoopSubscriber.h:39-51 | as long as a copy is left, a subscription, a push and the turns that the queue takes execute an event of the subscriber |
| Subscribers.ExecutedAfterDestructor | frontend/crypto/util/EventLoopSubscriber.h:33-37 | a run in which an event of a subscriber is executed after the destructor of one of its two copies |
| Subscribers.AnyCopyDiscards | frontend/crypto/util/EventLoopSubscriber.h:33-37 | destroying a copy discards exactly the events of its subscriber, while every other copy keeps its subscriptions and stays listed |
| Subscribers.CopyKeepsSubscriptions | frontend/crypto/util/EventLoopSubscriber.h:10-37 | a copy takes over the subscriptions made before it: after the destruction of the original each is still listed, and a push reaches the subscriber |
| Subscribers.CopyIsCalledBack | frontend/crypto/strategy/DynamicGridStrategy.cpp:128-154 | a run in which a subscriber is copied and the original that subscribed destroyed, as the grid does with its levels, and the callback still runs |
| Subscribers.UnsubscribedIsUnlisted | frontend/crypto/util/EventObjectChannel.h:174-183 | the erasing loop of the class takes off a channel what the destruction of a subscription does in the transition system |
| Subscribers.AlwaysListed | frontend/crypto/util/EventObjectChannel.h:150-160 | in every reachable state a channel lists a subscription once |
| Subscribers.SubscribersKeepOrder | frontend/crypto/util/EventObjectChannel.h:142-160 | in every reachable state a channel lists its subscriptions in the order in which they were made |
| Subscribers.AlwaysOk | frontend/crypto/util/EventObjectChannel.h:169-191 | in every reachable state each listed subscription is held by a live copy of its owner, and each queued event has a live owner |
| Subscribers.EventObjectChannel.constructor | frontend/crypto/util/EventObjectChannel.h:90-100 | no subscribers |
| Subscribers.EventObjectChannel.Update | frontend/crypto/util/EventObjectChannel.h:102-140 | each subscriber is sent the new value once, in order of subscription |
| Subscribers.NotificationsAreEnqueued | frontend/crypto/util/EventObjectChannel.h:102-140 | what the class sends and what a push of the transition system queues go to the same subscribers in the same order |
| Subscribers.EventObjectChannel.Subscribe | frontend/crypto/util/EventObjectChannel.h:142-167 | the callback is given the new count |
| Subscribers.EventObjectChannel.Unsubscribe | frontend/crypto/util/EventObjectChannel.h:169-191 | the first entry with the guid goes, and the callback is given the count that is left |
| Candles.FeedRefinesGrouping | frontend/crypto/util/CandleBuiler.cpp:10-88 | for every stream in order that starts past frame zero: emitted candles = one per frame with first/max/min/last, volumes and count, empty frames flat at the previous close; the open candle is that of the last frame |
| Candles.CandleMeans | frontend/crypto/util/CandleBuiler.cpp:10-86 | what that grouping means, for trades in order: the candle of a frame sums up exactly the trades from its begin until its end (first and last price, attained bounds, count, volume by side), or repeats the last price before it |
| Candles.FrameZeroExactly | frontend/crypto/util/CandleBuiler.cpp:41-67 | the emitted candles are the declarative ones if and only if the stream starts past frame zero or never leaves it; otherwise they are those of the trades past frame zero |
| Candles.CandlesFollowOneAnother | frontend/crypto/util/CandleBuiler.h:10-12 | timestamps are aligned, without gap and strictly increasing |
| Candles.FeedConserves | frontend/crypto/util/CandleBuiler.cpp:20-37 | trade count, buy and sell volume are conserved between the emitted candles and the open one |
| Candles.PushConserves | frontend/crypto/util/CandleBuiler.cpp:20-85 | one push moves the open totals out and the trade in |
| Candles.EmittedTimestamps | frontend/crypto/util/CandleBuiler.h:10-12 | for every builder state the timestamps of one call increase strictly, from the old open candle to before the new one |
| Candles.CandleBuilder.constructor | frontend/crypto/util/CandleBuiler.cpp:5-8 | no candle yet |
| Candles.CandleBuilder.PushTrade | frontend/crypto/util/CandleBuiler.cpp:10-88 | the object, with its filling loop, performs the proved transition |
| TimeWeightedAverage.AverageIsExact | frontend/crypto/ta/TimeWeightedMovingAverage.cpp:10-54 | for every history in order the window is the history without one oldest sample per result returned, the running sums are those of the window, and each result times its span is the integral of the step function over the window, the span is at least the interval, and the result lies between the least and greatest value of the window |
| TimeWeightedAverage.AverageOfAnyHistory | frontend/crypto/ta/TimeWeightedMovingAverage.cpp:10-54 | for every history, descending timestamps included: the window is the history without one oldest sample per result returned, the sums are its sums, and each result is the mean over the time that passed in order, which is at least the interval, within the bounds of the window; so no division by zero |
| TimeWeightedAverage.WindowDropsOnePerResult | frontend/crypto/ta/TimeWeightedMovingAverage.cpp:43-53 | the number of samples in the window is that of the history less that of the results returned, and a push returns a result if and only if its sample does not descend and the oldest one is an interval old |
| TimeWeightedAverage.AverageOfLastValues | frontend/crypto/ta/TimeWeightedMovingAverage.cpp:29-53 | samples at equal distances, k of which fill the interval, as candles without gaps: the first k pushes return nothing, and every later one the mean of exactly the k values before it |
| TimeWeightedAverage.PushReturnsWeightedMean | frontend/crypto/ta/TimeWeightedMovingAverage.cpp:29-47 | the same for one push from any reachable state, with exactly when there is a result |
| TimeWeightedAverage.PushReturnsTimeAverage | frontend/crypto/ta/TimeWeightedMovingAverage.cpp:29-47 | from any state in order: a result exactly when the window spans the interval, equal to the time average |
| TimeWeightedAverage.PushReturnsWithinWindow | frontend/crypto/ta/TimeWeightedMovingAverage.cpp:47-53 | the result lies within any bounds of the window |
| TimeWeightedAverage.PushIsExact | frontend/crypto/ta/TimeWeightedMovingAverage.cpp:19-54 | both together, for the next sample |
| TimeWeightedAverage.TimeWeightedMovingAverage.constructor | frontend/crypto/ta/TimeWeightedMovingAverage.cpp:5-8 | an empty window |
| TimeWeightedAverage.TimeWeightedMovingAverage.PushValue | frontend/crypto/ta/TimeWeightedMovingAverage.cpp:19-54 | the object performs the proved transition in every state that it can reach, also after out-of-order samples |
| StandardDeviation.WindowIsRecentHistory | frontend/crypto/ta/StandardDeviation.cpp:12-22 | for every history in order the list is exactly the samples inside the interval and both sums are theirs |
| StandardDeviation.VarianceIsExact | frontend/crypto/ta/StandardDeviation.cpp:24-33 | the variance is the mean squared deviation of those samples and is not negative before the clamp |
| StandardDeviation.VarianceOfWindow | frontend/crypto/ta/StandardDeviation.cpp:29-33 | mean of squares less square of mean = mean squared deviation >= 0, so the clamp never acts |
| StandardDeviation.StandardDeviation.constructor | frontend/crypto/ta/StandardDeviation.cpp:5-8 | an empty window |
| StandardDeviation.StandardDeviation.PushValue | frontend/crypto/ta/StandardDeviation.cpp:10-37 | the object with its pruning loop performs the proved transition |
| LeastSquares.PriceLineIsOptimal | frontend/crypto/util/OrdinaryLeastSquares.cpp:60-68 | for every price series with two distinct timestamps the denominator is positive and the rescaled line over timestamps has no larger squared error than any other line |
| LeastSquares.SolutionIsOptimal | frontend/crypto/util/OrdinaryLeastSquares.cpp:7-26 | no line has a smaller squared error than the solution |
| LeastSquares.SolutionIsNormal | frontend/crypto/util/OrdinaryLeastSquares.cpp:23-25 | the solution satisfies both normal equations |
| LeastSquares.DenominatorIsPositiveExactly | frontend/crypto/util/OrdinaryLeastSquares.cpp:23 | the denominator is never negative, and positive if and only if two abscissae differ |
| LeastSquares.SolveLoop | frontend/crypto/util/OrdinaryLeastSquares.cpp:7-26 | the accumulator loop computes the solution that is proved optimal |
| LeastSquares.DeviationLoop | frontend/crypto/util/OrdinaryLeastSquares.cpp:28-41 | the loop computes the mean squared error |
| LeastSquares.SolutionHasLeastMeanError | frontend/crypto/util/OrdinaryLeastSquares.cpp:28-41 | that error times the number of points is the sum of the squared errors, it is not negative, and of all lines the solution has the least |
| LeastSquares.FromPricesLoop | frontend/crypto/util/OrdinaryLeastSquares.cpp:43-58 | the loop converts each timestamp to days from the first |
| ConfigGenerator.EnumerationIsExhaustive | frontend/crypto/optimizer/ConfigGenerator.cpp:57-63 | every point of the Cartesian product is returned, nothing else, and nothing twice |
| ConfigGenerator.EndsExactly | frontend/crypto/optimizer/ConfigGenerator.cpp:45-57 | the odometer ends if and only if each parameter has a positive step or no room for a second value |
| ConfigGenerator.CountIsExact | frontend/crypto/optimizer/ConfigGenerator.cpp:45-53 | the values of a parameter are the minimum and the multiples of the step above it that stay below the maximum |
| ConfigGenerator.IncrementIsNext | frontend/crypto/optimizer/ConfigGenerator.cpp:45-55 | an increment leads to the next configuration in the numbering, and stops exactly after the last |
| ConfigGenerator.FixedParameter | frontend/crypto/optimizer/ConfigGenerator.cpp:36-42 | a parameter that is not optimised has its current value and no other |
| ConfigGenerator.IncrementCurrent | frontend/crypto/optimizer/ConfigGenerator.cpp:45-55 | the in-place loop is the increment |
| ConfigGenerator.ConfigsOfParameters | frontend/crypto/optimizer/ConfigGenerator.cpp:20-63 | the configurations of the parameters are all choices of one value each: the current one of a fixed parameter; of an optimised one its minimum and the later multiples of its step below its maximum |
| ConfigGenerator.CollectLimits | frontend/crypto/optimizer/ConfigGenerator.cpp:25-43 | the loop collects the limits of every parameter |
| ConfigGenerator.EnumerateConfigs | frontend/crypto/optimizer/ConfigGenerator.cpp:57-65 | the do-while loop terminates and returns exactly the enumeration |
| ConfigGenerator.GetPossibleConfigs | frontend/crypto/optimizer/ConfigGenerator.cpp:20-66 | from the parameters to the configurations: every choice of values is returned, nothing else, and nothing twice |
| TrailingStops.TrailingStopIsDrawdown | frontend/crypto/gateway/BacktestTradingGateway.cpp:276-327 | for every price sequence: the stop is the best price so far at the distance; the position is closed at the stop by the first price whose retreat from the best price exceeds the distance, and by no other |
| TrailingStops.StopIsMonotone | frontend/crypto/trading_primitives/TrailingStopLoss.cpp:3-16 | as long as the position is open the stop only moves in its favour |
| TrailingStops.BestIsExtreme | frontend/crypto/trading_primitives/TrailingStopLoss.cpp:10-15 | the best price is the maximum (minimum for shorts) of those seen |
| TrailingStops.RequestedStopIsDrawdown | frontend/crypto/gateway/BacktestTradingGateway.cpp:238-248 | the same from the request on, for every position, distance >= 0 and price sequence, the stop being requested on the side opposite to the position |

## Left out

- GridTheorems.RunAgrees: says that the position manager holds the position only for a lot step larger than 1e-8; with a smaller one its snap to zero lets it lose volume that the gateway keeps. All grid theorems assume positive prices in order of time, and at least one level, a positive lot step, interval, timeframe and radius.
- SinglePosition.OrdersAreSentFlat: what a strategy decides is arbitrary, so its signal rules are not modelled.
- SinglePosition.FlagIsRightWhenQuiet: says that the manager holds exactly the gateway position only for a lot step larger than 1e-8; with a smaller one the manager snaps a position of at most 1e-8 to zero.
- GatewayLaws.ManagerHoldsPosition: is about whole lots larger than 1e-8; LedgerLaws.LedgerConserves says what happens to other volumes.
- Backtest.StrategyInstance.Backtest: ends after the last price; the stop request that follows it, and the closing of the position by that request, are not modelled.
- Backtest.StrategyInstance.HandleHistoricalPrice: leaves out the stop event that is pushed after the last price, with the same closing of the position.
- TimeseriesChannel.NoLostUpdate: is about a channel without capacity; TimeseriesChannel.CappedDropsOldPrefix and the class cover the capacity.
- PriorityQueue.ThreadSafePriorityQueue.WaitAndPop: returns that it would block instead of blocking, because there is one thread of control.
- StandardDeviation.VarianceIsExact: speaks of the variance; the square root is not modelled.
- StandardDeviation.StandardDeviation.PushValue: returns the variance; the square root is not modelled.
- LeastSquares.DeviationLoop: returns the mean squared error; the square root is not modelled.
- TradingEngine.OrderManager.SendMarketOrder: the text of the reported error and the order's symbol name are not modelled; an error is counted.
- TradingEngine.OrderManager.SendConditional: likewise counts the error instead of keeping its text.
- TradingEngine.OrderManager.OnOrderResponse: has no reject branch, because the backtest gateway never rejects a market order.
- TradingEngine.OrderManager.OnTrailingStopResponse: has no reject branch, because the backtest gateway never rejects a trailing stop, and does not keep the stop price that the channel shows to the exit strategy.
- TradingEngine.OrderManager.OnTpslResponse: does not keep the acknowledged, suspended, triggered and rejected marks that the channel shows to the exit strategy.
- GridStrategy.DynamicGridStrategy.OnOrderUpdate: reads the order from the manager's map instead of the captured object, and has no reject branch (an empty one in the source); GridBracket.FilledOrderAttaches proves that the order is there whenever the callback runs in a grid run.
- GridStrategy.DynamicGridStrategy.OnConditionalUpdate: reads the order from the manager's map instead of the captured object, and has no reject branch, which only logs; GridClose.FilledCallbackCloses proves that a filled order's level is there.
- Floating point: rounding, infinities and NaN. An order amount divided by a price of zero, which the program treats as no order, is excluded by a positive price in `SinglePosition`; level numbers are unbounded integers.
- `UnsignedVolume` compares with a tolerance; the model compares exactly.
- `ClosedPosition::m_avg_closed_price`: it is only printed, and its denominator can be zero after a flip.
- `process_position_result`, profit totals, deposit curve, market state and other statistics of `StrategyInstance`: single assignments, and totals over partial results are added more than once.
- `StrategyInstance::m_pending_orders` and rejected orders: the backtest gateway never rejects an order.
- `report_levels` and the chart channels of the grid: output only.
- The opened-position flag in grid runs: the grid never reads it; it is part of `SinglePosition`.
- `OpenedPosition::price_levels`, `expected_total_fee`: single expressions.
- Reading the limits from JSON and the string-keyed maps of `ConfigGenerator`: the limits are a sequence in key order.
- The object that a channel of a trailing stop or TPSL carries: no strategy in the model reads it; only its presence matters.
- DynamicGridWithBan.cpp and StaticGridWithBan.cpp: near copies of the dynamic grid's order protocol.
- Signal rules of the other strategies: single thresholds without an invariant beyond them.
- Live mode, `Scheduler`, `push_delayed`, wall-clock time.
- ByBit gateways, REST and WebSocket clients, the connection watcher.
- Qt frontend, charts, logging, configuration files, download and CSV reading.
