# A verified model of a Binance futures trading bot

This project models the core of a single-symbol Binance USDT-M futures bot
written in Python. The bot-control side covers:

- the order and position engine (`core/trade_executor.py`): quantity
  normalisation, the retried price and order calls, opening and closing a
  position, the initial stop-loss and take-profit orders, cleaning up
  orphaned protective orders and the leverage watchdog;
- the shared local belief about the position and its synchronisation with
  the exchange (`core/position_utils.py`);
- the reconciliation and supervision passes of `core/bot.py`: adopting a
  position found on the exchange, re-posting missing protective orders,
  the manual-close watcher, order retries, restartable threads and the
  back-off of the main loop;
- the exchange helpers of `core/binance_client.py`.

The signal side covers the crossing detectors and their alert or trade
loops:

- the EMA9/EMA20 "block orders" alerts with support and resistance zones
  (`ema4.py`);
- the EMA20/EMA50 crossing alert (`ema5.py`);
- the closed-candle crossing strategy (`strategies/ema_cross.py`);
- the intrabar live crossing loop (`strategies/ema_3m.py`);
- the relation tracker (`strategies/ema_tracker.py`).

## How the model is built

Everything the bot asks of the outside world becomes an input:

- An exchange answer is an `Attempt` value: `Ok` with the parsed answer,
  or `Fail` with the error text.
- A retried call is a function from the attempt number to its `Attempt`.
- What the bot sends to the exchange is recorded as `Request` values.
- Notifications are recorded as the kind of message sent.

The module-level state of the source is kept in classes whose fields the
methods update in place. These classes are `State.BotState` (the shared
`state`), `TradeExecutor.ExecutorGlobals` (`position_lock`,
`trailing_thread`), `Bot.PositionMonitor`, `Bot.BotGlobals`,
`Cooldown.TelegramCooldown`, `Ema4.VolatilityAlarm` and
`EmaCross.EmaCrossStrategy`.

Each state-changing method is proved equal to a pure step function on a
`Snapshot` of that state. The lemmas about the source's promises are then
proved on the step function.

Every endless `while True` loop is modelled on a finite prefix of its
iterations. The loop method is proved equal to a run function, a fold of
the step function, and the lemmas talk about the run.

Three places where the code does not do what it evidently intends are
listed under "## Findings". Each has an as-written member with its
counterexample and a corrected member carrying the intended property.

Two facts about the quantity of an opening:

- The code only rounds the quantity with `round_quantity`
  (core/trade_executor.py:54-59): one decimal on ALGOUSDT, untouched
  elsewhere. The quantity is never floored to the step size, and the
  model does not floor it either.
- The code's minimum-notional bump rounds `minNotional / price` to the
  nearest step (core/trade_executor.py:171-173), which can leave the
  notional short. This is Finding 2: `TradeExecutor.NormalizeQuantityAsWritten`
  models the code as written, and the opening path of the model uses the
  corrected ceiling bump `TradeExecutor.NormalizeQuantity` (see "## Left out").

## Model

| member | source | states |
|---|---|---|
| Attempts.FirstOk | core/trade_executor.py:78-87 | the index of the first successful attempt among the first n, no earlier attempt succeeded, and None exactly when all n failed |
| Attempts.FirstOkIsLeast | core/trade_executor.py:80-82 | an attempt that succeeds after only failures is the one a retry loop returns |
| Attempts.Contains | core/trade_executor.py:424 | Python's substring test: true exactly when `sub` occurs at some position of `s` |
| BinanceClient.Retry | core/binance_client.py:33-52 | returns the first successful attempt's value after that many calls, otherwise re-raises the last attempt's error after all attempts; sleeps after every failure but the last; with zero attempts returns nothing |
| BinanceClient.CheckPositionOpen | core/binance_client.py:87-98 | true exactly when the query answered and some position has a non-zero amount; a failed query counts as no position |
| BinanceClient.ChangeLeverage | core/binance_client.py:100-117 | reports success exactly when one of the three retried attempts succeeded |
| BinanceClient.AnySymbolEquals | core/binance_client.py:123 | true exactly when the symbol is among the exchange's symbols |
| BinanceClient.IsSymbolValid | core/binance_client.py:120-126 | true exactly when the exchange answered and lists the symbol; a failed query gives false |
| BinanceClient.Closes | core/binance_client.py:131 | one close per candle, same length and same order |
| BinanceClient.GetHistoricalCloses | core/binance_client.py:128-135 | the empty list when the query failed, otherwise the close of every candle in order |
| Exchange.EntrySide | core/trade_executor.py:184 | the entry order buys exactly when the direction is "bullish" |
| Exchange.CloseSide | core/trade_executor.py:339 | the closing side is the opposite of the entry side, SELL exactly for "bullish" |
| Exchange.Abs | core/trade_executor.py:269 | non-negative and equal to x or -x |
| Exchange.DirectionOfAmount | core/bot.py:123 | "bullish" exactly for a positive amount, "bearish" otherwise |
| Exchange.FirstOpenIndex | core/trade_executor.py:262 | the first position with a non-zero amount, and None exactly when there is none |
| Exchange.FirstOpenIsLeast | core/trade_executor.py:344 | an open position preceded only by flat ones is the one `next(...)` picks |
| Exchange.HasOpenPositionIff | core/trade_executor.py:411 | `any(amount != 0)` holds exactly when some position is open |
| Exchange.ClosingOrders | core/trade_executor.py:358-359 | keeps exactly the orders of the given type on the closing side with `closePosition` set |
| Exchange.HasClosingOrderIff | core/trade_executor.py:361-362 | a closing order is present exactly when some order has that type, side and `closePosition` flag |
| Rounding.RoundToTick | core/trade_executor.py:354-355 | the result is a multiple of the tick within half a tick of the input |
| Rounding.RoundToTickFixesMultiples | core/trade_executor.py:354-355 | a price already on the tick grid is left unchanged |
| Rounding.RoundToTickIdempotent | core/trade_executor.py:354-355 | rounding a rounded price changes nothing |
| Rounding.RoundToTickMonotone | core/trade_executor.py:354-355 | rounding preserves the order of prices |
| Rounding.CeilToStep | core/trade_executor.py:172 | the corrected bump: the least multiple of the step that is at least x |
| Rounding.DecimalUnit | core/bot.py:132-134 | the unit of `round(x, precision)` is positive; for a non-negative precision it is the reciprocal of 10 to that power (below one once the precision is positive), for a negative one it is 10 to the opposite power |
| Protection.ShortMirrorsLong | core/trade_executor.py:364-365 | a short's stop and target lie as far from the entry on the other side as a long's |
| Protection.RoundedTriggersBracketEntry | core/trade_executor.py:364-368 | after tick rounding, a long's stop is at or below the entry and its target at or above it, and the reverse for a short |
| Protection.OpenThenProtectScenario | core/trade_executor.py:364-368 | a long entered at 100 with 2 % stop and 4 % target on a 0.01 tick gets triggers 98 and 104 |
| State.BotState.constructor | core/bot.py:172-176 | the shared state starts flat |
| State.BotState.ResetAll | core/bot.py:172-176 | `reset_all` leaves the flat snapshot |
| State.BotState.SetOpen | core/trade_executor.py:204-207 | records an open position with its direction, entry and quantity |
| PositionUtils.Synced | core/position_utils.py:25-37 | only `position_open` changes; it becomes the exchange's answer, and false when the query fails |
| PositionUtils.SyncedIdempotent | core/position_utils.py:25-37 | a second sync against the same answer changes nothing |
| PositionUtils.SyncedOverrides | core/position_utils.py:25-37 | only the latest sync matters |
| PositionUtils.SyncPosition | core/position_utils.py:25-37 | the new shared state is the synced snapshot of the old one |
| TradeExecutor.UpperChar | core/trade_executor.py:56 | lower-case ASCII letters are shifted to upper case, every other character is kept |
| TradeExecutor.AsciiUpper | core/trade_executor.py:56 | the upper-cased symbol has the same length and is upper-cased character by character |
| TradeExecutor.RoundQuantity | core/trade_executor.py:54-59 | on ALGOUSDT the result is on the 0.1 grid within half a step of the input; other symbols are unchanged |
| TradeExecutor.RoundQuantityIdempotent | core/trade_executor.py:54-59 | rounding a rounded quantity changes nothing |
| TradeExecutor.Retried | core/trade_executor.py:78-87 | Ok exactly when one of the first n attempts succeeds, and then it is the first success; otherwise the last attempt's error, or `raise None` with no attempt |
| TradeExecutor.RetryOrderCreation | core/trade_executor.py:78-87 | returns the retried result after as many calls as needed (all of them on failure) and sleeps between attempts only |
| TradeExecutor.GetPriceWithRetry | core/trade_executor.py:61-76 | the price of the first attempt whose answer carries one; an answer without a price counts as a failed attempt |
| TradeExecutor.PriceRetriedMeaning | core/trade_executor.py:66-71 | the retried price is Ok exactly when some attempt answered with a price, and then it is that attempt's price |
| TradeExecutor.GetRealLeverage | core/trade_executor.py:102-115 | the leverage of the first open position, otherwise the first bracket's initial leverage, and None when a query fails or no bracket is listed |
| TradeExecutor.CheckAndUpdateLeverage | core/trade_executor.py:453-463 | a change is requested exactly when the real leverage is known and differs from the file's, it is reported as corrected exactly when that request succeeds, and an error is reported when the file or the change fails |
| TradeExecutor.CorrectionIsStable | core/trade_executor.py:453-463 | once the position carries the file's leverage, the watchdog requests nothing |
| TradeExecutor.AtLeastMinQty | core/trade_executor.py:167-168 | the quantity is at least minQty, and a rounded quantity already above it is kept |
| TradeExecutor.NormalizeQuantityAsWritten | core/trade_executor.py:156-174 | as written: without a bump the result meets minQty and minNotional; with a bump on a fitting quantity grid (any symbol but ALGOUSDT, and ALGOUSDT with a step on the one-decimal grid) it is the step multiple nearest to minNotional/price, which may lie below it |
| TradeExecutor.NearestBump | core/trade_executor.py:172-173 | on a fitting quantity grid, the step multiple within half a step of minNotional/price, left unchanged by the one-decimal re-rounding |
| TradeExecutor.NotionalBumpFallsShort | core/trade_executor.py:171-172 | at price 0.31, step 1 and minNotional 5 the bumped quantity 16 has notional 4.96 < 5 |
| TradeExecutor.NormalizeQuantity | core/trade_executor.py:156-174 | corrected: with a bump it is the least step multiple at or above minNotional/price; on a fitting grid the result meets both minQty and minNotional |
| TradeExecutor.NormalizeQuantityWithoutBump | core/trade_executor.py:156-169 | without a bump the quantity raised to minQty is kept as it is |
| TradeExecutor.BumpFrom | core/trade_executor.py:169-173 | a quantity whose notional already meets minNotional is kept; otherwise the corrected bump, which on a fitting grid meets minQty and minNotional |
| TradeExecutor.BumpQuantity | core/trade_executor.py:171-173 | corrected bump: on a fitting grid, a step multiple in [minNotional/price, minNotional/price + step) |
| TradeExecutor.StepGridFitsOneDecimal | core/trade_executor.py:172-173 | a step on the 0.1 grid makes ALGOUSDT's re-rounding harmless |
| TradeExecutor.BumpMeetsNotional | core/trade_executor.py:167-172 | any bump at or above minNotional/price meets both minQty and minNotional |
| TradeExecutor.SetInitialSlTp | core/trade_executor.py:334-401 | places at most a stop then a take-profit on the closing side, each exactly when no such closing order exists, at the tick-rounded trigger computed from the real entry; warns exactly when the final check misses a type; reports an error exactly when a query fails |
| TradeExecutor.SecondPassPlacesNothing | core/trade_executor.py:357-390 | once the orders placed by one pass are listed, a second pass places nothing |
| TradeExecutor.CancelUpToSound | core/trade_executor.py:418-428 | only protective orders are cancelled, in order, and the loop stops exactly at a failure that is not the already-gone code -2011 |
| TradeExecutor.CancelUpToComplete | core/trade_executor.py:418-428 | without an abort every protective order is tried |
| TradeExecutor.CancelUpToStaysAborted | core/trade_executor.py:428 | once aborted, later orders are not tried |
| TradeExecutor.CancelRequests | core/trade_executor.py:421 | one cancel request per tried order, with that order's id |
| TradeExecutor.CancelPassMeaning | core/trade_executor.py:404-433 | nothing is touched while a position is open; only protective orders are cancelled, all of them when nothing fails; it notifies exactly when something was cancelled and no error occurred |
| TradeExecutor.CancelAllOpenOrdersIfNoPosition | core/trade_executor.py:404-433 | the loop's report equals the cancel pass |
| TradeExecutor.ClosingSideOf | core/trade_executor.py:267-268 | SELL exactly for a positive amount; the closing side of the amount's direction |
| TradeExecutor.GainSign | core/trade_executor.py:308-309 | the reported gain is non-negative exactly when the exit moved in the position's favour |
| TradeExecutor.CloseStep | core/trade_executor.py:253-331 | nothing is closed and nothing sent when neither check sees a position; a close sends the reduce-only market order on the first open position's side and size, then the cleanup, and leaves the state flat; every other outcome leaves the synced state |
| TradeExecutor.ClosePositionEntry | core/trade_executor.py:253 | `close_position` blocks exactly when the caller already holds `position_lock`, and then changes nothing |
| TradeExecutor.OpenWhileOpenDeadlocks | core/trade_executor.py:123-128 | as written: opening while a position is seen open calls `close_position` under the held lock and blocks |
| TradeExecutor.PriceIsPositive | core/trade_executor.py:149 | under a sane market the fetched price is positive, so the divisions that follow are defined |
| TradeExecutor.OpenFrom | core/trade_executor.py:134-153 | the requests so far are kept; nothing changes unless a position opens; margin, leverage, the leverage change and the price must all succeed before any order |
| TradeExecutor.OrderStage | core/trade_executor.py:155-230 | insufficient balance exactly when the balance is below the margin; an opening records direction, fill price (or the ticker price), the quantity normalised with the corrected bump of Finding 2, and the protection pass, and sends the market order then the protective orders |
| TradeExecutor.FillStage | core/trade_executor.py:183-215 | a position opens exactly when the retried order succeeds and the post-check sees it, and then the state holds the fill price and quantity |
| TradeExecutor.CloseFirst | core/trade_executor.py:125-133 | the previous position is closed first; the opening is abandoned exactly when the resync or the extra check still shows a position, and an opening records the new position |
| TradeExecutor.OpenTradeStep | core/trade_executor.py:118-230 | corrected: in alert mode nothing happens; a previous position is closed first, and the opening is abandoned exactly when it still shows after the resync |
| TradeExecutor.OpenedPassedEveryGate | core/trade_executor.py:118-207 | an opening implies auto mode, a known margin and leverage, a successful leverage change, a price, the filters, a balance covering the margin, a successful retried entry order and a position seen by the post-fill check |
| TradeExecutor.CloseThenReopen | core/trade_executor.py:126-133 | corrected: after a successful close with the position gone, opening proceeds from a flat state after the closing market order |
| TradeExecutor.ExecutorGlobals.constructor | core/trade_executor.py:20-23 | the lock is free and no trailing worker runs |
| TradeExecutor.CloseHoldingLock | core/trade_executor.py:254-331 | the shared state and result follow the close step |
| TradeExecutor.ClosePosition | core/trade_executor.py:248-331 | follows the lock-aware close; the lock and the trailing worker are unchanged afterwards |
| TradeExecutor.OpenFromState | core/trade_executor.py:134-230 | follows the opening stage; a new trailing worker is started exactly on an opening |
| TradeExecutor.PlaceEntryOrder | core/trade_executor.py:155-230 | follows the order stage; the trailing worker is replaced exactly on an opening |
| TradeExecutor.OpenTrade | core/trade_executor.py:118-246 | follows the corrected open step and frees the lock |
| Bot.Adopted | core/bot.py:236-239 | the adopted state is open with the exchange's entry and absolute amount, "bullish" exactly for a long amount |
| Bot.WriteSnapshot | core/bot.py:236-239 | the shared state becomes the given snapshot |
| Bot.MonitorStep | core/bot.py:226-265 | adopts the first open position and notifies exactly when the bot believed itself flat; resets only when nothing is open and the bot believed itself open; a failed query changes nothing |
| Bot.MonitorIdempotent | core/bot.py:226-258 | a second pass over the same answers changes nothing and notifies nothing |
| Bot.PositionMonitor.constructor | core/bot.py:222 | no remembered amount |
| Bot.PositionMonitor.Pass | core/bot.py:226-265 | the shared state and the remembered amount follow the monitor step |
| Bot.AutoStep | core/bot.py:97-185 | a failed query changes nothing; with no open position the state is reset and nothing is sent; otherwise the first open position is handled as the handling promises: after the leverage request exactly the missing take-profit, then the missing stop, at the rounded prices on the closing side, and each posted price (and only a posted one) becomes the remembered one |
| Bot.HandleOpenMeaning | core/bot.py:105-170 | handling adopts the position and requests the leverage; a failed precision or order query posts nothing and keeps the remembered prices; otherwise the requests after the leverage are exactly the take-profit (if none is listed) followed by the stop (if none is listed), on the closing side at the rounded prices, and the remembered take-profit and stop are the posted prices when posted and unchanged otherwise |
| Bot.PassesAgree | core/bot.py:120-126 | the monitor and the protection pass leave the same snapshot for the same positions |
| Bot.BotGlobals.constructor | core/bot.py:42-43 | no remembered take-profit or stop price |
| Bot.BotGlobals.Handle | core/bot.py:105-170 | state and remembered prices follow the handling of the position |
| Bot.BotGlobals.AutoSetSlTpPass | core/bot.py:97-185 | state and remembered prices follow the protection pass |
| Bot.ManualCloseWatch | core/bot.py:208-218 | a requested close is attempted and the request cleared, and an error is notified exactly when the close fails |
| Bot.RetryOrder | core/bot.py:404-413 | returns the first successful value, otherwise nothing with a notification after the last attempt |
| Bot.ResilientRun | core/bot.py:415-428 | the target is re-run until it returns, and the wrapper gives up exactly when all 11 runs crash |
| Bot.StopIndex | core/bot.py:326-332 | the loop runs until the first iteration that sees the stop file |
| Bot.BackoffClosedForm | core/bot.py:344-353 | the back-off is 5 doubled once per trailing crash, capped at 60 |
| Bot.BackoffValues | core/bot.py:322-353 | the back-off is always one of 5, 10, 20, 40 or 60 |
| Bot.WaitValues | core/bot.py:346-353 | every wait after a crash is one of 5, 10, 20, 40 or 60 |
| Bot.RunBotLoop | core/bot.py:322-353 | the loop stops exactly at a stop file, and its back-off, waits and closes follow the iterations before it |
| Cooldown.CooldownStep | strategies/ema_cross.py:27-34 | granted exactly when more than 60 s passed since the last grant, which then becomes now |
| Cooldown.GrantAt | strategies/ema_cross.py:27-34 | each request is decided against the time left by the requests before it |
| Cooldown.LastSentIsLastGrant | strategies/ema_cross.py:27-34 | the last-sent time is that of the latest granted request |
| Cooldown.GrantsSpaced | strategies/ema_3m.py:21-27 | two successive grants are more than 60 s apart |
| Cooldown.TelegramCooldown.constructor | strategies/ema_cross.py:24 | the last-sent time starts at 0 |
| Cooldown.TelegramCooldown.CanSend | strategies/ema_cross.py:27-34 | grant and new time follow the cooldown step |
| Indicators.RelationOf | strategies/ema_tracker.py:34-39 | above, below or equal exactly by the comparison of the two values |
| Indicators.CrossingIsFlip | ema5.py:59-64 | a strict crossing is a flip from below to above, or from above to below; an equality at either step is no crossing |
| Ema4.FetchWithRetries | ema4.py:42-49 | the first of three successful fetches, or the fixed failure message when all three fail |
| Ema4.DetectTendance | ema4.py:84-90 | rising, falling or neutral exactly by the last two averages |
| Ema4.CroisementDetecte | ema4.py:92-94 | true exactly when the strict relation flipped between the last two steps, and then the trend is not neutral |
| Ema4.CrossTypeOf | ema4.py:247-252 | unknown exactly without a crossing; an upward crossing goes with a rising trend, a downward one with a falling trend |
| Ema4.EstProcheZone | ema4.py:96-97 | for a positive price, near exactly when the relative distance is below the threshold; never near at price 0; always near at a negative price |
| Ema4.FirstNear | ema4.py:110-116 | the first level near the price, and None exactly when none is |
| Ema4.SeqMax | ema4.py:122-123 | a member of the list that is not below any other |
| Ema4.BlockOrders | ema4.py:99-139 | no signal without a crossing or in a neutral trend; a long only on an upward crossing in a rising trend; a short only on a downward crossing in a falling trend |
| Ema4.BreakoutMeaning | ema4.py:122-124 | the breakout holds exactly when the trend rises and both closes lie above every resistance |
| Ema4.OnlyFirstNearSupportCounts | ema4.py:110-131 | the supports after the first near one do not change the signal |
| Ema4.OnlyFirstNearResistanceCounts | ema4.py:132-138 | in a falling trend the resistances after the first near one do not change the signal |
| Ema4.BlockOrdersStrategy | ema4.py:99-139 | the loops with their breaks compute the block-orders signal |
| Ema4.Insert | ema4.py:143 | inserts into a strictly increasing list, keeping it strictly increasing with one more member |
| Ema4.SortedSet | ema4.py:143 | `sorted(set(values))`: strictly increasing with the same members |
| Ema4.IncreasingUnique | ema4.py:143 | two strictly increasing lists with the same members are equal, so the sorted set is unique |
| Ema4.GroupSorted | ema4.py:146-153 | the scan over the sorted values fails exactly on a later zero value; otherwise its zones concatenate to the values and are well grouped |
| Ema4.RegrouperZonesProches | ema4.py:141-154 | fails exactly when a later sorted value is 0; otherwise the zones concatenate to the sorted distinct values, each zone's neighbours are within tolerance, and consecutive zones are not |
| Ema4.WindowForVolatility | ema4.py:180-188 | 50 exactly above 1, 30 exactly at 0.5 or below, 40 otherwise |
| Ema4.WindowMonotone | ema4.py:180-188 | more volatility never gives a smaller window |
| Ema4.AlarmStep | ema4.py:190-197 | notifies exactly when volatility exceeds the threshold and the flag is down; the new flag is whether it exceeds it |
| Ema4.Notifications | ema4.py:190-197 | one notification decision per check |
| Ema4.FlagAfterMeaning | ema4.py:190-197 | the flag after a run is whether the last volatility exceeded the threshold |
| Ema4.NotifiesOnRisingEdges | ema4.py:190-197 | a check notifies exactly when volatility crosses above the threshold from at or below it |
| Ema4.VolatilityAlarm.constructor | ema4.py:190 | the mutable default flag starts down |
| Ema4.VolatilityAlarm.Check | ema4.py:190-197 | notification and flag follow the alarm step |
| Ema4.ZonesOntChange | ema4.py:199-202 | compared with the never-updated empty previous zones, true exactly when any zone is present |
| Ema4.ConfirmationPullback | ema4.py:215-223 | "haussière" asks for the closes to cross the level upwards, any other direction downwards |
| Ema4.LastNear | ema4.py:256-263 | the last level near the price, and None exactly when none is |
| Ema4.FindZoneOfInterest | ema4.py:255-263 | the loops give the last near resistance, else the last near support, and the zone found is near the price |
| Ema4.AlertStep | ema4.py:244-283 | a failed fetch or a too-short series gives the iteration-failed alert and keeps the last signal; otherwise an alert is sent exactly on an EMA9/EMA20 crossing, with its kind and the zone of interest; it is confirmed exactly when the block-orders signal exists and differs from the last one, carries that signal and makes it the last one; nothing else changes the last signal |
| Ema4.AlertRun | ema4.py:231-288 | one alert entry per iteration |
| Ema4.ConfirmedSignalsAlternate | ema4.py:268-277 | confirmed signals alternate, the first differs from the starting one, and the last signal is the latest confirmed |
| Ema4.MainLoop | ema4.py:225-288 | the alerts and last signal follow the alert run, and the volatility notifications and flag follow the alarm over the fetched frames |
| Ema4.DetectCross | ema4.py:51-76 | nothing with fewer than two rows; the rising label exactly on a strict upward crossing of EMA20 over EMA50, the falling label exactly on a strict downward one, and a label exactly when the crossing test holds |
| Ema5.DetectCross | ema5.py:41-66 | rising exactly on a strict upward crossing, falling exactly on a strict downward one |
| Ema5.StartupKind | ema5.py:72-95 | nothing exactly when the startup check fails; rising exactly when EMA20 is above EMA50, equality counts as falling |
| Ema5.AlertStep | ema5.py:99-113 | alerts a detected kind exactly when it differs from the last one, which it then becomes; a failed fetch changes nothing |
| Ema5.AlertsAlternate | ema5.py:97-113 | alerts alternate in kind, the first differs from the startup kind, and the last kind is the latest alert |
| Ema5.FirstCrossAfterFailedStartup | ema5.py:93-108 | after a failed startup the first crossing of either kind is alerted |
| Ema5.Monitor | ema5.py:68-113 | the loop's alerts and last kind follow the alert run from the startup kind |
| EmaCross.DetectEmaCross | strategies/ema_cross.py:36-64 | with the default direction, "bullish_cross" exactly on a strict upward crossing and never "bearish_cross"; otherwise "bearish_cross" exactly on a strict downward one |
| EmaCross.DetectAndNotify | strategies/ema_cross.py:36-64 | the detection, notified exactly when a signal is found and the cooldown grants it |
| EmaCross.GetEmaValues | strategies/ema_cross.py:66-94 | values exactly when at least 50 candles arrived; the close time is the second-to-last candle's in seconds; the signal is the bullish-only detection on the EMA20 and EMA50 of the candles' closes, so it is only ever bullish |
| EmaCross.IsPositionMatchingDirection | strategies/ema_cross.py:108-115 | only an open position whose stored direction equals the signal text matches |
| EmaCross.CrossSignalsNeverMatch | strategies/ema_cross.py:108-115 | a position stored as "bullish" or "bearish" never matches a crossing signal |
| EmaCross.OpenDirection | strategies/ema_cross.py:140-145 | bullish signals open long, bearish ones open short, and other texts open nothing |
| EmaCross.ExecuteStep | strategies/ema_cross.py:117-154 | a missing or repeated signal does nothing; a new one is remembered with its candle; a position already open in the signal's direction is left alone; otherwise an open position is closed (leaving the snapshot flat), the file leverage is set, and the signal's direction is opened when it names one, with no other request; only the signal's direction is ever opened |
| EmaCross.RepeatIsIgnored | strategies/ema_cross.py:124-125 | processing the same signal for the same candle again does nothing |
| EmaCross.CrossSignalClosesThenReopens | strategies/ema_cross.py:127-147 | a crossing signal against a "bullish" position closes it, sets the leverage and reopens long |
| EmaCross.EmaCrossStrategy.constructor | strategies/ema_cross.py:21 | no last signal |
| EmaCross.EmaCrossStrategy.Execute | strategies/ema_cross.py:117-154 | state, actions and last signal follow the execute step, so it inherits its promises: nothing on a missing or repeated signal, otherwise close a mismatched position, set the leverage and open the signal's direction |
| Ema3m.GetEma | strategies/ema_3m.py:29-48 | the averages exactly when enough candles arrived |
| Ema3m.DefaultDetectionIsBullishOnly | strategies/ema_3m.py:105 | as written: the default detection never reports a downward crossing |
| Ema3m.DetectEitherCross | strategies/ema_3m.py:79-85 | corrected: "bullish_cross" or "bearish_cross" exactly on a strict crossing of that kind |
| Ema3m.LiveStep | strategies/ema_3m.py:88-127 | a new signal becomes the last one; a trade is called exactly when it is new, the 5-minute trend agrees and the close time can be read, in the signal's direction |
| Ema3m.LiveRun | strategies/ema_3m.py:88-127 | one trade decision per iteration |
| Ema3m.AsWrittenTradesAtMostOnce | strategies/ema_3m.py:105-121 | as written: the loop calls the strategy at most once, and only bullish |
| Ema3m.AsWrittenMissesLaterCrossings | strategies/ema_3m.py:105-121 | as written, an up, down, up sequence trades once; the corrected loop trades all three |
| Ema3m.CorrectedFollowsEveryNewCross | strategies/ema_3m.py:109-121 | corrected: a trade is called exactly when a crossing differs from the latest one seen and the trend agrees |
| Ema3m.LiveWatchLoop | strategies/ema_3m.py:78-127 | corrected: the loop's trades and last signal follow the live run in both directions |
| EmaTracker.TrackStep | strategies/ema_tracker.py:20-61 | a short or failed sample changes nothing; otherwise its relation becomes the last one and is reported exactly when it differs from a known previous one |
| EmaTracker.TrackRun | strategies/ema_tracker.py:20-61 | one report slot per iteration |
| EmaTracker.ReportsAreChanges | strategies/ema_tracker.py:33-60 | a sample is reported exactly when it is processed and its relation differs from the latest processed one before it; the first is never reported |
| EmaTracker.TrackLiveCrossing | strategies/ema_tracker.py:12-68 | the loop's reports and last relation follow the tracking run |

## Findings

| source | as written | input that shows it | evidently intended | confidence | as-written member | corrected member |
|---|---|---|---|---|---|---|
| core/trade_executor.py:123-128 | `open_trade` holds the non-reentrant `position_lock` and calls `close_position`, which takes the same lock | any auto-mode opening while a position is seen open | close the previous position, then open the new one | not executed | TradeExecutor.OpenWhileOpenDeadlocks | TradeExecutor.CloseThenReopen |
| core/trade_executor.py:171-172 | the minimum-notional bump rounds `minNotional / price` to the nearest step | price 0.31, step 1, minNotional 5: quantity 16, notional 4.96 | the least step multiple whose notional reaches minNotional | not executed | TradeExecutor.NotionalBumpFallsShort | TradeExecutor.NormalizeQuantity |
| strategies/ema_3m.py:105 | `detect_ema_cross(ema20, ema50)` keeps the default `bullish=True`, so only upward crossings are seen and the deduplication then blocks every later one | crossings up, down, up: one trade | trade every new crossing in either direction, as the loop's docstring says | not executed | Ema3m.AsWrittenMissesLaterCrossings | Ema3m.CorrectedFollowsEveryNewCross |

## Left out

- `core.state`, `core.trading_utils`, `core.trade_interface`, `core.trailing`, `core.telegram_controller`, `core.config` and `utils` are not part of this model. `reset_all` is taken to leave the flat state written out at core/bot.py:172-176. `retry_order` inside the order engine is taken to behave like core/bot.py:404-413.
- Threads, the stop event and `position_lock` are not modelled as concurrency. The entry points run one at a time. The lock is modelled only as a flag, to show the self-deadlock of Finding 1.
- Sleeps, the Telegram messages, logging, `log_error`, `log_trade`, the CSV signal log, `log_system_usage`, `gc.collect` and the status, stop, mode and manual-close files stay outside the model. The file reads become inputs, and a message is recorded only as the fact that it was sent.
- The clock is a parameter of the cooldown. `sync_time`, `sync_windows_time` and `check_futures_permissions` are left out, because they only compare clocks or read permissions and then log.
- `run_bot`'s lock file and process scan, `launch_bot` and `stop_bot` are left out: they are process management. The leverage change at `run_bot`'s start is left out too; it is the same call as `BinanceClient.ChangeLeverage`.
- The watchdog threads `sltp_watchdog_loop` and `leverage_watchdog_loop` are left out as loops. Their bodies are `CancelAllOpenOrdersIfNoPosition` and `CheckAndUpdateLeverage`.
- Moving averages, the ATR, `detect_support_resistance`, `detect_supports_resistances_multi` and the `log10` precision are computed by pandas, `ta` and NumPy. They are inputs of the model.
- Floating point is modelled as exact reals. Python's half-to-even `round` is modelled as rounding half up, and the final 8-decimal clean-up of `round_to_tick` is dropped.
- NaN comparisons of pandas averages are not modelled.
- `str.upper` is modelled on ASCII letters only.
- The names that `strategies/ema_3m.py` uses without defining them (`get_ema_values`, `interval`) and the undefined `can_send_telegram` in `strategies/ema_tracker.py` (including its use inside the `except`) would raise at run time. The model follows the evident logic instead of those crashes.
- `ema_live_watch_loop` and `start_ema_5m_loop` in `strategies/ema_cross.py` (lines 156-202), with its hourly ping, are left out. Their per-iteration logic is that of `Ema3m.LiveStep` and `EmaCross.ExecuteStep`.
- `open_trade` and `close_position` as called from the strategies go through the trade interface, which is not part of this model. They are recorded as `EmaCross.Action`s. The strategy snapshot is not changed by an opening, and `set_leverage_if_needed` swallows its errors.
- The notification inside `detect_ema_cross` is modelled only in `EmaCross.DetectAndNotify`. The other detectors return the signal alone.
- In the `ema4.py` main loop, an IndexError on short frames is modelled as an `IterationFailed` alert after the volatility check. The empty-frame case inside that check is not modelled.
- `get_klines_securise`'s sleeps are left out.
- One `MarketOrder` request is recorded per retried placement, not one per attempt.
- `TradeExecutor.SaneMarket` and `TradeExecutor.SaneTick` are assumptions about the exchange's answers: a positive price and tick, and positive filters.
- `last_detected_tp` and `last_detected_sl` in `monitor_position` are written but never read, so they are not modelled.
- A crashed iteration of `run_bot`'s loop is taken to raise after its manual-close step.
- TradeExecutor.NormalizeQuantityAsWritten: the nearest-step bounds are stated only when the quantity grid fits (`FitsQuantityGrid`). On ALGOUSDT with a step off the one-decimal grid, the re-rounding moves the bump off the step grid.
- TradeExecutor.NormalizeQuantity: minQty and minNotional are guaranteed only when the quantity grid fits (`FitsQuantityGrid`). Otherwise ALGOUSDT's re-rounding to one decimal can undo the bump.
- TradeExecutor.OrderStage: the opening quantity is the corrected ceiling bump of Finding 2 (`TradeExecutor.NormalizeQuantity`), where core/trade_executor.py:171-173 rounds `minNotional / price` to the nearest step; the code's quantity is `TradeExecutor.NormalizeQuantityAsWritten`.
- TradeExecutor.OpenFrom: opens with the corrected ceiling-bump quantity of Finding 2, not the code's nearest-step bump (core/trade_executor.py:171-173).
- TradeExecutor.CloseFirst: opens with the corrected ceiling-bump quantity of Finding 2, not the code's nearest-step bump (core/trade_executor.py:171-173).
- TradeExecutor.OpenTradeStep: opens with the corrected ceiling-bump quantity of Finding 2, not the code's nearest-step bump (core/trade_executor.py:171-173).
- TradeExecutor.OpenFromState: opens with the corrected ceiling-bump quantity of Finding 2, not the code's nearest-step bump (core/trade_executor.py:171-173).
- TradeExecutor.PlaceEntryOrder: places the corrected ceiling-bump quantity of Finding 2, not the code's nearest-step bump (core/trade_executor.py:171-173).
- TradeExecutor.OpenTrade: opens with the corrected ceiling-bump quantity of Finding 2, not the code's nearest-step bump (core/trade_executor.py:171-173). It is also the corrected opening, which closes the previous position without re-taking the lock. The as-written deadlock is stated separately by `TradeExecutor.OpenWhileOpenDeadlocks`.
- Ema3m.LiveWatchLoop: this is the corrected loop, detecting both directions. The as-written default detection is stated separately by `Ema3m.AsWrittenTradesAtMostOnce`.
