/**
 * The order and position engine of core/trade_executor.py: quantity
 * rounding and normalisation, the retry helpers, the leverage correction,
 * the initial stop-loss/take-profit pass, the orphan-order cleanup, and
 * the close and open paths that write the shared position state.
 */
module TradeExecutor {
  import opened Wrappers
  import opened Attempts
  import opened Exchange
  import opened Rounding
  import opened Protection
  import opened BotConfig
  import opened State
  import opened PositionUtils
  import BinanceClient

  // ---------------------------------------------------------------------
  // Quantity rounding
  // ---------------------------------------------------------------------

  const ALGO_SYMBOL: string := "ALGOUSDT"

  /** The grid of `round(qty, 1)`. */
  const ONE_DECIMAL: real := 0.1

  function UpperChar(c: char): (u: char)
    ensures 'a' <= c <= 'z' ==> u as int == c as int - 32
    ensures !('a' <= c <= 'z') ==> u == c
  {
    if 'a' <= c <= 'z' then (c as int - 32) as char else c
  }

  /** `str.upper()` on ASCII letters. */
  function AsciiUpper(s: string): (r: string)
    ensures |r| == |s|
    ensures forall i :: 0 <= i < |s| ==> r[i] == UpperChar(s[i])
  {
    if s == [] then [] else [UpperChar(s[0])] + AsciiUpper(s[1..])
  }

  predicate IsAlgoSymbol(symbol: string)
  {
    AsciiUpper(symbol) == ALGO_SYMBOL
  }

  /**
   * `round_quantity`: one decimal for ALGOUSDT (whatever the letter case),
   * the quantity unchanged for every other symbol.
   */
  function RoundQuantity(symbol: string, qty: real): (r: real)
    ensures IsAlgoSymbol(symbol) ==> IsMultiple(r, ONE_DECIMAL) && qty - ONE_DECIMAL / 2.0 < r <= qty + ONE_DECIMAL / 2.0
    ensures !IsAlgoSymbol(symbol) ==> r == qty
  {
    if IsAlgoSymbol(symbol) then RoundToTick(qty, ONE_DECIMAL) else qty
  }

  /** Rounding an already rounded quantity changes nothing. */
  lemma RoundQuantityIdempotent(symbol: string, qty: real)
    ensures RoundQuantity(symbol, RoundQuantity(symbol, qty)) == RoundQuantity(symbol, qty)
  {
    if IsAlgoSymbol(symbol) {
      RoundToTickIdempotent(qty, ONE_DECIMAL);
    }
  }

  // ---------------------------------------------------------------------
  // Retry helpers
  // ---------------------------------------------------------------------

  /** What `raise None` raises when the loop ran zero times. */
  const RAISE_NONE_ERROR: Error := "exceptions must derive from BaseException"

  /** The exception raised for a ticker answer without a "price" field. */
  const MISSING_PRICE_ERROR: Error := "Prix non trouvé dans la réponse de Binance"

  const PRICE_RETRIES: nat := 3
  const ORDER_RETRIES: nat := 3

  /**
   * The outcome of a "try up to n times, then re-raise the last exception"
   * loop: the value of the first successful attempt, else the last
   * attempt's error, else (no attempt at all) the error of `raise None`.
   */
  function Retried<T>(op: nat -> Attempt<T>, n: nat): (r: Attempt<T>)
    ensures r.Ok? <==> exists i :: 0 <= i < n && op(i).Ok?
    ensures r.Ok? ==> exists i :: 0 <= i < n && op(i) == r && forall j :: 0 <= j < i ==> op(j).Fail?
    ensures r.Fail? && n > 0 ==> r == op(n - 1)
    ensures n == 0 ==> r == Fail(RAISE_NONE_ERROR)
  {
    match FirstOk(op, n)
    case Some(i) => op(i)
    case None => if n == 0 then Fail(RAISE_NONE_ERROR) else op(n - 1)
  }

  /**
   * `retry_order_creation(order_fn, max_retries)`: at most `maxRetries`
   * calls, a sleep after every failed call but the last, and the last
   * exception re-raised.
   */
  method RetryOrderCreation<T>(op: nat -> Attempt<T>, maxRetries: nat) returns (r: Attempt<T>, calls: nat, sleeps: nat)
    ensures r == Retried(op, maxRetries)
    ensures calls <= maxRetries
    ensures r.Ok? ==> calls >= 1 && op(calls - 1) == r && calls == FirstOk(op, maxRetries).value + 1
    ensures r.Fail? ==> calls == maxRetries
    ensures sleeps == if calls == 0 then 0 else calls - 1
  {
    var lastException: Option<Error> := None;
    calls, sleeps := 0, 0;
    var i := 0;
    while i < maxRetries
      invariant 0 <= i <= maxRetries
      invariant calls == i
      invariant sleeps == if i == maxRetries && i > 0 then i - 1 else i
      invariant forall j :: 0 <= j < i ==> op(j).Fail?
      invariant lastException == if i == 0 then None else Some(op(i - 1).error)
    {
      calls := calls + 1;
      match op(i)
      case Ok(v) =>
        r := Ok(v);
        assert FirstOk(op, maxRetries) == Some(i) by {
          FirstOkIsLeast(op, maxRetries, i);
        }
        return;
      case Fail(e) =>
        lastException := Some(e);
        if i < maxRetries - 1 {
          sleeps := sleeps + 1;
        }
      i := i + 1;
    }
    r := if lastException.Some? then Fail(lastException.value) else Fail(RAISE_NONE_ERROR);
  }

  /**
   * One call of `client.get_symbol_ticker`: an answer without a price
   * (`None` here) is turned into an exception like a network failure.
   */
  function PriceOp(ticker: nat -> Attempt<Option<real>>): (op: nat -> Attempt<real>)
  {
    (i: nat) =>
      match ticker(i)
      case Fail(e) => Fail(e)
      case Ok(None) => Fail(MISSING_PRICE_ERROR)
      case Ok(Some(p)) => Ok(p)
  }

  /**
   * `get_price_with_retry`: the price of the first attempt whose answer
   * carries a price; an answer without one is a failed attempt.
   */
  method GetPriceWithRetry(ticker: nat -> Attempt<Option<real>>, retries: nat) returns (r: Attempt<real>, calls: nat)
    ensures r == Retried(PriceOp(ticker), retries)
    ensures r.Ok? <==> exists i :: 0 <= i < retries && ticker(i).Ok? && ticker(i).value.Some?
    ensures r.Ok? ==> exists i :: 0 <= i < retries && ticker(i) == Ok(Some(r.value))
    ensures calls <= retries
  {
    var sleeps;
    r, calls, sleeps := RetryOrderCreation(PriceOp(ticker), retries);
    PriceRetriedMeaning(ticker, retries);
  }

  lemma PriceRetriedMeaning(ticker: nat -> Attempt<Option<real>>, retries: nat)
    ensures var r := Retried(PriceOp(ticker), retries);
            (r.Ok? <==> exists i :: 0 <= i < retries && ticker(i).Ok? && ticker(i).value.Some?) &&
            (r.Ok? ==> exists i :: 0 <= i < retries && ticker(i) == Ok(Some(r.value)))
  {
    var op := PriceOp(ticker);
    var r := Retried(op, retries);
    assert forall i :: op(i).Ok? <==> ticker(i).Ok? && ticker(i).value.Some?;
    if r.Ok? {
      var i :| 0 <= i < retries && op(i) == r && forall j :: 0 <= j < i ==> op(j).Fail?;
      assert ticker(i) == Ok(Some(r.value));
    }
  }

  // ---------------------------------------------------------------------
  // Leverage correction
  // ---------------------------------------------------------------------

  /**
   * `get_real_leverage`: the leverage of the first open entry; without an
   * open entry, the `initialLeverage` of the first bracket; `None` when a
   * query fails or there is no bracket.
   */
  function GetRealLeverage(info: Attempt<seq<Position>>, brackets: Attempt<seq<int>>): (r: Option<int>)
    ensures info.Fail? ==> r.None?
    ensures info.Ok? && (exists i :: 0 <= i < |info.value| && IsOpen(info.value[i])) ==>
              exists i :: 0 <= i < |info.value| && IsOpen(info.value[i]) && r == Some(info.value[i].leverage) &&
                forall j :: 0 <= j < i ==> !IsOpen(info.value[j])
    ensures info.Ok? && (forall i :: 0 <= i < |info.value| ==> !IsOpen(info.value[i])) ==>
              (r.Some? <==> brackets.Ok? && |brackets.value| > 0) &&
              (r.Some? ==> r.value == brackets.value[0])
  {
    match info
    case Fail(_) => None
    case Ok(ps) =>
      match FirstOpenIndex(ps)
      case Some(i) => Some(ps[i].leverage)
      case None =>
        if brackets.Ok? && |brackets.value| > 0 then Some(brackets.value[0]) else None
  }

  datatype LeverageOutcome = LeverageUnchanged | LeverageCorrected(from: int, to: int) | LeverageError(error: Error)

  datatype LeverageCheck = LeverageCheck(requests: seq<Request>, outcome: LeverageOutcome)

  /**
   * `check_and_update_leverage`: the leverage is changed to the file value
   * only when the real leverage is known and differs from it; a failing
   * file read or change call is reported, never raised.
   */
  function CheckAndUpdateLeverage(fileLeverage: Attempt<int>, info: Attempt<seq<Position>>, brackets: Attempt<seq<int>>, change: Attempt<()>): (r: LeverageCheck)
    ensures r.requests != [] <==>
              fileLeverage.Ok? && GetRealLeverage(info, brackets).Some? && GetRealLeverage(info, brackets).value != fileLeverage.value
    ensures r.requests != [] ==> r.requests == [ChangeLeverage(fileLeverage.value)]
    ensures r.outcome.LeverageCorrected? <==> r.requests != [] && change.Ok?
    ensures r.outcome.LeverageCorrected? ==>
              r.outcome.from == GetRealLeverage(info, brackets).value && r.outcome.to == fileLeverage.value && r.outcome.from != r.outcome.to
    ensures r.outcome.LeverageError? <==> fileLeverage.Fail? || (r.requests != [] && change.Fail?)
  {
    match fileLeverage
    case Fail(e) => LeverageCheck([], LeverageError(e))
    case Ok(levFile) =>
      var levReal := GetRealLeverage(info, brackets);
      if levReal.Some? && levReal.value != levFile then
        if change.Ok? then LeverageCheck([ChangeLeverage(levFile)], LeverageCorrected(levReal.value, levFile))
        else LeverageCheck([ChangeLeverage(levFile)], LeverageError(change.error))
      else LeverageCheck([], LeverageUnchanged)
  }

  /** A second check right after a successful correction changes nothing. */
  lemma CorrectionIsStable(fileLeverage: Attempt<int>, ps: seq<Position>, i: nat, brackets: Attempt<seq<int>>, change: Attempt<()>)
    requires fileLeverage.Ok? && i < |ps| && IsOpen(ps[i]) && forall j :: 0 <= j < i ==> !IsOpen(ps[j])
    requires ps[i].leverage == fileLeverage.value
    ensures CheckAndUpdateLeverage(fileLeverage, Ok(ps), brackets, change) == LeverageCheck([], LeverageUnchanged)
  {
    FirstOpenIsLeast(ps, i);
  }

  // ---------------------------------------------------------------------
  // Quantity normalisation against the exchange filters
  // ---------------------------------------------------------------------

  /** `round_quantity(symbol, position_value / price)`, then raised to `minQty`. */
  function AtLeastMinQty(symbol: string, positionValue: real, price: real, f: LotFilters): (q: real)
    requires price > 0.0
    ensures q >= f.minQty
    ensures RoundQuantity(symbol, positionValue / price) >= f.minQty ==> q == RoundQuantity(symbol, positionValue / price)
  {
    var q0 := RoundQuantity(symbol, positionValue / price);
    if q0 < f.minQty then f.minQty else q0
  }

  /** The notional test of core/trade_executor.py:169 asks for a bump. */
  predicate NeedsNotionalBump(symbol: string, positionValue: real, price: real, f: LotFilters)
    requires price > 0.0
  {
    AtLeastMinQty(symbol, positionValue, price, f) * price < f.minNotional
  }

  /**
   * The quantity normalisation of core/trade_executor.py:156-174 as
   * written: the bump goes to the NEAREST multiple of `stepSize`, which can
   * lie up to half a step below `minNotional / price`.
   */
  function NormalizeQuantityAsWritten(symbol: string, positionValue: real, price: real, f: LotFilters): (q: real)
    requires price > 0.0 && f.stepSize > 0.0
    ensures !NeedsNotionalBump(symbol, positionValue, price, f) ==> q >= f.minQty && q * price >= f.minNotional
    ensures NeedsNotionalBump(symbol, positionValue, price, f) && FitsQuantityGrid(symbol, f) ==>
              IsMultiple(q, f.stepSize) && f.minNotional / price - f.stepSize / 2.0 < q <= f.minNotional / price + f.stepSize / 2.0
  {
    if NeedsNotionalBump(symbol, positionValue, price, f) then NearestBump(symbol, price, f)
    else AtLeastMinQty(symbol, positionValue, price, f)
  }

  /**
   * The bump of core/trade_executor.py:172-173 as written: the multiple of
   * `stepSize` nearest to `minNotional / price`, then `round_quantity`.
   */
  function NearestBump(symbol: string, price: real, f: LotFilters): (q: real)
    requires price > 0.0 && f.stepSize > 0.0
    ensures FitsQuantityGrid(symbol, f) ==>
              IsMultiple(q, f.stepSize) && f.minNotional / price - f.stepSize / 2.0 < q <= f.minNotional / price + f.stepSize / 2.0
  {
    var up := RoundToTick(f.minNotional / price, f.stepSize);
    StepGridFitsOneDecimal(up, f.stepSize);
    RoundQuantity(symbol, up)
  }

  /**
   * With price 0.31, `minNotional` 5 and `stepSize` 1, the bumped quantity
   * is 16 and its notional value 4.96 stays below 5.
   */
  lemma NotionalBumpFallsShort()
    ensures NormalizeQuantityAsWritten("DOGEUSDT", 1.0, 0.31, LotFilters(1.0, 1.0, 5.0)) == 16.0
    ensures 16.0 * 0.31 < 5.0
  {
    assert !IsAlgoSymbol("DOGEUSDT") by {
      assert AsciiUpper("DOGEUSDT")[0] == UpperChar('D') == 'D';
    }
    var f := LotFilters(1.0, 1.0, 5.0);
    assert AtLeastMinQty("DOGEUSDT", 1.0, 0.31, f) == 1.0 / 0.31;
    assert (1.0 / 0.31 >= 1.0);
    assert 5.0 / 0.31 / 1.0 + 0.5 == 1031.0 / 62.0;
    assert (1031.0 / 62.0).Floor == 16;
  }

  /**
   * The step grid is compatible with `round_quantity`: always for symbols
   * other than ALGOUSDT, and for ALGOUSDT when the step lies on its
   * one-decimal grid.
   */
  ghost predicate FitsQuantityGrid(symbol: string, f: LotFilters)
  {
    !IsAlgoSymbol(symbol) || IsMultiple(f.stepSize, ONE_DECIMAL)
  }

  /**
   * The normalisation with the bump rounded UP to the step grid: when the
   * grids fit, the result meets both `minQty` and `minNotional` and is the
   * least multiple of the step that meets `minNotional`.
   */
  function NormalizeQuantity(symbol: string, positionValue: real, price: real, f: LotFilters): (q: real)
    requires price > 0.0 && f.stepSize > 0.0
    ensures FitsQuantityGrid(symbol, f) ==> q >= f.minQty && q * price >= f.minNotional
    ensures NeedsNotionalBump(symbol, positionValue, price, f) && FitsQuantityGrid(symbol, f) ==>
              IsMultiple(q, f.stepSize) && f.minNotional / price <= q < f.minNotional / price + f.stepSize
  {
    BumpFrom(symbol, AtLeastMinQty(symbol, positionValue, price, f), price, f)
  }

  /** The bump test and the corrected bump applied to a quantity `q1` that meets `minQty`. */
  function BumpFrom(symbol: string, q1: real, price: real, f: LotFilters): (q: real)
    requires price > 0.0 && f.stepSize > 0.0 && q1 >= f.minQty
    ensures q1 * price >= f.minNotional ==> q == q1
    ensures FitsQuantityGrid(symbol, f) ==> q >= f.minQty && q * price >= f.minNotional
    ensures q1 * price < f.minNotional && FitsQuantityGrid(symbol, f) ==>
              IsMultiple(q, f.stepSize) && f.minNotional / price <= q < f.minNotional / price + f.stepSize
  {
    if q1 * price < f.minNotional then
      var b := BumpQuantity(symbol, price, f);
      BumpMeetsNotional(q1, b, price, f);
      b
    else
      q1
  }

  /** Without a bump the normalisation keeps the quantity raised to `minQty`. */
  lemma NormalizeQuantityWithoutBump(symbol: string, positionValue: real, price: real, f: LotFilters)
    requires price > 0.0 && f.stepSize > 0.0
    requires !NeedsNotionalBump(symbol, positionValue, price, f)
    ensures NormalizeQuantity(symbol, positionValue, price, f) == AtLeastMinQty(symbol, positionValue, price, f)
  {
  }

  /**
   * The corrected bump alone: `minNotional / price` rounded up to the step
   * grid, then through `round_quantity`, which leaves it on the grid when
   * the grids fit.
   */
  function BumpQuantity(symbol: string, price: real, f: LotFilters): (q: real)
    requires price > 0.0 && f.stepSize > 0.0
    ensures FitsQuantityGrid(symbol, f) ==>
              IsMultiple(q, f.stepSize) && f.minNotional / price <= q < f.minNotional / price + f.stepSize
  {
    var up := CeilToStep(f.minNotional / price, f.stepSize);
    StepGridFitsOneDecimal(up, f.stepSize);
    RoundQuantity(symbol, up)
  }

  /** A multiple of a step that lies on the one-decimal grid is left alone by `round(qty, 1)`. */
  lemma StepGridFitsOneDecimal(up: real, step: real)
    requires step > 0.0 && IsMultiple(up, step)
    ensures IsMultiple(step, ONE_DECIMAL) ==> RoundToTick(up, ONE_DECIMAL) == up
  {
    if IsMultiple(step, ONE_DECIMAL) {
      var k :| Steps(k, step) == up;
      MultipleOfMultiple(k, step, ONE_DECIMAL);
      RoundToTickFixesMultiples(up, ONE_DECIMAL);
    }
  }

  lemma BumpMeetsNotional(q1: real, up: real, price: real, f: LotFilters)
    requires price > 0.0 && q1 >= f.minQty && q1 * price < f.minNotional
    ensures up >= f.minNotional / price ==> up >= f.minQty && up * price >= f.minNotional
  {
    if up >= f.minNotional / price {
      MulLe(f.minNotional / price, up, price);
      DivMulCancel(f.minNotional, price);
      MulLtCancel(q1, f.minNotional / price, price);
    }
  }

  // ---------------------------------------------------------------------
  // Initial stop-loss / take-profit
  // ---------------------------------------------------------------------

  /** The exchange answers read by `set_initial_sl_tp`. */
  datatype SlTpInputs = SlTpInputs(
    positions: Attempt<seq<Position>>,
    tickSize: Attempt<real>,
    openOrders: Attempt<seq<Order>>,
    verifyOrders: Attempt<seq<Order>>)

  /** The exchange's tick size is positive. */
  predicate SaneTick(inp: SlTpInputs)
  {
    inp.tickSize.Ok? ==> inp.tickSize.value > 0.0
  }

  /** The placements made, the "not created correctly" warning, and the error reported. */
  datatype SlTpReport = SlTpReport(requests: seq<Request>, warned: bool, error: Option<Error>)

  /** The entry price of the first open entry, else the given fallback. */
  function RealEntry(ps: seq<Position>, fallback: real): real
  {
    match FirstOpenIndex(ps)
    case Some(i) => ps[i].entryPrice
    case None => fallback
  }

  function ProtectiveStop(direction: string, entry: real, tick: real, cfg: Config): real
    requires tick > 0.0
  {
    RoundToTick(StopLossPrice(entry, direction == BULLISH, cfg.stopLossPct), tick)
  }

  function ProtectiveTakeProfit(direction: string, entry: real, tick: real, cfg: Config): real
    requires tick > 0.0
  {
    RoundToTick(TakeProfitPrice(entry, direction == BULLISH, cfg.takeProfitPct), tick)
  }

  /** The placement of one protective order, unless a matching one already exists. */
  function PlaceIfMissing(orders: seq<Order>, t: OrderType, sideClose: Side, price: real): seq<Request>
  {
    if HasClosingOrder(orders, t, sideClose) then [] else [ProtectiveOrder(sideClose, t, price)]
  }

  /** The first three queries of the pass succeeded. */
  predicate SlTpQueriesOk(inp: SlTpInputs)
  {
    inp.positions.Ok? && inp.tickSize.Ok? && inp.openOrders.Ok?
  }

  predicate PlacesType(requests: seq<Request>, t: OrderType)
  {
    exists k :: 0 <= k < |requests| && requests[k].ProtectiveOrder? && requests[k].orderType == t
  }

  /**
   * `set_initial_sl_tp`: a STOP_MARKET (then a TAKE_PROFIT_MARKET) closing
   * order is placed, on the side opposite to the entry, exactly when no
   * open order of that type with that side and `closePosition` exists; the
   * trigger is computed from the exchange's entry price (or the given
   * entry) and rounded to the tick. Nothing raises: a failed query is
   * reported as an error.
   */
  function SetInitialSlTp(direction: string, entry: real, inp: SlTpInputs, cfg: Config): (r: SlTpReport)
    requires SaneTick(inp)
    ensures !SlTpQueriesOk(inp) ==> r.requests == [] && r.error.Some? && !r.warned
    ensures |r.requests| <= 2
    ensures forall k :: 0 <= k < |r.requests| ==> r.requests[k].ProtectiveOrder? && r.requests[k].side == CloseSide(direction)
    ensures PlacesType(r.requests, StopMarket) <==>
              SlTpQueriesOk(inp) && !HasClosingOrder(inp.openOrders.value, StopMarket, CloseSide(direction))
    ensures PlacesType(r.requests, TakeProfitMarket) <==>
              SlTpQueriesOk(inp) && !HasClosingOrder(inp.openOrders.value, TakeProfitMarket, CloseSide(direction))
    ensures forall k :: 0 <= k < |r.requests| ==>
              r.requests[k].orderType == StopMarket || r.requests[k].orderType == TakeProfitMarket
    ensures SlTpQueriesOk(inp) ==> forall k :: 0 <= k < |r.requests| ==>
              var e := RealEntry(inp.positions.value, entry);
              r.requests[k].stopPrice ==
                if r.requests[k].orderType == StopMarket then ProtectiveStop(direction, e, inp.tickSize.value, cfg)
                else ProtectiveTakeProfit(direction, e, inp.tickSize.value, cfg)
    ensures |r.requests| == 2 ==> r.requests[0].orderType == StopMarket && r.requests[1].orderType == TakeProfitMarket
    ensures r.warned <==>
              SlTpQueriesOk(inp) && inp.verifyOrders.Ok? &&
              !(HasOrderOfType(inp.verifyOrders.value, StopMarket) && HasOrderOfType(inp.verifyOrders.value, TakeProfitMarket))
    ensures r.error.Some? <==> !SlTpQueriesOk(inp) || inp.verifyOrders.Fail?
  {
    if inp.positions.Fail? then SlTpReport([], false, Some(inp.positions.error))
    else if inp.tickSize.Fail? then SlTpReport([], false, Some(inp.tickSize.error))
    else if inp.openOrders.Fail? then SlTpReport([], false, Some(inp.openOrders.error))
    else
      var sideClose := CloseSide(direction);
      var e := RealEntry(inp.positions.value, entry);
      var tick := inp.tickSize.value;
      var orders := inp.openOrders.value;
      var sl := PlaceIfMissing(orders, StopMarket, sideClose, ProtectiveStop(direction, e, tick, cfg));
      var tp := PlaceIfMissing(orders, TakeProfitMarket, sideClose, ProtectiveTakeProfit(direction, e, tick, cfg));
      var requests := sl + tp;
      PlacedPair(orders, sideClose, ProtectiveStop(direction, e, tick, cfg), ProtectiveTakeProfit(direction, e, tick, cfg));
      match inp.verifyOrders
      case Fail(err) => SlTpReport(requests, false, Some(err))
      case Ok(v) =>
        SlTpReport(requests, !(HasOrderOfType(v, StopMarket) && HasOrderOfType(v, TakeProfitMarket)), None)
  }

  /**
   * The stop then the take-profit, each placed only when missing: at most
   * two closing requests of those two types, in that order, each with its
   * own trigger price.
   */
  lemma PlacedPair(orders: seq<Order>, sideClose: Side, slPrice: real, tpPrice: real)
    ensures var requests := PlaceIfMissing(orders, StopMarket, sideClose, slPrice) +
                            PlaceIfMissing(orders, TakeProfitMarket, sideClose, tpPrice);
      |requests| <= 2 &&
      (forall k :: 0 <= k < |requests| ==> requests[k].ProtectiveOrder? && requests[k].side == sideClose) &&
      (PlacesType(requests, StopMarket) <==> !HasClosingOrder(orders, StopMarket, sideClose)) &&
      (PlacesType(requests, TakeProfitMarket) <==> !HasClosingOrder(orders, TakeProfitMarket, sideClose)) &&
      (forall k :: 0 <= k < |requests| ==>
         requests[k].orderType == StopMarket || requests[k].orderType == TakeProfitMarket) &&
      (forall k :: 0 <= k < |requests| ==>
         requests[k].stopPrice == if requests[k].orderType == StopMarket then slPrice else tpPrice) &&
      (|requests| == 2 ==> requests[0].orderType == StopMarket && requests[1].orderType == TakeProfitMarket)
  {
    var sl := PlaceIfMissing(orders, StopMarket, sideClose, slPrice);
    var tp := PlaceIfMissing(orders, TakeProfitMarket, sideClose, tpPrice);
    var requests := sl + tp;
    assert PlacesType(requests, StopMarket) ==> sl != [] by {
      if PlacesType(requests, StopMarket) {
        var k :| 0 <= k < |requests| && requests[k].ProtectiveOrder? && requests[k].orderType == StopMarket;
      }
    }
    assert PlacesType(requests, TakeProfitMarket) ==> tp != [] by {
      if PlacesType(requests, TakeProfitMarket) {
        var k :| 0 <= k < |requests| && requests[k].ProtectiveOrder? && requests[k].orderType == TakeProfitMarket;
      }
    }
    assert sl != [] ==> requests[0] == sl[0];
    assert tp != [] ==> requests[|sl|] == tp[0];
  }

  /** The open order the exchange lists once a protective request was accepted. */
  predicate ListedFor(orders: seq<Order>, q: Request)
  {
    q.ProtectiveOrder? && exists o :: o in orders && IsClosingOrder(o, q.orderType, q.side)
  }

  /**
   * Once every placed order is listed and the earlier orders are still
   * there, a second pass for the same direction places nothing.
   */
  lemma SecondPassPlacesNothing(direction: string, entry: real, inp: SlTpInputs, inp2: SlTpInputs, cfg: Config)
    requires SaneTick(inp) && SaneTick(inp2) && SlTpQueriesOk(inp) && SlTpQueriesOk(inp2)
    requires forall o :: o in inp.openOrders.value ==> o in inp2.openOrders.value
    requires forall k :: 0 <= k < |SetInitialSlTp(direction, entry, inp, cfg).requests| ==>
               ListedFor(inp2.openOrders.value, SetInitialSlTp(direction, entry, inp, cfg).requests[k])
    ensures SetInitialSlTp(direction, entry, inp2, cfg).requests == []
  {
    var side := CloseSide(direction);
    var r1 := SetInitialSlTp(direction, entry, inp, cfg);
    var o1, o2 := inp.openOrders.value, inp2.openOrders.value;
    forall t | t == StopMarket || t == TakeProfitMarket
      ensures HasClosingOrder(o2, t, side)
    {
      if HasClosingOrder(o1, t, side) {
        var c := ClosingOrders(o1, t, side);
        assert c[0] in c;
        assert c[0] in o2;
        assert c[0] in ClosingOrders(o2, t, side);
      } else {
        assert PlacesType(r1.requests, t);
        var k :| 0 <= k < |r1.requests| && r1.requests[k].ProtectiveOrder? && r1.requests[k].orderType == t;
        assert ListedFor(o2, r1.requests[k]);
        var o :| o in o2 && IsClosingOrder(o, t, side);
        assert o in ClosingOrders(o2, t, side);
      }
    }
    var r2 := SetInitialSlTp(direction, entry, inp2, cfg);
    if |r2.requests| > 0 {
      assert r2.requests[0].ProtectiveOrder?;
      assert PlacesType(r2.requests, r2.requests[0].orderType);
    }
  }

  // ---------------------------------------------------------------------
  // Orphan-order cleanup
  // ---------------------------------------------------------------------

  /** The marker of "unknown order" answers: the order was already cancelled or filled. */
  const ALREADY_GONE_CODE: string := "code=-2011"

  /** The exchange answers read by `cancel_all_open_orders_if_no_position`; `cancel(k)` answers the cancel of the k-th open order. */
  datatype CancelInputs = CancelInputs(
    positions: Attempt<seq<Position>>,
    openOrders: Attempt<seq<Order>>,
    cancel: nat -> Attempt<()>)

  predicate IsProtectiveType(t: OrderType)
  {
    t == StopMarket || t == TakeProfitMarket
  }

  predicate AlreadyGone(e: Error)
  {
    Contains(e, ALREADY_GONE_CODE)
  }

  /** The indices of the orders whose cancel was requested, the successes counted, and the error that stopped the loop. */
  datatype CancelProgress = CancelProgress(tried: seq<nat>, cancelled: nat, aborted: Option<Error>)

  /** The state of the cancel loop after it considered the first `n` orders. */
  function CancelUpTo(orders: seq<Order>, cancel: nat -> Attempt<()>, n: nat): CancelProgress
    requires n <= |orders|
  {
    if n == 0 then CancelProgress([], 0, None)
    else
      var p := CancelUpTo(orders, cancel, n - 1);
      if p.aborted.Some? || !IsProtectiveType(orders[n - 1].orderType) then p
      else
        match cancel(n - 1)
        case Ok(_) => CancelProgress(p.tried + [n - 1], p.cancelled + 1, None)
        case Fail(e) =>
          if AlreadyGone(e) then CancelProgress(p.tried + [n - 1], p.cancelled, None)
          else CancelProgress(p.tried + [n - 1], p.cancelled, Some(e))
  }

  /**
   * The loop only ever tries protective orders, in increasing order, each
   * once; a success is counted, an "already gone" failure is not, and any
   * other failure is the last try.
   */
  lemma {:induction false} CancelUpToSound(orders: seq<Order>, cancel: nat -> Attempt<()>, n: nat)
    requires n <= |orders|
    ensures var p := CancelUpTo(orders, cancel, n);
            (forall k :: 0 <= k < |p.tried| ==> p.tried[k] < n && IsProtectiveType(orders[p.tried[k]].orderType)) &&
            (forall k, l :: 0 <= k < l < |p.tried| ==> p.tried[k] < p.tried[l]) &&
            p.cancelled <= |p.tried| &&
            (p.aborted.None? ==> forall k :: 0 <= k < |p.tried| ==>
               cancel(p.tried[k]).Ok? || AlreadyGone(cancel(p.tried[k]).error)) &&
            (p.aborted.Some? ==>
               |p.tried| > 0 && cancel(p.tried[|p.tried| - 1]) == Fail(p.aborted.value) && !AlreadyGone(p.aborted.value))
  {
    if n > 0 {
      CancelUpToSound(orders, cancel, n - 1);
    }
  }

  /** Without an abort, every protective order among the first `n` was tried. */
  lemma {:induction false} CancelUpToComplete(orders: seq<Order>, cancel: nat -> Attempt<()>, n: nat)
    requires n <= |orders|
    ensures var p := CancelUpTo(orders, cancel, n);
            p.aborted.None? ==> forall j :: 0 <= j < n && IsProtectiveType(orders[j].orderType) ==> j in p.tried
  {
    if n > 0 {
      CancelUpToComplete(orders, cancel, n - 1);
      var p := CancelUpTo(orders, cancel, n - 1);
      if p.aborted.Some? {
        CancelUpToStaysAborted(orders, cancel, n - 1, n);
      }
    }
  }

  /** Once the loop aborted, later orders change nothing. */
  lemma {:induction false} CancelUpToStaysAborted(orders: seq<Order>, cancel: nat -> Attempt<()>, i: nat, m: nat)
    requires i <= m <= |orders| && CancelUpTo(orders, cancel, i).aborted.Some?
    ensures CancelUpTo(orders, cancel, m) == CancelUpTo(orders, cancel, i)
    decreases m - i
  {
    if i < m {
      CancelUpToStaysAborted(orders, cancel, i, m - 1);
    }
  }

  /** What a cleanup pass did: the cancels requested, the count, the error reported, and the count notification. */
  datatype CancelReport = CancelReport(requests: seq<Request>, cancelled: nat, error: Option<Error>, notified: bool)

  function CancelRequests(orders: seq<Order>, tried: seq<nat>): (r: seq<Request>)
    requires forall k :: 0 <= k < |tried| ==> tried[k] < |orders|
    ensures |r| == |tried|
    ensures forall k :: 0 <= k < |tried| ==> r[k] == CancelOrder(orders[tried[k]].orderId)
  {
    if tried == [] then [] else [CancelOrder(orders[tried[0]].orderId)] + CancelRequests(orders, tried[1..])
  }

  /** The report of the cleanup pass over the answers `inp`. */
  function CancelPass(inp: CancelInputs): CancelReport
  {
    match inp.positions
    case Fail(e) => CancelReport([], 0, Some(e), false)
    case Ok(ps) =>
      if HasOpenPosition(ps) then CancelReport([], 0, None, false)
      else
        match inp.openOrders
        case Fail(e) => CancelReport([], 0, Some(e), false)
        case Ok(orders) =>
          var p := CancelUpTo(orders, inp.cancel, |orders|);
          CancelUpToSound(orders, inp.cancel, |orders|);
          CancelReport(CancelRequests(orders, p.tried), p.cancelled, p.aborted, p.cancelled > 0 && p.aborted.None?)
  }

  /**
   * The promises of the cleanup pass: nothing is cancelled while a position
   * is open; only STOP_MARKET and TAKE_PROFIT_MARKET orders are cancelled;
   * without an abort all of them are; the count notification is sent only
   * for a positive count and no error.
   */
  lemma CancelPassMeaning(inp: CancelInputs)
    ensures var r := CancelPass(inp);
            (inp.positions.Ok? && HasOpenPosition(inp.positions.value) ==> r == CancelReport([], 0, None, false)) &&
            r.cancelled <= |r.requests| &&
            (r.notified <==> r.cancelled > 0 && r.error.None?) &&
            (inp.positions.Ok? && inp.openOrders.Ok? ==>
               forall q :: q in r.requests ==>
                 exists j :: (0 <= j < |inp.openOrders.value| && IsProtectiveType(inp.openOrders.value[j].orderType) &&
                              q == CancelOrder(inp.openOrders.value[j].orderId))) &&
            (inp.positions.Ok? && !HasOpenPosition(inp.positions.value) && inp.openOrders.Ok? && r.error.None? ==>
               forall j :: 0 <= j < |inp.openOrders.value| && IsProtectiveType(inp.openOrders.value[j].orderType) ==>
                 CancelOrder(inp.openOrders.value[j].orderId) in r.requests)
  {
    if inp.positions.Ok? && !HasOpenPosition(inp.positions.value) && inp.openOrders.Ok? {
      var orders := inp.openOrders.value;
      var p := CancelUpTo(orders, inp.cancel, |orders|);
      CancelUpToSound(orders, inp.cancel, |orders|);
      CancelUpToComplete(orders, inp.cancel, |orders|);
      var reqs := CancelRequests(orders, p.tried);
      forall q | q in reqs
        ensures exists j :: 0 <= j < |orders| && IsProtectiveType(orders[j].orderType) && q == CancelOrder(orders[j].orderId)
      {
        var k :| 0 <= k < |reqs| && reqs[k] == q;
        assert IsProtectiveType(orders[p.tried[k]].orderType);
      }
      if p.aborted.None? {
        forall j | 0 <= j < |orders| && IsProtectiveType(orders[j].orderType)
          ensures CancelOrder(orders[j].orderId) in reqs
        {
          assert j in p.tried;
          var k :| 0 <= k < |p.tried| && p.tried[k] == j;
          assert reqs[k] == CancelOrder(orders[j].orderId);
        }
      }
    }
  }

  /**
   * `cancel_all_open_orders_if_no_position`: the loop over the open orders
   * with its `cancelled` counter, stopped by the first error that is not
   * an "already gone" answer.
   */
  method CancelAllOpenOrdersIfNoPosition(inp: CancelInputs) returns (r: CancelReport)
    ensures r == CancelPass(inp)
  {
    if inp.positions.Fail? {
      return CancelReport([], 0, Some(inp.positions.error), false);
    }
    if HasOpenPosition(inp.positions.value) {
      return CancelReport([], 0, None, false);
    }
    if inp.openOrders.Fail? {
      return CancelReport([], 0, Some(inp.openOrders.error), false);
    }
    var orders := inp.openOrders.value;
    var tried: seq<nat> := [];
    var cancelled: nat := 0;
    var aborted: Option<Error> := None;
    var i := 0;
    while i < |orders| && aborted.None?
      invariant 0 <= i <= |orders|
      invariant CancelProgress(tried, cancelled, aborted) == CancelUpTo(orders, inp.cancel, i)
    {
      if IsProtectiveType(orders[i].orderType) {
        tried := tried + [i];
        match inp.cancel(i)
        case Ok(_) =>
          cancelled := cancelled + 1;
        case Fail(e) =>
          if !AlreadyGone(e) {
            aborted := Some(e);
          }
      }
      i := i + 1;
    }
    if aborted.Some? {
      CancelUpToStaysAborted(orders, inp.cancel, i, |orders|);
    }
    CancelUpToSound(orders, inp.cancel, |orders|);
    r := CancelReport(CancelRequests(orders, tried), cancelled, aborted, cancelled > 0 && aborted.None?);
  }

  // ---------------------------------------------------------------------
  // Closing the position
  // ---------------------------------------------------------------------

  /** The exchange answers read by `close_position`, in the order it reads them. */
  datatype CloseInputs = CloseInputs(
    syncQuery: Attempt<seq<Position>>,
    openCheck: Attempt<seq<Position>>,
    positions: Attempt<seq<Position>>,
    order: Attempt<()>,
    cleanup: CancelInputs,
    finalCheck: Attempt<seq<Position>>)

  datatype CloseOutcome =
    | NothingToClose
    | NoRemotePosition
    | CloseCrashed(error: Error)
    | CloseOrderFailed(error: Error)
    | Closed(side: Side, quantity: real, gain: real, cleanup: CancelReport, stillOpen: bool)
    | Deadlocked

  datatype CloseResult = CloseResult(snapshot: Snapshot, requests: seq<Request>, outcome: CloseOutcome)

  /** The side that closes a signed amount: SELL for a long, BUY otherwise. */
  function ClosingSideOf(amt: real): (s: Side)
    ensures s == CloseSide(DirectionOfAmount(amt))
    ensures s == Sell <==> amt > 0.0
  {
    if amt > 0.0 then Sell else Buy
  }

  /** The reported gain: its sign follows the LOCAL direction, not the sign of the amount. */
  function Gain(direction: Option<string>, entry: real, exit: real, qty: real): real
  {
    if direction == Some(BULLISH) then (exit - entry) * qty else (entry - exit) * qty
  }

  /** A bullish position gains when the price rose; any other gains when it fell. */
  lemma GainSign(direction: Option<string>, entry: real, exit: real, qty: real)
    requires qty > 0.0
    ensures direction == Some(BULLISH) ==> (Gain(direction, entry, exit, qty) >= 0.0 <==> exit >= entry)
    ensures direction != Some(BULLISH) ==> (Gain(direction, entry, exit, qty) >= 0.0 <==> exit <= entry)
  {
    if exit >= entry { MulLe(0.0, exit - entry, qty); } else { MulLt(exit - entry, 0.0, qty); }
  }

  /**
   * The body of `close_position` once the lock is held
   * (core/trade_executor.py:255-331): sync; nothing to do when both the
   * local flag and the exchange say flat; otherwise a reduce-only market
   * order against the first open entry; on success the orphan-order
   * cleanup, then the reset of the local state, then the final check.
   */
  function CloseStep(s: Snapshot, inp: CloseInputs): (r: CloseResult)
    ensures r.outcome != Deadlocked
    ensures r.outcome.Closed? ==> r.snapshot == Flat
    ensures !r.outcome.Closed? ==> r.snapshot == Synced(s, inp.syncQuery)
    ensures r.outcome.NothingToClose? <==>
              !BinanceClient.CheckPositionOpen(inp.syncQuery) && !BinanceClient.CheckPositionOpen(inp.openCheck)
    ensures r.outcome.NothingToClose? ==> r.requests == []
    ensures r.outcome.CloseOrderFailed? ==> r.requests != [] && r.requests[0].MarketOrder? && inp.order.Fail?
    ensures r.outcome.Closed? ==>
              inp.positions.Ok? && inp.order.Ok? &&
              exists i :: 0 <= i < |inp.positions.value| && IsOpen(inp.positions.value[i]) &&
                (forall j :: 0 <= j < i ==> !IsOpen(inp.positions.value[j])) &&
                var amt := inp.positions.value[i].positionAmt;
                r.outcome.side == (if amt > 0.0 then Sell else Buy) &&
                r.outcome.quantity == Abs(amt) && r.outcome.quantity > 0.0 &&
                r.requests == [MarketOrder(r.outcome.side, r.outcome.quantity, true)] + r.outcome.cleanup.requests &&
                r.outcome.gain == Gain(s.direction, inp.positions.value[i].entryPrice, inp.positions.value[i].markPrice, Abs(amt))
    ensures r.outcome.Closed? ==>
              r.outcome.cleanup == CancelPass(inp.cleanup) && r.outcome.stillOpen == BinanceClient.CheckPositionOpen(inp.finalCheck)
  {
    var s1 := Synced(s, inp.syncQuery);
    if !s1.positionOpen && !BinanceClient.CheckPositionOpen(inp.openCheck) then
      CloseResult(s1, [], NothingToClose)
    else
      match inp.positions
      case Fail(e) => CloseResult(s1, [], CloseCrashed(e))
      case Ok(ps) =>
        match FirstOpenIndex(ps)
        case None => CloseResult(s1, [], NoRemotePosition)
        case Some(i) =>
          var amt := ps[i].positionAmt;
          var side := ClosingSideOf(amt);
          var qty := Abs(amt);
          var order := [MarketOrder(side, qty, true)];
          match inp.order
          case Fail(e) => CloseResult(s1, order, CloseOrderFailed(e))
          case Ok(_) =>
            var c := CancelPass(inp.cleanup);
            var gain := Gain(s1.direction, ps[i].entryPrice, ps[i].markPrice, qty);
            CloseResult(Flat, order + c.requests,
                        Closed(side, qty, gain, c, BinanceClient.CheckPositionOpen(inp.finalCheck)))
  }

  /**
   * `close_position` as written: its first step acquires `position_lock`,
   * a non-reentrant lock; when the caller already holds it the call never
   * returns.
   */
  function ClosePositionEntry(s: Snapshot, inp: CloseInputs, lockHeldByCaller: bool): (r: CloseResult)
    ensures lockHeldByCaller <==> r.outcome == Deadlocked
    ensures lockHeldByCaller ==> r.snapshot == s && r.requests == []
  {
    if lockHeldByCaller then CloseResult(s, [], Deadlocked) else CloseStep(s, inp)
  }

  /**
   * The path of `open_trade` that closes a previous position, as written:
   * it still holds `position_lock` (taken at core/trade_executor.py:123)
   * when it calls `close_position`.
   */
  function OpenTradeCloseStageAsWritten(s: Snapshot, inp: OpenInputs): CloseResult
  {
    var s1 := Synced(s, inp.syncQuery);
    if s1.positionOpen || BinanceClient.CheckPositionOpen(inp.openCheck) then
      ClosePositionEntry(s1, inp.close, true)
    else CloseResult(s1, [], NothingToClose)
  }

  /** As written, a trade opened while a position is open blocks forever. */
  lemma OpenWhileOpenDeadlocks(s: Snapshot, inp: OpenInputs)
    requires BinanceClient.CheckPositionOpen(inp.syncQuery) || BinanceClient.CheckPositionOpen(inp.openCheck)
    ensures OpenTradeCloseStageAsWritten(s, inp).outcome == Deadlocked
  {
  }

  // ---------------------------------------------------------------------
  // Opening a position
  // ---------------------------------------------------------------------

  /** The order answer: `avgFillPrice` when the exchange reports one. */
  datatype Fill = Fill(avgFillPrice: Option<real>)

  /** The mode file value, the call arguments, and the exchange answers read by `open_trade`, in order. */
  datatype OpenInputs = OpenInputs(
    mode: string,
    direction: string,
    quantity: Option<real>,
    leverage: Option<int>,
    fileQuantity: Attempt<real>,
    fileLeverage: Attempt<int>,
    syncQuery: Attempt<seq<Position>>,
    openCheck: Attempt<seq<Position>>,
    close: CloseInputs,
    resyncQuery: Attempt<seq<Position>>,
    reopenCheck: Attempt<seq<Position>>,
    leverageChange: Attempt<()>,
    ticker: nat -> Attempt<Option<real>>,
    filters: Attempt<LotFilters>,
    balance: Attempt<real>,
    order: nat -> Attempt<Fill>,
    postCheck: Attempt<seq<Position>>,
    protection: SlTpInputs)

  const AUTO_MODE: string := "auto"

  /** The exchange reports positive prices, a positive step size and a positive tick size. */
  ghost predicate SaneMarket(inp: OpenInputs)
  {
    (forall i: nat :: inp.ticker(i).Ok? && inp.ticker(i).value.Some? ==> inp.ticker(i).value.value > 0.0) &&
    (inp.filters.Ok? ==> inp.filters.value.stepSize > 0.0) &&
    SaneTick(inp.protection)
  }

  datatype OpenOutcome =
    | AlertMode
    | PreviousNotClosed
    | LeverageFailed(error: Error)
    | PriceFailed(error: Error)
    | InsufficientBalance(required: real, available: real)
    | EntryOrderFailed(error: Error)
    | NoPositionAfterOrder
    | Opened(entry: real, quantity: real, leverage: int, protection: SlTpReport)
    | OpenCrashed(error: Error)

  datatype OpenResult = OpenResult(snapshot: Snapshot, requests: seq<Request>, outcome: OpenOutcome)

  /** `float(quantity) if quantity is not None else float(get_quantity_from_file())`. */
  function Margin(inp: OpenInputs): Attempt<real>
  {
    if inp.quantity.Some? then Ok(inp.quantity.value) else inp.fileQuantity
  }

  function Leverage(inp: OpenInputs): Attempt<int>
  {
    if inp.leverage.Some? then Ok(inp.leverage.value) else inp.fileLeverage
  }

  function PriceOf(inp: OpenInputs): Attempt<real>
  {
    Retried(PriceOp(inp.ticker), PRICE_RETRIES)
  }

  lemma PriceIsPositive(inp: OpenInputs)
    requires SaneMarket(inp) && PriceOf(inp).Ok?
    ensures PriceOf(inp).value > 0.0
  {
    PriceRetriedMeaning(inp.ticker, PRICE_RETRIES);
  }

  /**
   * The part of `open_trade` after the close-if-open stage
   * (core/trade_executor.py:134-151): margin and leverage, the leverage
   * call, the price; the rest is `OrderStage`.
   */
  function OpenFrom(s: Snapshot, reqs: seq<Request>, inp: OpenInputs, cfg: Config): (r: OpenResult)
    requires SaneMarket(inp)
    ensures !r.outcome.AlertMode? && !r.outcome.PreviousNotClosed?
    ensures reqs <= r.requests
    ensures !r.outcome.Opened? ==> r.snapshot == s
    ensures r.outcome.InsufficientBalance? || r.outcome.Opened? ==>
              Margin(inp).Ok? && Leverage(inp).Ok? && inp.leverageChange.Ok? && PriceOf(inp).Ok?
    ensures Margin(inp).Ok? && Leverage(inp).Ok? && inp.leverageChange.Ok? && PriceOf(inp).Ok? ==>
              PriceOf(inp).value > 0.0 &&
              r == OrderStage(s, reqs + [ChangeLeverage(Leverage(inp).value)], inp, cfg, Margin(inp).value, Leverage(inp).value, PriceOf(inp).value)
  {
    var margin := Margin(inp);
    var lev := Leverage(inp);
    if margin.Fail? then OpenResult(s, reqs, OpenCrashed(margin.error))
    else if lev.Fail? then OpenResult(s, reqs, OpenCrashed(lev.error))
    else
      var reqs1 := reqs + [ChangeLeverage(lev.value)];
      if inp.leverageChange.Fail? then OpenResult(s, reqs1, LeverageFailed(inp.leverageChange.error))
      else
        var price := PriceOf(inp);
        if price.Fail? then OpenResult(s, reqs1, PriceFailed(price.error))
        else
          PriceIsPositive(inp);
          OrderStage(s, reqs1, inp, cfg, margin.value, lev.value, price.value)
  }

  /**
   * core/trade_executor.py:153-230 once margin, leverage and price are
   * known: the filters and the normalised quantity, the balance gate, the
   * entry order, the post-fill check, and only then the new snapshot and
   * the protective orders.
   */
  function OrderStage(s: Snapshot, reqs: seq<Request>, inp: OpenInputs, cfg: Config, margin: real, lev: int, price: real): (r: OpenResult)
    requires SaneMarket(inp) && price > 0.0
    ensures !r.outcome.AlertMode? && !r.outcome.PreviousNotClosed?
    ensures reqs <= r.requests
    ensures !r.outcome.Opened? ==> r.snapshot == s
    ensures r.outcome.InsufficientBalance? <==> inp.filters.Ok? && inp.balance.Ok? && inp.balance.value < margin
    ensures r.outcome.Opened? ==>
              inp.filters.Ok? && inp.balance.Ok? && inp.balance.value >= margin &&
              Retried(inp.order, ORDER_RETRIES).Ok? && BinanceClient.CheckPositionOpen(inp.postCheck)
    ensures r.outcome.Opened? ==>
              var o := r.outcome;
              r.snapshot == Snapshot(true, Some(inp.direction), Some(o.entry), Some(o.quantity)) &&
              o.leverage == lev &&
              o.entry == Retried(inp.order, ORDER_RETRIES).value.avgFillPrice.GetOr(price) &&
              o.quantity == NormalizeQuantity(cfg.symbol, margin * lev as real, price, inp.filters.value) &&
              o.protection == SetInitialSlTp(inp.direction, o.entry, inp.protection, cfg) &&
              r.requests == reqs + [MarketOrder(EntrySide(inp.direction), o.quantity, false)] + o.protection.requests
  {
    if inp.filters.Fail? then OpenResult(s, reqs, OpenCrashed(inp.filters.error))
    else
      var qty := NormalizeQuantity(cfg.symbol, margin * lev as real, price, inp.filters.value);
      if inp.balance.Fail? then OpenResult(s, reqs, OpenCrashed(inp.balance.error))
      else if inp.balance.value < margin then OpenResult(s, reqs, InsufficientBalance(margin, inp.balance.value))
      else FillStage(s, reqs, inp, cfg, lev, price, qty)
  }

  /**
   * core/trade_executor.py:174-230 once the quantity is known: the entry
   * order, the post-fill check, the new snapshot and the protective orders.
   */
  function FillStage(s: Snapshot, reqs: seq<Request>, inp: OpenInputs, cfg: Config, lev: int, price: real, qty: real)
      : (r: OpenResult)
    requires SaneTick(inp.protection)
    ensures reqs + [MarketOrder(EntrySide(inp.direction), qty, false)] <= r.requests
    ensures !r.outcome.Opened? ==> r.snapshot == s
    ensures r.outcome.EntryOrderFailed? || r.outcome.NoPositionAfterOrder? || r.outcome.Opened?
    ensures r.outcome.Opened? <==> Retried(inp.order, ORDER_RETRIES).Ok? && BinanceClient.CheckPositionOpen(inp.postCheck)
    ensures r.outcome.Opened? ==>
              var o := r.outcome;
              r.snapshot == Snapshot(true, Some(inp.direction), Some(o.entry), Some(qty)) &&
              o.leverage == lev && o.quantity == qty &&
              o.entry == Retried(inp.order, ORDER_RETRIES).value.avgFillPrice.GetOr(price) &&
              o.protection == SetInitialSlTp(inp.direction, o.entry, inp.protection, cfg) &&
              r.requests == reqs + [MarketOrder(EntrySide(inp.direction), qty, false)] + o.protection.requests
  {
    var reqs2 := reqs + [MarketOrder(EntrySide(inp.direction), qty, false)];
    var fill := Retried(inp.order, ORDER_RETRIES);
    if fill.Fail? then OpenResult(s, reqs2, EntryOrderFailed(fill.error))
    else
      var entry := fill.value.avgFillPrice.GetOr(price);
      if !BinanceClient.CheckPositionOpen(inp.postCheck) then OpenResult(s, reqs2, NoPositionAfterOrder)
      else
        var prot := SetInitialSlTp(inp.direction, entry, inp.protection, cfg);
        OpenResult(Snapshot(true, Some(inp.direction), Some(entry), Some(qty)), reqs2 + prot.requests,
                   Opened(entry, qty, lev, prot))
  }

  /** The sync at the start of `open_trade` or the extra check finds an open position. */
  predicate PreviouslyOpen(s: Snapshot, inp: OpenInputs)
  {
    Synced(s, inp.syncQuery).positionOpen || BinanceClient.CheckPositionOpen(inp.openCheck)
  }

  /**
   * `open_trade` with the close-if-open stage run under the lock the
   * caller already holds (the body of `close_position` without its own
   * acquisition); everything else as in core/trade_executor.py:119-230.
   */
  function OpenTradeStep(s: Snapshot, inp: OpenInputs, cfg: Config): (r: OpenResult)
    requires SaneMarket(inp)
    ensures inp.mode != AUTO_MODE ==> r == OpenResult(s, [], AlertMode)
    ensures r.outcome.Opened? ==>
              inp.mode == AUTO_MODE && r.snapshot == Snapshot(true, Some(inp.direction), Some(r.outcome.entry), Some(r.outcome.quantity))
    ensures !r.outcome.Opened? && !PreviouslyOpen(s, inp) ==> r.snapshot == (if inp.mode == AUTO_MODE then Synced(s, inp.syncQuery) else s)
    ensures r.outcome.PreviousNotClosed? <==>
              inp.mode == AUTO_MODE && PreviouslyOpen(s, inp) &&
              (BinanceClient.CheckPositionOpen(inp.resyncQuery) || BinanceClient.CheckPositionOpen(inp.reopenCheck))
    ensures inp.mode == AUTO_MODE && PreviouslyOpen(s, inp) ==> CloseStep(Synced(s, inp.syncQuery), inp.close).requests <= r.requests
  {
    if inp.mode != AUTO_MODE then OpenResult(s, [], AlertMode)
    else
      var s1 := Synced(s, inp.syncQuery);
      if s1.positionOpen || BinanceClient.CheckPositionOpen(inp.openCheck) then CloseFirst(s1, inp, cfg)
      else OpenFrom(s1, [], inp, cfg)
  }

  /**
   * An opening happens only once every gate of core/trade_executor.py:118-207
   * has passed: auto mode, the margin and the leverage, the leverage change,
   * the price, the filters, a balance covering the margin, the retried entry
   * order and the post-fill check.
   */
  lemma OpenedPassedEveryGate(s: Snapshot, inp: OpenInputs, cfg: Config)
    requires SaneMarket(inp)
    ensures OpenTradeStep(s, inp, cfg).outcome.Opened? ==>
              inp.mode == AUTO_MODE && Margin(inp).Ok? && Leverage(inp).Ok? && inp.leverageChange.Ok? &&
              PriceOf(inp).Ok? && inp.filters.Ok? && inp.balance.Ok? && inp.balance.value >= Margin(inp).value &&
              Retried(inp.order, ORDER_RETRIES).Ok? && BinanceClient.CheckPositionOpen(inp.postCheck)
  {
  }

  /**
   * The close-if-open stage of core/trade_executor.py:125-133 from the
   * synced snapshot `s1`: close, resync, and go on to open only once the
   * exchange reports flat.
   */
  function CloseFirst(s1: Snapshot, inp: OpenInputs, cfg: Config): (r: OpenResult)
    requires SaneMarket(inp)
    ensures r.outcome.Opened? ==>
              r.snapshot == Snapshot(true, Some(inp.direction), Some(r.outcome.entry), Some(r.outcome.quantity))
    ensures r.outcome.PreviousNotClosed? <==>
              BinanceClient.CheckPositionOpen(inp.resyncQuery) || BinanceClient.CheckPositionOpen(inp.reopenCheck)
    ensures CloseStep(s1, inp.close).requests <= r.requests
  {
    var c := CloseStep(s1, inp.close);
    var s2 := Synced(c.snapshot, inp.resyncQuery);
    if s2.positionOpen || BinanceClient.CheckPositionOpen(inp.reopenCheck) then
      OpenResult(s2, c.requests, PreviousNotClosed)
    else OpenFrom(s2, c.requests, inp, cfg)
  }

  /**
   * With the nested close running under the caller's lock, a trade
   * requested while a position is open closes it first, and once the
   * exchange reports flat it goes on to open the new one.
   */
  lemma CloseThenReopen(s: Snapshot, inp: OpenInputs, cfg: Config)
    requires SaneMarket(inp) && inp.mode == AUTO_MODE && PreviouslyOpen(s, inp)
    requires CloseStep(Synced(s, inp.syncQuery), inp.close).outcome.Closed?
    requires !BinanceClient.CheckPositionOpen(inp.resyncQuery) && !BinanceClient.CheckPositionOpen(inp.reopenCheck)
    ensures var r := OpenTradeStep(s, inp, cfg);
            var c := CloseStep(Synced(s, inp.syncQuery), inp.close);
            r == OpenFrom(Flat, c.requests, inp, cfg) &&
            c.requests[0] == MarketOrder(c.outcome.side, c.outcome.quantity, true) &&
            r.outcome != PreviousNotClosed
  {
  }

  // ---------------------------------------------------------------------
  // The stateful entry points
  // ---------------------------------------------------------------------

  /** The trailing-stop worker started after an opening, with its arguments. */
  datatype TrailingWorker = TrailingWorker(direction: string, entry: real)

  /** The module-level globals: `position_lock` and `trailing_thread`. */
  class ExecutorGlobals {
    var positionLockHeld: bool
    var trailing: Option<TrailingWorker>

    constructor ()
      ensures !positionLockHeld && trailing.None?
    {
      positionLockHeld := false;
      trailing := None;
    }
  }

  /** The body of `close_position` once the lock is held, writing the shared state. */
  method CloseHoldingLock(st: BotState, inp: CloseInputs) returns (r: CloseResult)
    modifies st
    ensures r == CloseStep(old(st.Snap()), inp)
    ensures st.Snap() == r.snapshot
  {
    SyncPosition(st, inp.syncQuery);
    if !st.positionOpen && !BinanceClient.CheckPositionOpen(inp.openCheck) {
      return CloseResult(st.Snap(), [], NothingToClose);
    }
    if inp.positions.Fail? {
      return CloseResult(st.Snap(), [], CloseCrashed(inp.positions.error));
    }
    var ps := inp.positions.value;
    var first := FirstOpenIndex(ps);
    if first.None? {
      return CloseResult(st.Snap(), [], NoRemotePosition);
    }
    var pos := ps[first.value];
    var side := ClosingSideOf(pos.positionAmt);
    var qty := Abs(pos.positionAmt);
    var order := [MarketOrder(side, qty, true)];
    if inp.order.Fail? {
      return CloseResult(st.Snap(), order, CloseOrderFailed(inp.order.error));
    }
    var gain := Gain(st.currentDirection, pos.entryPrice, pos.markPrice, qty);
    var cleanup := CancelAllOpenOrdersIfNoPosition(inp.cleanup);
    st.ResetAll();
    var stillOpen := BinanceClient.CheckPositionOpen(inp.finalCheck);
    r := CloseResult(st.Snap(), order + cleanup.requests, Closed(side, qty, gain, cleanup, stillOpen));
  }

  /** `close_position`: takes `position_lock` first, and blocks forever when it is already held. */
  method ClosePosition(st: BotState, g: ExecutorGlobals, inp: CloseInputs) returns (r: CloseResult)
    modifies st, g
    ensures r == ClosePositionEntry(old(st.Snap()), inp, old(g.positionLockHeld))
    ensures st.Snap() == r.snapshot
    ensures g.positionLockHeld == old(g.positionLockHeld) && g.trailing == old(g.trailing)
  {
    if g.positionLockHeld {
      return CloseResult(st.Snap(), [], Deadlocked);
    }
    g.positionLockHeld := true;
    r := CloseHoldingLock(st, inp);
    g.positionLockHeld := false;
  }

  /** The steps of `open_trade` after the close-if-open stage. */
  method OpenFromState(st: BotState, g: ExecutorGlobals, reqs: seq<Request>, inp: OpenInputs, cfg: Config) returns (r: OpenResult)
    requires SaneMarket(inp)
    modifies st, g
    ensures r == OpenFrom(old(st.Snap()), reqs, inp, cfg)
    ensures st.Snap() == r.snapshot
    ensures g.positionLockHeld == old(g.positionLockHeld)
    ensures g.trailing == if r.outcome.Opened? then Some(TrailingWorker(inp.direction, r.outcome.entry)) else old(g.trailing)
  {
    var margin := Margin(inp);
    var lev := Leverage(inp);
    if margin.Fail? {
      return OpenResult(st.Snap(), reqs, OpenCrashed(margin.error));
    }
    if lev.Fail? {
      return OpenResult(st.Snap(), reqs, OpenCrashed(lev.error));
    }
    var reqs1 := reqs + [ChangeLeverage(lev.value)];
    if inp.leverageChange.Fail? {
      return OpenResult(st.Snap(), reqs1, LeverageFailed(inp.leverageChange.error));
    }
    var price, priceCalls := GetPriceWithRetry(inp.ticker, PRICE_RETRIES);
    if price.Fail? {
      return OpenResult(st.Snap(), reqs1, PriceFailed(price.error));
    }
    PriceIsPositive(inp);
    r := PlaceEntryOrder(st, g, reqs1, inp, cfg, margin.value, lev.value, price.value);
  }

  /** The steps of `open_trade` once margin, leverage and price are known. */
  method PlaceEntryOrder(st: BotState, g: ExecutorGlobals, reqs: seq<Request>, inp: OpenInputs, cfg: Config,
                         margin: real, lev: int, price: real) returns (r: OpenResult)
    requires SaneMarket(inp) && price > 0.0
    modifies st, g
    ensures r == OrderStage(old(st.Snap()), reqs, inp, cfg, margin, lev, price)
    ensures st.Snap() == r.snapshot
    ensures g.positionLockHeld == old(g.positionLockHeld)
    ensures g.trailing == if r.outcome.Opened? then Some(TrailingWorker(inp.direction, r.outcome.entry)) else old(g.trailing)
  {
    if inp.filters.Fail? {
      return OpenResult(st.Snap(), reqs, OpenCrashed(inp.filters.error));
    }
    var qty := NormalizeQuantity(cfg.symbol, margin * lev as real, price, inp.filters.value);
    if inp.balance.Fail? {
      return OpenResult(st.Snap(), reqs, OpenCrashed(inp.balance.error));
    }
    if inp.balance.value < margin {
      return OpenResult(st.Snap(), reqs, InsufficientBalance(margin, inp.balance.value));
    }
    var reqs2 := reqs + [MarketOrder(EntrySide(inp.direction), qty, false)];
    var fill, orderCalls, orderSleeps := RetryOrderCreation(inp.order, ORDER_RETRIES);
    if fill.Fail? {
      return OpenResult(st.Snap(), reqs2, EntryOrderFailed(fill.error));
    }
    var entry := fill.value.avgFillPrice.GetOr(price);
    if !BinanceClient.CheckPositionOpen(inp.postCheck) {
      return OpenResult(st.Snap(), reqs2, NoPositionAfterOrder);
    }
    st.SetOpen(inp.direction, entry, qty);
    var prot := SetInitialSlTp(inp.direction, entry, inp.protection, cfg);
    // the previous trailing worker, if any, is stopped and joined, then replaced
    g.trailing := Some(TrailingWorker(inp.direction, entry));
    r := OpenResult(st.Snap(), reqs2 + prot.requests, Opened(entry, qty, lev, prot));
  }

  /**
   * `open_trade`, with the nested close run under the lock it already
   * holds. Entry points run one at a time, so the lock is free when it
   * starts.
   */
  method OpenTrade(st: BotState, g: ExecutorGlobals, inp: OpenInputs, cfg: Config) returns (r: OpenResult)
    requires SaneMarket(inp) && !g.positionLockHeld
    modifies st, g
    ensures r == OpenTradeStep(old(st.Snap()), inp, cfg)
    ensures st.Snap() == r.snapshot
    ensures !g.positionLockHeld
    ensures g.trailing == if r.outcome.Opened? then Some(TrailingWorker(inp.direction, r.outcome.entry)) else old(g.trailing)
  {
    if inp.mode != AUTO_MODE {
      return OpenResult(st.Snap(), [], AlertMode);
    }
    g.positionLockHeld := true;
    SyncPosition(st, inp.syncQuery);
    var reqs: seq<Request> := [];
    if st.positionOpen || BinanceClient.CheckPositionOpen(inp.openCheck) {
      var c := CloseHoldingLock(st, inp.close);
      reqs := c.requests;
      SyncPosition(st, inp.resyncQuery);
      if st.positionOpen || BinanceClient.CheckPositionOpen(inp.reopenCheck) {
        g.positionLockHeld := false;
        return OpenResult(st.Snap(), reqs, PreviousNotClosed);
      }
    }
    r := OpenFromState(st, g, reqs, inp, cfg);
    g.positionLockHeld := false;
  }
}
