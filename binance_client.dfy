/**
 * Exchange-query helpers of core/binance_client.py: the generic retry
 * helper, the open-position test, the leverage change, the symbol check
 * and the list of historical closes. The exchange answers are inputs.
 */
module BinanceClient {
  import opened Wrappers
  import opened Attempts
  import opened Exchange

  /** Default number of attempts of `retry`. */
  const DEFAULT_MAX_RETRIES: nat := 3

  /**
   * `retry(func, max_retries)`: calls `op` for attempts 1..max_retries
   * (the model numbers them from 0), returns the first successful value,
   * sleeps after every failed attempt but the last, and re-raises the
   * last attempt's exception. With no attempt at all it returns nothing.
   */
  method Retry<T>(op: nat -> Attempt<T>, maxRetries: nat) returns (r: Outcome<T>, calls: nat, sleeps: nat)
    ensures calls <= maxRetries
    ensures sleeps == if calls == 0 then 0 else calls - 1
    ensures FirstOk(op, maxRetries).Some? ==>
              r == Returned(op(FirstOk(op, maxRetries).value).value) && calls == FirstOk(op, maxRetries).value + 1
    ensures FirstOk(op, maxRetries).None? && maxRetries > 0 ==>
              r == Raised(op(maxRetries - 1).error) && calls == maxRetries
    ensures maxRetries == 0 ==> r == ReturnedNothing
  {
    calls, sleeps := 0, 0;
    var attempt := 1;
    while attempt <= maxRetries
      invariant 1 <= attempt <= maxRetries + 1
      invariant maxRetries > 0 ==> attempt <= maxRetries
      invariant calls == attempt - 1 && sleeps == calls
      invariant forall j :: 0 <= j < calls ==> op(j).Fail?
    {
      calls := calls + 1;
      match op(attempt - 1)
      case Ok(v) =>
        r := Returned(v);
        return;
      case Fail(e) =>
        if attempt < maxRetries {
          sleeps := sleeps + 1;
        } else {
          r := Raised(e);
          return;
        }
      attempt := attempt + 1;
    }
    r := ReturnedNothing;
  }

  /**
   * `check_position_open`: true iff the query succeeded and some entry has
   * a non-zero amount; a failed query counts as "no position".
   */
  function CheckPositionOpen(query: Attempt<seq<Position>>): (r: bool)
    ensures r <==> query.Ok? && exists i :: 0 <= i < |query.value| && IsOpen(query.value[i])
  {
    if query.Ok? then HasOpenPositionIff(query.value); HasOpenPosition(query.value) else false
  }

  /**
   * `change_leverage`: the leverage call retried with the default budget;
   * true iff one of the attempts succeeded. It never raises.
   */
  method ChangeLeverage(op: nat -> Attempt<()>) returns (ok: bool)
    ensures ok <==> exists i :: 0 <= i < DEFAULT_MAX_RETRIES && op(i).Ok?
  {
    var r, calls, sleeps := Retry(op, DEFAULT_MAX_RETRIES);
    ok := r.Returned?;
  }

  /** `any(s == symbol for s in symbols)`. */
  function AnySymbolEquals(symbols: seq<string>, symbol: string): (r: bool)
    ensures r <==> symbol in symbols
  {
    if symbols == [] then false
    else symbols[0] == symbol || AnySymbolEquals(symbols[1..], symbol)
  }

  /** `is_symbol_valid`: the symbol is listed by the exchange; false when the query fails. */
  function IsSymbolValid(exchangeSymbols: Attempt<seq<string>>, symbol: string): (r: bool)
    ensures r <==> exchangeSymbols.Ok? && symbol in exchangeSymbols.value
  {
    exchangeSymbols.Ok? && AnySymbolEquals(exchangeSymbols.value, symbol)
  }

  /** `[float(k[4]) for k in klines]`: one close per candle, in order. */
  function Closes(klines: seq<Kline>): (r: seq<real>)
    ensures |r| == |klines|
    ensures forall i :: 0 <= i < |klines| ==> r[i] == klines[i].close
  {
    if klines == [] then [] else [klines[0].close] + Closes(klines[1..])
  }

  /**
   * `get_historical_closes`: the closes of the candles, or the empty list
   * (the `except` branch) when the query fails.
   */
  function GetHistoricalCloses(klines: Attempt<seq<Kline>>): (r: seq<real>)
    ensures klines.Fail? ==> r == []
    ensures klines.Ok? ==> |r| == |klines.value| && forall i :: 0 <= i < |r| ==> r[i] == klines.value[i].close
  {
    match klines
    case Ok(ks) => Closes(ks)
    case Fail(_) => []
  }
}
