/**
 * The EMA20/EMA50 crossing strategy on closed candles: detecting a
 * crossing, deduplicating signals per candle, closing a position that does
 * not match the signal and opening one in the signal's direction.
 * Opening and closing are delegated to the trade interface, which is
 * recorded here as `Action`s.
 */
module EmaCross {
  import opened Wrappers
  import opened Attempts
  import opened Indicators
  import opened Exchange
  import opened State
  import opened Cooldown
  import BinanceClient

  const BULLISH_CROSS: string := "bullish_cross"
  const BEARISH_CROSS: string := "bearish_cross"
  /** Candles needed before the averages are computed. */
  const MIN_CLOSES: nat := 50

  /**
   * The crossing of the last step in the one direction asked for. With
   * the default `bullish = true` it is the upward crossing or nothing.
   */
  function DetectEmaCross(short: seq<real>, long: seq<real>, bullish: bool): (r: Option<string>)
    ensures !HasTwo(short, long) ==> r == None
    ensures bullish ==> r == None || r == Some(BULLISH_CROSS)
    ensures bullish ==> (r == Some(BULLISH_CROSS) <==> HasTwo(short, long) && CrossedUp(short, long))
    ensures !bullish ==> r == None || r == Some(BEARISH_CROSS)
    ensures !bullish ==> (r == Some(BEARISH_CROSS) <==> HasTwo(short, long) && CrossedDown(short, long))
  {
    if |short| < 2 || |long| < 2 then None
    else if bullish then
      if Prev(short) < Prev(long) && Last(short) > Last(long) then Some(BULLISH_CROSS) else None
    else
      if Prev(short) > Prev(long) && Last(short) < Last(long) then Some(BEARISH_CROSS) else None
  }

  /** The detection together with its notification, which goes through the cooldown. */
  method DetectAndNotify(cooldown: TelegramCooldown, short: seq<real>, long: seq<real>, bullish: bool, now: real)
      returns (signal: Option<string>, notified: bool)
    modifies cooldown
    ensures signal == DetectEmaCross(short, long, bullish)
    ensures notified <==> signal.Some? && now - old(cooldown.lastSent) > COOLDOWN_SECONDS
    ensures cooldown.lastSent == (if notified then now else old(cooldown.lastSent))
  {
    signal := DetectEmaCross(short, long, bullish);
    notified := false;
    if signal.Some? {
      notified := cooldown.CanSend(now);
    }
  }

  /**
   * `get_ema_values`: with at least 50 candles, the signal of the averages
   * and the close time in seconds of the candle before the last one.
   * `averages` stands for the library's (EMA20, EMA50) of the closes.
   */
  function GetEmaValues(klines: Attempt<seq<Kline>>, averages: seq<real> -> (seq<real>, seq<real>))
      : (r: Option<(Option<string>, int)>)
    ensures r.Some? <==> klines.Ok? && |klines.value| >= MIN_CLOSES
    ensures r.Some? ==> r.value.1 == klines.value[|klines.value| - 2].closeTimeMs / 1000
    ensures r.Some? ==> r.value.0 == None || r.value.0 == Some(BULLISH_CROSS)
    ensures r.Some? ==> var emas := averages(BinanceClient.Closes(klines.value));
      r.value.0 == DetectEmaCross(emas.0, emas.1, true)
  {
    match klines
    case Fail(_) => None
    case Ok(ks) =>
      if |ks| < MIN_CLOSES then None
      else
        var emas := averages(BinanceClient.Closes(ks));
        Some((DetectEmaCross(emas.0, emas.1, true), ks[|ks| - 2].closeTimeMs / 1000))
  }

  /** An open position whose stored direction is exactly the signal text. */
  function IsPositionMatchingDirection(s: Snapshot, direction: string): (r: bool)
    ensures !s.positionOpen ==> !r
    ensures r ==> s.direction == Some(direction)
  {
    s.positionOpen && s.direction == Some(direction)
  }

  /** A crossing signal never matches a position stored with a plain direction. */
  lemma CrossSignalsNeverMatch(s: Snapshot)
    requires s.direction == Some(BULLISH) || s.direction == Some(BEARISH)
    ensures !IsPositionMatchingDirection(s, BULLISH_CROSS)
    ensures !IsPositionMatchingDirection(s, BEARISH_CROSS)
  {
  }

  /** What the strategy asks of the trade interface. */
  datatype Action = ClosePosition | SetLeverage(leverage: int) | OpenTrade(direction: string)

  /** The last processed signal: its text, when it was processed, and its candle. */
  datatype LastSignal = LastSignal(signal: string, at: real, candleCloseTime: int)

  datatype ExecuteResult = ExecuteResult(snapshot: Snapshot, actions: seq<Action>, last: Option<LastSignal>)

  /** The same signal for the same candle was processed last. */
  predicate IsRepeat(last: Option<LastSignal>, signal: string, candleCloseTime: int)
  {
    last.Some? && signal == last.value.signal && candleCloseTime == last.value.candleCloseTime
  }

  /** The direction a signal opens, if any. */
  function OpenDirection(signal: string): (d: Option<string>)
    ensures d == Some(BULLISH) <==> signal == BULLISH_CROSS || signal == BULLISH
    ensures d == Some(BEARISH) <==> signal == BEARISH_CROSS || signal == BEARISH
    ensures d.None? <==> signal !in {BULLISH_CROSS, BULLISH, BEARISH_CROSS, BEARISH}
  {
    if signal == BULLISH_CROSS || signal == BULLISH then Some(BULLISH)
    else if signal == BEARISH_CROSS || signal == BEARISH then Some(BEARISH)
    else None
  }

  /**
   * `execute_ema_cross_strategy` as one atomic step: the new snapshot, the
   * requests to the trade interface and the new last signal.
   */
  function ExecuteStep(s: Snapshot, last: Option<LastSignal>, signal: Option<string>, candleCloseTime: Option<int>,
                       now: real, fileLeverage: int): (r: ExecuteResult)
    ensures signal.None? || candleCloseTime.None? ==> r == ExecuteResult(s, [], last)
    ensures signal.Some? && candleCloseTime.Some? && IsRepeat(last, signal.value, candleCloseTime.value) ==>
      r == ExecuteResult(s, [], last)
    ensures signal.Some? && candleCloseTime.Some? && !IsRepeat(last, signal.value, candleCloseTime.value) ==>
      r.last == Some(LastSignal(signal.value, now, candleCloseTime.value))
    ensures signal.Some? && IsPositionMatchingDirection(s, signal.value) ==> r.actions == [] && r.snapshot == s
    ensures signal.Some? && candleCloseTime.Some? && !IsRepeat(last, signal.value, candleCloseTime.value) &&
            s.positionOpen && !IsPositionMatchingDirection(s, signal.value) ==>
      r.snapshot == Flat && |r.actions| >= 2 && r.actions[0] == ClosePosition && r.actions[1] == SetLeverage(fileLeverage)
    ensures signal.Some? && candleCloseTime.Some? && !IsRepeat(last, signal.value, candleCloseTime.value) &&
            !IsPositionMatchingDirection(s, signal.value) ==>
      r.snapshot == (if s.positionOpen then Flat else s) &&
      r.actions == (if s.positionOpen then [ClosePosition] else []) + [SetLeverage(fileLeverage)] +
                   (if OpenDirection(signal.value).Some? then [OpenTrade(OpenDirection(signal.value).value)] else [])
    ensures forall a :: a in r.actions && a.OpenTrade? ==> signal.Some? && OpenDirection(signal.value) == Some(a.direction)
  {
    if signal.None? || candleCloseTime.None? then ExecuteResult(s, [], last)
    else if IsRepeat(last, signal.value, candleCloseTime.value) then ExecuteResult(s, [], last)
    else
      var record := Some(LastSignal(signal.value, now, candleCloseTime.value));
      var closing := s.positionOpen && !IsPositionMatchingDirection(s, signal.value);
      var s1 := if closing then Flat else s;
      var closed: seq<Action> := if closing then [ClosePosition] else [];
      if IsPositionMatchingDirection(s1, signal.value) then ExecuteResult(s1, closed, record)
      else
        var d := OpenDirection(signal.value);
        var opening: seq<Action> := if d.Some? then [OpenTrade(d.value)] else [];
        ExecuteResult(s1, closed + [SetLeverage(fileLeverage)] + opening, record)
  }

  /** Processing the same signal for the same candle a second time changes nothing. */
  lemma RepeatIsIgnored(s: Snapshot, last: Option<LastSignal>, signal: string, candleCloseTime: int,
                        now: real, fileLeverage: int, later: real, laterLeverage: int)
    ensures var r := ExecuteStep(s, last, Some(signal), Some(candleCloseTime), now, fileLeverage);
      ExecuteStep(r.snapshot, r.last, Some(signal), Some(candleCloseTime), later, laterLeverage)
        == ExecuteResult(r.snapshot, [], r.last)
  {
    var r := ExecuteStep(s, last, Some(signal), Some(candleCloseTime), now, fileLeverage);
    assert IsRepeat(r.last, signal, candleCloseTime);
  }

  /**
   * A crossing signal against a position stored as "bullish" always closes
   * it and reopens: the texts never match.
   */
  lemma CrossSignalClosesThenReopens(s: Snapshot, last: Option<LastSignal>, candleCloseTime: int,
                                     now: real, fileLeverage: int)
    requires s.positionOpen && s.direction == Some(BULLISH)
    requires !IsRepeat(last, BULLISH_CROSS, candleCloseTime)
    ensures ExecuteStep(s, last, Some(BULLISH_CROSS), Some(candleCloseTime), now, fileLeverage) ==
      ExecuteResult(Flat, [ClosePosition, SetLeverage(fileLeverage), OpenTrade(BULLISH)],
                    Some(LastSignal(BULLISH_CROSS, now, candleCloseTime)))
  {
  }

  /** The strategy's memory of the last processed signal (`_last_signal`). */
  class EmaCrossStrategy {
    var lastSignal: Option<LastSignal>

    constructor ()
      ensures lastSignal == None
    {
      lastSignal := None;
    }

    method Execute(st: BotState, signal: Option<string>, candleCloseTime: Option<int>, now: real, fileLeverage: int)
        returns (actions: seq<Action>)
      modifies this, st
      ensures ExecuteResult(st.Snap(), actions, lastSignal) ==
              ExecuteStep(old(st.Snap()), old(lastSignal), signal, candleCloseTime, now, fileLeverage)
    {
      actions := [];
      if signal.None? || candleCloseTime.None? {
        return;
      }
      var sig := signal.value;
      if lastSignal.Some? && sig == lastSignal.value.signal && candleCloseTime.value == lastSignal.value.candleCloseTime {
        return;
      }
      if st.positionOpen && !IsPositionMatchingDirection(st.Snap(), sig) {
        actions := actions + [ClosePosition];
        st.ResetAll();
      }
      if IsPositionMatchingDirection(st.Snap(), sig) {
        lastSignal := Some(LastSignal(sig, now, candleCloseTime.value));
        return;
      }
      actions := actions + [SetLeverage(fileLeverage)];
      if sig == BULLISH_CROSS || sig == BULLISH {
        actions := actions + [OpenTrade(BULLISH)];
      } else if sig == BEARISH_CROSS || sig == BEARISH {
        actions := actions + [OpenTrade(BEARISH)];
      }
      lastSignal := Some(LastSignal(sig, now, candleCloseTime.value));
    }
  }
}
