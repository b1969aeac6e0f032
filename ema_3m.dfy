/**
 * The intra-candle EMA watch on the short timeframe: each iteration reads
 * the averages, detects a crossing, drops a crossing equal to the last one
 * seen, and hands a new crossing to the crossing strategy only when the
 * trend of the five-minute averages agrees with it.
 */
module Ema3m {
  import opened Wrappers
  import opened Attempts
  import opened Indicators
  import opened Exchange
  import opened EmaCross
  import BinanceClient

  /** Candles needed before the averages are computed. */
  const MIN_KLINES: nat := 50

  /**
   * `get_ema`: the (EMA20, EMA50) pair of the closes, or nothing when the
   * query fails or returns fewer than 50 candles. `averages` stands for the
   * indicator library.
   */
  function GetEma(klines: Attempt<seq<Kline>>, averages: seq<real> -> (seq<real>, seq<real>))
      : (r: Option<(seq<real>, seq<real>)>)
    ensures r.Some? <==> klines.Ok? && |klines.value| >= MIN_KLINES
    ensures r.Some? ==> r.value == averages(BinanceClient.Closes(klines.value))
  {
    match klines
    case Fail(_) => None
    case Ok(ks) => if |ks| < MIN_KLINES then None else Some(averages(BinanceClient.Closes(ks)))
  }

  /** The default argument of `detect_ema_cross` is used, so no downward crossing is ever reported. */
  lemma DefaultDetectionIsBullishOnly(short: seq<real>, long: seq<real>)
    ensures DetectEmaCross(short, long, true) != Some(BEARISH_CROSS)
    ensures HasTwo(short, long) && CrossedDown(short, long) ==> DetectEmaCross(short, long, true) == None
  {
  }

  /** What one iteration reads: the averages, the five-minute trend pair and the candle time. */
  datatype LiveSample = LiveSample(
    averages: Option<(seq<real>, seq<real>)>,
    trend: Attempt<(real, real)>,
    candleCloseTime: Attempt<int>)

  /** A call of the crossing strategy with a direction and a candle time. */
  datatype TradeCall = TradeCall(direction: string, candleCloseTime: int)

  /** Detection in both directions: the upward crossing, else the downward one. */
  function DetectEitherCross(short: seq<real>, long: seq<real>): (r: Option<string>)
    ensures r == Some(BULLISH_CROSS) <==> HasTwo(short, long) && CrossedUp(short, long)
    ensures r == Some(BEARISH_CROSS) <==> HasTwo(short, long) && CrossedDown(short, long)
    ensures r == None <==> !HasTwo(short, long) || (!CrossedUp(short, long) && !CrossedDown(short, long))
  {
    match DetectEmaCross(short, long, true)
    case Some(s) => Some(s)
    case None => DetectEmaCross(short, long, false)
  }

  /** The crossing an iteration detects: upward only as written, both ways when corrected. */
  function Detect(short: seq<real>, long: seq<real>, bothDirections: bool): Option<string>
  {
    if bothDirections then DetectEitherCross(short, long) else DetectEmaCross(short, long, true)
  }

  /** The trend pair agrees with a crossing. */
  predicate Aligned(signal: string, trend: (real, real))
  {
    (signal == BULLISH_CROSS && trend.0 > trend.1) || (signal == BEARISH_CROSS && trend.0 < trend.1)
  }

  /** The crossing one iteration works on, if it gets that far. */
  function SampleCross(x: LiveSample, bothDirections: bool): Option<string>
  {
    if x.averages.None? || x.trend.Fail? then None
    else Detect(x.averages.value.0, x.averages.value.1, bothDirections)
  }

  /** One iteration: the strategy call it makes, and the new last live signal. */
  function LiveStep(last: Option<string>, x: LiveSample, bothDirections: bool): (r: (Option<TradeCall>, Option<string>))
    ensures SampleCross(x, bothDirections).None? || SampleCross(x, bothDirections) == last ==> r == (None, last)
    ensures SampleCross(x, bothDirections).Some? && SampleCross(x, bothDirections) != last ==>
      r.1 == SampleCross(x, bothDirections)
    ensures r.0.Some? <==>
      SampleCross(x, bothDirections).Some? && SampleCross(x, bothDirections) != last &&
      Aligned(SampleCross(x, bothDirections).value, x.trend.value) && x.candleCloseTime.Ok?
    ensures r.0.Some? ==> r.0.value.candleCloseTime == x.candleCloseTime.value
    ensures r.0.Some? ==>
      (r.0.value.direction == BULLISH && SampleCross(x, bothDirections) == Some(BULLISH_CROSS) && x.trend.value.0 > x.trend.value.1) ||
      (r.0.value.direction == BEARISH && SampleCross(x, bothDirections) == Some(BEARISH_CROSS) && x.trend.value.0 < x.trend.value.1)
  {
    match SampleCross(x, bothDirections)
    case None => (None, last)
    case Some(signal) =>
      if Some(signal) == last then (None, last)
      else
        match x.candleCloseTime
        case Fail(_) => (None, Some(signal))
        case Ok(cct) =>
          var trend := x.trend.value;
          if signal == BULLISH_CROSS && trend.0 > trend.1 then (Some(TradeCall(BULLISH, cct)), Some(signal))
          else if signal == BEARISH_CROSS && trend.0 < trend.1 then (Some(TradeCall(BEARISH, cct)), Some(signal))
          else (None, Some(signal))
  }

  /** The calls of a run of iterations, one entry per iteration, and the last live signal. */
  function LiveRun(last0: Option<string>, xs: seq<LiveSample>, bothDirections: bool)
      : (r: (seq<Option<TradeCall>>, Option<string>))
    ensures |r.0| == |xs|
  {
    if |xs| == 0 then ([], last0)
    else
      var before := LiveRun(last0, xs[..|xs| - 1], bothDirections);
      var step := LiveStep(before.1, xs[|xs| - 1], bothDirections);
      (before.0 + [step.0], step.1)
  }

  function CallCount(calls: seq<Option<TradeCall>>): nat
  {
    if |calls| == 0 then 0
    else CallCount(calls[..|calls| - 1]) + (if calls[|calls| - 1].Some? then 1 else 0)
  }

  /**
   * As written, only upward crossings are detected, and once one has been
   * seen every later one equals the last live signal: the loop calls the
   * strategy at most once over its whole life, and only to buy.
   */
  lemma {:induction false} AsWrittenTradesAtMostOnce(xs: seq<LiveSample>)
    ensures var r := LiveRun(None, xs, false);
      (r.1 == None && CallCount(r.0) == 0) || (r.1 == Some(BULLISH_CROSS) && CallCount(r.0) <= 1)
    ensures forall k :: 0 <= k < |xs| && LiveRun(None, xs, false).0[k].Some? ==>
      LiveRun(None, xs, false).0[k].value.direction == BULLISH
    decreases |xs|
  {
    if |xs| > 0 {
      var init := xs[..|xs| - 1];
      AsWrittenTradesAtMostOnce(init);
      var before := LiveRun(None, init, false);
      var calls := LiveRun(None, xs, false).0;
      assert calls[..|calls| - 1] == before.0;
      var x := xs[|xs| - 1];
      DefaultDetectionIsBullishOnly(if x.averages.Some? then x.averages.value.0 else [],
                                    if x.averages.Some? then x.averages.value.1 else []);
      forall k | 0 <= k < |xs| && calls[k].Some?
        ensures calls[k].value.direction == BULLISH
      {
        if k < |xs| - 1 {
          assert calls[k] == before.0[k];
        }
      }
    }
  }

  function UpSample(cct: int): LiveSample
  {
    LiveSample(Some(([1.0, 2.0], [2.0, 1.0])), Ok((2.0, 1.0)), Ok(cct))
  }

  function DownSample(cct: int): LiveSample
  {
    LiveSample(Some(([2.0, 1.0], [1.0, 2.0])), Ok((1.0, 2.0)), Ok(cct))
  }

  /**
   * Up, down, up, each with an agreeing trend: as written the strategy is
   * called once; detecting both directions calls it for every crossing.
   */
  lemma AsWrittenMissesLaterCrossings()
    ensures CallCount(LiveRun(None, [UpSample(1), DownSample(2), UpSample(3)], false).0) == 1
    ensures LiveRun(None, [UpSample(1), DownSample(2), UpSample(3)], true).0 ==
      [Some(TradeCall(BULLISH, 1)), Some(TradeCall(BEARISH, 2)), Some(TradeCall(BULLISH, 3))]
  {
    var up1, down2, up3 := Some(TradeCall(BULLISH, 1)), Some(TradeCall(BEARISH, 2)), Some(TradeCall(BULLISH, 3));
    var xs := [UpSample(1), DownSample(2), UpSample(3)];
    assert xs[..2][..1][..0] == [];
    assert SampleCross(UpSample(1), false) == Some(BULLISH_CROSS);
    assert SampleCross(DownSample(2), false) == None;
    assert SampleCross(DownSample(2), true) == Some(BEARISH_CROSS);
    assert SampleCross(UpSample(3), false) == Some(BULLISH_CROSS);
    assert LiveRun(None, xs[..2][..1], false) == ([] + [up1], Some(BULLISH_CROSS));
    assert LiveRun(None, xs[..2], false) == ([] + [up1] + [None], Some(BULLISH_CROSS));
    var w := [] + [up1] + [None] + [None];
    assert LiveRun(None, xs, false).0 == w;
    assert w[..2] == [up1, None] && w[..2][..1] == [up1] && [up1][..0] == [];
    assert CallCount([up1]) == 1;
    assert CallCount(w[..2]) == 1;
    assert LiveRun(None, xs[..2][..1], true) == ([] + [up1], Some(BULLISH_CROSS));
    assert LiveRun(None, xs[..2], true) == ([] + [up1] + [down2], Some(BEARISH_CROSS));
    assert LiveRun(None, xs, true).0 == [] + [up1] + [down2] + [up3];
  }

  /** The most recent crossing among the iterations that got as far as detecting one. */
  function LatestCross(xs: seq<LiveSample>): Option<string>
  {
    if |xs| == 0 then None
    else
      match SampleCross(xs[|xs| - 1], true)
      case Some(s) => Some(s)
      case None => LatestCross(xs[..|xs| - 1])
  }

  /**
   * Detecting both directions, the last live signal is the most recent
   * crossing, and an iteration calls the strategy exactly when its crossing
   * differs from that most recent one and the trend agrees.
   */
  lemma {:induction false} CorrectedFollowsEveryNewCross(xs: seq<LiveSample>)
    ensures LiveRun(None, xs, true).1 == LatestCross(xs)
    ensures forall k :: 0 <= k < |xs| ==>
      (LiveRun(None, xs, true).0[k].Some? <==>
        SampleCross(xs[k], true).Some? && SampleCross(xs[k], true) != LatestCross(xs[..k]) &&
        Aligned(SampleCross(xs[k], true).value, xs[k].trend.value) && xs[k].candleCloseTime.Ok?)
    decreases |xs|
  {
    if |xs| > 0 {
      var init := xs[..|xs| - 1];
      CorrectedFollowsEveryNewCross(init);
      var calls := LiveRun(None, xs, true).0;
      var before := LiveRun(None, init, true);
      assert calls[..|calls| - 1] == before.0;
      forall k | 0 <= k < |xs| - 1
        ensures calls[k] == before.0[k] && xs[..k] == init[..k] && xs[k] == init[k]
      {
      }
      assert xs[..|xs| - 1] == init;
    }
  }

  /**
   * `ema_live_watch_loop` over a finite run of iterations, with crossings
   * detected in both directions.
   */
  method LiveWatchLoop(xs: seq<LiveSample>) returns (calls: seq<Option<TradeCall>>, last: Option<string>)
    ensures (calls, last) == LiveRun(None, xs, true)
  {
    calls, last := [], None;
    var i := 0;
    while i < |xs|
      invariant 0 <= i <= |xs|
      invariant (calls, last) == LiveRun(None, xs[..i], true)
    {
      assert xs[..i + 1][..i] == xs[..i];
      var x := xs[i];
      var call: Option<TradeCall> := None;
      if x.averages.Some? && x.trend.Ok? {
        var signal := DetectEitherCross(x.averages.value.0, x.averages.value.1);
        if signal.Some? && signal != last {
          last := signal;
          if x.candleCloseTime.Ok? {
            var trend := x.trend.value;
            if signal.value == BULLISH_CROSS && trend.0 > trend.1 {
              call := Some(TradeCall(BULLISH, x.candleCloseTime.value));
            } else if signal.value == BEARISH_CROSS && trend.0 < trend.1 {
              call := Some(TradeCall(BEARISH, x.candleCloseTime.value));
            }
          }
        }
      }
      calls := calls + [call];
      i := i + 1;
    }
    assert xs[..i] == xs;
  }
}
