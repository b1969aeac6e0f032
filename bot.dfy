/**
 * The reconciliation and supervision passes of core/bot.py: one pass of
 * `monitor_position` and of `auto_set_sl_tp`, the manual-close watcher,
 * `retry_order`, the restart budget of `resilient_thread`, and the
 * capped exponential backoff of the main loop of `run_bot`.
 */
module Bot {
  import opened Wrappers
  import opened Attempts
  import opened Exchange
  import opened Rounding
  import opened Protection
  import opened BotConfig
  import opened State

  /** The snapshot written for a position found on the exchange. */
  function Adopted(p: Position): (s: Snapshot)
    ensures s.positionOpen && s.entryPrice == Some(p.entryPrice) && s.quantity == Some(Abs(p.positionAmt))
    ensures s.direction == Some(BULLISH) <==> p.positionAmt > 0.0
    ensures s.direction == Some(BEARISH) <==> p.positionAmt <= 0.0
  {
    Snapshot(true, Some(DirectionOfAmount(p.positionAmt)), Some(p.entryPrice), Some(Abs(p.positionAmt)))
  }

  /** Writes all four fields of the shared state at once. */
  method WriteSnapshot(st: BotState, s: Snapshot)
    modifies st
    ensures st.Snap() == s
  {
    st.positionOpen := s.positionOpen;
    st.currentDirection := s.direction;
    st.currentEntryPrice := s.entryPrice;
    st.currentQuantity := s.quantity;
  }

  // ---------------------------------------------------------------------
  // monitor_position
  // ---------------------------------------------------------------------

  /** The exchange answers of one pass: the position list and the open-order list. */
  datatype MonitorInputs = MonitorInputs(positions: Attempt<seq<Position>>, openOrders: Attempt<seq<Order>>)

  datatype MonitorResult = MonitorResult(snapshot: Snapshot, lastPositionAmt: Option<real>, notifiedManual: bool, error: Option<Error>)

  /**
   * One pass of `monitor_position`: the first open entry is adopted (with
   * the "opened manually" notice when the local state was not open);
   * with no open entry an open local state is reset and a flat one left
   * alone. A failing query ends the pass, keeping what was already written.
   */
  function MonitorStep(s: Snapshot, lastAmt: Option<real>, inp: MonitorInputs): (r: MonitorResult)
    ensures inp.positions.Fail? ==> r == MonitorResult(s, lastAmt, false, Some(inp.positions.error))
    ensures inp.positions.Ok? && (exists i :: 0 <= i < |inp.positions.value| && IsOpen(inp.positions.value[i])) ==>
              exists i :: 0 <= i < |inp.positions.value| && IsOpen(inp.positions.value[i]) &&
                (forall j :: 0 <= j < i ==> !IsOpen(inp.positions.value[j])) &&
                r.snapshot == Adopted(inp.positions.value[i]) &&
                (r.notifiedManual <==> !s.positionOpen) &&
                r.lastPositionAmt == (if inp.openOrders.Ok? then Some(inp.positions.value[i].positionAmt) else lastAmt) &&
                (r.error.Some? <==> inp.openOrders.Fail?)
    ensures inp.positions.Ok? && (forall i :: 0 <= i < |inp.positions.value| ==> !IsOpen(inp.positions.value[i])) ==>
              !r.notifiedManual && r.error.None? &&
              (s.positionOpen ==> r.snapshot == Flat && r.lastPositionAmt.None?) &&
              (!s.positionOpen ==> r.snapshot == s && r.lastPositionAmt == lastAmt)
  {
    match inp.positions
    case Fail(e) => MonitorResult(s, lastAmt, false, Some(e))
    case Ok(ps) =>
      match FirstOpenIndex(ps)
      case Some(i) =>
        var s1 := Adopted(ps[i]);
        if inp.openOrders.Fail? then MonitorResult(s1, lastAmt, !s.positionOpen, Some(inp.openOrders.error))
        else MonitorResult(s1, Some(ps[i].positionAmt), !s.positionOpen, None)
      case None =>
        if s.positionOpen then MonitorResult(Flat, None, false, None)
        else MonitorResult(s, lastAmt, false, None)
  }

  /** Two passes over the same exchange answers leave the same state as one, and the second is silent. */
  lemma MonitorIdempotent(s: Snapshot, lastAmt: Option<real>, inp: MonitorInputs)
    ensures var r1 := MonitorStep(s, lastAmt, inp);
            var r2 := MonitorStep(r1.snapshot, r1.lastPositionAmt, inp);
            r2.snapshot == r1.snapshot && r2.lastPositionAmt == r1.lastPositionAmt && !r2.notifiedManual
  {
    var r1 := MonitorStep(s, lastAmt, inp);
    if inp.positions.Ok? {
      HasOpenPositionIff(inp.positions.value);
      if HasOpenPosition(inp.positions.value) {
        assert r1.snapshot.positionOpen;
      }
    }
  }

  /** The loop state of `monitor_position` kept across passes. */
  class PositionMonitor {
    var lastPositionAmt: Option<real>

    constructor ()
      ensures lastPositionAmt.None?
    {
      lastPositionAmt := None;
    }

    /** One pass: the `for pos in positions` loop with its `detected` flag and `break`. */
    method Pass(st: BotState, inp: MonitorInputs) returns (notified: bool, error: Option<Error>)
      modifies this, st
      ensures MonitorStep(old(st.Snap()), old(lastPositionAmt), inp) ==
              MonitorResult(st.Snap(), lastPositionAmt, notified, error)
    {
      if inp.positions.Fail? {
        return false, Some(inp.positions.error);
      }
      var ps := inp.positions.value;
      var detected := false;
      notified, error := false, None;
      var i := 0;
      while i < |ps|
        invariant 0 <= i <= |ps|
        invariant forall j :: 0 <= j < i ==> !IsOpen(ps[j])
        invariant st.Snap() == old(st.Snap()) && lastPositionAmt == old(lastPositionAmt)
      {
        if IsOpen(ps[i]) {
          detected := true;
          FirstOpenIsLeast(ps, i);
          notified := !st.positionOpen;
          WriteSnapshot(st, Adopted(ps[i]));
          if inp.openOrders.Fail? {
            return notified, Some(inp.openOrders.error);
          }
          lastPositionAmt := Some(ps[i].positionAmt);
          break;
        }
        i := i + 1;
      }
      if !detected {
        assert FirstOpenIndex(ps).None?;
        if st.positionOpen {
          st.ResetAll();
          lastPositionAmt := None;
        }
      }
    }
  }

  // ---------------------------------------------------------------------
  // auto_set_sl_tp
  // ---------------------------------------------------------------------

  /**
   * The exchange answers of one pass: positions, the leverage listed in the
   * account for the symbol (`None` when it is not listed), the leverage
   * call, the price precision, and the open orders.  The answer to the
   * leverage call changes nothing: a failure is only logged and reported
   * (core/bot.py:116-118), and the pass goes on to record the requested
   * leverage either way.
   */
  datatype AutoInputs = AutoInputs(
    positions: Attempt<seq<Position>>,
    accountLeverage: Attempt<Option<int>>,
    leverageChange: Attempt<()>,
    precision: Attempt<int>,
    openOrders: Attempt<seq<Order>>)

  datatype AutoResult = AutoResult(
    snapshot: Snapshot,
    requests: seq<Request>,
    lastBotTp: Option<real>,
    lastBotSl: Option<real>,
    error: Option<Error>)

  /** The take-profit trigger of a signed amount, rounded to `precision` decimals. */
  function AutoTakeProfit(p: Position, precision: int, cfg: Config): real
  {
    RoundToTick(TakeProfitPrice(p.entryPrice, p.positionAmt > 0.0, cfg.takeProfitPct), DecimalUnit(precision))
  }

  function AutoStopLoss(p: Position, precision: int, cfg: Config): real
  {
    RoundToTick(StopLossPrice(p.entryPrice, p.positionAmt > 0.0, cfg.stopLossPct), DecimalUnit(precision))
  }

  /** The leverage request of core/bot.py:106-113, made when the account query answers. */
  function LeverageRequests(inp: AutoInputs, cfg: Config): seq<Request>
  {
    if inp.accountLeverage.Ok? then [ChangeLeverage(inp.accountLeverage.value.GetOr(cfg.defaultLeverage))] else []
  }

  /** What the handling of one open entry does, from the snapshot it writes on. */
  function HandleOpen(p: Position, tp0: Option<real>, sl0: Option<real>, inp: AutoInputs, cfg: Config): (r: AutoResult)
  {
    var lev := LeverageRequests(inp, cfg);
    match inp.precision
    case Fail(e) => AutoResult(Adopted(p), lev, tp0, sl0, Some(e))
    case Ok(prec) =>
      match inp.openOrders
      case Fail(e) => AutoResult(Adopted(p), lev, tp0, sl0, Some(e))
      case Ok(orders) =>
        var side := CloseSide(DirectionOfAmount(p.positionAmt));
        var tp := AutoTakeProfit(p, prec, cfg);
        var sl := AutoStopLoss(p, prec, cfg);
        var placeTp := !HasClosingOrder(orders, TakeProfitMarket, side);
        var placeSl := !HasClosingOrder(orders, StopMarket, side);
        AutoResult(Adopted(p),
                   lev + (if placeTp then [ProtectiveOrder(side, TakeProfitMarket, tp)] else [])
                       + (if placeSl then [ProtectiveOrder(side, StopMarket, sl)] else []),
                   if placeTp then Some(tp) else tp0,
                   if placeSl then Some(sl) else sl0,
                   None)
  }

  /**
   * One pass of `auto_set_sl_tp`: only the first open entry is handled;
   * its take-profit, then its stop-loss, is placed on the closing side
   * exactly when no matching closing order exists, and only then is
   * `last_bot_tp` / `last_bot_sl` recorded. With no open entry the shared
   * state is set flat.
   */
  function AutoStep(s: Snapshot, tp0: Option<real>, sl0: Option<real>, inp: AutoInputs, cfg: Config): (r: AutoResult)
    ensures inp.positions.Fail? ==> r == AutoResult(s, [], tp0, sl0, Some(inp.positions.error))
    ensures inp.positions.Ok? && (forall i :: 0 <= i < |inp.positions.value| ==> !IsOpen(inp.positions.value[i])) ==>
              r == AutoResult(Flat, [], tp0, sl0, None)
    ensures inp.positions.Ok? && (exists i :: 0 <= i < |inp.positions.value| && IsOpen(inp.positions.value[i])) ==>
              exists i :: 0 <= i < |inp.positions.value| && IsOpen(inp.positions.value[i]) &&
                (forall j :: 0 <= j < i ==> !IsOpen(inp.positions.value[j])) &&
                AutoHandles(inp.positions.value[i], tp0, sl0, inp, cfg, r)
  {
    match inp.positions
    case Fail(e) => AutoResult(s, [], tp0, sl0, Some(e))
    case Ok(ps) =>
      match FirstOpenIndex(ps)
      case None => AutoResult(Flat, [], tp0, sl0, None)
      case Some(i) =>
        HandleOpenMeaning(ps[i], tp0, sl0, inp, cfg);
        HandleOpen(ps[i], tp0, sl0, inp, cfg)
  }

  /** The promises of the handling of the open entry `p` with result `r`. */
  predicate AutoHandles(p: Position, tp0: Option<real>, sl0: Option<real>, inp: AutoInputs, cfg: Config, r: AutoResult)
  {
    var side := CloseSide(DirectionOfAmount(p.positionAmt));
    r.snapshot == Adopted(p) &&
    (side == Sell <==> p.positionAmt > 0.0) &&
    (r.error.Some? <==> inp.precision.Fail? || inp.openOrders.Fail?) &&
    LeverageRequests(inp, cfg) <= r.requests &&
    (r.error.Some? ==> r.requests == LeverageRequests(inp, cfg) && r.lastBotTp == tp0 && r.lastBotSl == sl0) &&
    (r.error.None? ==>
       var orders := inp.openOrders.value;
       var prec := inp.precision.value;
       var placed := r.requests[|LeverageRequests(inp, cfg)|..];
       var placeTp := !HasClosingOrder(orders, TakeProfitMarket, side);
       var placeSl := !HasClosingOrder(orders, StopMarket, side);
       placed == (if placeTp then [ProtectiveOrder(side, TakeProfitMarket, AutoTakeProfit(p, prec, cfg))] else []) +
                 (if placeSl then [ProtectiveOrder(side, StopMarket, AutoStopLoss(p, prec, cfg))] else []) &&
       r.lastBotTp == (if placeTp then Some(AutoTakeProfit(p, prec, cfg)) else tp0) &&
       r.lastBotSl == (if placeSl then Some(AutoStopLoss(p, prec, cfg)) else sl0) &&
       (ProtectiveOrder(side, TakeProfitMarket, AutoTakeProfit(p, prec, cfg)) in placed <==>
          !HasClosingOrder(orders, TakeProfitMarket, side)) &&
       (ProtectiveOrder(side, StopMarket, AutoStopLoss(p, prec, cfg)) in placed <==>
          !HasClosingOrder(orders, StopMarket, side)) &&
       |placed| <= 2 &&
       (forall q :: q in placed ==> q.ProtectiveOrder? && q.side == side) &&
       (r.lastBotTp != tp0 ==> r.lastBotTp == Some(AutoTakeProfit(p, prec, cfg)) && !HasClosingOrder(orders, TakeProfitMarket, side)) &&
       (r.lastBotSl != sl0 ==> r.lastBotSl == Some(AutoStopLoss(p, prec, cfg)) && !HasClosingOrder(orders, StopMarket, side)))
  }

  lemma HandleOpenMeaning(p: Position, tp0: Option<real>, sl0: Option<real>, inp: AutoInputs, cfg: Config)
    ensures AutoHandles(p, tp0, sl0, inp, cfg, HandleOpen(p, tp0, sl0, inp, cfg))
  {
    var r := HandleOpen(p, tp0, sl0, inp, cfg);
    if r.error.None? {
      var side := CloseSide(DirectionOfAmount(p.positionAmt));
      var orders := inp.openOrders.value;
      var prec := inp.precision.value;
      Placements(LeverageRequests(inp, cfg), side, AutoTakeProfit(p, prec, cfg), AutoStopLoss(p, prec, cfg),
                 !HasClosingOrder(orders, TakeProfitMarket, side), !HasClosingOrder(orders, StopMarket, side));
    }
  }

  /** The requests placed after the leverage request: a take-profit, then a stop, each only when asked for. */
  lemma Placements(lev: seq<Request>, side: Side, tp: real, sl: real, placeTp: bool, placeSl: bool)
    ensures var tpq := if placeTp then [ProtectiveOrder(side, TakeProfitMarket, tp)] else [];
      var slq := if placeSl then [ProtectiveOrder(side, StopMarket, sl)] else [];
      var placed := (lev + tpq + slq)[|lev|..];
      lev <= lev + tpq + slq &&
      placed == tpq + slq &&
      (ProtectiveOrder(side, TakeProfitMarket, tp) in placed <==> placeTp) &&
      (ProtectiveOrder(side, StopMarket, sl) in placed <==> placeSl) &&
      |placed| <= 2 &&
      (forall q :: q in placed ==> q.ProtectiveOrder? && q.side == side)
  {
    var tpq := if placeTp then [ProtectiveOrder(side, TakeProfitMarket, tp)] else [];
    var slq := if placeSl then [ProtectiveOrder(side, StopMarket, sl)] else [];
    assert (lev + tpq + slq)[|lev|..] == tpq + slq;
  }

  /**
   * Where both passes see an open entry they write the same state; with
   * no open entry, both leave an open state flat.
   */
  lemma PassesAgree(s: Snapshot, lastAmt: Option<real>, tp0: Option<real>, sl0: Option<real>,
                    ps: seq<Position>, mOrders: Attempt<seq<Order>>, inp: AutoInputs, cfg: Config)
    requires inp.positions == Ok(ps)
    ensures HasOpenPosition(ps) || s.positionOpen ==>
              MonitorStep(s, lastAmt, MonitorInputs(Ok(ps), mOrders)).snapshot == AutoStep(s, tp0, sl0, inp, cfg).snapshot
  {
    HasOpenPositionIff(ps);
    if HasOpenPosition(ps) {
      var i := FirstOpenIndex(ps).value;
      HandleOpenMeaning(ps[i], tp0, sl0, inp, cfg);
    }
  }

  /** The supervision globals written by `auto_set_sl_tp`. */
  class BotGlobals {
    var lastBotTp: Option<real>
    var lastBotSl: Option<real>

    constructor ()
      ensures lastBotTp.None? && lastBotSl.None?
    {
      lastBotTp := None;
      lastBotSl := None;
    }

    /** The handling of the entry `p` once `position_handled` is set. */
    method Handle(st: BotState, p: Position, inp: AutoInputs, cfg: Config) returns (requests: seq<Request>, error: Option<Error>)
      modifies this, st
      ensures HandleOpen(p, old(lastBotTp), old(lastBotSl), inp, cfg) == AutoResult(st.Snap(), requests, lastBotTp, lastBotSl, error)
    {
      requests := LeverageRequests(inp, cfg);
      WriteSnapshot(st, Adopted(p));
      if inp.precision.Fail? {
        return requests, Some(inp.precision.error);
      }
      if inp.openOrders.Fail? {
        return requests, Some(inp.openOrders.error);
      }
      var side := CloseSide(DirectionOfAmount(p.positionAmt));
      var tp := AutoTakeProfit(p, inp.precision.value, cfg);
      var sl := AutoStopLoss(p, inp.precision.value, cfg);
      var hasTp := HasClosingOrder(inp.openOrders.value, TakeProfitMarket, side);
      var hasSl := HasClosingOrder(inp.openOrders.value, StopMarket, side);
      if !hasTp {
        requests := requests + [ProtectiveOrder(side, TakeProfitMarket, tp)];
        lastBotTp := Some(tp);
      }
      if !hasSl {
        requests := requests + [ProtectiveOrder(side, StopMarket, sl)];
        lastBotSl := Some(sl);
      }
      error := None;
    }

    /** One pass: the loop over the positions with its `position_handled` flag. */
    method AutoSetSlTpPass(st: BotState, inp: AutoInputs, cfg: Config) returns (requests: seq<Request>, error: Option<Error>)
      modifies this, st
      ensures AutoStep(old(st.Snap()), old(lastBotTp), old(lastBotSl), inp, cfg) ==
              AutoResult(st.Snap(), requests, lastBotTp, lastBotSl, error)
    {
      if inp.positions.Fail? {
        return [], Some(inp.positions.error);
      }
      var ps := inp.positions.value;
      var positionHandled := false;
      requests, error := [], None;
      var i := 0;
      while i < |ps|
        invariant 0 <= i <= |ps|
        invariant !positionHandled ==> forall j :: 0 <= j < i ==> !IsOpen(ps[j])
        invariant !positionHandled ==> st.Snap() == old(st.Snap()) && lastBotTp == old(lastBotTp) && lastBotSl == old(lastBotSl) && requests == []
        invariant positionHandled ==>
                    FirstOpenIndex(ps).Some? &&
                    HandleOpen(ps[FirstOpenIndex(ps).value], old(lastBotTp), old(lastBotSl), inp, cfg) ==
                    AutoResult(st.Snap(), requests, lastBotTp, lastBotSl, error)
        invariant error.Some? ==> positionHandled
      {
        if IsOpen(ps[i]) && !positionHandled {
          positionHandled := true;
          FirstOpenIsLeast(ps, i);
          requests, error := Handle(st, ps[i], inp, cfg);
          if error.Some? {
            return;
          }
        }
        i := i + 1;
      }
      if !positionHandled {
        assert FirstOpenIndex(ps).None?;
        st.ResetAll();
      }
    }
  }

  // ---------------------------------------------------------------------
  // manual_close_watcher
  // ---------------------------------------------------------------------

  /** What one poll of `manual_close_watcher` does. */
  datatype WatchStep = WatchStep(closeCalled: bool, errorNotified: bool, requestCleared: bool)

  /**
   * One poll: when the request file exists the position is closed, a close
   * that raises is only reported, and the request is cleared either way.
   */
  function ManualCloseWatch(requested: bool, close: Attempt<()>): (r: WatchStep)
    ensures r.closeCalled <==> requested
    ensures r.requestCleared <==> requested
    ensures r.errorNotified <==> requested && close.Fail?
  {
    if requested then WatchStep(true, close.Fail?, true) else WatchStep(false, false, false)
  }

  // ---------------------------------------------------------------------
  // retry_order and resilient_thread
  // ---------------------------------------------------------------------

  /**
   * `retry_order` of core/bot.py: at most `maxRetries` calls; the first
   * success is returned; after the last failure the error is reported and
   * nothing is returned instead of raising.
   */
  method RetryOrder<T>(op: nat -> Attempt<T>, maxRetries: nat) returns (r: Option<T>, calls: nat, notified: bool)
    ensures calls <= maxRetries
    ensures r.Some? <==> FirstOk(op, maxRetries).Some?
    ensures r.Some? ==> op(FirstOk(op, maxRetries).value) == Ok(r.value) && calls == FirstOk(op, maxRetries).value + 1
    ensures notified <==> maxRetries > 0 && FirstOk(op, maxRetries).None?
    ensures r.None? ==> calls == maxRetries
  {
    calls, notified := 0, false;
    var attempt := 0;
    while attempt < maxRetries
      invariant 0 <= attempt <= maxRetries
      invariant maxRetries > 0 ==> attempt < maxRetries
      invariant calls == attempt && !notified
      invariant forall j :: 0 <= j < attempt ==> op(j).Fail?
    {
      calls := calls + 1;
      match op(attempt)
      case Ok(v) =>
        assert FirstOk(op, maxRetries).Some?;
        FirstOkIsLeast(op, maxRetries, attempt);
        return Some(v), calls, false;
      case Fail(_) =>
        if attempt == maxRetries - 1 {
          notified := true;
          return None, calls, notified;
        }
      attempt := attempt + 1;
    }
    r := None;
  }

  /** The failure count after which `resilient_thread` stops restarting. */
  const MAX_RESTARTS: nat := 10

  /**
   * The wrapper of `resilient_thread`: `run(k)` is the outcome of the k-th
   * run of the target (a normal return or a crash). The target is re-run
   * after each crash until it returns, and the wrapper gives up once more
   * than `MAX_RESTARTS` crashes have happened.
   */
  method ResilientRun(run: nat -> Attempt<()>) returns (runs: nat, gaveUp: bool)
    ensures 1 <= runs <= MAX_RESTARTS + 1
    ensures FirstOk(run, MAX_RESTARTS + 1).Some? ==> runs == FirstOk(run, MAX_RESTARTS + 1).value + 1 && !gaveUp
    ensures FirstOk(run, MAX_RESTARTS + 1).None? ==> runs == MAX_RESTARTS + 1 && gaveUp
    ensures gaveUp <==> forall k :: 0 <= k < MAX_RESTARTS + 1 ==> run(k).Fail?
  {
    var retries := 0;
    runs := 0;
    while true
      invariant 0 <= retries <= MAX_RESTARTS && runs == retries
      invariant forall j :: 0 <= j < runs ==> run(j).Fail?
      decreases MAX_RESTARTS - retries
    {
      runs := runs + 1;
      if run(runs - 1).Ok? {
        FirstOkIsLeast(run, MAX_RESTARTS + 1, runs - 1);
        return runs, false;
      }
      retries := retries + 1;
      if retries > MAX_RESTARTS {
        return runs, true;
      }
    }
  }

  // ---------------------------------------------------------------------
  // The main loop of run_bot
  // ---------------------------------------------------------------------

  const INITIAL_BACKOFF: nat := 5
  const MAX_BACKOFF: nat := 60

  /**
   * One iteration of the main loop: whether the stop file exists, whether
   * a manual close is requested, the shared `position_open` flag read at
   * that moment, and whether the iteration raised (after its close step).
   */
  datatype Iteration = Iteration(stopFile: bool, manualCloseRequested: bool, positionOpen: bool, crashed: bool)

  function Min(a: nat, b: nat): nat
  {
    if a <= b then a else b
  }

  /** The backoff after the iterations `its`, none of which saw the stop file. */
  function BackoffAfter(its: seq<Iteration>): nat
  {
    if its == [] then INITIAL_BACKOFF
    else if its[|its| - 1].crashed then Min(MAX_BACKOFF, 2 * BackoffAfter(its[..|its| - 1]))
    else INITIAL_BACKOFF
  }

  /** The sleeps taken after the crashed iterations of `its`, in order. */
  function Waits(its: seq<Iteration>): seq<nat>
  {
    if its == [] then []
    else Waits(its[..|its| - 1]) + (if its[|its| - 1].crashed then [BackoffAfter(its[..|its| - 1])] else [])
  }

  /** The number of close calls made by the iterations `its`. */
  function Closes(its: seq<Iteration>): nat
  {
    if its == [] then 0
    else Closes(its[..|its| - 1]) + (if its[|its| - 1].manualCloseRequested && its[|its| - 1].positionOpen then 1 else 0)
  }

  /** The index of the first iteration that sees the stop file, or the length. */
  function StopIndex(its: seq<Iteration>): (n: nat)
    ensures n <= |its|
    ensures n < |its| ==> its[n].stopFile
    ensures forall k :: 0 <= k < n ==> !its[k].stopFile
  {
    if its == [] then 0
    else if its[0].stopFile then 0
    else 1 + StopIndex(its[1..])
  }

  /** Two to the power `k`, the doubling factor of the backoff's closed form. */
  function Pow2(k: nat): (r: nat)
    ensures r >= 1
  {
    if k == 0 then 1 else 2 * Pow2(k - 1)
  }

  /**
   * The number of crashed iterations at the end of `its`: the last `k`
   * iterations crashed, and the one before them (if any) did not.
   */
  function TrailingCrashes(its: seq<Iteration>): (k: nat)
    ensures k <= |its|
    ensures forall j :: |its| - k <= j < |its| ==> its[j].crashed
    ensures k < |its| ==> !its[|its| - k - 1].crashed
  {
    if its == [] || !its[|its| - 1].crashed then 0 else 1 + TrailingCrashes(its[..|its| - 1])
  }

  /** The backoff is `min(60, 5 * 2^k)` after `k` consecutive crashes. */
  lemma {:induction false} BackoffClosedForm(its: seq<Iteration>)
    ensures BackoffAfter(its) == Min(MAX_BACKOFF, INITIAL_BACKOFF * Pow2(TrailingCrashes(its)))
  {
    if its != [] && its[|its| - 1].crashed {
      var before := its[..|its| - 1];
      BackoffClosedForm(before);
      var k := TrailingCrashes(before);
      assert TrailingCrashes(its) == k + 1;
      assert Pow2(k + 1) == 2 * Pow2(k);
    }
  }

  /** The backoff only ever takes the values 5, 10, 20, 40 and 60. */
  lemma {:induction false} BackoffValues(its: seq<Iteration>)
    ensures BackoffAfter(its) in {5, 10, 20, 40, 60}
  {
    if its != [] && its[|its| - 1].crashed {
      BackoffValues(its[..|its| - 1]);
    }
  }

  /** Every sleep after a crash is one of those values. */
  lemma {:induction false} WaitValues(its: seq<Iteration>)
    ensures forall w :: w in Waits(its) ==> w in {5, 10, 20, 40, 60}
  {
    if its != [] {
      WaitValues(its[..|its| - 1]);
      BackoffValues(its[..|its| - 1]);
    }
  }

  /**
   * The loop of `run_bot` over the iterations `its`: it stops at the first
   * iteration that sees the stop file; a manual close is made when one is
   * requested while the position is open; a clean iteration resets the
   * backoff and a crashed one sleeps for it and doubles it up to the cap.
   */
  method RunBotLoop(its: seq<Iteration>) returns (backoff: nat, waits: seq<nat>, closes: nat, stopped: bool)
    ensures stopped <==> StopIndex(its) < |its|
    ensures backoff == BackoffAfter(its[..StopIndex(its)])
    ensures waits == Waits(its[..StopIndex(its)])
    ensures closes == Closes(its[..StopIndex(its)])
  {
    backoff, waits, closes, stopped := INITIAL_BACKOFF, [], 0, false;
    var i := 0;
    while i < |its|
      invariant 0 <= i <= StopIndex(its)
      invariant backoff == BackoffAfter(its[..i]) && waits == Waits(its[..i]) && closes == Closes(its[..i])
    {
      var it := its[i];
      if it.stopFile {
        stopped := true;
        break;
      }
      assert its[..i + 1][..i] == its[..i];
      if it.manualCloseRequested && it.positionOpen {
        closes := closes + 1;
      }
      if it.crashed {
        waits := waits + [backoff];
        backoff := Min(MAX_BACKOFF, backoff * 2);
      } else {
        backoff := INITIAL_BACKOFF;
      }
      i := i + 1;
    }
  }
}
