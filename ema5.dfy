/**
 * The EMA20/EMA50 crossing alert: a startup classification of the trend,
 * then a loop that alerts on a crossing only when its kind differs from
 * the last one alerted.
 */
module Ema5 {
  import opened Wrappers
  import opened Attempts
  import opened Indicators

  /** The kind of a crossing message ("haussier" / "baissier"). */
  datatype CrossKind = Haussier | Baissier

  /**
   * `detect_cross` on the two average columns of one frame: the kind of a
   * strict crossing over the last two rows, or nothing.
   */
  function DetectCross(ema20: seq<real>, ema50: seq<real>): (r: Option<CrossKind>)
    ensures r == Some(Haussier) <==> HasTwo(ema20, ema50) && CrossedUp(ema20, ema50)
    ensures r == Some(Baissier) <==> HasTwo(ema20, ema50) && CrossedDown(ema20, ema50)
  {
    if |ema20| < 2 || |ema50| < 2 then None
    else if Prev(ema20) < Prev(ema50) && Last(ema20) > Last(ema50) then Some(Haussier)
    else if Prev(ema20) > Prev(ema50) && Last(ema20) < Last(ema50) then Some(Baissier)
    else None
  }

  /**
   * The kind remembered at startup from the last (EMA20, EMA50) pair:
   * equality counts as falling, and a failed check remembers nothing.
   */
  function StartupKind(startup: Attempt<(real, real)>): (r: Option<CrossKind>)
    ensures r.None? <==> startup.Fail?
    ensures startup.Ok? ==> (r == Some(Haussier) <==> startup.value.0 > startup.value.1)
    ensures startup.Ok? ==> (r == Some(Baissier) <==> startup.value.0 <= startup.value.1)
  {
    match startup
    case Fail(_) => None
    case Ok((cur20, cur50)) => if cur20 > cur50 then Some(Haussier) else Some(Baissier)
  }

  /** The two average columns of one fetched frame. */
  datatype Frame = Frame(ema20: seq<real>, ema50: seq<real>)

  /** One iteration: the kind alerted, if any, and the new last kind. */
  function AlertStep(last: Option<CrossKind>, sample: Attempt<Frame>): (r: (Option<CrossKind>, Option<CrossKind>))
    ensures sample.Fail? ==> r == (None, last)
    ensures sample.Ok? ==>
      var kind := DetectCross(sample.value.ema20, sample.value.ema50);
      r.0 == (if kind.Some? && kind != last then kind else None)
    ensures r.0.Some? ==> r.1 == r.0 && r.0 != last
    ensures r.0.None? ==> r.1 == last
  {
    match sample
    case Fail(_) => (None, last)
    case Ok(f) =>
      var kind := DetectCross(f.ema20, f.ema50);
      if kind.Some? && kind != last then (kind, kind) else (None, last)
  }

  /** The kinds alerted over a run of iterations, and the last kind afterwards. */
  function AlertRun(last0: Option<CrossKind>, samples: seq<Attempt<Frame>>): (r: (seq<CrossKind>, Option<CrossKind>))
  {
    if |samples| == 0 then ([], last0)
    else
      var before := AlertRun(last0, samples[..|samples| - 1]);
      var step := AlertStep(before.1, samples[|samples| - 1]);
      (before.0 + (if step.0.Some? then [step.0.value] else []), step.1)
  }

  /**
   * Two consecutive alerts never share a kind, the first differs from the
   * kind remembered at startup, and the last kind is the latest alert.
   */
  lemma {:induction false} AlertsAlternate(last0: Option<CrossKind>, samples: seq<Attempt<Frame>>)
    ensures var r := AlertRun(last0, samples);
      (forall k :: 0 <= k < |r.0| - 1 ==> r.0[k] != r.0[k + 1]) &&
      (|r.0| > 0 ==> Some(r.0[0]) != last0) &&
      r.1 == (if |r.0| == 0 then last0 else Some(r.0[|r.0| - 1]))
    decreases |samples|
  {
    if |samples| > 0 {
      AlertsAlternate(last0, samples[..|samples| - 1]);
    }
  }

  /** After a failed startup check, the first crossing of either kind is alerted. */
  lemma FirstCrossAfterFailedStartup(startup: Attempt<(real, real)>, f: Frame)
    requires startup.Fail?
    requires DetectCross(f.ema20, f.ema50).Some?
    ensures AlertRun(StartupKind(startup), [Ok(f)]).0 == [DetectCross(f.ema20, f.ema50).value]
  {
    assert [Ok(f)][..0] == [];
  }

  /** `main` on a finite prefix of its endless loop. */
  method Monitor(startup: Attempt<(real, real)>, samples: seq<Attempt<Frame>>)
      returns (alerts: seq<CrossKind>, last: Option<CrossKind>)
    ensures (alerts, last) == AlertRun(StartupKind(startup), samples)
  {
    last := None;
    if startup.Ok? {
      if startup.value.0 > startup.value.1 {
        last := Some(Haussier);
      } else {
        last := Some(Baissier);
      }
    }
    alerts := [];
    var i := 0;
    while i < |samples|
      invariant 0 <= i <= |samples|
      invariant alerts == AlertRun(StartupKind(startup), samples[..i]).0
      invariant last == AlertRun(StartupKind(startup), samples[..i]).1
    {
      assert samples[..i + 1][..i] == samples[..i];
      if samples[i].Ok? {
        var message := DetectCross(samples[i].value.ema20, samples[i].value.ema50);
        if message.Some? && message != last {
          alerts := alerts + [message.value];
          last := message;
        }
      }
      i := i + 1;
    }
    assert samples[..i] == samples;
  }
}
