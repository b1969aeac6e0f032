/**
 * The live EMA tracker: every sample classifies EMA20 against EMA50 and
 * reports any change of that relation since the previous processed sample.
 */
module EmaTracker {
  import opened Wrappers
  import opened Attempts
  import opened Indicators

  /** Closes needed before a sample is processed. */
  const MIN_CLOSES: nat := 50

  /** What one iteration fetched: the closes and the last values of the two averages. */
  datatype TrackerSample = TrackerSample(closes: seq<real>, ema20: real, ema50: real)

  /** The sample is fetched and long enough to be classified. */
  predicate Processed(x: Attempt<TrackerSample>)
  {
    x.Ok? && |x.value.closes| >= MIN_CLOSES
  }

  /**
   * One iteration: the relation it reports, if any (the report's message
   * kind), and the new last relation.
   */
  function TrackStep(last: Option<Relation>, x: Attempt<TrackerSample>): (r: (Option<Relation>, Option<Relation>))
    ensures !Processed(x) ==> r == (None, last)
    ensures Processed(x) ==> r.1 == Some(RelationOf(x.value.ema20, x.value.ema50))
    ensures r.0.Some? <==> Processed(x) && last.Some? && last != Some(RelationOf(x.value.ema20, x.value.ema50))
    ensures r.0.Some? ==> r.0 == r.1
  {
    if !Processed(x) then (None, last)
    else
      var current := RelationOf(x.value.ema20, x.value.ema50);
      if last.Some? && last.value != current then (Some(current), Some(current))
      else (None, Some(current))
  }

  /** The reports of a run, one entry per iteration, and the last relation afterwards. */
  function TrackRun(last0: Option<Relation>, xs: seq<Attempt<TrackerSample>>): (r: (seq<Option<Relation>>, Option<Relation>))
    ensures |r.0| == |xs|
  {
    if |xs| == 0 then ([], last0)
    else
      var before := TrackRun(last0, xs[..|xs| - 1]);
      var step := TrackStep(before.1, xs[|xs| - 1]);
      (before.0 + [step.0], step.1)
  }

  /** The relation of the most recent processed sample. */
  function LatestRelation(xs: seq<Attempt<TrackerSample>>): Option<Relation>
  {
    if |xs| == 0 then None
    else if Processed(xs[|xs| - 1]) then Some(RelationOf(xs[|xs| - 1].value.ema20, xs[|xs| - 1].value.ema50))
    else LatestRelation(xs[..|xs| - 1])
  }

  /**
   * The last relation is that of the latest processed sample, and a sample
   * is reported exactly when it is processed and its relation differs from
   * the latest processed one before it; in particular the first processed
   * sample is never reported.
   */
  lemma {:induction false} ReportsAreChanges(xs: seq<Attempt<TrackerSample>>)
    ensures TrackRun(None, xs).1 == LatestRelation(xs)
    ensures forall k :: 0 <= k < |xs| ==>
      (TrackRun(None, xs).0[k].Some? <==>
        Processed(xs[k]) && LatestRelation(xs[..k]).Some? &&
        LatestRelation(xs[..k]) != Some(RelationOf(xs[k].value.ema20, xs[k].value.ema50)))
    decreases |xs|
  {
    if |xs| > 0 {
      var init := xs[..|xs| - 1];
      ReportsAreChanges(init);
      var reports := TrackRun(None, xs).0;
      var before := TrackRun(None, init);
      assert reports[..|reports| - 1] == before.0;
      forall k | 0 <= k < |xs| - 1
        ensures reports[k] == before.0[k] && xs[..k] == init[..k] && xs[k] == init[k]
      {
      }
      assert xs[..|xs| - 1] == init;
    }
  }

  /**
   * `track_ema_live_crossing` on a finite prefix of its endless loop; a
   * sample that is not processed is skipped with `continue`.
   */
  method TrackLiveCrossing(xs: seq<Attempt<TrackerSample>>) returns (reports: seq<Option<Relation>>, last: Option<Relation>)
    ensures (reports, last) == TrackRun(None, xs)
  {
    reports, last := [], None;
    var i := 0;
    while i < |xs|
      invariant 0 <= i <= |xs|
      invariant (reports, last) == TrackRun(None, xs[..i])
    {
      assert xs[..i + 1][..i] == xs[..i];
      var x := xs[i];
      i := i + 1;
      if x.Fail? || |x.value.closes| < MIN_CLOSES {
        reports := reports + [None];
        continue;
      }
      var current := RelationOf(x.value.ema20, x.value.ema50);
      var report: Option<Relation> := None;
      if last.Some? && current != last.value {
        report := Some(current);
      }
      reports := reports + [report];
      last := Some(current);
    }
    assert xs[..i] == xs;
  }
}
