/**
 * Protective-order intents: the stop-loss and take-profit trigger prices
 * derived from an entry price and the configured percentages. Both the
 * initial protection pass and the supervision pass use these formulas.
 */
module Protection {
  import opened Rounding

  /** Stop trigger: below the entry for a long, above it for a short. */
  function StopLossPrice(entry: real, long: bool, slPct: real): real
  {
    if long then entry * (1.0 - slPct) else entry * (1.0 + slPct)
  }

  /** Take-profit trigger: above the entry for a long, below it for a short. */
  function TakeProfitPrice(entry: real, long: bool, tpPct: real): real
  {
    if long then entry * (1.0 + tpPct) else entry * (1.0 - tpPct)
  }

  /** The short formulas mirror the long ones around the entry price. */
  lemma ShortMirrorsLong(entry: real, slPct: real, tpPct: real)
    ensures StopLossPrice(entry, false, slPct) - entry == entry - StopLossPrice(entry, true, slPct)
    ensures TakeProfitPrice(entry, false, tpPct) - entry == entry - TakeProfitPrice(entry, true, tpPct)
  {}

  /**
   * With non-negative percentages and a non-negative entry, the rounded
   * stop of a long never lies above the rounded entry and the rounded
   * take-profit never below it; for a short the two are swapped. When the
   * entry itself lies on the tick grid, the rounded entry is the entry.
   */
  lemma RoundedTriggersBracketEntry(entry: real, slPct: real, tpPct: real, tick: real)
    requires tick > 0.0 && entry >= 0.0 && slPct >= 0.0 && tpPct >= 0.0
    ensures RoundToTick(StopLossPrice(entry, true, slPct), tick) <= RoundToTick(entry, tick)
    ensures RoundToTick(entry, tick) <= RoundToTick(TakeProfitPrice(entry, true, tpPct), tick)
    ensures RoundToTick(TakeProfitPrice(entry, false, tpPct), tick) <= RoundToTick(entry, tick)
    ensures RoundToTick(entry, tick) <= RoundToTick(StopLossPrice(entry, false, slPct), tick)
    ensures IsMultiple(entry, tick) ==> RoundToTick(entry, tick) == entry
  {
    assert entry * slPct >= 0.0 && entry * tpPct >= 0.0;
    RoundToTickMonotone(StopLossPrice(entry, true, slPct), entry, tick);
    RoundToTickMonotone(entry, TakeProfitPrice(entry, true, tpPct), tick);
    RoundToTickMonotone(TakeProfitPrice(entry, false, tpPct), entry, tick);
    RoundToTickMonotone(entry, StopLossPrice(entry, false, slPct), tick);
    if IsMultiple(entry, tick) {
      RoundToTickFixesMultiples(entry, tick);
    }
  }

  /** Entry 100, stop 2 %, take-profit 4 %, long, tick 0.01: triggers 98.00 and 104.00. */
  lemma OpenThenProtectScenario()
    ensures RoundToTick(StopLossPrice(100.0, true, 0.02), 0.01) == 98.0
    ensures RoundToTick(TakeProfitPrice(100.0, true, 0.04), 0.01) == 104.0
  {
    assert StopLossPrice(100.0, true, 0.02) / 0.01 + 0.5 == 9800.5;
    assert (9800.5).Floor == 9800;
    assert TakeProfitPrice(100.0, true, 0.04) / 0.01 + 0.5 == 10400.5;
    assert (10400.5).Floor == 10400;
  }
}
