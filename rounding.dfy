/**
 * Rounding of prices and quantities to a grid. The source rounds with
 * Python's `round` on floats; the model rounds real numbers to the nearest
 * multiple of the grid step, ties going up (see README, "Left out").
 */
module Rounding {

  /** The grid point `k` steps of size `t` away from zero. */
  function Steps(k: int, t: real): real
  {
    k as real * t
  }

  /** `x` is an integer multiple of `t`. */
  ghost predicate IsMultiple(x: real, t: real)
  {
    exists k: int :: Steps(k, t) == x
  }

  /** The number of grid steps of the nearest grid point (`round(price / tick)`). */
  function TickSteps(p: real, t: real): int
    requires t > 0.0
  {
    (p / t + 0.5).Floor
  }

  lemma MulLe(a: real, b: real, t: real)
    requires a <= b && t > 0.0
    ensures a * t <= b * t
  {}

  lemma MulLt(a: real, b: real, t: real)
    requires a < b && t > 0.0
    ensures a * t < b * t
  {}

  lemma MulLtCancel(a: real, b: real, t: real)
    requires t > 0.0 && a * t < b * t
    ensures a < b
  {}

  lemma DivMulCancel(x: real, t: real)
    requires t > 0.0
    ensures x / t * t == x
  {}

  lemma DivLe(x: real, y: real, t: real)
    requires t > 0.0 && x <= y
    ensures x / t <= y / t
  {
    assert x / t == x * (1.0 / t) && y / t == y * (1.0 / t);
    MulLe(x, y, 1.0 / t);
  }

  /** Scaling `k <= y < k + 1` by a positive step. */
  lemma ScaleBetween(k: int, y: real, t: real)
    requires t > 0.0 && k as real <= y < k as real + 1.0
    ensures Steps(k, t) <= y * t < Steps(k, t) + t
    ensures Steps(k + 1, t) == Steps(k, t) + t
  {
    MulLe(k as real, y, t);
    MulLt(y, k as real + 1.0, t);
    assert (k as real + 1.0) * t == k as real * t + t;
  }

  /** The grid point `round(p / t) * t` lies within half a step of `p`. */
  lemma TickStepsBounds(p: real, t: real)
    requires t > 0.0
    ensures p - t / 2.0 < Steps(TickSteps(p, t), t) <= p + t / 2.0
  {
    var y := p / t + 0.5;
    ScaleBetween(TickSteps(p, t), y, t);
    assert y * t == p / t * t + t / 2.0;
    DivMulCancel(p, t);
  }

  /**
   * `round(price / tick) * tick` (core/trade_executor.py:354-355): the
   * nearest multiple of the tick, at most half a tick away from the input.
   */
  function RoundToTick(p: real, t: real): (r: real)
    requires t > 0.0
    ensures IsMultiple(r, t)
    ensures p - t / 2.0 < r <= p + t / 2.0
  {
    TickStepsBounds(p, t);
    Steps(TickSteps(p, t), t)
  }

  /** A value already on the grid is left where it is. */
  lemma RoundToTickFixesMultiples(x: real, t: real)
    requires t > 0.0 && IsMultiple(x, t)
    ensures RoundToTick(x, t) == x
  {
    var k :| Steps(k, t) == x;
    assert x / t == k as real;
    assert (k as real + 0.5).Floor == k;
    assert TickSteps(x, t) == k;
  }

  /** Rounding twice is rounding once. */
  lemma RoundToTickIdempotent(p: real, t: real)
    requires t > 0.0
    ensures RoundToTick(RoundToTick(p, t), t) == RoundToTick(p, t)
  {
    RoundToTickFixesMultiples(RoundToTick(p, t), t);
  }

  /** Rounding never swaps the order of two prices. */
  lemma RoundToTickMonotone(x: real, y: real, t: real)
    requires t > 0.0 && x <= y
    ensures RoundToTick(x, t) <= RoundToTick(y, t)
  {
    DivLe(x, y, t);
    assert TickSteps(x, t) <= TickSteps(y, t);
    MulLe(TickSteps(x, t) as real, TickSteps(y, t) as real, t);
  }

  /** The grid points around `x`: `floor(x / step)` steps and one more. */
  lemma FloorStepsBounds(x: real, step: real)
    requires step > 0.0
    ensures Steps((x / step).Floor, step) <= x < Steps((x / step).Floor, step) + step
    ensures Steps((x / step).Floor + 1, step) == Steps((x / step).Floor, step) + step
  {
    ScaleBetween((x / step).Floor, x / step, step);
    DivMulCancel(x, step);
  }

  /** The least multiple of `step` that is at least `x` (the ceiling on the grid). */
  function CeilToStep(x: real, step: real): (r: real)
    requires step > 0.0
    ensures IsMultiple(r, step)
    ensures x <= r
    ensures r < x + step
  {
    var k := (x / step).Floor;
    FloorStepsBounds(x, step);
    if Steps(k, step) == x then x else Steps(k + 1, step)
  }

  /** A whole number of grid steps on a coarser grid lies on the finer grid too. */
  lemma MultipleOfMultiple(k: int, a: real, t: real)
    requires IsMultiple(a, t)
    ensures IsMultiple(Steps(k, a), t)
  {
    var m :| Steps(m, t) == a;
    assert k as real * (m as real * t) == (k as real * m as real) * t;
    assert (k * m) as real == k as real * m as real;
    assert Steps(k * m, t) == Steps(k, a);
  }

  /** Ten to the power `n`: at least one, and at least ten once `n` is positive. */
  function Pow10(n: nat): (r: real)
    ensures r >= 1.0
    ensures n > 0 ==> r >= 10.0
  {
    if n == 0 then 1.0 else 10.0 * Pow10(n - 1)
  }

  /** The grid step of `round(x, precision)`: 10 to the power of `-precision`. */
  function DecimalUnit(precision: int): (u: real)
    ensures u > 0.0
    ensures precision >= 0 ==> u * Pow10(precision) == 1.0
    ensures precision < 0 ==> u == Pow10(-precision)
    ensures precision > 0 ==> u < 1.0
  {
    if precision >= 0 then 1.0 / Pow10(precision) else Pow10(-precision)
  }
}
