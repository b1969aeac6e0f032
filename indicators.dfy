/**
 * Comparisons of a fast and a slow moving average. The averages themselves
 * are computed by a data-frame library and arrive here as sequences of
 * reals, the oldest value first.
 */
module Indicators {

  /** Where the fast average lies with respect to the slow one. */
  datatype Relation = Above | Below | Equal

  function RelationOf(fast: real, slow: real): (r: Relation)
    ensures r == Above <==> fast > slow
    ensures r == Below <==> fast < slow
    ensures r == Equal <==> fast == slow
  {
    if fast > slow then Above
    else if fast < slow then Below
    else Equal
  }

  /** The most recent value (`s[-1]`). */
  function Last(s: seq<real>): real
    requires |s| >= 1
  {
    s[|s| - 1]
  }

  /** The value before the most recent one (`s[-2]`). */
  function Prev(s: seq<real>): real
    requires |s| >= 2
  {
    s[|s| - 2]
  }

  /** Both series have at least two values, so the last step can be compared. */
  predicate HasTwo(fast: seq<real>, slow: seq<real>)
  {
    |fast| >= 2 && |slow| >= 2
  }

  /** The fast average was strictly below and is now strictly above. */
  predicate CrossedUp(fast: seq<real>, slow: seq<real>)
    requires HasTwo(fast, slow)
  {
    Prev(fast) < Prev(slow) && Last(fast) > Last(slow)
  }

  /** The fast average was strictly above and is now strictly below. */
  predicate CrossedDown(fast: seq<real>, slow: seq<real>)
    requires HasTwo(fast, slow)
  {
    Prev(fast) > Prev(slow) && Last(fast) < Last(slow)
  }

  /**
   * A strict crossing is a change of relation from strictly one side to
   * strictly the other; touching the slow average at either point is none.
   */
  lemma CrossingIsFlip(fast: seq<real>, slow: seq<real>)
    requires HasTwo(fast, slow)
    ensures CrossedUp(fast, slow) <==>
      RelationOf(Prev(fast), Prev(slow)) == Below && RelationOf(Last(fast), Last(slow)) == Above
    ensures CrossedDown(fast, slow) <==>
      RelationOf(Prev(fast), Prev(slow)) == Above && RelationOf(Last(fast), Last(slow)) == Below
    ensures RelationOf(Prev(fast), Prev(slow)) == Equal || RelationOf(Last(fast), Last(slow)) == Equal ==>
      !CrossedUp(fast, slow) && !CrossedDown(fast, slow)
  {
  }
}
