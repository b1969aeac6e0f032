/**
 * The block-orders monitor on EMA9/EMA20: the trend and crossing tests,
 * the proximity test against support and resistance levels, the signal
 * rules, the grouping of nearby levels into zones, the volatility alarm
 * and the alert loop that remembers the last confirmed signal.
 * The moving averages, the levels and the volatility are computed by a
 * data-frame library and are inputs here.
 */
module Ema4 {
  import opened Wrappers
  import opened Attempts
  import opened Indicators
  import Exchange

  datatype Trend = Haussiere | Baissiere | Neutre

  /** The trading signal of the strategy ("long" / "short"). */
  datatype Signal = Long | Short

  /** How the last step of EMA9 against EMA20 is described in the alerts. */
  datatype CrossType = Haussier | Baissier | Inconnu

  /** The default proximity threshold of the zone test. */
  const DEFAULT_PROXIMITY: real := 0.003
  /** The proximity threshold the strategy and the alert loop actually pass. */
  const STRATEGY_PROXIMITY: real := 0.002
  /** The default relative tolerance when levels are grouped into zones. */
  const GROUPING_TOLERANCE: real := 0.002
  /** The default volatility threshold of the alarm. */
  const VOLATILITY_THRESHOLD: real := 1.0
  /** Number of attempts to fetch the candles. */
  const FETCH_ATTEMPTS: nat := 3
  const FETCH_FAILED: Error := "Échec récupération des données Binance."
  /** What an iteration raises when a series is too short to index `[-2]`. */
  const INDEX_ERROR: Error := "index out of bounds"

  // ---------------------------------------------------------------------
  // Fetching with retries

  /**
   * The candles from the first of three attempts that succeeds; when all
   * three fail, the fixed failure message is raised.
   */
  function FetchWithRetries<T>(op: nat -> Attempt<T>): (r: Attempt<T>)
    ensures r.Ok? <==> exists i :: 0 <= i < FETCH_ATTEMPTS && op(i).Ok?
    ensures r.Ok? ==> exists i :: 0 <= i < FETCH_ATTEMPTS && op(i) == r && forall j :: 0 <= j < i ==> op(j).Fail?
    ensures r.Fail? ==> r.error == FETCH_FAILED
  {
    match FirstOk(op, FETCH_ATTEMPTS)
    case Some(i) => op(i)
    case None => Fail(FETCH_FAILED)
  }

  // ---------------------------------------------------------------------
  // Trend, crossing and proximity

  function DetectTendance(ema9: seq<real>, ema20: seq<real>): (t: Trend)
    requires |ema9| >= 1 && |ema20| >= 1
    ensures t == Haussiere <==> Last(ema9) > Last(ema20)
    ensures t == Baissiere <==> Last(ema9) < Last(ema20)
    ensures t == Neutre <==> Last(ema9) == Last(ema20)
  {
    match RelationOf(Last(ema9), Last(ema20))
    case Above => Haussiere
    case Below => Baissiere
    case Equal => Neutre
  }

  /** A strict crossing of EMA9 and EMA20 in either direction over the last step. */
  function CroisementDetecte(ema9: seq<real>, ema20: seq<real>): (r: bool)
    requires HasTwo(ema9, ema20)
    ensures r <==>
      RelationOf(Prev(ema9), Prev(ema20)) != Equal && RelationOf(Last(ema9), Last(ema20)) != Equal &&
      RelationOf(Prev(ema9), Prev(ema20)) != RelationOf(Last(ema9), Last(ema20))
    ensures r ==> DetectTendance(ema9, ema20) != Neutre
  {
    CrossedUp(ema9, ema20) || CrossedDown(ema9, ema20)
  }

  /** The label of the crossing in the alert text. */
  function CrossTypeOf(ema9: seq<real>, ema20: seq<real>): (k: CrossType)
    requires HasTwo(ema9, ema20)
    ensures k == Inconnu <==> !CroisementDetecte(ema9, ema20)
    ensures k == Haussier ==> DetectTendance(ema9, ema20) == Haussiere
    ensures k == Baissier ==> DetectTendance(ema9, ema20) == Baissiere
  {
    if CrossedUp(ema9, ema20) then Haussier
    else if CrossedDown(ema9, ema20) then Baissier
    else Inconnu
  }

  /**
   * `detect_cross` on the EMA20 and EMA50 columns of one frame: the label
   * of a strict crossing over the last two rows, or nothing when the frame
   * has fewer than two rows or the averages did not cross.
   */
  function DetectCross(ema20: seq<real>, ema50: seq<real>): (r: Option<CrossType>)
    ensures r == Some(Haussier) <==> HasTwo(ema20, ema50) && CrossedUp(ema20, ema50)
    ensures r == Some(Baissier) <==> HasTwo(ema20, ema50) && CrossedDown(ema20, ema50)
    ensures r != Some(Inconnu)
    ensures r.Some? <==> HasTwo(ema20, ema50) && CroisementDetecte(ema20, ema50)
  {
    if !HasTwo(ema20, ema50) then None
    else
      match CrossTypeOf(ema20, ema50)
      case Inconnu => None
      case k => Some(k)
  }

  /**
   * The price lies within `seuil` of the level, relative to the price.
   * The price is a floating-point array element, so a zero price divides
   * to infinity or not-a-number and the comparison is false.
   */
  function EstProcheZone(price: real, level: real, seuil: real): (r: bool)
    ensures price > 0.0 ==> (r <==> Exchange.Abs(price - level) < seuil * price)
    ensures price == 0.0 ==> !r
    ensures price < 0.0 && seuil > 0.0 ==> r
  {
    if price == 0.0 then false
    else Exchange.Abs(price - level) / price < seuil
  }

  /** The first level the price is near, as the scanning loops that `break` find it. */
  function FirstNear(price: real, levels: seq<real>): (r: Option<nat>)
    ensures r.Some? ==> r.value < |levels| && EstProcheZone(price, levels[r.value], STRATEGY_PROXIMITY)
    ensures r.Some? ==> forall j :: 0 <= j < r.value ==> !EstProcheZone(price, levels[j], STRATEGY_PROXIMITY)
    ensures r.None? <==> forall j :: 0 <= j < |levels| ==> !EstProcheZone(price, levels[j], STRATEGY_PROXIMITY)
  {
    if |levels| == 0 then None
    else if EstProcheZone(price, levels[0], STRATEGY_PROXIMITY) then Some(0)
    else
      match FirstNear(price, levels[1..])
      case Some(i) => Some(i + 1)
      case None => None
  }

  /** The greatest level (`max(resistances)`). */
  function SeqMax(s: seq<real>): (m: real)
    requires |s| > 0
    ensures m in s
    ensures forall x :: x in s ==> x <= m
  {
    if |s| == 1 then s[0]
    else
      var rest := SeqMax(s[1..]);
      assert forall x :: x in s ==> x == s[0] || x in s[1..];
      if s[0] >= rest then s[0] else rest
  }

  // ---------------------------------------------------------------------
  // The signal rules of block_orders_strategy

  /** Rising trend: the price crossed above the support, or stayed above it. */
  predicate LongAtSupport(previous: real, current: real, level: real)
  {
    (previous < level && current > level) || (current > level && previous > level)
  }

  /** Rising trend: the price crossed above the resistance. */
  predicate LongAtResistance(previous: real, current: real, level: real)
  {
    previous < level && current > level
  }

  /** Falling trend: the price crossed below the support. */
  predicate ShortAtSupport(previous: real, current: real, level: real)
  {
    previous > level && current < level
  }

  /** Falling trend: the price crossed below the resistance, or stayed below it. */
  predicate ShortAtResistance(previous: real, current: real, level: real)
  {
    (previous > level && current < level) || (current < level && previous < level)
  }

  predicate SupportGivesLong(previous: real, current: real, supports: seq<real>)
  {
    match FirstNear(current, supports)
    case Some(i) => LongAtSupport(previous, current, supports[i])
    case None => false
  }

  predicate ResistanceGivesLong(previous: real, current: real, resistances: seq<real>)
  {
    match FirstNear(current, resistances)
    case Some(i) => LongAtResistance(previous, current, resistances[i])
    case None => false
  }

  predicate SupportGivesShort(previous: real, current: real, supports: seq<real>)
  {
    match FirstNear(current, supports)
    case Some(i) => ShortAtSupport(previous, current, supports[i])
    case None => false
  }

  predicate ResistanceGivesShort(previous: real, current: real, resistances: seq<real>)
  {
    match FirstNear(current, resistances)
    case Some(i) => ShortAtResistance(previous, current, resistances[i])
    case None => false
  }

  /** Both closes above the highest resistance while EMA9 is above EMA20. */
  predicate Breakout(previous: real, current: real, ema9: seq<real>, ema20: seq<real>, resistances: seq<real>)
    requires |ema9| >= 1 && |ema20| >= 1
  {
    |resistances| > 0 && current > SeqMax(resistances) && Last(ema9) > Last(ema20) &&
    previous > SeqMax(resistances)
  }

  /** The signal the strategy computes from the last two closes. */
  function BlockOrders(prix: seq<real>, ema9: seq<real>, ema20: seq<real>,
                       supports: seq<real>, resistances: seq<real>): (r: Option<Signal>)
    requires |prix| >= 2 && HasTwo(ema9, ema20)
    ensures !CroisementDetecte(ema9, ema20) ==> r == None
    ensures r == Some(Long) ==> DetectTendance(ema9, ema20) == Haussiere && CrossedUp(ema9, ema20)
    ensures r == Some(Short) ==> DetectTendance(ema9, ema20) == Baissiere && CrossedDown(ema9, ema20)
    ensures DetectTendance(ema9, ema20) == Neutre ==> r == None
  {
    var previous, current := Prev(prix), Last(prix);
    if !CroisementDetecte(ema9, ema20) then None
    else
      match DetectTendance(ema9, ema20)
      case Haussiere =>
        if SupportGivesLong(previous, current, supports) || ResistanceGivesLong(previous, current, resistances)
           || Breakout(previous, current, ema9, ema20, resistances)
        then Some(Long) else None
      case Baissiere =>
        if SupportGivesShort(previous, current, supports) || ResistanceGivesShort(previous, current, resistances)
        then Some(Short) else None
      case Neutre => None
  }

  /** The breakout rule holds iff both closes are above every resistance, under a rising EMA9. */
  lemma BreakoutMeaning(previous: real, current: real, ema9: seq<real>, ema20: seq<real>, resistances: seq<real>)
    requires |ema9| >= 1 && |ema20| >= 1
    ensures Breakout(previous, current, ema9, ema20, resistances) <==>
      |resistances| > 0 && Last(ema9) > Last(ema20) &&
      forall k :: 0 <= k < |resistances| ==> previous > resistances[k] && current > resistances[k]
  {
    if |resistances| > 0 && forall k :: 0 <= k < |resistances| ==> previous > resistances[k] && current > resistances[k] {
      var m := SeqMax(resistances);
      var k :| 0 <= k < |resistances| && resistances[k] == m;
      assert previous > m && current > m;
    }
    if Breakout(previous, current, ema9, ema20, resistances) {
      forall k | 0 <= k < |resistances|
        ensures previous > resistances[k] && current > resistances[k]
      {
        assert resistances[k] in resistances;
      }
    }
  }

  /**
   * Only the first support near the price matters: the supports after it
   * can be dropped without changing the signal.
   */
  lemma OnlyFirstNearSupportCounts(prix: seq<real>, ema9: seq<real>, ema20: seq<real>,
                                   supports: seq<real>, resistances: seq<real>, i: nat)
    requires |prix| >= 2 && HasTwo(ema9, ema20)
    requires FirstNear(Last(prix), supports) == Some(i)
    ensures BlockOrders(prix, ema9, ema20, supports, resistances) ==
            BlockOrders(prix, ema9, ema20, supports[..i + 1], resistances)
  {
    var cut := supports[..i + 1];
    assert cut[i] == supports[i];
    assert forall j :: 0 <= j < i ==> cut[j] == supports[j];
    assert FirstNear(Last(prix), cut) == Some(i);
  }

  /**
   * In a falling trend only the first resistance near the price matters:
   * the resistances after it can be dropped without changing the signal.
   */
  lemma OnlyFirstNearResistanceCounts(prix: seq<real>, ema9: seq<real>, ema20: seq<real>,
                                      supports: seq<real>, resistances: seq<real>, i: nat)
    requires |prix| >= 2 && HasTwo(ema9, ema20)
    requires DetectTendance(ema9, ema20) == Baissiere
    requires FirstNear(Last(prix), resistances) == Some(i)
    ensures BlockOrders(prix, ema9, ema20, supports, resistances) ==
            BlockOrders(prix, ema9, ema20, supports, resistances[..i + 1])
  {
    var cut := resistances[..i + 1];
    assert cut[i] == resistances[i];
    assert forall j :: 0 <= j < i ==> cut[j] == resistances[j];
    assert FirstNear(Last(prix), cut) == Some(i);
  }

  /** `block_orders_strategy`: the loops over the levels stop at the first near level. */
  method BlockOrdersStrategy(prix: seq<real>, ema9: seq<real>, ema20: seq<real>,
                             supports: seq<real>, resistances: seq<real>) returns (signal: Option<Signal>)
    requires |prix| >= 2 && HasTwo(ema9, ema20)
    ensures signal == BlockOrders(prix, ema9, ema20, supports, resistances)
  {
    signal := None;
    var tendance := DetectTendance(ema9, ema20);
    var croisement := CroisementDetecte(ema9, ema20);
    var current := Last(prix);
    var previous := Prev(prix);
    if !croisement {
      return None;
    }
    if tendance == Haussiere {
      var i := 0;
      while i < |supports|
        invariant 0 <= i <= |supports|
        invariant forall j :: 0 <= j < i ==> !EstProcheZone(current, supports[j], STRATEGY_PROXIMITY)
        invariant signal == None
      {
        if EstProcheZone(current, supports[i], STRATEGY_PROXIMITY) {
          if previous < supports[i] && current > supports[i] {
            signal := Some(Long);
          } else if current > supports[i] && previous > supports[i] {
            signal := Some(Long);
          }
          assert FirstNear(current, supports) == Some(i);
          break;
        }
        i := i + 1;
      }
      assert signal == (if SupportGivesLong(previous, current, supports) then Some(Long) else None);
      ghost var afterSupports := signal;
      i := 0;
      while i < |resistances|
        invariant 0 <= i <= |resistances|
        invariant forall j :: 0 <= j < i ==> !EstProcheZone(current, resistances[j], STRATEGY_PROXIMITY)
        invariant signal == afterSupports
      {
        if EstProcheZone(current, resistances[i], STRATEGY_PROXIMITY) {
          if previous < resistances[i] && current > resistances[i] {
            signal := Some(Long);
          }
          assert FirstNear(current, resistances) == Some(i);
          break;
        }
        i := i + 1;
      }
      assert signal == (if SupportGivesLong(previous, current, supports) ||
                           ResistanceGivesLong(previous, current, resistances) then Some(Long) else None);
      if |resistances| > 0 && current > SeqMax(resistances) && Last(ema9) > Last(ema20) {
        if previous > SeqMax(resistances) {
          signal := Some(Long);
        }
      }
    } else if tendance == Baissiere {
      var i := 0;
      while i < |supports|
        invariant 0 <= i <= |supports|
        invariant forall j :: 0 <= j < i ==> !EstProcheZone(current, supports[j], STRATEGY_PROXIMITY)
        invariant signal == None
      {
        if EstProcheZone(current, supports[i], STRATEGY_PROXIMITY) {
          if previous > supports[i] && current < supports[i] {
            signal := Some(Short);
          }
          assert FirstNear(current, supports) == Some(i);
          break;
        }
        i := i + 1;
      }
      assert signal == (if SupportGivesShort(previous, current, supports) then Some(Short) else None);
      ghost var afterSupports := signal;
      i := 0;
      while i < |resistances|
        invariant 0 <= i <= |resistances|
        invariant forall j :: 0 <= j < i ==> !EstProcheZone(current, resistances[j], STRATEGY_PROXIMITY)
        invariant signal == afterSupports
      {
        if EstProcheZone(current, resistances[i], STRATEGY_PROXIMITY) {
          if previous > resistances[i] && current < resistances[i] {
            signal := Some(Short);
          } else if current < resistances[i] && previous < resistances[i] {
            signal := Some(Short);
          }
          assert FirstNear(current, resistances) == Some(i);
          break;
        }
        i := i + 1;
      }
    }
  }

  // ---------------------------------------------------------------------
  // Grouping nearby levels into zones (regrouper_zones_proches)

  predicate StrictlyIncreasing(s: seq<real>)
  {
    forall i, j :: 0 <= i < j < |s| ==> s[i] < s[j]
  }

  /** Inserts `x` into a strictly increasing sequence, dropping it when present. */
  function Insert(x: real, s: seq<real>): (r: seq<real>)
    requires StrictlyIncreasing(s)
    ensures StrictlyIncreasing(r)
    ensures forall y :: y in r <==> y == x || y in s
  {
    if |s| == 0 then [x]
    else if x < s[0] then
      PrependIncreasing(x, s);
      [x] + s
    else if x == s[0] then s
    else
      var rest := Insert(x, s[1..]);
      PrependIncreasing(s[0], rest);
      [s[0]] + rest
  }

  /** A value below every element may be put in front of a strictly increasing sequence. */
  lemma PrependIncreasing(x: real, s: seq<real>)
    requires StrictlyIncreasing(s)
    requires |s| > 0 ==> x < s[0]
    ensures StrictlyIncreasing([x] + s)
  {
    var r := [x] + s;
    forall i, j | 0 <= i < j < |r|
      ensures r[i] < r[j]
    {
      if i == 0 {
        assert r[j] == s[j - 1];
        assert j - 1 > 0 ==> s[0] < s[j - 1];
      } else {
        assert r[i] == s[i - 1] && r[j] == s[j - 1];
      }
    }
  }

  /** `sorted(set(values))`: the distinct values in increasing order. */
  function SortedSet(values: seq<real>): (r: seq<real>)
    ensures StrictlyIncreasing(r)
    ensures forall y :: y in r <==> y in values
  {
    if |values| == 0 then []
    else
      var init := values[..|values| - 1];
      assert forall y :: y in values <==> y in init || y == values[|values| - 1];
      Insert(values[|values| - 1], SortedSet(init))
  }

  lemma HeadIsMember(s: seq<real>)
    ensures |s| > 0 ==> s[0] in s
  {
  }

  /** A strictly increasing sequence is determined by its elements. */
  lemma {:induction false} IncreasingUnique(a: seq<real>, b: seq<real>)
    requires StrictlyIncreasing(a) && StrictlyIncreasing(b)
    requires forall y :: y in a <==> y in b
    ensures a == b
    decreases |a|
  {
    if |a| == 0 {
      if |b| > 0 {
        HeadIsMember(b);
        assert false;
      }
    } else {
      assert a[0] in a;
      assert a[0] in b;
      assert b[0] in b;
      assert b[0] in a;
      assert a[0] == b[0];
      forall y | y in a[1..]
        ensures y in b[1..]
      {
        var k :| 1 <= k < |a| && a[k] == y;
        assert a[0] < y;
        assert y in a;
        var m :| 0 <= m < |b| && b[m] == y;
        assert m != 0;
      }
      forall y | y in b[1..]
        ensures y in a[1..]
      {
        var k :| 1 <= k < |b| && b[k] == y;
        assert b[0] < y;
        assert y in b;
        var m :| 0 <= m < |a| && a[m] == y;
        assert m != 0;
      }
      IncreasingUnique(a[1..], b[1..]);
      assert a == [a[0]] + a[1..];
      assert b == [b[0]] + b[1..];
    }
  }

  /**
   * `val` joins the zone whose last value is `previous`: the relative gap,
   * measured against `val`, is at most the tolerance. A zero `val` raises a
   * division error, so it never joins.
   */
  predicate Joins(previous: real, val: real, tolerance: real)
  {
    val != 0.0 && Exchange.Abs(val - previous) / val <= tolerance
  }

  /** Every value of the zone joins its predecessor. */
  predicate Tight(zone: seq<real>, tolerance: real)
  {
    forall i :: 1 <= i < |zone| ==> Joins(zone[i - 1], zone[i], tolerance)
  }

  /**
   * The zones are non-empty and tight, and each zone starts with a value
   * that does not join the last value of the zone before it.
   */
  predicate WellGrouped(zones: seq<seq<real>>, tolerance: real)
  {
    (forall k :: 0 <= k < |zones| ==> |zones[k]| > 0 && Tight(zones[k], tolerance)) &&
    (forall k :: 0 <= k < |zones| - 1 ==>
       !Joins(zones[k][|zones[k]| - 1], zones[k + 1][0], tolerance))
  }

  function Flatten(zones: seq<seq<real>>): seq<real>
  {
    if |zones| == 0 then [] else Flatten(zones[..|zones| - 1]) + zones[|zones| - 1]
  }

  /** The grouping divides by a zero value that is not the smallest. */
  predicate DividesByZero(sorted: seq<real>)
  {
    |sorted| > 1 && 0.0 in sorted[1..]
  }

  /**
   * `regrouper_zones_proches`: scans the sorted distinct values, extending
   * the current zone while the next value joins it. `failed` is the
   * division error on a zero value.
   */
  method RegrouperZonesProches(values: seq<real>, tolerance: real) returns (zones: seq<seq<real>>, failed: bool)
    ensures failed <==> DividesByZero(SortedSet(values))
    ensures failed ==> zones == []
    ensures !failed ==> Flatten(zones) == SortedSet(values) && WellGrouped(zones, tolerance)
    ensures |values| == 0 ==> zones == [] && !failed
  {
    zones := [];
    failed := false;
    var vals := SortedSet(values);
    if |vals| == 0 {
      return;
    }
    zones, failed := GroupSorted(vals, tolerance);
  }

  /** The scan of `regrouper_zones_proches` over the non-empty sorted values. */
  method GroupSorted(vals: seq<real>, tolerance: real) returns (zones: seq<seq<real>>, failed: bool)
    requires |vals| > 0
    ensures failed <==> 0.0 in vals[1..]
    ensures failed ==> zones == []
    ensures !failed ==> Flatten(zones) == vals && WellGrouped(zones, tolerance)
  {
    zones := [];
    failed := false;
    var zone := [vals[0]];
    var i := 1;
    while i < |vals|
      invariant 1 <= i <= |vals|
      invariant |zone| > 0
      invariant Flatten(zones + [zone]) == vals[..i]
      invariant WellGrouped(zones + [zone], tolerance)
      invariant 0.0 !in vals[1..i]
    {
      var val := vals[i];
      if val == 0.0 {
        assert vals[1..][i - 1] == 0.0;
        zones := [];
        failed := true;
        return;
      }
      assert vals[1..i + 1] == vals[1..i] + [val];
      assert vals[..i + 1] == vals[..i] + [val];
      if Exchange.Abs(val - zone[|zone| - 1]) / val <= tolerance {
        ExtendZone(zones, zone, val, tolerance);
        zone := zone + [val];
      } else {
        CloseZone(zones, zone, val, tolerance);
        zones := zones + [zone];
        zone := [val];
      }
      i := i + 1;
    }
    assert vals[1..] == vals[1..i];
    assert vals[..i] == vals;
    zones := zones + [zone];
  }

  lemma FlattenAppend(zones: seq<seq<real>>, zone: seq<real>)
    ensures Flatten(zones + [zone]) == Flatten(zones) + zone
  {
    assert (zones + [zone])[..|zones|] == zones;
  }

  /** Appending a joining value to the open zone keeps the grouping. */
  lemma ExtendZone(zones: seq<seq<real>>, zone: seq<real>, val: real, tolerance: real)
    requires |zone| > 0 && WellGrouped(zones + [zone], tolerance)
    requires Joins(zone[|zone| - 1], val, tolerance)
    ensures WellGrouped(zones + [zone + [val]], tolerance)
    ensures Flatten(zones + [zone + [val]]) == Flatten(zones + [zone]) + [val]
  {
    var before := zones + [zone];
    var after := zones + [zone + [val]];
    assert before[|zones|] == zone;
    var z := zone + [val];
    assert Tight(z, tolerance) by {
      forall i | 1 <= i < |z|
        ensures Joins(z[i - 1], z[i], tolerance)
      {
        if i < |zone| {
          assert z[i - 1] == zone[i - 1] && z[i] == zone[i];
        }
      }
    }
    forall k | 0 <= k < |after|
      ensures |after[k]| > 0 && Tight(after[k], tolerance)
    {
      if k < |zones| {
        assert after[k] == before[k];
      }
    }
    forall k | 0 <= k < |after| - 1
      ensures !Joins(after[k][|after[k]| - 1], after[k + 1][0], tolerance)
    {
      assert after[k] == before[k];
      assert after[k + 1][0] == before[k + 1][0];
    }
    FlattenAppend(zones, zone);
    FlattenAppend(zones, z);
  }

  /** A value that does not join the open zone closes it and opens its own. */
  lemma CloseZone(zones: seq<seq<real>>, zone: seq<real>, val: real, tolerance: real)
    requires |zone| > 0 && WellGrouped(zones + [zone], tolerance)
    requires !Joins(zone[|zone| - 1], val, tolerance)
    ensures WellGrouped(zones + [zone] + [[val]], tolerance)
    ensures Flatten(zones + [zone] + [[val]]) == Flatten(zones + [zone]) + [val]
  {
    var before := zones + [zone];
    var after := before + [[val]];
    forall k | 0 <= k < |after|
      ensures |after[k]| > 0 && Tight(after[k], tolerance)
    {
      if k < |before| {
        assert after[k] == before[k];
      }
    }
    forall k | 0 <= k < |after| - 1
      ensures !Joins(after[k][|after[k]| - 1], after[k + 1][0], tolerance)
    {
      assert after[k] == before[k];
      if k + 1 < |before| {
        assert after[k + 1] == before[k + 1];
      }
    }
    FlattenAppend(before, [val]);
  }

  // ---------------------------------------------------------------------
  // Window, volatility alarm, zone change and pull-back

  /** `calculer_window_dynamique`: the look-back window for a volatility. */
  function WindowForVolatility(volatility: real): (w: nat)
    ensures w == 30 || w == 40 || w == 50
    ensures w == 50 <==> volatility > 1.0
    ensures w == 30 <==> volatility <= 0.5
  {
    if volatility > 1.0 then 50
    else if volatility > 0.5 then 40
    else 30
  }

  /** A higher volatility never gives a shorter window. */
  lemma WindowMonotone(v1: real, v2: real)
    requires v1 <= v2
    ensures WindowForVolatility(v1) <= WindowForVolatility(v2)
  {
  }

  /** One call of the alarm: whether it notifies, and the new flag. */
  function AlarmStep(flag: bool, volatility: real, seuil: real): (r: (bool, bool))
    ensures r.0 <==> volatility > seuil && !flag
    ensures r.1 <==> volatility > seuil
  {
    if volatility > seuil && !flag then (true, true)
    else if volatility <= seuil then (false, false)
    else (false, flag)
  }

  /** The flag after a run of calls. */
  function FlagAfter(flag0: bool, vols: seq<real>, seuil: real): bool
  {
    if |vols| == 0 then flag0
    else AlarmStep(FlagAfter(flag0, vols[..|vols| - 1], seuil), vols[|vols| - 1], seuil).1
  }

  /** Whether each call of a run notifies. */
  function Notifications(flag0: bool, vols: seq<real>, seuil: real): (r: seq<bool>)
    ensures |r| == |vols|
  {
    if |vols| == 0 then []
    else
      var init := vols[..|vols| - 1];
      Notifications(flag0, init, seuil) + [AlarmStep(FlagAfter(flag0, init, seuil), vols[|vols| - 1], seuil).0]
  }

  /** After at least one call the flag says whether the last volatility was above the threshold. */
  lemma FlagAfterMeaning(flag0: bool, vols: seq<real>, seuil: real)
    ensures |vols| == 0 ==> FlagAfter(flag0, vols, seuil) == flag0
    ensures |vols| > 0 ==> (FlagAfter(flag0, vols, seuil) <==> vols[|vols| - 1] > seuil)
  {
  }

  /**
   * The alarm notifies exactly on rising edges: when the volatility is
   * above the threshold and the previous one was not (or, on the first
   * call, the flag was clear).
   */
  lemma {:induction false} NotifiesOnRisingEdges(flag0: bool, vols: seq<real>, seuil: real, k: nat)
    requires k < |vols|
    ensures Notifications(flag0, vols, seuil)[k] <==>
      vols[k] > seuil && (if k == 0 then !flag0 else vols[k - 1] <= seuil)
    decreases |vols|
  {
    var init := vols[..|vols| - 1];
    if k < |vols| - 1 {
      NotifiesOnRisingEdges(flag0, init, seuil, k);
      assert init[k] == vols[k];
      assert k > 0 ==> init[k - 1] == vols[k - 1];
    } else {
      FlagAfterMeaning(flag0, init, seuil);
      assert k > 0 ==> init[|init| - 1] == vols[k - 1];
    }
  }

  /** The mutable flag of `verifier_volatilite_et_notifier` (a default-argument list). */
  class VolatilityAlarm {
    var flag: bool

    constructor ()
      ensures !flag
    {
      flag := false;
    }

    method Check(volatility: real, seuil: real) returns (notify: bool)
      modifies this
      ensures (notify, flag) == AlarmStep(old(flag), volatility, seuil)
    {
      notify := false;
      if volatility > seuil && !flag {
        notify := true;
        flag := true;
      } else if volatility <= seuil {
        flag := false;
      }
    }
  }

  /**
   * The remembered zones are only ever the empty lists, so the test says
   * whether any support or resistance is present.
   */
  function ZonesOntChange(supports: seq<real>, resistances: seq<real>): (r: bool)
    ensures r <==> |supports| > 0 || |resistances| > 0
  {
    var prevSupports: seq<real> := [];
    var prevResistances: seq<real> := [];
    supports != prevSupports || resistances != prevResistances
  }

  /**
   * A pull-back: in the rising direction the price went from strictly
   * below to strictly above the level, otherwise from strictly above to
   * strictly below.
   */
  function ConfirmationPullback(prix: seq<real>, level: real, direction: string): (r: bool)
    requires |prix| >= 2
    ensures direction == "haussière" ==> (r <==> CrossedUp(prix, [level, level]))
    ensures direction != "haussière" ==> (r <==> CrossedDown(prix, [level, level]))
  {
    if direction == "haussière" then prix[|prix| - 2] < level && prix[|prix| - 1] > level
    else prix[|prix| - 2] > level && prix[|prix| - 1] < level
  }

  // ---------------------------------------------------------------------
  // The alert loop

  datatype Zone = SupportZone(level: real) | ResistanceZone(level: real)

  /** The last level the price is near (the loops without `break`). */
  function LastNear(price: real, levels: seq<real>): (r: Option<nat>)
    ensures r.Some? ==> r.value < |levels| && EstProcheZone(price, levels[r.value], STRATEGY_PROXIMITY)
    ensures r.Some? ==> forall j :: r.value < j < |levels| ==> !EstProcheZone(price, levels[j], STRATEGY_PROXIMITY)
    ensures r.None? <==> forall j :: 0 <= j < |levels| ==> !EstProcheZone(price, levels[j], STRATEGY_PROXIMITY)
  {
    if |levels| == 0 then None
    else if EstProcheZone(price, levels[|levels| - 1], STRATEGY_PROXIMITY) then Some(|levels| - 1)
    else LastNear(price, levels[..|levels| - 1])
  }

  /** The zone the alert names: the last near resistance, else the last near support. */
  function ZoneOfInterest(price: real, supports: seq<real>, resistances: seq<real>): Option<Zone>
  {
    match LastNear(price, resistances)
    case Some(k) => Some(ResistanceZone(resistances[k]))
    case None =>
      match LastNear(price, supports)
      case Some(k) => Some(SupportZone(supports[k]))
      case None => None
  }

  /** The loops of the alert that overwrite `zone_interet` for every near level. */
  method FindZoneOfInterest(price: real, supports: seq<real>, resistances: seq<real>) returns (zone: Option<Zone>)
    ensures zone == ZoneOfInterest(price, supports, resistances)
    ensures zone.Some? ==> EstProcheZone(price, zone.value.level, STRATEGY_PROXIMITY)
  {
    zone := None;
    var i := 0;
    while i < |supports|
      invariant 0 <= i <= |supports|
      invariant zone == (match LastNear(price, supports[..i])
                         case Some(k) => Some(SupportZone(supports[k]))
                         case None => None)
    {
      assert supports[..i + 1][..i] == supports[..i];
      if EstProcheZone(price, supports[i], STRATEGY_PROXIMITY) {
        zone := Some(SupportZone(supports[i]));
      }
      i := i + 1;
    }
    assert supports[..i] == supports;
    ghost var fromSupports := zone;
    i := 0;
    while i < |resistances|
      invariant 0 <= i <= |resistances|
      invariant zone == (match LastNear(price, resistances[..i])
                         case Some(k) => Some(ResistanceZone(resistances[k]))
                         case None => fromSupports)
    {
      assert resistances[..i + 1][..i] == resistances[..i];
      if EstProcheZone(price, resistances[i], STRATEGY_PROXIMITY) {
        zone := Some(ResistanceZone(resistances[i]));
      }
      i := i + 1;
    }
    assert resistances[..i] == resistances;
  }

  /** What one iteration computed from the candles. */
  datatype Sample = Sample(
    prix: seq<real>,
    ema9: seq<real>,
    ema20: seq<real>,
    supports: seq<real>,
    resistances: seq<real>,
    volatility: real)

  datatype Alert =
    | Confirmed(kind: CrossType, signal: Signal, zone: Option<Zone>)
    | Unconfirmed(kind: CrossType, zone: Option<Zone>)
    | IterationFailed(error: Error)

  /** The series are long enough for the `[-2]` lookups. */
  predicate Indexable(s: Sample)
  {
    |s.prix| >= 2 && HasTwo(s.ema9, s.ema20)
  }

  /** One iteration of the alert loop: the alert it sends and the new last signal. */
  function AlertStep(last: Option<Signal>, sample: Attempt<Sample>): (r: (Option<Alert>, Option<Signal>))
    ensures r.0.Some? && r.0.value.Confirmed? ==> r.1 == Some(r.0.value.signal) && r.1 != last
    ensures !(r.0.Some? && r.0.value.Confirmed?) ==> r.1 == last
    ensures r.0.Some? && !r.0.value.IterationFailed? ==> r.0.value.kind != Inconnu
    ensures sample.Fail? || !Indexable(sample.value) ==> r.0.Some? && r.0.value.IterationFailed? && r.1 == last
    ensures sample.Ok? && Indexable(sample.value) ==>
      var s := sample.value;
      var signal := BlockOrders(s.prix, s.ema9, s.ema20, s.supports, s.resistances);
      (r.0.Some? <==> CroisementDetecte(s.ema9, s.ema20)) &&
      (r.0.Some? ==> !r.0.value.IterationFailed? && r.0.value.kind == CrossTypeOf(s.ema9, s.ema20) &&
                     r.0.value.zone == ZoneOfInterest(Last(s.prix), s.supports, s.resistances) &&
                     (r.0.value.Confirmed? <==> signal.Some? && signal != last)) &&
      (r.0.Some? && r.0.value.Confirmed? ==> signal == Some(r.0.value.signal))
  {
    match sample
    case Fail(e) => (Some(IterationFailed(e)), last)
    case Ok(s) =>
      if !Indexable(s) then (Some(IterationFailed(INDEX_ERROR)), last)
      else if !CroisementDetecte(s.ema9, s.ema20) then (None, last)
      else
        var kind := CrossTypeOf(s.ema9, s.ema20);
        var zone := ZoneOfInterest(Last(s.prix), s.supports, s.resistances);
        var signal := BlockOrders(s.prix, s.ema9, s.ema20, s.supports, s.resistances);
        if signal.Some? && signal != last then (Some(Confirmed(kind, signal.value, zone)), signal)
        else (Some(Unconfirmed(kind, zone)), last)
  }

  /** The alerts of a run of iterations and the last signal afterwards. */
  function AlertRun(last0: Option<Signal>, samples: seq<Attempt<Sample>>): (r: (seq<Option<Alert>>, Option<Signal>))
    ensures |r.0| == |samples|
  {
    if |samples| == 0 then ([], last0)
    else
      var before := AlertRun(last0, samples[..|samples| - 1]);
      var step := AlertStep(before.1, samples[|samples| - 1]);
      (before.0 + [step.0], step.1)
  }

  /** The confirmed signals of a list of alerts, in order. */
  function ConfirmedSignals(alerts: seq<Option<Alert>>): seq<Signal>
  {
    if |alerts| == 0 then []
    else
      var a := alerts[|alerts| - 1];
      ConfirmedSignals(alerts[..|alerts| - 1]) + (if a.Some? && a.value.Confirmed? then [a.value.signal] else [])
  }

  /**
   * Every confirmed signal differs from the one before it, and the first
   * differs from the initial last signal; the last signal is the latest
   * confirmed one.
   */
  lemma {:induction false} ConfirmedSignalsAlternate(last0: Option<Signal>, samples: seq<Attempt<Sample>>)
    ensures var cs := ConfirmedSignals(AlertRun(last0, samples).0);
      (forall k :: 0 <= k < |cs| - 1 ==> cs[k] != cs[k + 1]) &&
      (|cs| > 0 ==> Some(cs[0]) != last0) &&
      AlertRun(last0, samples).1 == (if |cs| == 0 then last0 else Some(cs[|cs| - 1]))
    decreases |samples|
  {
    if |samples| > 0 {
      var init := samples[..|samples| - 1];
      ConfirmedSignalsAlternate(last0, init);
      var before := AlertRun(last0, init);
      var alerts := AlertRun(last0, samples).0;
      assert alerts[..|alerts| - 1] == before.0;
    }
  }

  /**
   * `main`, on a finite prefix of its endless loop: each fetched sample
   * first passes through the volatility alarm, then produces its alert.
   */
  method MainLoop(alarm: VolatilityAlarm, samples: seq<Attempt<Sample>>)
      returns (alerts: seq<Option<Alert>>, volatilityAlerts: seq<bool>, last: Option<Signal>)
    modifies alarm
    ensures (alerts, last) == AlertRun(None, samples)
    ensures volatilityAlerts == Notifications(old(alarm.flag), FetchedVolatilities(samples), VOLATILITY_THRESHOLD)
    ensures alarm.flag == FlagAfter(old(alarm.flag), FetchedVolatilities(samples), VOLATILITY_THRESHOLD)
  {
    alerts, volatilityAlerts, last := [], [], None;
    ghost var flag0 := alarm.flag;
    var i := 0;
    while i < |samples|
      invariant 0 <= i <= |samples|
      invariant alerts == AlertRun(None, samples[..i]).0
      invariant last == AlertRun(None, samples[..i]).1
      invariant flag0 == old(alarm.flag)
      invariant volatilityAlerts == Notifications(flag0, FetchedVolatilities(samples[..i]), VOLATILITY_THRESHOLD)
      invariant alarm.flag == FlagAfter(flag0, FetchedVolatilities(samples[..i]), VOLATILITY_THRESHOLD)
    {
      assert samples[..i + 1][..i] == samples[..i];
      VolatilityStep(flag0, samples, i);
      if samples[i].Ok? {
        var notify := alarm.Check(samples[i].value.volatility, VOLATILITY_THRESHOLD);
        volatilityAlerts := volatilityAlerts + [notify];
      }
      var step := AlertStep(last, samples[i]);
      alerts, last := alerts + [step.0], step.1;
      i := i + 1;
    }
    assert samples[..i] == samples;
  }

  /** One more sample extends the fetched volatilities, the notifications and the flag by at most one call. */
  lemma VolatilityStep(flag0: bool, samples: seq<Attempt<Sample>>, i: nat)
    requires i < |samples|
    ensures var vols := FetchedVolatilities(samples[..i]);
      var next := FetchedVolatilities(samples[..i + 1]);
      if samples[i].Ok? then
        var v := samples[i].value.volatility;
        next == vols + [v] &&
        Notifications(flag0, next, VOLATILITY_THRESHOLD) ==
          Notifications(flag0, vols, VOLATILITY_THRESHOLD) + [AlarmStep(FlagAfter(flag0, vols, VOLATILITY_THRESHOLD), v, VOLATILITY_THRESHOLD).0] &&
        FlagAfter(flag0, next, VOLATILITY_THRESHOLD) == AlarmStep(FlagAfter(flag0, vols, VOLATILITY_THRESHOLD), v, VOLATILITY_THRESHOLD).1
      else
        next == vols
  {
    assert samples[..i + 1][..i] == samples[..i];
    var vols := FetchedVolatilities(samples[..i]);
    if samples[i].Ok? {
      assert (vols + [samples[i].value.volatility])[..|vols|] == vols;
    }
  }

  /** The volatilities of the samples that were fetched, in order. */
  function FetchedVolatilities(samples: seq<Attempt<Sample>>): seq<real>
  {
    if |samples| == 0 then []
    else
      var s := samples[|samples| - 1];
      FetchedVolatilities(samples[..|samples| - 1]) + (if s.Ok? then [s.value.volatility] else [])
  }
}
