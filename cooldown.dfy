/**
 * The notification cooldown of the strategies: a message may be sent only
 * when more than 60 seconds have passed since the last permitted one. The
 * clock reading is a parameter.
 */
module Cooldown {

  const COOLDOWN_SECONDS: real := 60.0

  /** Whether a message may be sent at `now`, and the new last-sent time. */
  function CooldownStep(lastSent: real, now: real): (r: (bool, real))
    ensures r.0 <==> now - lastSent > COOLDOWN_SECONDS
    ensures r.0 ==> r.1 == now
    ensures !r.0 ==> r.1 == lastSent
  {
    if now - lastSent > COOLDOWN_SECONDS then (true, now) else (false, lastSent)
  }

  /** The last-sent time after a run of requests at the given times. */
  function LastSentAfter(last0: real, times: seq<real>): real
  {
    if |times| == 0 then last0
    else CooldownStep(LastSentAfter(last0, times[..|times| - 1]), times[|times| - 1]).1
  }

  /** Which requests of a run are granted. */
  function Grants(last0: real, times: seq<real>): (r: seq<bool>)
    ensures |r| == |times|
  {
    if |times| == 0 then []
    else
      var init := times[..|times| - 1];
      Grants(last0, init) + [CooldownStep(LastSentAfter(last0, init), times[|times| - 1]).0]
  }

  /** Request `j` is decided against the last-sent time left by the requests before it. */
  lemma {:induction false} GrantAt(last0: real, times: seq<real>, j: nat)
    requires j < |times|
    ensures Grants(last0, times)[j] == CooldownStep(LastSentAfter(last0, times[..j]), times[j]).0
    decreases |times|
  {
    var init := times[..|times| - 1];
    if j < |times| - 1 {
      GrantAt(last0, init, j);
      assert init[..j] == times[..j];
      assert init[j] == times[j];
    } else {
      assert init == times[..j];
    }
  }

  /** After a granted request and only refusals, the last-sent time is that request's time. */
  lemma {:induction false} LastSentIsLastGrant(last0: real, times: seq<real>, i: nat, n: nat)
    requires i < n <= |times|
    requires Grants(last0, times)[i]
    requires forall k :: i < k < n ==> !Grants(last0, times)[k]
    ensures LastSentAfter(last0, times[..n]) == times[i]
    decreases n
  {
    GrantAt(last0, times, n - 1);
    assert times[..n][..n - 1] == times[..n - 1];
    if n - 1 == i {
      assert times[..n][n - 1] == times[i];
    } else {
      LastSentIsLastGrant(last0, times, i, n - 1);
      assert times[..n][n - 1] == times[n - 1];
    }
  }

  /**
   * Two successive granted requests are more than 60 seconds apart,
   * whatever the order of the clock readings.
   */
  lemma GrantsSpaced(last0: real, times: seq<real>, i: nat, j: nat)
    requires i < j < |times|
    requires Grants(last0, times)[i] && Grants(last0, times)[j]
    requires forall k :: i < k < j ==> !Grants(last0, times)[k]
    ensures times[j] - times[i] > COOLDOWN_SECONDS
  {
    LastSentIsLastGrant(last0, times, i, j);
    GrantAt(last0, times, j);
  }

  /** The module-level last-sent timestamp and the check that updates it. */
  class TelegramCooldown {
    var lastSent: real

    /** The timestamp starts at 0, so the first request after the epoch's first minute is granted. */
    constructor ()
      ensures lastSent == 0.0
    {
      lastSent := 0.0;
    }

    method CanSend(now: real) returns (ok: bool)
      modifies this
      ensures (ok, lastSent) == CooldownStep(old(lastSent), now)
    {
      if now - lastSent > COOLDOWN_SECONDS {
        lastSent := now;
        return true;
      }
      return false;
    }
  }
}
