/**
 * Fallible calls. Every exchange call of the bot either returns a value or
 * raises an exception; the model receives the outcome of each call as an
 * input of type `Attempt`. A call that is retried is given as a function
 * from the attempt number (0, 1, 2, ...) to the outcome of that attempt.
 */
module Attempts {
  import opened Wrappers

  /** The text of a raised exception (`str(e)` in the source). */
  type Error = string

  datatype Attempt<+T> = Ok(value: T) | Fail(error: Error)

  /**
   * What a retry helper hands back to its caller: the value of the first
   * successful attempt, nothing at all (Python's implicit `None`), or the
   * exception it re-raises.
   */
  datatype Outcome<+T> = Returned(value: T) | ReturnedNothing | Raised(error: Error)

  /** The least attempt number below `n` whose call succeeds, if any. */
  function FirstOk<T>(op: nat -> Attempt<T>, n: nat): (r: Option<nat>)
    ensures r.Some? ==> r.value < n && op(r.value).Ok?
    ensures r.Some? ==> forall j :: 0 <= j < r.value ==> op(j).Fail?
    ensures r.None? <==> forall j :: 0 <= j < n ==> op(j).Fail?
  {
    if n == 0 then None
    else
      match FirstOk(op, n - 1)
      case Some(i) => Some(i)
      case None => if op(n - 1).Ok? then Some(n - 1) else None
  }

  /** An attempt that succeeds after only failures is the first success. */
  lemma FirstOkIsLeast<T>(op: nat -> Attempt<T>, n: nat, i: nat)
    requires i < n && op(i).Ok? && forall j :: 0 <= j < i ==> op(j).Fail?
    ensures FirstOk(op, n) == Some(i)
  {
  }

  /** Whether `sub` occurs in `s` (Python's `sub in s` on strings). */
  function Contains(s: string, sub: string): (r: bool)
    ensures r <==> exists i {:trigger s[i..]} :: 0 <= i <= |s| - |sub| && s[i..][..|sub|] == sub
    decreases |s|
  {
    if |s| < |sub| then false
    else if s[..|sub|] == sub then
      assert s[0..][..|sub|] == sub;
      true
    else
      var r := Contains(s[1..], sub);
      if r then
        var i :| 0 <= i <= |s[1..]| - |sub| && s[1..][i..][..|sub|] == sub;
        assert s[1..][i..] == s[i + 1..];
        true
      else
        assert forall i {:trigger s[i..]} :: 1 <= i <= |s| - |sub| ==> s[1..][i - 1..] == s[i..];
        false
  }
}
