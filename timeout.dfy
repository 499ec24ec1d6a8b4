/** The timeout test that `hsolve`'s interval callback runs every 500 ms. */
module Timeout {

  /** How often the interval callback runs, in milliseconds. */
  const CHECK_INTERVAL := 500

  /** The callback throws when the time elapsed since the start is strictly
      greater than the timeout; with a non-negative timeout it never throws
      at or before the start. */
  predicate TimedOut(start: int, now: int, timeout: int)
    ensures timeout >= 0 && TimedOut(start, now, timeout) ==> now > start
  {
    now - start > timeout
  }

  /** It fires exactly from `start + timeout + 1` on: never at an elapsed time
      equal to the timeout, and once it fires it keeps firing. */
  lemma TimedOutThreshold(start: int, now: int, later: int, timeout: int)
    ensures TimedOut(start, now, timeout) <==> now >= start + timeout + 1
    ensures !TimedOut(start, start + timeout, timeout)
    ensures TimedOut(start, now, timeout) && now <= later ==> TimedOut(start, later, timeout)
  {
  }

  /** The first tick of an interval started at `start` at which the
      callback throws, at the nominal tick times: the k-th tick is taken to
      run exactly `k * 500` ms after `start`, with no drift. */
  function FirstFiringTick(start: int, timeout: int): (k: nat)
    ensures k >= 1 && TimedOut(start, start + CHECK_INTERVAL * k, timeout)
    ensures forall j :: 1 <= j < k ==> !TimedOut(start, start + CHECK_INTERVAL * j, timeout)
    ensures timeout >= 0 ==> CHECK_INTERVAL * k - timeout <= CHECK_INTERVAL
  {
    if timeout < 0 then 1 else timeout / CHECK_INTERVAL + 1
  }
}
