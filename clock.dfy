/** `Date.now()` and `setTimeout` waits: the time only moves forward, by a wait whose
    length `Math.random()` picks within its bounds. */
module Clock {
  class Clock {
    var now: int

    constructor (start: int)
      ensures now == start
    {
      now := start;
    }

    /** A wait of `Math.random() * (hi - lo) + lo` milliseconds. */
    method SleepBetween(lo: int, hi: int) returns (waited: int)
      requires 0 <= lo < hi
      modifies this
      ensures lo <= waited < hi
      ensures now == old(now) + waited
    {
      waited :| lo <= waited < hi;
      now := now + waited;
    }

    /** A wait of exactly `ms` milliseconds. */
    method Sleep(ms: nat)
      modifies this
      ensures now == old(now) + ms
    {
      now := now + ms;
    }
  }
}
