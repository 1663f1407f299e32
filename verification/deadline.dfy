/** The stream deadline of app/app_timeout.cpp: `set_timeout` stores the
    time a window from now, `is_timeout` says whether a reading of the
    monotonic clock has reached it. The window (TIMEOUT_MS, defined in a
    header outside this model) is a parameter. */
module Deadline {

  /** A CLOCK_MONOTONIC reading: seconds and the nanoseconds within the
      second, as clock_gettime reports them. */
  type Nanos = n: nat | n < 1_000_000_000

  datatype Clock = Clock(sec: nat, nsec: Nanos)

  /** The reading in nanoseconds. */
  function Total(c: Clock): nat {
    c.sec * 1_000_000_000 + c.nsec
  }

  /** `tv_sec*1000 + tv_nsec/1.0e6` stored into a `long`: the reading in
      whole milliseconds, the fraction dropped. */
  function Millis(c: Clock): (ms: int)
    ensures ms * 1_000_000 <= Total(c) < (ms + 1) * 1_000_000
  {
    c.sec * 1000 + c.nsec / 1_000_000
  }

  /** Later readings give no fewer milliseconds. */
  lemma MillisMonotone(c1: Clock, c2: Clock)
    requires Total(c1) <= Total(c2)
    ensures Millis(c1) <= Millis(c2)
  {
  }

  /** The static `end`; a zero-initialised static before the first
      `set_timeout`. */
  datatype Deadline = Deadline(end: int)

  const Unset := Deadline(0)

  /** set_timeout: the end is the window past the current millisecond. */
  function SetTimeout(c: Clock, window: int): (d: Deadline)
    ensures d.end - window == Millis(c)
    ensures forall c' :: IsTimeout(d, c') <==> Millis(c') - Millis(c) >= window
  {
    Deadline(Millis(c) + window)
  }

  /** is_timeout: compares the un-truncated reading `tv_sec*1000 +
      tv_nsec/1.0e6` with `end`. Scaling both sides by 10^6 keeps the
      comparison exact; since `end` is whole, it agrees with comparing the
      truncated milliseconds. */
  function IsTimeout(d: Deadline, c: Clock): (r: bool)
    ensures r <==> Millis(c) >= d.end
  {
    Total(c) >= d.end * 1_000_000
  }

  /** A deadline set at reading `t` has passed at reading `c` exactly when at
      least the window has elapsed in whole milliseconds. */
  lemma ExpiresAfterWindow(t: Clock, c: Clock, window: int)
    ensures IsTimeout(SetTimeout(t, window), c) <==> Millis(c) - Millis(t) >= window
  {
  }

  /** With the clock not going backwards, once the deadline has passed it
      stays passed. */
  lemma TimeoutStays(d: Deadline, c1: Clock, c2: Clock)
    requires Total(c1) <= Total(c2)
    requires IsTimeout(d, c1)
    ensures IsTimeout(d, c2)
  {
  }

  /** A deadline set at `t` with a positive window has not yet passed at `t`
      itself. */
  lemma FreshDeadlineNotPassed(t: Clock, window: int)
    requires window > 0
    ensures !IsTimeout(SetTimeout(t, window), t)
  {
  }

  /** Re-arming moves the deadline: a later `set_timeout` pushes it back (or
      keeps it) for the same window. */
  lemma RearmExtends(t1: Clock, t2: Clock, window: int)
    requires Total(t1) <= Total(t2)
    ensures SetTimeout(t1, window).end <= SetTimeout(t2, window).end
  {
    MillisMonotone(t1, t2);
  }
}
