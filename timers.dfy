/** One-shot timers of the Node.js runtime, made explicit: a pending timer is a deadline in milliseconds. */
module Timers {
  import opened Options

  /** The largest delay Node.js accepts for `setTimeout` (2^31 - 1 ms). */
  const TimeoutMax: int := 0x7FFF_FFFF

  /** The delay `setTimeout` really waits: Node.js replaces a delay below 1 ms or above
      TimeoutMax by 1 ms. */
  function TimerDelay(ms: int): (d: nat)
    ensures 1 <= d <= TimeoutMax
    ensures 1 <= ms <= TimeoutMax ==> d == ms
    ensures !(1 <= ms <= TimeoutMax) ==> d == 1
  {
    if 1 <= ms <= TimeoutMax then ms else 1
  }

  /** A pending timer with this deadline fires at `now`. */
  predicate Due(deadline: Option<nat>, now: nat)
  {
    deadline.Some? && deadline.value <= now
  }
}
