/** The debounce gate of index.js: one global slot (lastSeenGpio, lastSeenValue) shared by
    every input, and one expiry timer that empties it. */
module DebounceGate {
  import opened Options
  import opened Timers

  /** The slot: the gpio and the value of the last observed transition. */
  datatype Slot = Slot(gpio: int, value: int)

  /** The empty slot: gpio 0 and value -1, the values the globals start with and the
      expiry timer restores. */
  const Empty: Slot := Slot(0, -1)

  /** The slot together with the deadline of the pending expiry timer, if any. */
  datatype GateState = GateState(slot: Slot, expiry: Option<nat>)

  const Initial: GateState := GateState(Empty, None)

  /** checkLastSeen: whether a transition on `gpio` counts as a new event. `value` is
      None when the caller passes no value (JavaScript `undefined`). */
  function Accepts(debounce: bool, slot: Slot, gpio: int, value: Option<int>): (r: bool)
    ensures !debounce ==> r
    ensures debounce && gpio != slot.gpio ==> r
    ensures debounce && value.None? ==> (r <==> gpio != slot.gpio)
    ensures debounce && gpio == slot.gpio ==> (r <==> value.Some? && value.value != slot.value)
  {
    if debounce then
      gpio != slot.gpio || (value != Some(slot.value) && value != None)
    else
      true
  }

  /** updateLastSeen: with debouncing on, the slot is overwritten and the expiry timer is
      replaced by one due `timeout` from now; with debouncing off nothing changes. */
  function Updated(debounce: bool, timeout: int, g: GateState, gpio: int, value: int, now: nat): (r: GateState)
    ensures !debounce ==> r == g
    ensures debounce ==> r.slot == Slot(gpio, value)
    ensures debounce ==> r.expiry == Some(now + TimerDelay(timeout))
    ensures debounce ==> r.expiry.value > now
  {
    if debounce then GateState(Slot(gpio, value), Some(now + TimerDelay(timeout))) else g
  }

  /** The expiry timer at `now`: when due it empties the slot and is no longer pending. */
  function ExpireWindow(g: GateState, now: nat): (r: GateState)
    ensures Due(g.expiry, now) ==> r == Initial
    ensures !Due(g.expiry, now) ==> r == g
  {
    if Due(g.expiry, now) then Initial else g
  }

  /** Inside the window of an update on `gpio`, a check that passes no value rejects `gpio`,
      whatever value the update stored. */
  lemma RepeatSuppressedInWindow(timeout: int, g: GateState, gpio: int, value: int, t0: nat, t1: nat)
    requires t1 < t0 + TimerDelay(timeout)
    ensures ExpireWindow(Updated(true, timeout, g, gpio, value, t0), t1).slot == Slot(gpio, value)
    ensures !Accepts(true, ExpireWindow(Updated(true, timeout, g, gpio, value, t0), t1).slot, gpio, None)
  {
  }

  /** Once the window of the last update has passed, the slot is empty again and every
      nonzero gpio is accepted, with or without a value. */
  lemma OpenAfterExpiry(timeout: int, g: GateState, gpio: int, value: int, t0: nat, t1: nat,
                        other: int, otherValue: Option<int>)
    requires t1 >= t0 + TimerDelay(timeout)
    requires other != 0
    ensures ExpireWindow(Updated(true, timeout, g, gpio, value, t0), t1) == Initial
    ensures Accepts(true, ExpireWindow(Updated(true, timeout, g, gpio, value, t0), t1).slot, other, otherValue)
  {
  }
}
