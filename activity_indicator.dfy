/** activityLedFlash: the activity LED goes on and a one-shot timer turns it off 50 ms
    after the most recent flash. */
module ActivityIndicator {
  import opened Options
  import opened Timers

  const FlashMillis: nat := 50

  /** The LED level and the deadline of the pending off-timer, if any. */
  datatype Led = Led(on: bool, offAt: Option<nat>)

  const Dark: Led := Led(false, None)

  /** A flash: any pending off-timer is cancelled, the LED is written on and a fresh
      off-timer is armed 50 ms from now. */
  function Flash(led: Led, now: nat): (r: Led)
    ensures r.on && r.offAt == Some(now + FlashMillis)
  {
    Led(true, Some(now + TimerDelay(FlashMillis)))
  }

  /** The off-timer at `now`: when due it writes the LED off and is no longer pending. */
  function ExpireFlash(led: Led, now: nat): (r: Led)
    ensures Due(led.offAt, now) ==> r == Dark
    ensures !Due(led.offAt, now) ==> r == led
  {
    if Due(led.offAt, now) then Dark else led
  }

  /** A flash followed by a second one before the first has ended coalesce: the first
      deadline is gone, the LED stays on through it, and it goes off exactly 50 ms after the
      second flash. */
  lemma FlashesCoalesce(led: Led, t1: nat, t2: nat, u: nat)
    requires t1 <= t2 < t1 + FlashMillis
    requires t2 <= u < t2 + FlashMillis
    ensures ExpireFlash(Flash(led, t1), t2).on
    ensures Flash(ExpireFlash(Flash(led, t1), t2), t2) == Flash(led, t2)
    ensures ExpireFlash(Flash(led, t2), u) == Flash(led, t2)
    ensures ExpireFlash(Flash(led, t2), t2 + FlashMillis) == Dark
  {
  }

  /** Two flashes 10 ms apart, with the timers polled at every instant that matters, give
      one off-transition, 60 ms after the first flash. */
  lemma TwoFlashesOneOffTransition(t: nat)
    ensures var l1 := ExpireFlash(Flash(Dark, t), t + 10);
            var l2 := Flash(l1, t + 10);
            var l3 := ExpireFlash(l2, t + 50);
            var l4 := ExpireFlash(l3, t + 60);
            l1.on && l2.on && l3.on && !l4.on && l4 == Dark
  {
  }
}
