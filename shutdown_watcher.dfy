/** handleShutdownButton: a release of the shutdown button at least 5000 ms after the last
    recorded press requests a system shutdown. */
module ShutdownWatcher {

  const HoldMillis: int := 5000

  /** The closure variable lastPressed (initially 0) and the number of shutdowns requested. */
  datatype Watch = Watch(lastPressed: int, shutdowns: nat)

  const Start: Watch := Watch(0, 0)

  /** A release at `now` is long enough. */
  predicate ShutdownDue(lastPressed: int, now: int)
  {
    now - lastPressed >= HoldMillis
  }

  /** The watch callback for a transition to `value` at wall-clock time `now`. */
  function OnEdge(w: Watch, value: int, now: int): (r: Watch)
    ensures value != 0 ==> r == Watch(now, w.shutdowns)
    ensures value == 0 ==> r.lastPressed == w.lastPressed
    ensures value == 0 ==> (r.shutdowns == w.shutdowns + 1 <==> now - w.lastPressed >= HoldMillis)
    ensures value == 0 ==> (r.shutdowns == w.shutdowns <==> now - w.lastPressed < HoldMillis)
  {
    if value != 0 then Watch(now, w.shutdowns)
    else if ShutdownDue(w.lastPressed, now) then Watch(w.lastPressed, w.shutdowns + 1)
    else w
  }

  /** A transition of the shutdown button. */
  datatype ButtonEdge = ButtonEdge(value: int, at: int)

  /** The callback applied to a run of transitions, in order. */
  function Run(w: Watch, edges: seq<ButtonEdge>): (r: Watch)
    ensures r.shutdowns >= w.shutdowns
    ensures r.shutdowns <= w.shutdowns + |edges|
    decreases |edges|
  {
    if edges == [] then w else Run(OnEdge(w, edges[0].value, edges[0].at), edges[1..])
  }

  /** Press at t: a release at t + 4999 does nothing, a release at t + 5000 requests exactly
      one shutdown. */
  lemma HoldBoundary(w: Watch, t: int)
    ensures Run(w, [ButtonEdge(1, t), ButtonEdge(0, t + 4999)]) == Watch(t, w.shutdowns)
    ensures Run(w, [ButtonEdge(1, t), ButtonEdge(0, t + 5000)]) == Watch(t, w.shutdowns + 1)
  {
    assert Run(Watch(t, w.shutdowns), [ButtonEdge(0, t + 4999)]) == Watch(t, w.shutdowns);
    assert Run(Watch(t, w.shutdowns), [ButtonEdge(0, t + 5000)]) == Watch(t, w.shutdowns + 1);
  }

  /** lastPressed is not reset by a release: a second release with no press in between is
      measured from the same press and requests a second shutdown. */
  lemma ReleaseKeepsPressTime(w: Watch, t: int, d: int)
    requires d >= 0
    ensures Run(w, [ButtonEdge(1, t), ButtonEdge(0, t + 5000), ButtonEdge(0, t + 5000 + d)]) == Watch(t, w.shutdowns + 2)
  {
    var w1 := Watch(t, w.shutdowns);
    var w2 := Watch(t, w.shutdowns + 1);
    assert Run(w2, [ButtonEdge(0, t + 5000 + d)]) == Watch(t, w.shutdowns + 2);
    assert Run(w1, [ButtonEdge(0, t + 5000), ButtonEdge(0, t + 5000 + d)]) == Watch(t, w.shutdowns + 2);
  }

  /** A release seen before any press is measured against the initial lastPressed of 0, so
      at any wall-clock time of at least 5000 ms it requests a shutdown. */
  lemma ReleaseBeforeAnyPress(now: int)
    requires now >= HoldMillis
    ensures Run(Start, [ButtonEdge(0, now)]) == Watch(0, 1)
  {
  }

  /** A press never requests a shutdown. */
  lemma {:induction false} PressesNeverShutDown(w: Watch, edges: seq<ButtonEdge>)
    requires forall i :: 0 <= i < |edges| ==> edges[i].value != 0
    ensures Run(w, edges).shutdowns == w.shutdowns
    decreases |edges|
  {
    if edges != [] {
      assert forall i :: 0 <= i < |edges[1..]| ==> edges[1..][i] == edges[i + 1];
      PressesNeverShutDown(OnEdge(w, edges[0].value, edges[0].at), edges[1..]);
    }
  }
}
