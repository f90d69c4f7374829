/** Clients of Monitor that replay documented behaviour, using only the methods' contracts. */
module Scenarios {
  import opened Options
  import opened Notification
  import opened InputMonitor
  import opened DebounceGate
  import opened GpioInputHandler

  /** One waypoint on gpio 24 (HIGH, 5000 ms window): a press is notified; the release 10 ms
      later is not but refreshes the window; a press 10 ms after that is suppressed and
      refreshes it again, to 5020; a press at 6000 ms, after the timer has fired, is
      notified again. */
  method DebounceThroughMonitor()
  {
    var a := InputConfig(24, Some("HIGH"), None);
    var m := new Monitor(Config(true, 5000, [a]));
    m.HandleInputs();
    assert m.watched == [a];
    var e := m.OnInput(0, 1, 0);
    assert e && m.Gate() == GateState(Slot(24, 1), Some(5000));
    m.Tick(10);
    assert m.Gate() == GateState(Slot(24, 1), Some(5000));
    e := m.OnInput(0, 0, 10);
    assert !e && m.Gate() == GateState(Slot(24, 0), Some(5010));
    m.Tick(20);
    e := m.OnInput(0, 1, 20);
    assert !e && m.Gate() == GateState(Slot(24, 1), Some(5020));
    m.Tick(6000);
    assert m.Gate() == Initial;
    e := m.OnInput(0, 1, 6000);
    assert e;
  }

  /** Presses on two waypoints 5 ms apart: both are notified, the second task waits behind
      the first, and only one GET is issued. */
  method SecondTaskWaits()
  {
    var a := InputConfig(24, Some("HIGH"), Some(map["bid" := Num(1)]));
    var b := InputConfig(23, Some("HIGH"), Some(map["bid" := Num(2)]));
    var m := new Monitor(Config(true, 5000, [a, b]));
    m.HandleInputs();
    assert m.watched == [a, b];
    var e := m.OnInput(0, 1, 0);
    assert e && m.inFlight == Some(Task(a, AwaitingOrder)) && m.pending == [] && m.requests == [GetOrders];
    e := m.OnInput(1, 1, 5);
    assert e && m.inFlight == Some(Task(a, AwaitingOrder)) && m.pending == [b] && m.requests == [GetOrders];
  }

  /** Continuing from there: the first task's GET fails, which settles it and starts the
      second at once; the second POSTs with an empty order id and settles although its POST
      fails, leaving the dispatcher idle. */
  method FailureDoesNotBlockNext(m: Monitor, a: InputConfig)
    requires m.Valid() && m.inFlight == Some(Task(a, AwaitingOrder)) && m.requests == [GetOrders]
    requires m.pending == [InputConfig(23, Some("HIGH"), Some(map["bid" := Num(2)]))]
    modifies m
  {
    var b := InputConfig(23, Some("HIGH"), Some(map["bid" := Num(2)]));
    m.OrdersReplied(None);
    assert m.inFlight == Some(Task(b, AwaitingOrder)) && m.pending == [];
    assert m.requests == [GetOrders, GetOrders];
    m.OrdersReplied(Some(""));
    var q := map["bid" := Num(2), "orderid" := Text("")];
    assert m.requests == [GetOrders, GetOrders, PostTracks(q)];
    m.TracksReplied(false);
    assert m.settled == old(m.settled) + [a, b];
    assert m.inFlight == None && m.Outstanding() == 0;
  }

  /** The transitions of a replay: the k-th watched input, the value and the instant. */
  function EdgesOf(watched: seq<InputConfig>, evs: seq<(nat, int, nat)>): (r: seq<Edge>)
    requires forall i :: 0 <= i < |evs| ==> evs[i].0 < |watched|
    ensures |r| == |evs|
    ensures forall i :: 0 <= i < |evs| ==> r[i] == Edge(watched[evs[i].0], evs[i].1, evs[i].2)
  {
    seq(|evs|, i requires 0 <= i < |evs| => Edge(watched[evs[i].0], evs[i].1, evs[i].2))
  }

  /** One step of a replay: the timers due at `at` fire, then the k-th input's callback
      runs; the monitor enqueues what Dispatched enqueues for that transition. */
  method Step(m: Monitor, k: nat, value: int, at: nat)
    requires m.Valid() && k < |m.watched|
    modifies m
    ensures m.Valid() && m.watched == old(m.watched)
    ensures var before := ExpireWindow(old(m.Gate()), at);
            && m.Gate() == Updated(m.config.debounce, m.config.debounceTimeout, before, m.watched[k].gpio, value, at)
            && m.enqueued == old(m.enqueued) + if Emits(m.config.debounce, before.slot, m.watched[k], value) then [m.watched[k]] else []
  {
    m.Tick(at);
    var emitted := m.OnInput(k, value, at);
  }

  /** Driving a monitor with callbacks, each preceded by the timers due at its instant,
      enqueues exactly the inputs Dispatched computes for the same run, so every lemma about
      Dispatched holds of the class. */
  method Replay(m: Monitor, evs: seq<(nat, int, nat)>)
    requires m.Valid()
    requires forall i :: 0 <= i < |evs| ==> evs[i].0 < |m.watched|
    modifies m
    ensures m.Valid() && m.watched == old(m.watched)
    ensures m.enqueued == old(m.enqueued) + Dispatched(m.config.debounce, m.config.debounceTimeout,
                                                       old(m.Gate()), EdgesOf(old(m.watched), evs))
    decreases |evs|
  {
    if evs != [] {
      var (k, value, at) := evs[0];
      ghost var e := EdgesOf(m.watched, evs);
      Step(m, k, value, at);
      assert EdgesOf(m.watched, evs[1..]) == e[1..];
      Replay(m, evs[1..]);
    }
  }
}
