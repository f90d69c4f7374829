/** The watch callback of handleInputs: classification of a transition against the input's
    notifyState, the debounce gate, and the unconditional refresh of the gate. */
module InputMonitor {
  import opened Options
  import opened Timers
  import opened DebounceGate
  import opened Notification

  /** One configured input: its gpio, its notifyState ('HIGH', 'LOW' or anything else,
      including missing) and the additionalData sent with each notification. */
  datatype InputConfig = InputConfig(gpio: int, notifyState: Option<string>, additionalData: Option<Query>)

  /** The part of the configuration the core reads. */
  datatype Config = Config(debounce: bool, debounceTimeout: int, inputs: seq<InputConfig>)

  /** The shipped defaults: debouncing on for 5000 ms, four waypoints, all notifying on HIGH. */
  const DefaultConfig: Config := Config(true, 5000, [
    InputConfig(24, Some("HIGH"), Some(map["bid" := Num(1), "waypointtype" := Text("Start")])),
    InputConfig(23, Some("HIGH"), Some(map["bid" := Num(2), "waypointtype" := Text("In Transit")])),
    InputConfig(27, Some("HIGH"), Some(map["bid" := Num(3), "waypointtype" := Text("In Transit")])),
    InputConfig(22, Some("HIGH"), Some(map["bid" := Num(4), "waypointtype" := Text("End")]))
  ])

  /** The two policies whose branch calls checkLastSeen without the observed value. */
  predicate IsEdgePolicy(notifyState: Option<string>)
  {
    notifyState == Some("HIGH") || notifyState == Some("LOW")
  }

  /** The switch of the watch callback: whether a transition to `value` on `input` is
      emitted (flash plus notification), given the gate's slot before the callback. */
  function Emits(debounce: bool, slot: Slot, input: InputConfig, value: int): (r: bool)
    ensures input.notifyState == Some("HIGH") ==>
              (r <==> value != 0 && (!debounce || input.gpio != slot.gpio))
    ensures input.notifyState == Some("LOW") ==>
              (r <==> value == 0 && (!debounce || input.gpio != slot.gpio))
    ensures !IsEdgePolicy(input.notifyState) ==>
              (r <==> !debounce || input.gpio != slot.gpio || value != slot.value)
  {
    if input.notifyState == Some("HIGH") then
      value != 0 && Accepts(debounce, slot, input.gpio, None)
    else if input.notifyState == Some("LOW") then
      value == 0 && Accepts(debounce, slot, input.gpio, None)
    else
      Accepts(debounce, slot, input.gpio, Some(value))
  }

  /** A transition observed on an input at an instant. */
  datatype Edge = Edge(input: InputConfig, value: int, at: nat)

  /** The inputs handed to the dispatcher, in order, for a run of transitions starting from
      gate state `g`; before each transition the expiry timer fires if it is due. */
  function Dispatched(debounce: bool, timeout: int, g: GateState, edges: seq<Edge>): (r: seq<InputConfig>)
    ensures |r| <= |edges|
    ensures forall x :: x in r ==> exists i :: 0 <= i < |edges| && edges[i].input == x
    decreases |edges|
  {
    if edges == [] then []
    else
      var e := edges[0];
      var before := ExpireWindow(g, e.at);
      var rest := Dispatched(debounce, timeout, Updated(debounce, timeout, before, e.input.gpio, e.value, e.at), edges[1..]);
      assert forall x :: x in rest ==> exists i :: 0 <= i < |edges| && edges[i].input == x by {
        forall x | x in rest ensures exists i :: 0 <= i < |edges| && edges[i].input == x {
          var j :| 0 <= j < |edges[1..]| && edges[1..][j].input == x;
          assert edges[j + 1].input == x;
        }
      }
      (if Emits(debounce, before.slot, e.input, e.value) then [e.input] else []) + rest
  }

  /** Every transition is on `gpio` through an input whose policy is HIGH or LOW. */
  predicate OnOneEdgeChannel(edges: seq<Edge>, gpio: int)
  {
    forall i :: 0 <= i < |edges| ==> edges[i].input.gpio == gpio && IsEdgePolicy(edges[i].input.notifyState)
  }

  /** Every transition comes before the window opened by the one before it has expired. */
  predicate WithinWindows(edges: seq<Edge>, timeout: int)
  {
    forall i :: 0 <= i < |edges| - 1 ==> edges[i + 1].at < edges[i].at + TimerDelay(timeout)
  }

  /** While the slot holds `gpio` and its window is open, no further transition on `gpio`
      through a HIGH or LOW input is dispatched. */
  lemma {:induction false} SuppressedRun(timeout: int, g: GateState, edges: seq<Edge>, gpio: int)
    requires g.slot.gpio == gpio && g.expiry.Some?
    requires edges != [] ==> edges[0].at < g.expiry.value
    requires OnOneEdgeChannel(edges, gpio) && WithinWindows(edges, timeout)
    ensures Dispatched(true, timeout, g, edges) == []
    decreases |edges|
  {
    if edges != [] {
      var e := edges[0];
      var next := Updated(true, timeout, ExpireWindow(g, e.at), gpio, e.value, e.at);
      assert OnOneEdgeChannel(edges[1..], gpio) by {
        forall i | 0 <= i < |edges[1..]| ensures edges[1..][i].input.gpio == gpio && IsEdgePolicy(edges[1..][i].input.notifyState) {
          assert edges[1..][i] == edges[i + 1];
        }
      }
      assert WithinWindows(edges[1..], timeout) by {
        forall i | 0 <= i < |edges[1..]| - 1 ensures edges[1..][i + 1].at < edges[1..][i].at + TimerDelay(timeout) {
          assert edges[1..][i] == edges[i + 1] && edges[1..][i + 1] == edges[i + 2];
        }
      }
      if |edges| > 1 {
        assert edges[1..][0] == edges[1];
      }
      SuppressedRun(timeout, next, edges[1..], gpio);
    }
  }

  /** Transitions on one gpio through HIGH or LOW inputs, each inside the window of the one
      before it, reach the dispatcher at most once, whatever the values and the state the
      gate starts in. */
  lemma {:induction false} WindowedRepeatsDispatchOnce(timeout: int, g: GateState, edges: seq<Edge>, gpio: int)
    requires OnOneEdgeChannel(edges, gpio) && WithinWindows(edges, timeout)
    ensures |Dispatched(true, timeout, g, edges)| <= 1
  {
    if edges != [] {
      var e := edges[0];
      var next := Updated(true, timeout, ExpireWindow(g, e.at), gpio, e.value, e.at);
      assert OnOneEdgeChannel(edges[1..], gpio) by {
        forall i | 0 <= i < |edges[1..]| ensures edges[1..][i].input.gpio == gpio && IsEdgePolicy(edges[1..][i].input.notifyState) {
          assert edges[1..][i] == edges[i + 1];
        }
      }
      assert WithinWindows(edges[1..], timeout) by {
        forall i | 0 <= i < |edges[1..]| - 1 ensures edges[1..][i + 1].at < edges[1..][i].at + TimerDelay(timeout) {
          assert edges[1..][i] == edges[i + 1] && edges[1..][i + 1] == edges[i + 2];
        }
      }
      if |edges| > 1 {
        assert edges[1..][0] == edges[1];
      }
      SuppressedRun(timeout, next, edges[1..], gpio);
    }
  }

  /** The debounce scenario on the first default waypoint (gpio 24, HIGH, 5000 ms): press at
      0 is dispatched; the release at 10 is not, but refreshes the window; the press at 20 is
      suppressed and refreshes the window again, to 5020; so a press at 6000 is dispatched
      and a press at 5015 is not. */
  lemma DebounceScenario()
    ensures var a := DefaultConfig.inputs[0];
            Dispatched(true, 5000, Initial, [Edge(a, 1, 0), Edge(a, 0, 10), Edge(a, 1, 20), Edge(a, 1, 6000)]) == [a, a]
    ensures var a := DefaultConfig.inputs[0];
            Dispatched(true, 5000, Initial, [Edge(a, 1, 0), Edge(a, 0, 10), Edge(a, 1, 20), Edge(a, 1, 5015)]) == [a]
  {
    var a := DefaultConfig.inputs[0];
    var g1 := Updated(true, 5000, Initial, 24, 1, 0);
    var g2 := Updated(true, 5000, g1, 24, 0, 10);
    var g3 := Updated(true, 5000, g2, 24, 1, 20);
    assert Dispatched(true, 5000, g3, [Edge(a, 1, 6000)]) == [a];
    assert Dispatched(true, 5000, g3, [Edge(a, 1, 5015)]) == [];
    assert Dispatched(true, 5000, g2, [Edge(a, 1, 20), Edge(a, 1, 6000)]) == [a];
    assert Dispatched(true, 5000, g2, [Edge(a, 1, 20), Edge(a, 1, 5015)]) == [];
    assert Dispatched(true, 5000, g1, [Edge(a, 0, 10), Edge(a, 1, 20), Edge(a, 1, 6000)]) == [a];
    assert Dispatched(true, 5000, g1, [Edge(a, 0, 10), Edge(a, 1, 20), Edge(a, 1, 5015)]) == [];
  }

  /** The single slot remembers only the last gpio: a transition on another input between
      two presses on `a` reopens `a`'s window at once, so both presses are dispatched, while
      without it the second press is suppressed. */
  lemma InterveningChannelReopensWindow(timeout: int, a: InputConfig, b: InputConfig, t: nat)
    requires a.gpio != 0 && b.gpio != 0 && a.gpio != b.gpio
    requires a.notifyState == Some("HIGH") && b.notifyState == Some("HIGH")
    ensures Dispatched(true, timeout, Initial, [Edge(a, 1, t), Edge(b, 1, t), Edge(a, 1, t)]) == [a, b, a]
    ensures Dispatched(true, timeout, Initial, [Edge(a, 1, t), Edge(a, 1, t)]) == [a]
  {
    var ga := Updated(true, timeout, Initial, a.gpio, 1, t);
    var gb := Updated(true, timeout, ga, b.gpio, 1, t);
    assert Dispatched(true, timeout, gb, [Edge(a, 1, t)]) == [a];
    assert Dispatched(true, timeout, ga, [Edge(b, 1, t), Edge(a, 1, t)]) == [b, a];
    assert Dispatched(true, timeout, ga, [Edge(a, 1, t)]) == [];
  }
}
