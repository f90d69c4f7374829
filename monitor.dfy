/** The running gpio-input-handler: the globals and closure state of index.js as the fields
    of one object, and each callback, timer and remote reply as a method. */
module GpioInputHandler {
  import opened Options
  import opened Timers
  import opened DebounceGate
  import opened Notification
  import opened InputMonitor
  import ActivityIndicator
  import ShutdownWatcher

  /** The notification task in flight and what it waits for. */
  datatype Task = Task(input: InputConfig, stage: Stage)

  class Monitor {
    const config: Config

    /** The watched inputs, in the order handleInputs registered them. */
    var watched: seq<InputConfig>

    // Debounce gate: lastSeenGpio, lastSeenValue and the deadline of debounceTimerId.
    var lastSeenGpio: int
    var lastSeenValue: int
    var debounceDeadline: Option<nat>

    // Activity LED: its level and the deadline of activityTimerId.
    var activityLedOn: bool
    var activityDeadline: Option<nat>

    // Notification dispatcher: the lastRequest chain as the inputs waiting to start, the
    // one task in flight, and the remote calls issued so far.
    var pending: seq<InputConfig>
    var inFlight: Option<Task>
    var requests: seq<Request>
    ghost var enqueued: seq<InputConfig>
    ghost var settled: seq<InputConfig>
    ghost var replies: nat

    // Shutdown button: the closure variable lastPressed and the shutdowns requested.
    var lastPressed: int
    var shutdownRequests: nat

    function Gate(): GateState
      reads this
    {
      GateState(Slot(lastSeenGpio, lastSeenValue), debounceDeadline)
    }

    function ActivityLed(): ActivityIndicator.Led
      reads this
    {
      ActivityIndicator.Led(activityLedOn, activityDeadline)
    }

    function Button(): ShutdownWatcher.Watch
      reads this
    {
      ShutdownWatcher.Watch(lastPressed, shutdownRequests)
    }

    /** The input of the task in flight, if any. */
    function Running(): seq<InputConfig>
      reads this
    {
      if inFlight.Some? then [inFlight.value.input] else []
    }

    /** Remote replies still to come before the dispatcher is idle: two per waiting input,
        two or one for the task in flight. */
    function Outstanding(): nat
      reads this
    {
      2 * |pending| + match inFlight
                      case None => 0
                      case Some(Task(_, AwaitingOrder)) => 2
                      case Some(Task(_, AwaitingTrack(_))) => 1
    }

    /** The object invariant:
        - with debouncing off the gate never leaves its initial state;
        - the LED is on exactly while an off-timer is pending;
        - tasks run one at a time and in enqueue order: every enqueued input has settled,
          is in flight or is waiting, in that order;
        - nothing waits while nothing runs;
        - at most one remote call is outstanding, the one the task in flight waits for. */
    ghost predicate Valid()
      reads this
    {
      && (!config.debounce ==> Gate() == Initial)
      && (activityDeadline.Some? <==> activityLedOn)
      && enqueued == settled + Running() + pending
      && (inFlight.None? ==> pending == [])
      && |requests| == replies + |Running()|
      && (inFlight.Some? ==> requests[|requests| - 1] == CallOf(inFlight.value.stage))
    }

    /** While the invariant holds, work remains exactly when a reply is awaited, and the one
        remote call without a reply is the last one issued, the call the task in flight
        waits for. */
    lemma OutstandingMeansInFlight()
      requires Valid()
      ensures Outstanding() > 0 <==> inFlight.Some?
      ensures inFlight.None? ==> |requests| == replies
      ensures inFlight.Some? ==> && |requests| == replies + 1
                                 && requests[|requests| - 1] == CallOf(inFlight.value.stage)
    {
    }

    constructor (config: Config)
      ensures this.config == config && Valid()
      ensures watched == [] && Gate() == Initial && ActivityLed() == ActivityIndicator.Dark
      ensures pending == [] && inFlight == None && requests == []
      ensures enqueued == [] && settled == [] && replies == 0
      ensures Button() == ShutdownWatcher.Start
    {
      this.config := config;
      watched := [];
      lastSeenGpio, lastSeenValue, debounceDeadline := 0, -1, None;
      activityLedOn, activityDeadline := false, None;
      pending, inFlight, requests := [], None, [];
      enqueued, settled, replies := [], [], 0;
      lastPressed, shutdownRequests := 0, 0;
    }

    /** handleInputs: registers a watch on every configured input, in order. */
    method HandleInputs()
      requires Valid()
      modifies this`watched
      ensures Valid()
      ensures watched == old(watched) + config.inputs
    {
      var i := 0;
      while i < |config.inputs|
        invariant 0 <= i <= |config.inputs|
        invariant watched == old(watched) + config.inputs[..i]
      {
        watched := watched + [config.inputs[i]];
        i := i + 1;
      }
    }

    /** updateLastSeen. */
    method UpdateLastSeen(gpio: int, value: int, now: nat)
      requires Valid()
      modifies this`lastSeenGpio, this`lastSeenValue, this`debounceDeadline
      ensures Valid()
      ensures Gate() == Updated(config.debounce, config.debounceTimeout, old(Gate()), gpio, value, now)
    {
      if config.debounce {
        lastSeenGpio := gpio;
        lastSeenValue := value;
        if debounceDeadline.Some? {
          debounceDeadline := None;
        }
        debounceDeadline := Some(now + TimerDelay(config.debounceTimeout));
      }
    }

    /** activityLedFlash, with the LED write completing at once. */
    method ActivityLedFlash(now: nat)
      requires Valid()
      modifies this`activityLedOn, this`activityDeadline
      ensures Valid()
      ensures ActivityLed() == ActivityIndicator.Flash(old(ActivityLed()), now)
    {
      if activityDeadline.Some? {
        activityDeadline := None;
      }
      activityLedOn := true;
      activityDeadline := Some(now + TimerDelay(ActivityIndicator.FlashMillis));
    }

    /** Starts the next waiting task, if any: it issues its GET `orders`. */
    method StartNext()
      requires inFlight.None?
      requires enqueued == settled + pending
      requires |requests| == replies
      requires !config.debounce ==> Gate() == Initial
      requires activityDeadline.Some? <==> activityLedOn
      modifies this`pending, this`inFlight, this`requests
      ensures Valid()
      ensures old(pending) == [] ==> pending == [] && inFlight == None && requests == old(requests)
      ensures old(pending) != [] ==> && inFlight == Some(Task(old(pending)[0], AwaitingOrder))
                                     && pending == old(pending)[1..]
                                     && requests == old(requests) + [GetOrders]
    {
      if pending != [] {
        inFlight := Some(Task(pending[0], AwaitingOrder));
        pending := pending[1..];
        requests := requests + [GetOrders];
      }
    }

    /** notifyIotService: appends a task to the chain; it starts at once when the chain has
        settled, otherwise it waits behind the tasks already there. */
    method NotifyIotService(input: InputConfig)
      requires Valid()
      modifies this`pending, this`inFlight, this`requests, this`enqueued
      ensures Valid()
      ensures enqueued == old(enqueued) + [input]
      ensures old(inFlight).None? ==> && inFlight == Some(Task(input, AwaitingOrder))
                                      && pending == []
                                      && requests == old(requests) + [GetOrders]
      ensures old(inFlight).Some? ==> && inFlight == old(inFlight)
                                      && pending == old(pending) + [input]
                                      && requests == old(requests)
      ensures Outstanding() == old(Outstanding()) + 2
    {
      assert inFlight.None? ==> |requests| == replies;
      enqueued := enqueued + [input];
      pending := pending + [input];
      if inFlight.None? {
        StartNext();
      }
    }

    /** The reply to the call of the task in flight settles the task: it is done, and the
        next waiting task starts. */
    method Settle()
      requires Valid() && inFlight.Some?
      modifies this`pending, this`inFlight, this`requests, this`settled, this`replies
      ensures Valid()
      ensures replies == old(replies) + 1
      ensures settled == old(settled) + [old(inFlight).value.input]
      ensures old(pending) == [] ==> inFlight == None && pending == [] && requests == old(requests)
      ensures old(pending) != [] ==> && inFlight == Some(Task(old(pending)[0], AwaitingOrder))
                                     && pending == old(pending)[1..]
                                     && requests == old(requests) + [GetOrders]
    {
      replies := replies + 1;
      settled := settled + [inFlight.value.input];
      inFlight := None;
      StartNext();
    }

    /** The reply to the GET `orders` of the task in flight: the order body, or None when
        the call failed (network error, timeout, error status). A failure, or an input
        without additionalData, settles the task; otherwise it issues its POST `tracks`. */
    method OrdersReplied(body: Option<string>)
      requires Valid() && inFlight.Some? && inFlight.value.stage == AwaitingOrder
      modifies this`pending, this`inFlight, this`requests, this`settled, this`replies
      ensures Valid()
      ensures replies == old(replies) + 1
      ensures Outstanding() < old(Outstanding())
      ensures var task := old(inFlight).value;
              var query := if body.Some? then BuildQuery(task.input.additionalData, body.value) else None;
              if query.Some? then
                && inFlight == Some(Task(task.input, AwaitingTrack(query.value)))
                && requests == old(requests) + [PostTracks(query.value)]
                && pending == old(pending) && settled == old(settled)
              else
                && settled == old(settled) + [task.input]
                && (old(pending) == [] ==> inFlight == None && pending == [] && requests == old(requests))
                && (old(pending) != [] ==> && inFlight == Some(Task(old(pending)[0], AwaitingOrder))
                                           && pending == old(pending)[1..]
                                           && requests == old(requests) + [GetOrders])
    {
      var task := inFlight.value;
      var query := if body.Some? then BuildQuery(task.input.additionalData, body.value) else None;
      if query.Some? {
        replies := replies + 1;
        inFlight := Some(Task(task.input, AwaitingTrack(query.value)));
        requests := requests + [PostTracks(query.value)];
      } else {
        Settle();
      }
    }

    /** The reply to the POST `tracks` of the task in flight; success or failure, the task
        settles. */
    method TracksReplied(ok: bool)
      requires Valid() && inFlight.Some? && inFlight.value.stage.AwaitingTrack?
      modifies this`pending, this`inFlight, this`requests, this`settled, this`replies
      ensures Valid()
      ensures replies == old(replies) + 1
      ensures Outstanding() < old(Outstanding())
      ensures settled == old(settled) + [old(inFlight).value.input]
      ensures old(pending) == [] ==> inFlight == None && pending == [] && requests == old(requests)
      ensures old(pending) != [] ==> && inFlight == Some(Task(old(pending)[0], AwaitingOrder))
                                     && pending == old(pending)[1..]
                                     && requests == old(requests) + [GetOrders]
    {
      Settle();
    }

    /** The timers at `now`: the debounce expiry and the LED off-timer fire if due. */
    method Tick(now: nat)
      requires Valid()
      modifies this`lastSeenGpio, this`lastSeenValue, this`debounceDeadline, this`activityLedOn, this`activityDeadline
      ensures Valid()
      ensures Gate() == ExpireWindow(old(Gate()), now)
      ensures ActivityLed() == ActivityIndicator.ExpireFlash(old(ActivityLed()), now)
    {
      if Due(debounceDeadline, now) {
        lastSeenGpio := 0;
        lastSeenValue := -1;
        debounceDeadline := None;
      }
      if Due(activityDeadline, now) {
        activityLedOn := false;
        activityDeadline := None;
      }
    }

    /** The shutdown button's watch callback at wall-clock time `now`. */
    method OnShutdownEdge(value: int, now: int) returns (shutdown: bool)
      requires Valid()
      modifies this`lastPressed, this`shutdownRequests
      ensures Valid()
      ensures shutdown <==> value == 0 && now - old(lastPressed) >= ShutdownWatcher.HoldMillis
      ensures Button() == ShutdownWatcher.OnEdge(old(Button()), value, now)
    {
      shutdown := false;
      if value != 0 {
        lastPressed := now;
      } else {
        if now - lastPressed >= ShutdownWatcher.HoldMillis {
          shutdown := true;
          shutdownRequests := shutdownRequests + 1;
        }
      }
    }

    /** The switch of the watch callback, before any state changes, as the code runs it;
        Emits states what it decides. */
    method Classify(data: InputConfig, value: int) returns (emitted: bool)
      ensures emitted == Emits(config.debounce, Gate().slot, data, value)
    {
      var slot := Slot(lastSeenGpio, lastSeenValue);
      if data.notifyState == Some("HIGH") {
        emitted := value != 0 && Accepts(config.debounce, slot, data.gpio, None);
      } else if data.notifyState == Some("LOW") {
        emitted := value == 0 && Accepts(config.debounce, slot, data.gpio, None);
      } else {
        emitted := Accepts(config.debounce, slot, data.gpio, Some(value));
      }
    }

    /** The watch callback of the k-th watched input for a transition to `value`. */
    method OnInput(k: nat, value: int, now: nat) returns (emitted: bool)
      requires Valid() && k < |watched|
      modifies this`lastSeenGpio, this`lastSeenValue, this`debounceDeadline, this`activityLedOn,
               this`activityDeadline, this`pending, this`inFlight, this`requests, this`enqueued
      ensures Valid()
      ensures emitted == Emits(config.debounce, old(Gate()).slot, watched[k], value)
      ensures Gate() == Updated(config.debounce, config.debounceTimeout, old(Gate()), watched[k].gpio, value, now)
      ensures ActivityLed() == if emitted then ActivityIndicator.Flash(old(ActivityLed()), now) else old(ActivityLed())
      ensures enqueued == old(enqueued) + if emitted then [watched[k]] else []
      ensures !emitted ==> pending == old(pending) && inFlight == old(inFlight) && requests == old(requests)
      ensures emitted && old(inFlight).None? ==> && inFlight == Some(Task(watched[k], AwaitingOrder))
                                                 && pending == []
                                                 && requests == old(requests) + [GetOrders]
      ensures emitted && old(inFlight).Some? ==> && inFlight == old(inFlight)
                                                 && pending == old(pending) + [watched[k]]
                                                 && requests == old(requests)
      ensures Outstanding() == old(Outstanding()) + if emitted then 2 else 0
    {
      var data := watched[k];
      emitted := Classify(data, value);
      if emitted {
        ActivityLedFlash(now);
        NotifyIotService(data);
      }
      UpdateLastSeen(data.gpio, value, now);
    }
  }
}
