# gpio-input-handler, modelled in Dafny

gpio-input-handler watches the digital inputs of a Raspberry Pi (waypoint sensors on a
track) and reports each qualifying transition to a remote IOT tracking service. It gives
feedback on an activity LED and powers the machine down when the shutdown button is held
for five seconds. This project models the event-coordination core of `index.js` as a
state machine with explicit time and proves properties of it.

- Time is a `nat` in milliseconds, passed to every callback.
- Every `setTimeout` becomes a stored deadline. `Tick(now)` fires the deadlines that are due.
- Every remote reply is an input to a method.

The parts of the model:

- `DebounceGate` (debounce_gate.dfy). This is the single global slot `(lastSeenGpio, lastSeenValue)`, which starts as `(0, -1)`, plus its expiry timer.
  - `Accepts` is `checkLastSeen`. `Updated` is `updateLastSeen`. `ExpireWindow` is the timer callback.
- `InputMonitor` (input_monitor.dfy). This is the configuration and the watch callback's switch (`Emits`).
  - `Dispatched` replays a run of transitions and returns the inputs that reach the dispatcher.
  - The lemmas about these are proved over all runs.
- `Notification` (notification.dfy). This builds the POST query from a copy of `additionalData` plus `orderid`. It also defines the two remote calls.
- `ActivityIndicator` (activity_indicator.dfy). This is the cancel-and-rearm 50 ms LED flash.
- `ShutdownWatcher` (shutdown_watcher.dfy). This is the hold detector with the closure variable `lastPressed`.
- `GpioInputHandler.Monitor` (monitor.dfy). This class holds the process's global state as fields and each callback as a method.
  - Each method's frame names only the fields it changes.
  - The dispatcher's `lastRequest` promise chain becomes three fields: a FIFO `pending` sequence, at most one task `inFlight`, and the log of remote `requests`. Ghost histories `enqueued` and `settled` track the tasks.
  - `Valid()` says five things. Tasks settle in enqueue order. Nothing waits while nothing runs. At most one remote call is outstanding. The LED is on exactly while its off-timer is pending. With debouncing off, the gate stays in its initial state.
  - Each remote reply strictly decreases `Outstanding()`, so the chain never stalls.
- `Scenarios` (scenarios.dfy). `Replay` proves that driving `Monitor` with callbacks, each preceded by the timers due at its instant, enqueues exactly what `Dispatched` returns. So the lemmas about `Dispatched` hold of the class. The other methods are clients that replay example runs through `Monitor` using only its contracts.

Notes on what the code does:

- The single slot remembers only the last gpio seen. A transition on another gpio is always accepted, and it replaces the slot. So a transition on another input reopens the first input's window at once (`InterveningChannelReopensWindow`).
- Transitions on one gpio inside the window reach the dispatcher at most once only for `HIGH` and `LOW` inputs (`WindowedRepeatsDispatchOnce`). Those branches call `checkLastSeen(data.gpio)` without the value, so the value clause is always false for them. Inputs with any other `notifyState` pass the value, so a transition to a different value is accepted every time (`Emits`).
- Every callback refreshes the window, including one that was suppressed or did not match its policy. After a press at 0 ms, a release at 10 ms and a press at 20 ms, the window runs until 5020 ms (`DebounceScenario`).
- A release never resets `lastPressed`, so a second release is measured from the same press (`ReleaseKeepsPressTime`).
- The notification carries only `additionalData` and `orderid`. The observed level is not sent.
- With debouncing on, a `HIGH` or `LOW` input on gpio 0 is rejected against the empty slot `(0, -1)`. It can emit only right after a transition on another gpio. The default inputs are all nonzero, and `OpenAfterExpiry` is stated for nonzero gpios.

## Model

| member | source | states |
|---|---|---|
| Timers.TimerDelay | index.js:40-43 | the delay a timer waits is the configured one when it lies in 1..2^31-1 ms, and 1 ms otherwise |
| DebounceGate.Accepts | index.js:48-55 | with debouncing off every transition is accepted; with it on, a different gpio is accepted, and on the same gpio only a defined value that differs from the stored one is accepted |
| DebounceGate.Updated | index.js:32-45 | with debouncing on the slot becomes (gpio, value) and the only pending expiry is now + timeout; with it off nothing changes |
| DebounceGate.ExpireWindow | index.js:40-43 | a due expiry timer empties the slot to (0, -1) and is no longer pending; otherwise the state is unchanged |
| DebounceGate.RepeatSuppressedInWindow | index.js:32-55 | inside the window of an update, a check without a value rejects the same gpio |
| DebounceGate.OpenAfterExpiry | index.js:40-50 | after the window passes, the slot is empty and every nonzero gpio is accepted with or without a value |
| Notification.BuildQuery | index.js:101-102 | the query is the input's additionalData with orderid set to the order body, every other key unchanged; with no additionalData there is no query |
| Notification.EmptyOrderProceeds | index.js:95-102 | an empty order body still yields a query, with an empty orderid |
| InputMonitor.Emits | index.js:162-187 | HIGH emits iff the value is truthy and the gpio differs from the slot's; LOW the same with a falsy value; any other policy iff the gpio or the value differs (always, when debouncing is off) |
| InputMonitor.Dispatched | index.js:156-189 | a run of callbacks dispatches at most one input per transition, each one an input of the run |
| InputMonitor.SuppressedRun | index.js:162-188 | while the slot holds a gpio and its window stays open, no HIGH or LOW transition on it is dispatched |
| InputMonitor.WindowedRepeatsDispatchOnce | index.js:162-188 | HIGH or LOW transitions on one gpio, each within the window of the previous one, reach the dispatcher at most once |
| InputMonitor.DebounceScenario | index.js:162-188 | press 0, release 10, press 20, press 6000 dispatch twice; a last press at 5015 is still suppressed |
| InputMonitor.InterveningChannelReopensWindow | index.js:32-55 | a transition on another input between two presses lets both presses through; without it the second is suppressed |
| ActivityIndicator.Flash | index.js:61-78 | after a flash the LED is on and the only pending off-timer is 50 ms from now |
| ActivityIndicator.ExpireFlash | index.js:70-76 | a due off-timer turns the LED off and is no longer pending; otherwise nothing changes |
| ActivityIndicator.FlashesCoalesce | index.js:61-78 | a second flash before the first ends cancels its deadline; the LED stays on and goes off exactly 50 ms after the second flash |
| ActivityIndicator.TwoFlashesOneOffTransition | index.js:61-78 | flashes at t and t+10 keep the LED on at t+50 and give one off-transition, at t+60 |
| ShutdownWatcher.OnEdge | index.js:136-144 | a press records the time and never shuts down; a release keeps lastPressed and requests one shutdown iff at least 5000 ms passed since it |
| ShutdownWatcher.Run | index.js:132-145 | a run of button transitions requests between zero and one shutdown per transition |
| ShutdownWatcher.HoldBoundary | index.js:136-143 | a release 4999 ms after a press does nothing; one at 5000 ms requests exactly one shutdown |
| ShutdownWatcher.ReleaseKeepsPressTime | index.js:136-143 | a second release with no press in between requests a second shutdown |
| ShutdownWatcher.ReleaseBeforeAnyPress | index.js:130-143 | a release before any press is measured from time 0 and requests a shutdown |
| ShutdownWatcher.PressesNeverShutDown | index.js:136-138 | presses alone never request a shutdown |
| GpioInputHandler.Monitor.constructor | index.js:20-25 | empty slot, no timers, LED off, idle chain, lastPressed 0 |
| GpioInputHandler.Monitor.OutstandingMeansInFlight | index.js:85-123 | while work remains, a task is in flight awaiting a reply, so the chain cannot stall; every call issued has been answered except, when a task is in flight, the last one, which is the GET or the POST that task waits for |
| GpioInputHandler.Monitor.HandleInputs | index.js:151-192 | every configured input is watched, in configuration order |
| GpioInputHandler.Monitor.UpdateLastSeen | index.js:32-45 | the gate moves as Updated says and the invariant holds |
| GpioInputHandler.Monitor.ActivityLedFlash | index.js:61-78 | the LED moves as Flash says |
| GpioInputHandler.Monitor.StartNext | index.js:86-93 | the oldest waiting input, if any, starts and issues its GET |
| GpioInputHandler.Monitor.NotifyIotService | index.js:85-123 | the input is enqueued last; it starts with a GET iff nothing was in flight, otherwise it waits and no call is issued |
| GpioInputHandler.Monitor.Settle | index.js:109-120 | the in-flight task settles after its reply and the next waiting one starts |
| GpioInputHandler.Monitor.OrdersReplied | index.js:94-120 | with an order body and additionalData the task POSTs BuildQuery's query; a failed GET or a missing additionalData settles it and starts the next; outstanding work decreases |
| GpioInputHandler.Monitor.TracksReplied | index.js:109-120 | success or failure, the task settles, the next one starts, and outstanding work decreases |
| GpioInputHandler.Monitor.Tick | index.js:40-76 | the debounce and LED timers fire exactly as ExpireWindow and ExpireFlash say |
| GpioInputHandler.Monitor.OnShutdownEdge | index.js:132-145 | reports a shutdown iff a release comes at least 5000 ms after lastPressed; the button state moves as OnEdge says |
| GpioInputHandler.Monitor.Classify | index.js:162-187 | the imperative switch decides exactly what Emits states for the current slot |
| GpioInputHandler.Monitor.OnInput | index.js:156-189 | emits iff Emits holds on the slot before the callback; an emission flashes and enqueues exactly once; the slot is always refreshed to (gpio, value) with a single new expiry |
| Scenarios.Step | index.js:156-189 | one callback preceded by the due timers moves the gate as ExpireWindow then Updated say and enqueues the input iff Emits holds on the expired slot |
| Scenarios.Replay | index.js:156-189 | a run of callbacks on the monitor enqueues exactly the inputs Dispatched returns for the same run from the same gate state |

## Left out

- Configuration loading and logging (index.js:10-16 and every log call). The configuration is a `Config` value; `DefaultConfig` holds default-config.js's values.
- The GPIO driver: `Gpio` construction, `watch`, LED writes, `unexport`, and the `cleanup` handler. This is hardware I/O. Transitions arrive as method calls, and LED levels are fields.
- Hardware errors (`throw err` in the callbacks). These are fatal process faults outside the state machine.
- HTTP through restler-promise, the proxy agent and the 5000 ms request timeouts. A reply is an input to `OrdersReplied` (an order body, or `None` for any failure) or `TracksReplied`. The body is taken to be text. A JSON body parsed into an object is not modelled.
- The `exec('sudo shutdown now')` call. Only the request is counted. Its completion callback calls an undefined `callback`, and that is not modelled either.
- Real scheduling. A task starts as soon as its predecessor settles, where the promise chain starts it on a later microtask. The LED write completes at once. Because of this, the source's race is not modelled: two flashes before either write completes can arm two off-timers.
- Input callbacks never fire timers themselves. The environment orders `Tick` and callbacks, as the event loop does.
- The unbounded growth of the promise chain. Delivery is one best-effort attempt per event.
- Wall-clock and monotonic time are not told apart. `OnShutdownEdge` takes the `Date.now()` value as given, and nothing requires time to increase.
- Query values are numbers or strings only. `additionalData` may hold any JSON value (booleans, fractions, nested objects), and `clone` copies them without looking at them. The model does not represent the other kinds.
