# Camera Wi-Fi wizard: connectivity state machines in Dafny

The wizard walks a phone user through joining a camera's Wi-Fi network
(`floto_cam`). It has no backend logic. What it does have is a set of screens
that watch the network with probes and derive a status from the answers:

- **Connect** (`src/screens/Connect.jsx`, the live screen). A two-box checklist
  (Wi-Fi joined, captive portal dismissed) and an iOS/Android switch. A ping
  loop asks `/api/ping` whether the phone still reaches the internet, and asks
  again 1500 ms after each answer. One effect turns checklist, platform and `isOnline` into a status
  and schedules delayed transitions:
  - an Android stall hint and its revert;
  - a 1000 ms promotion to Connected;
  - a 1000 ms connection-problem message, then a 5000 ms checklist reset.
- **old Connect** (`src/screens/old_Connect.jsx`, an earlier policy). Two
  "Done" buttons and a Connecting → hint → revert chain. Connected comes at
  once when both steps are done and the phone is offline. Both steps done while
  online shows an error, then a 7000 ms reset. Its effect cleanup cancels both
  of its timers.
- **Screen 1** (`src/screens/Screen1.jsx`). An internet probe loop. `isOnline`
  holds exactly when the latest probe got 204 No Content (section 15.3.5 of
  RFC 9110). The flag picks the status line and gates the Next button.
- **Screen 2** (`src/screens/Screen2.jsx`). A camera probe that loads an image
  from the camera's address. A 2000 ms timer, the image's `load` and its
  `error` race, and a `done` flag lets only the first one count. The retry loop
  stops at the first success and sets `isConnected`.

The four screens are modelled separately, because their policies differ.

## How the model is built

- `wrappers.dfy` defines `Option`.
- `timers.dfy` models the browser timer queue. It has an abstract clock,
  `setTimeout`, which returns fresh handles, `clearTimeout`, and the firing of
  the earliest due callback.
- `fetch.dfy` models one `fetch` raced against an `AbortController`. The
  network's behaviour is a `Reply` value, and the race yields a status, a
  network error or the abort.
- `connect.dfy` and `old_connect.dfy` each hold two things:
  - a pure reducer `Step(screen, event)`. It is the specification of the
    component: checkbox or Done clicks, a probe settling, time passing, a timer
    firing, unmounting.
  - a class whose fields are the component's state. Its methods update those
    fields step by step, the way the setters and the effect do. Each
    event-handler method promises `Snapshot() == Step(old(Snapshot()), event)`.
    The helper methods (the setters, the effect's run, cleanup and body, the
    re-render, a timer's callback) promise the function they implement.
- The async ping loop is modelled by its resumption points:
  - the awaited probe settles: `isOnline` is written and the pause timer is set;
  - the pause timer fires: the next probe starts if the effect is still active.

  So probes interleave with the status timers. The settling of a probe is an
  event of its own and is not tied to the timer clock (see "## Left out").
- React behaviour that the model spells out:
  - An effect re-runs only when a dependency changes value. In Connect,
    `checks` is a new object after every toggle and after the reset, so those
    always re-run the effect.
  - A re-run first runs the previous run's cleanup.
  - Setters called after unmount are ignored.
  - The checkboxes and Done buttons exist only while not connected.
- `connect_properties.dfy` and `old_connect_properties.dfy` prove the
  screens' behaviour about `Step`. Each proves:
  - an invariant kept by every event;
  - the individual transitions;
  - the long-run facts: the stale timers of Connect, the finality of
    Connected in old Connect, and that nothing changes after unmount.
- `screen1.dfy` and `screen2.dfy` keep their `while (active)` loops as
  methods. The environment is a parameter:
  - the sequence of replies the probes receive;
  - the index of the iteration during which the component unmounts.

## Model

| member | source | states |
|---|---|---|
| Fetch.Race | src/screens/Connect.jsx:13-24 | the request yields a status exactly when a response arrives before the abort timer, carrying that status; a network error exactly when a failure arrives before it; otherwise the abort |
| Fetch.Elapsed | src/screens/Connect.jsx:14-20 | the await lasts at most the abort delay, and exactly that long iff the request is aborted |
| Fetch.PingInternetOnce | src/screens/Connect.jsx:11-25 | online iff the response is 204 and arrives before the abort; a network error or the abort is caught and gives false (old_Connect.jsx lines 12-26 define the same helper) |
| Timers.SetTimeout | src/screens/Connect.jsx:47-55 | the new timer is due `delay` after now under the fresh handle `nextId`; every other pending timer is kept; queue validity is preserved |
| Timers.ClearTimeout | src/screens/Connect.jsx:56 | removes exactly the given handle, keeps the rest, and is a no-op for a handle no longer pending |
| Timers.Fire | src/screens/Connect.jsx:66-69 | firing the earliest timer moves the clock to its due time and removes only that timer |
| Timers.Elapse | src/screens/Connect.jsx:33 | time passes while no pending timer is due: the clock advances by exactly `ms` and the queue is unchanged |
| Connect.Flip | src/screens/Connect.jsx:84-86 | `toggle(key)` flips exactly `checks[key]` and leaves the other box unchanged |
| Connect.FlipTwice | src/screens/Connect.jsx:84-86 | toggling the same box twice restores the checklist |
| Connect.TextInjective | src/screens/Connect.jsx:46-78 | the four status texts are pairwise distinct |
| Connect.Cleanup | src/screens/Connect.jsx:56 | the cleanup of the previous effect run clears that run's hint timer, if any, and nothing else (`ConnectProperties.CleanupValid`, `ConnectProperties.StatusEffectKeeps`) |
| Connect.StatusEffect | src/screens/Connect.jsx:42-82 | one run of the status effect: the cleanup, then the Android branch (Waiting and a 3000 ms hint), the incomplete branch (Waiting, not connected), or a 1000 ms promotion or problem timer (`ConnectProperties.AndroidHintBranch` to `OnlineSchedulesProblem`) |
| Connect.RunCallback | src/screens/Connect.jsx:47-80 | the six timer callbacks: hint with an unregistered 5000 ms revert, revert, promotion, problem with a 5000 ms reset, reset that re-runs the effect, and the end of the loop's pause (`ConnectProperties.HintThenRevert` to `ResetClearsChecklist`) |
| Connect.ApplyProbe | src/screens/Connect.jsx:31-33 | a settled probe writes its verdict if mounted, sets the 1500 ms pause, and re-runs the effect only if `isOnline` changed (`ConnectProperties.ProbeSetsOnline`, `ConnectProperties.HintSurvives`) |
| Connect.Step | src/screens/Connect.jsx:27-86 | the screen after one event; an event that cannot happen in the state leaves it unchanged (`ConnectProperties.StepValid`, `ConnectProperties.UnmountedStep`) |
| Connect.ConnectScreen.constructor | src/screens/Connect.jsx:5-9 | the mounted screen is `Mount()`: the initial state, then the first probe and the effect's first run |
| Connect.ConnectScreen.RunStatusEffect | src/screens/Connect.jsx:42-82 | the field updates made by the effect equal `StatusEffect` on the old state |
| Connect.ConnectScreen.SetStatus | src/screens/Connect.jsx:6 | a status write that is dropped after unmount |
| Connect.ConnectScreen.SetIsConnected | src/screens/Connect.jsx:5 | an `isConnected` write that is dropped after unmount |
| Connect.ConnectScreen.Toggle | src/screens/Connect.jsx:84-86 | the new state is `Step(old, Toggle(key))` |
| Connect.ConnectScreen.SelectPlatform | src/screens/Connect.jsx:183-192 | the new state is `Step(old, SelectPlatform(p))` |
| Connect.ConnectScreen.ProbeSettled | src/screens/Connect.jsx:30-33 | the new state is `Step(old, ProbeSettled(reply))` |
| Connect.ConnectScreen.Elapse | src/screens/Connect.jsx:33 | the new state is `Step(old, Elapse(ms))` |
| Connect.ConnectScreen.TimerFired | src/screens/Connect.jsx:47-80 | the new state is `Step(old, TimerFired(id))` |
| Connect.ConnectScreen.Callback | src/screens/Connect.jsx:47-80 | the fired timer's callback updates the screen as `RunCallback` |
| Connect.ConnectScreen.Unmount | src/screens/Connect.jsx:37-39 | the new state is `Step(old, Unmount)` |
| ConnectProperties.MountWaits | src/screens/Connect.jsx:5-9 | after mounting: Waiting, not connected, assumed online, a probe in flight, no timer pending, invariant holds |
| ConnectProperties.CleanupValid | src/screens/Connect.jsx:56 | after the hint cleanup no hint timer is pending and the invariant holds |
| ConnectProperties.StatusEffectValid | src/screens/Connect.jsx:42-82 | a run of the effect keeps the invariant (at most the registered hint pending, one loop pause at most) |
| ConnectProperties.StatusEffectKeeps | src/screens/Connect.jsx:42-82 | a run of the effect keeps every pending timer other than the hint |
| ConnectProperties.StepValid | src/screens/Connect.jsx:27-86 | every event keeps the invariant |
| ConnectProperties.ToggleValid | src/screens/Connect.jsx:84-86 | a checkbox toggle keeps the invariant |
| ConnectProperties.SelectPlatformValid | src/screens/Connect.jsx:183-192 | a platform choice keeps the invariant |
| ConnectProperties.ProbeSettledValid | src/screens/Connect.jsx:30-33 | a settled probe keeps the invariant |
| ConnectProperties.TimerFiredValid | src/screens/Connect.jsx:47-80 | a fired timer keeps the invariant |
| ConnectProperties.FireValid | src/screens/Connect.jsx:47-80 | each timer callback, run after its timer left the queue, keeps the invariant |
| ConnectProperties.UnmountValid | src/screens/Connect.jsx:37-39 | unmounting keeps the invariant |
| ConnectProperties.RunValid | src/screens/Connect.jsx:27-86 | the invariant holds after any sequence of events |
| ConnectProperties.AndroidHintBranch | src/screens/Connect.jsx:45-57 | Android, wifi, no portal: Waiting at once, `isConnected` untouched (the branch returns before the others), the old hint is cancelled, and a new hint is due in 3000 ms |
| ConnectProperties.HintThenRevert | src/screens/Connect.jsx:47-55 | the hint timer shows the hint and sets a revert due 5000 ms later |
| ConnectProperties.RevertShowsWaiting | src/screens/Connect.jsx:51-53 | the revert shows Waiting and changes neither checklist nor `isConnected` |
| ConnectProperties.RerunCancelsHint | src/screens/Connect.jsx:56 | a re-run before the hint fires cancels it |
| ConnectProperties.HintSurvives | src/screens/Connect.jsx:45-57 | the converse: the pending hint and its handle survive every event that changes none of checklist, platform and `isOnline`, including a probe confirming the current `isOnline` and every timer except the reset and the hint itself |
| ConnectProperties.OnlyHintIsCancelled | src/screens/Connect.jsx:45-82 | every other timer (revert, promotion, problem, reset, loop pause) survives every event except its own firing, unmount included |
| ConnectProperties.CallbackKeeps | src/screens/Connect.jsx:47-80 | no timer callback cancels a pending timer other than the hint |
| ConnectProperties.IncompleteChecklistWaits | src/screens/Connect.jsx:59-63 | outside the Android branch, an incomplete checklist gives Waiting and not connected, with no timer set |
| ConnectProperties.OfflineSchedulesPromotion | src/screens/Connect.jsx:65-69 | both boxes checked and offline: a promotion due in 1000 ms; status and `isConnected` unchanged until then |
| ConnectProperties.PromotionConnects | src/screens/Connect.jsx:66-69 | the promotion sets `isConnected` and status Connected |
| ConnectProperties.OnlineSchedulesProblem | src/screens/Connect.jsx:70-80 | both boxes checked and online: the problem message is due in 1000 ms |
| ConnectProperties.ProblemThenReset | src/screens/Connect.jsx:71-80 | the problem timer shows the problem text, clears `isConnected` and sets a reset due 5000 ms later |
| ConnectProperties.ResetClearsChecklist | src/screens/Connect.jsx:76-79 | the reset unchecks both boxes, shows Waiting and leaves the screen not connected |
| ConnectProperties.StalePromotion | src/screens/Connect.jsx:65-69 | a promotion set while both boxes were checked still connects after a box is unchecked |
| ConnectProperties.StaleProblem | src/screens/Connect.jsx:70-80 | a problem timer set while both boxes were checked still fires after a box is unchecked and still sets the reset |
| ConnectProperties.ProbeSetsOnline | src/screens/Connect.jsx:30-33 | a settled probe writes its result to `isOnline` and pauses the loop for 1500 ms |
| ConnectProperties.WakeStartsNextProbe | src/screens/Connect.jsx:30-33 | the end of the pause starts the next probe iff the effect is still active |
| ConnectProperties.LateProbeIsDropped | src/screens/Connect.jsx:30-38 | a probe in flight at unmount finishes its iteration but its write is dropped |
| ConnectProperties.UnmountCancelsOnlyHint | src/screens/Connect.jsx:37-56 | unmounting stops the loop and cancels the pending hint and nothing else |
| ConnectProperties.UnmountedStep | src/screens/Connect.jsx:37-39 | after unmount no event changes what the user sees, and a stopped loop stays stopped |
| ConnectProperties.UnmountedIsFrozen | src/screens/Connect.jsx:27-40 | the same for any sequence of events |
| OldConnect.TextInjective | src/screens/old_Connect.jsx:51-88 | the five status texts are pairwise distinct |
| OldConnect.HandleDone | src/screens/old_Connect.jsx:100-103 | `handleDone(which)` sets `done1` for 1 and `done2` for 2, only when false (`OldConnectProperties.DoneOnlySets`) |
| OldConnect.Cleanup | src/screens/old_Connect.jsx:94-97 | the previous run's cleanup clears both of its timer variables (`OldConnectProperties.CleanupSettled`) |
| OldConnect.Evaluate | src/screens/old_Connect.jsx:45-92 | the effect body's three `if`s: Waiting, Connecting with a 5000 ms hint, or, with both steps done, the error with a 7000 ms reset when online and Connected when offline (`OldConnectProperties.NeitherDoneWaits` to `BothDoneOfflineConnects`) |
| OldConnect.Rerendered | src/screens/old_Connect.jsx:98 | the effect re-runs once after a handler iff mounted and `done1`, `done2` or `isOnline` changed (`OldConnectProperties.RerenderedValid`, `OldConnectProperties.NoRerun`, `OldConnectProperties.UnchangedKeepsTimers`) |
| OldConnect.RunCallback | src/screens/old_Connect.jsx:59-86 | the hint callback (hint text and a 10000 ms revert stored in `revertTimer`, unless `done2` held at its run), the revert, the reset and the end of the loop's pause (`OldConnectProperties.HintThenRevertTimer`, `RevertShowsWaiting`, `ResetClearsSteps`) |
| OldConnect.Step | src/screens/old_Connect.jsx:29-103 | the screen after one event; an event that cannot happen in the state leaves it unchanged (`OldConnectProperties.StepValid`, `OldConnectProperties.ConnectedStays`) |
| OldConnect.OldConnectScreen.constructor | src/screens/old_Connect.jsx:5-10 | the mounted screen is `Mount()` |
| OldConnect.OldConnectScreen.RunStatusEffect | src/screens/old_Connect.jsx:45-98 | the effect's field updates equal `StatusEffect` on the old state |
| OldConnect.OldConnectScreen.RunCleanup | src/screens/old_Connect.jsx:94-97 | the previous run's cleanup clears its two timers, as `Cleanup` |
| OldConnect.OldConnectScreen.RunBody | src/screens/old_Connect.jsx:45-92 | the effect body's writes and timers equal `Evaluate` on the old state |
| OldConnect.OldConnectScreen.Rerender | src/screens/old_Connect.jsx:98 | the effect re-runs iff mounted and `done1`, `done2` or `isOnline` changed |
| OldConnect.OldConnectScreen.HandleDone | src/screens/old_Connect.jsx:100-103 | the new state is `Step(old, Done(which))` |
| OldConnect.OldConnectScreen.ProbeSettled | src/screens/old_Connect.jsx:32-35 | the new state is `Step(old, ProbeSettled(reply))` |
| OldConnect.OldConnectScreen.Elapse | src/screens/old_Connect.jsx:35 | the new state is `Step(old, Elapse(ms))` |
| OldConnect.OldConnectScreen.Callback | src/screens/old_Connect.jsx:59-86 | a fired timer's callback, as `RunCallback` |
| OldConnect.OldConnectScreen.TimerFired | src/screens/old_Connect.jsx:59-86 | the new state is `Step(old, TimerFired(id))` |
| OldConnect.OldConnectScreen.Unmount | src/screens/old_Connect.jsx:94-97 | the new state is `Step(old, Unmount)` |
| OldConnectProperties.MountWaits | src/screens/old_Connect.jsx:5-10 | after mounting: Waiting with blink on, not connected, assumed online, no timer pending |
| OldConnectProperties.CleanupSettled | src/screens/old_Connect.jsx:94-97 | the cleanup leaves no status timer pending and both timer variables unset |
| OldConnectProperties.StatusEffectValid | src/screens/old_Connect.jsx:45-98 | a run of the effect establishes the invariant |
| OldConnectProperties.EvaluateValid | src/screens/old_Connect.jsx:45-92 | the effect body, run after a cleanup, establishes the invariant |
| OldConnectProperties.RerunCancelsPreviousTimers | src/screens/old_Connect.jsx:94-98 | a re-run cancels every status timer of the run it replaces |
| OldConnectProperties.UnchangedKeepsTimers | src/screens/old_Connect.jsx:94-98 | the converse: every pending timer survives every event other than its own firing and unmount that leaves `done1`, `done2` and `isOnline` unchanged, including a probe confirming the current `isOnline` |
| OldConnectProperties.NoRerun | src/screens/old_Connect.jsx:98 | when the re-render leaves the three dependencies as they were before the handler, the effect did not re-run |
| OldConnectProperties.StatusEffectKeepsDeps | src/screens/old_Connect.jsx:45-98 | the effect writes none of `done1`, `done2` and `isOnline` |
| OldConnectProperties.RerenderedValid | src/screens/old_Connect.jsx:98 | the re-render rule keeps the invariant |
| OldConnectProperties.StepValid | src/screens/old_Connect.jsx:29-103 | every event keeps the invariant |
| OldConnectProperties.DoneValid | src/screens/old_Connect.jsx:100-103 | a "Done" click and the re-render it causes keep the invariant |
| OldConnectProperties.ProbeValid | src/screens/old_Connect.jsx:32-35 | a settled probe and the re-render it causes keep the invariant |
| OldConnectProperties.FireValid | src/screens/old_Connect.jsx:59-86 | each timer callback and the re-render it causes keep the invariant |
| OldConnectProperties.UnmountValid | src/screens/old_Connect.jsx:94-97 | unmounting keeps the invariant |
| OldConnectProperties.RunValid | src/screens/old_Connect.jsx:29-103 | the invariant holds after any sequence of events |
| OldConnectProperties.DoneOnlySets | src/screens/old_Connect.jsx:100-103 | `handleDone` only sets the flag it names, never clears one, and ignores any other argument |
| OldConnectProperties.NeitherDoneWaits | src/screens/old_Connect.jsx:50-53 | neither step done: Waiting with blink on, no status timer |
| OldConnectProperties.FirstDoneConnects | src/screens/old_Connect.jsx:56-59 | only step 1 done: Connecting with blink on, the hint due in 5000 ms, no other status timer |
| OldConnectProperties.HintThenRevertTimer | src/screens/old_Connect.jsx:59-72 | the hint callback shows the hint with blink off and stores a revert due 10000 ms later in `revertTimer` |
| OldConnectProperties.RevertShowsWaiting | src/screens/old_Connect.jsx:66-70 | the revert shows Waiting with blink on and clears `done2`, with no status timer left |
| OldConnectProperties.BothDoneOnlineErrors | src/screens/old_Connect.jsx:76-86 | both done and online: the error text with blink off and a reset due in 7000 ms |
| OldConnectProperties.ResetClearsSteps | src/screens/old_Connect.jsx:81-86 | the reset clears both steps and shows Waiting with blink on |
| OldConnectProperties.BothDoneOfflineConnects | src/screens/old_Connect.jsx:87-91 | both done and offline: Connected and `isConnected` at once, no timer |
| OldConnectProperties.SecondDoneAloneKeepsStatus | src/screens/old_Connect.jsx:50-92 | only step 2 done: status and blink unchanged, no status timer |
| OldConnectProperties.StatusEffectKeepsConnected | src/screens/old_Connect.jsx:87-91 | no run of the effect clears `isConnected` |
| OldConnectProperties.ConnectedStays | src/screens/old_Connect.jsx:87-91 | no event clears `isConnected` |
| OldConnectProperties.ConnectedFire | src/screens/old_Connect.jsx:59-91 | no timer callback clears `isConnected` |
| OldConnectProperties.ConnectedProbe | src/screens/old_Connect.jsx:32-35 | no settled probe clears `isConnected` |
| OldConnectProperties.ConnectedIsFinal | src/screens/old_Connect.jsx:87-91 | no sequence of events clears `isConnected` |
| OldConnectProperties.ProbeSetsOnline | src/screens/old_Connect.jsx:32-35 | a settled probe writes its result to `isOnline` and the 2000 ms pause stays pending through any re-run |
| OldConnectProperties.WakeStartsNextProbe | src/screens/old_Connect.jsx:32-35 | the end of the pause starts the next probe iff the effect is still active |
| OldConnectProperties.UnmountCancelsAll | src/screens/old_Connect.jsx:94-97 | unmounting cancels every status timer |
| OldConnectProperties.UnmountedStep | src/screens/old_Connect.jsx:39-41 | after unmount no event changes what the user sees |
| OldConnectProperties.UnmountedFire | src/screens/old_Connect.jsx:59-86 | after unmount a fired timer changes nothing the user sees |
| OldConnectProperties.UnmountedProbe | src/screens/old_Connect.jsx:32-35 | after unmount a settled probe changes nothing the user sees |
| OldConnectProperties.UnmountedIsFrozen | src/screens/old_Connect.jsx:29-42 | the same for any sequence of events, and a stopped loop stays stopped |
| InternetProbe.ProbeVerdict | src/screens/Screen1.jsx:13-33 | true iff a 204 arrives before the 1000 ms abort; another status, a network error or the abort gives false |
| InternetProbe.Verdicts | src/screens/Screen1.jsx:24-33 | one verdict per probe, in order, each from its own reply only |
| InternetProbe.Render | src/screens/Screen1.jsx:52-62 | "Waiting for connection..." iff online; the Next button iff offline |
| InternetProbe.Screen1.constructor | src/screens/Screen1.jsx:4 | `isOnline` starts true |
| InternetProbe.Screen1.Probe | src/screens/Screen1.jsx:13-35 | one iteration writes that probe's verdict and lasts its fetch time plus 1000 ms |
| InternetProbe.Screen1.CheckConnectivity | src/screens/Screen1.jsx:12-42 | the loop writes the verdict of every probe up to the one in flight at unmount, and `isOnline` ends as the latest verdict. Probes start 1000 ms after the previous one settles. No probe starts after cleanup |
| DeviceProbe.Start | src/screens/Screen2.jsx:11-42 | a fresh probe: timer armed, both handlers set, not settled |
| DeviceProbe.Settle | src/screens/Screen2.jsx:16-19 | settling sets `done`, nulls both handlers and resolves once with the value |
| DeviceProbe.Deliver | src/screens/Screen2.jsx:14-41 | on an unsettled probe any callback settles it: true for load, false otherwise. Load and error also clear the timer. On a settled probe every callback leaves the value and the `resolve` count unchanged |
| DeviceProbe.DeliverAllValid | src/screens/Screen2.jsx:12-41 | any sequence of callbacks keeps the probe well-formed and a settled probe's value |
| DeviceProbe.DeliverAll | src/screens/Screen2.jsx:12-41 | the closure after a sequence of callbacks, each delivered as `Deliver` (`DeviceProbe.DeliverAllValid`) |
| DeviceProbe.FirstSignalDecides | src/screens/Screen2.jsx:12-41 | from a fresh probe the first callback decides the value, and `resolve` is called exactly once |
| DeviceProbe.SettledIsInert | src/screens/Screen2.jsx:15-34 | later callbacks change neither the value nor the number of `resolve` calls |
| DeviceProbe.Signals | src/screens/Screen2.jsx:14-42 | the image's event comes first iff it arrives before the 2000 ms timer |
| DeviceProbe.Verdict | src/screens/Screen2.jsx:9-44 | what `pingPi()` resolves to: the image loads before the 2000 ms timeout (`DeviceProbe.PingPiResolvesVerdict`, `DeviceProbe.PingPi`) |
| DeviceProbe.PingPiResolvesVerdict | src/screens/Screen2.jsx:9-44 | the callbacks of one `pingPi()` call, in time order, resolve it exactly once, with `Verdict`: true iff the image loads before the 2000 ms timeout |
| DeviceProbe.SettleMs | src/screens/Screen2.jsx:14-21 | the await lasts at most 2000 ms, less exactly when the image answers first |
| DeviceProbe.FirstSuccess | src/screens/Screen2.jsx:47-51 | the index of the first successful probe: every earlier probe fails |
| DeviceProbe.FirstSuccessAt | src/screens/Screen2.jsx:47-51 | any index before which all probes fail, and at which one succeeds, is the first success |
| DeviceProbe.Render | src/screens/Screen2.jsx:76-95 | "Connected!" iff connected; the Launch Camera App button iff connected |
| DeviceProbe.ImageProbe.constructor | src/screens/Screen2.jsx:11-42 | the closure starts as `Start()` |
| DeviceProbe.ImageProbe.SettleWith | src/screens/Screen2.jsx:16-19 | the field updates equal `Settle` |
| DeviceProbe.ImageProbe.RunCallback | src/screens/Screen2.jsx:14-41 | running a callback updates the closure as `Deliver` |
| DeviceProbe.PingPi | src/screens/Screen2.jsx:9-44 | resolves true iff the image loads before the 2000 ms timeout |
| DeviceProbe.Screen2.constructor | src/screens/Screen2.jsx:4 | `isConnected` starts false |
| DeviceProbe.Screen2.AwaitPingPi | src/screens/Screen2.jsx:48 | the loop resumes with the probe's verdict after its settling time |
| DeviceProbe.Screen2.Loop | src/screens/Screen2.jsx:46-55 | connected iff some probe up to the one in flight at unmount succeeds. The loop stops at the first success and never clears `isConnected`. Failed probes are retried 1500 ms after settling, and none starts after cleanup. The loop ends when its last probe settles if that probe succeeds, and 1500 ms later if it fails (`LastRunMs`) |

Lemmas that only split a larger proof into pieces have no row. These are the frame lemmas, the per-callback pieces of the invariant proofs and the append lemmas for the ghost traces.

## Left out

- JSX, the `styles` objects and the injected style tag: presentation only. The rendered output is modelled only where logic depends on it:
  - the status text and the Next/Launch buttons;
  - Connect's and old Connect's checkboxes and Done buttons, which exist only while not connected. `Step` ignores clicks on them otherwise.
- `fetch`, `AbortController`, `new Image()` and `Date.now()` are browser I/O. Each probe's fate is a parameter (`Fetch.Reply`, `DeviceProbe.ImageReply`), and the clock is the abstract one in `Timers`.
- `window.open` (the Launch Camera App button), the Back/Next navigation callbacks and `console.log` have no effect on state.
- The platform-specific instruction copy is left out. Status texts are constants on an enumeration.
- `public/api/ping.js` is not part of this model: the server only answers 204, and the clients' `status === 204` test is modelled.
- `src/App.jsx` is not part of this model: it only mounts Connect.
- React's scheduling and batching are left out. An effect re-run is "previous cleanup, then the new run", right after the state change that triggers it. Strict-mode double effects are not modelled.
- Connect.Step, OldConnect.Step: timers due at the same instant may fire in any order. The browser fires them in creation order.
- Fetch.Race: a reply arriving exactly at the abort deadline loses to the abort. DeviceProbe.Signals: an image event exactly at 2000 ms loses to the timer.
- InternetProbe.Screen1.CheckConnectivity: the environment decides when the screen unmounts, so the loop is bounded by the index of the iteration during which that happens (`unmountDuring < |replies|`). A screen that is never unmounted is out of scope.
- InternetProbe.Screen1.CheckConnectivity: the write made by the iteration in flight at unmount lands in the field. React discards it, and nothing reads it any more.
- DeviceProbe.Screen2.Loop: the environment decides when the screen unmounts, so the loop is bounded by the index of the iteration during which that happens (`unmountDuring < |replies|`). A screen that is never unmounted is out of scope.
- DeviceProbe.Screen2.Loop: when the probe in flight at unmount succeeds, its late `isConnected := true` write lands in the field. React drops it, and nothing reads it any more.
- Connect.Step, OldConnect.Step: a probe's settling is not tied to the clock. In the code the abort settles every probe within 1000 ms of its start. The model instead lets time pass and timers fire while a probe is in flight for longer, and lets the probe settle at any later point. Every property proved here quantifies over all event orders, so it also holds of the runs the code can have. What the model does not give is a bound on how long `isOnline` can stay stale.
- Connect and old Connect: the ping loop is modelled by its resumption points (probe settled, pause over) rather than as a `while` method, so that probes interleave with the status timers.

## Behaviour worth knowing

- No screen counts consecutive failed probes: `isOnline` is the latest probe's answer only (`ConnectProperties.ProbeSetsOnline`, `InternetProbe.Screen1.CheckConnectivity`).
- No loop checks whether the page is visible. Probing goes on while the page is hidden.
- Connect never cancels its revert, promotion, problem or reset timers; only the Android hint timer is cancelled. The cleanup returned from inside the hint callback is discarded, and the 1000 ms and 5000 ms timers have no cleanup. So a promotion or problem message set under a complete checklist still fires after a box is unchecked (`ConnectProperties.OnlyHintIsCancelled`, `ConnectProperties.StalePromotion`, `ConnectProperties.StaleProblem`). old Connect does cancel both of its timers on every re-run (`OldConnectProperties.RerunCancelsPreviousTimers`).
- All four screens' loops call their setter for the probe that is in flight at unmount, and React ignores every such call. The Connect and old Connect models drop the write (`ConnectProperties.LateProbeIsDropped`). The Screen 1 and Screen 2 models keep it in the field, where nothing reads it any more.
