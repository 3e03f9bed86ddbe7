/**
 * What the earlier Connect screen (src/screens/old_Connect.jsx) does, proved
 * about the specification `OldConnect.Step`.
 */
module OldConnectProperties {
  import opened Wrappers
  import Timers
  import Fetch
  import opened OldConnect

  predicate PendingWith(m: Screen, id: nat, a: Action) {
    id in m.timers.pending && m.timers.pending[id].action == a
  }

  /** No status timer is pending: at most the ping loop's pause. */
  predicate OnlyLoopTimer(m: Screen) {
    forall id :: id in m.timers.pending ==> m.timers.pending[id].action == WakeLoop
  }

  /** After mounting the screen waits with the blink on, assumes it is online and has no timer pending. */
  lemma MountWaits()
    ensures Mount().Valid()
    ensures Mount().status == Waiting && Mount().showBlink && !Mount().isConnected && Mount().isOnline
    ensures Mount().loop == Probing && Mount().timers.pending == map[]
  {
  }

  /** The state a run of the status effect starts from: no status timer pending,
      both timer variables unset. */
  predicate Settled(c: Screen) {
    c.Tracked() && c.hintTimer.None? && c.revertTimer.None? && OnlyLoopTimer(c)
  }

  /** The cleanup leaves no status timer pending. */
  lemma CleanupSettled(m: Screen)
    requires m.Tracked()
    ensures Settled(Cleanup(m))
  {
    var c := Cleanup(m);
    forall id | id in c.timers.pending
      ensures c.timers.pending[id].action == WakeLoop
    {
      assert id in m.timers.pending && c.timers.pending[id] == m.timers.pending[id];
    }
  }

  lemma SettledValid(c: Screen)
    requires Settled(c)
    ensures c.Valid()
  {
  }

  /** `Tracked` depends only on the timers, the two flags of the effects and the timer variables. */
  lemma TrackedFrame(a: Screen, b: Screen)
    requires a.Tracked()
    requires b.timers == a.timers && b.active == a.active && b.mounted == a.mounted && b.loop == a.loop
    requires b.hintTimer == a.hintTimer && b.revertTimer == a.revertTimer
    ensures b.Tracked()
  {
  }

  /** From a settled state, setting the hint timer under `hintTimer` is valid. */
  lemma SettledHint(c: Screen)
    requires Settled(c) && c.done1 && !c.done2
    ensures c.(status := Connecting, showBlink := true,
               timers := Timers.SetTimeout(c.timers, HintDelayMs, HintCheck(false)),
               hintTimer := Some(c.timers.nextId)).Valid()
  {
  }

  /** From a settled state, setting the error reset under `revertTimer` is valid. */
  lemma SettledReset(c: Screen)
    requires Settled(c) && c.done1 && c.done2
    ensures c.(status := ConnectionError, showBlink := false,
               timers := Timers.SetTimeout(c.timers, ErrorResetMs, ResetSteps),
               revertTimer := Some(c.timers.nextId)).Valid()
  {
  }

  lemma EvaluateValid(c: Screen)
    requires Settled(c)
    ensures Evaluate(c).Valid()
  {
    if c.done1 && !c.done2 {
      SettledHint(c);
    } else if c.done1 && c.done2 {
      if c.isOnline {
        SettledReset(c);
      } else {
        var r := c.(status := Connected, isConnected := true, showBlink := false);
        TrackedFrame(c, r);
        assert Settled(r);
        SettledValid(r);
      }
    } else if !c.done1 && !c.done2 {
      var r := c.(status := Waiting, showBlink := true);
      TrackedFrame(c, r);
      assert Settled(r);
      SettledValid(r);
    } else {
      SettledValid(c);
    }
  }

  lemma StatusEffectValid(m: Screen)
    requires m.Tracked()
    ensures StatusEffect(m).Valid()
  {
    CleanupSettled(m);
    EvaluateValid(Cleanup(m));
  }

  /** A re-run cancels every status timer of the run it supersedes; only the ping loop's pause survives. */
  lemma RerunCancelsPreviousTimers(m: Screen, id: nat)
    requires m.Valid() && id in m.timers.pending && m.timers.pending[id].action != WakeLoop
    ensures id !in StatusEffect(m).timers.pending
  {
  }

  /** The converse: the effect re-runs only when `done1`, `done2` or `isOnline`
      changes, so every event that leaves all three as they are keeps every pending
      timer other than its own. In particular a probe that confirms the current
      `isOnline` leaves the 5000 ms hint and the revert in place. */
  lemma UnchangedKeepsTimers(m: Screen, e: Event, id: nat)
    requires m.Valid() && id in m.timers.pending
    requires e != TimerFired(id) && e != Unmount
    requires Step(m, e).done1 == m.done1 && Step(m, e).done2 == m.done2 && Step(m, e).isOnline == m.isOnline
    ensures id in Step(m, e).timers.pending && Step(m, e).timers.pending[id] == m.timers.pending[id]
  {
    match e
    case Done(w) =>
      if m.mounted && !m.isConnected { NoRerun(m, HandleDone(m, w)); }
    case ProbeSettled(r) =>
      if m.loop == Probing {
        var online := Fetch.PingInternetOnce(r, PingTimeoutMs);
        NoRerun(m, m.(isOnline := if m.mounted then online else m.isOnline,
                      loop := Sleeping,
                      timers := Timers.SetTimeout(m.timers, PingPauseMs, WakeLoop)));
      }
    case Elapse(_) =>
    case TimerFired(j) => UnchangedFireKeeps(m, j, id);
  }

  /** A fired timer whose callback leaves `done1`, `done2` and `isOnline` as they
      are causes no re-run, so every other pending timer stays. */
  lemma UnchangedFireKeeps(m: Screen, j: nat, id: nat)
    requires m.Valid() && id in m.timers.pending && j != id
    requires var r := Step(m, TimerFired(j)); r.done1 == m.done1 && r.done2 == m.done2 && r.isOnline == m.isOnline
    ensures id in Step(m, TimerFired(j)).timers.pending
    ensures Step(m, TimerFired(j)).timers.pending[id] == m.timers.pending[id]
  {
    if Timers.CanFire(m.timers, j) {
      PoppedValid(m, j);
      var m0 := Popped(m, j);
      NoRerun(m0, RunCallback(m0, m.timers.pending[j].action));
    }
  }

  /** The effect writes none of its own dependencies. */
  lemma StatusEffectKeepsDeps(m: Screen)
    ensures StatusEffect(m).done1 == m.done1 && StatusEffect(m).done2 == m.done2
    ensures StatusEffect(m).isOnline == m.isOnline
  {
  }

  /** When the re-render leaves the dependencies as they were before the handler,
      the handler did not change them, and so the effect did not re-run. */
  lemma NoRerun(before: Screen, after: Screen)
    requires Rerendered(before, after).done1 == before.done1 && Rerendered(before, after).done2 == before.done2
    requires Rerendered(before, after).isOnline == before.isOnline
    ensures Rerendered(before, after) == after
  {
    StatusEffectKeepsDeps(after);
  }

  /** If the effect does not re-run, the state must already be valid; if it does,
      tracking the timers is enough. */
  lemma RerenderedValid(before: Screen, after: Screen)
    requires after.Tracked()
    requires !(after.mounted
               && (after.done1 != before.done1 || after.done2 != before.done2 || after.isOnline != before.isOnline))
             ==> after.Consistent()
    ensures Rerendered(before, after).Valid()
  {
    if after.mounted
       && (after.done1 != before.done1 || after.done2 != before.done2 || after.isOnline != before.isOnline) {
      StatusEffectValid(after);
    }
  }

  lemma DoneValid(m: Screen, which: int)
    requires m.Valid() && m.mounted
    ensures Rerendered(m, HandleDone(m, which)).Valid()
  {
    RerenderedValid(m, HandleDone(m, which));
  }

  lemma ProbeValid(m: Screen, online: bool)
    requires m.Valid() && m.loop == Probing
    ensures var a := m.(isOnline := if m.mounted then online else m.isOnline,
                        loop := Sleeping,
                        timers := Timers.SetTimeout(m.timers, PingPauseMs, WakeLoop));
      Rerendered(m, a).Valid()
  {
    var a := m.(isOnline := if m.mounted then online else m.isOnline,
                loop := Sleeping,
                timers := Timers.SetTimeout(m.timers, PingPauseMs, WakeLoop));
    assert a.Tracked();
    RerenderedValid(m, a);
  }

  /** The timer `id` has left the queue and nothing else has changed yet. */
  function Popped(m: Screen, id: nat): Screen
    requires Timers.CanFire(m.timers, id)
  {
    m.(timers := Timers.Fire(m.timers, id))
  }

  lemma PoppedValid(m: Screen, id: nat)
    requires m.Valid() && Timers.CanFire(m.timers, id)
    ensures Popped(m, id).Valid()
  {
  }

  lemma HintCallbackTracked(m: Screen, id: nat)
    requires m.Valid() && Timers.CanFire(m.timers, id) && m.timers.pending[id].action.HintCheck?
    ensures RunCallback(Popped(m, id), m.timers.pending[id].action).Tracked()
  {
    assert m.hintTimer == Some(id) && m.revertTimer.None?;
    PoppedValid(m, id);
  }

  lemma OtherCallbackTracked(m: Screen, id: nat)
    requires m.Valid() && Timers.CanFire(m.timers, id) && !m.timers.pending[id].action.HintCheck?
    ensures RunCallback(Popped(m, id), m.timers.pending[id].action).Tracked()
  {
    var m0 := Popped(m, id);
    var act := m.timers.pending[id].action;
    PoppedValid(m, id);
    if act == WakeLoop {
      forall j | j in m0.timers.pending
        ensures m0.timers.pending[j].action != WakeLoop
      {
        assert j in m.timers.pending && j != id;
      }
    } else {
      TrackedFrame(m0, RunCallback(m0, act));
    }
  }

  lemma FireValid(m: Screen, id: nat)
    requires m.Valid() && Timers.CanFire(m.timers, id)
    ensures Rerendered(Popped(m, id), RunCallback(Popped(m, id), m.timers.pending[id].action)).Valid()
  {
    var m0 := Popped(m, id);
    var act := m.timers.pending[id].action;
    var a := RunCallback(m0, act);
    PoppedValid(m, id);
    if act.HintCheck? {
      HintCallbackTracked(m, id);
    } else {
      OtherCallbackTracked(m, id);
    }
    CallbackConsistent(m, id);
    RerenderedValid(m0, a);
  }

  /** A callback that changes what the status effect watches leaves the timers it
      still has pending consistent with the new values. */
  lemma CallbackConsistent(m: Screen, id: nat)
    requires m.Valid() && Timers.CanFire(m.timers, id)
    ensures var m0 := Popped(m, id);
      var a := RunCallback(m0, m.timers.pending[id].action);
      !(a.mounted && (a.done1 != m0.done1 || a.done2 != m0.done2 || a.isOnline != m0.isOnline))
      ==> a.Consistent()
  {
    PoppedValid(m, id);
    var m0 := Popped(m, id);
    match m.timers.pending[id].action
    case HintCheck(d) =>
      if !d { assert m0.timers.nextId !in m0.timers.pending; }
    case RevertHint =>
    case ResetSteps =>
    case WakeLoop =>
  }

  lemma ElapseValid(m: Screen, ms: nat)
    requires m.Valid()
    ensures Step(m, Elapse(ms)).Valid()
  {
    if Timers.CanElapse(m.timers, ms) {
      var r := m.(timers := Timers.Elapse(m.timers, ms));
      assert r.timers.pending == m.timers.pending;
    }
  }

  lemma UnmountValid(m: Screen)
    requires m.Valid()
    ensures Step(m, Unmount).Valid()
  {
    if m.mounted { CleanupSettled(m); }
  }

  /** Every event keeps the model's invariant. */
  lemma StepValid(m: Screen, e: Event)
    requires m.Valid()
    ensures Step(m, e).Valid()
  {
    match e
    case Done(which) =>
      if m.mounted && !m.isConnected { DoneValid(m, which); }
    case ProbeSettled(r) =>
      if m.loop == Probing { ProbeValid(m, Fetch.PingInternetOnce(r, PingTimeoutMs)); }
    case Elapse(ms) => ElapseValid(m, ms);
    case TimerFired(id) =>
      if Timers.CanFire(m.timers, id) { FireValid(m, id); }
    case Unmount => UnmountValid(m);
  }

  /** The invariant holds after any sequence of events from any valid state, in particular from `Mount()`. */
  lemma {:induction false} RunValid(m: Screen, es: seq<Event>)
    requires m.Valid()
    ensures Run(m, es).Valid()
    decreases |es|
  {
    if es != [] {
      StepValid(m, es[0]);
      RunValid(Step(m, es[0]), es[1..]);
    }
  }

  /** `handleDone` only ever sets a flag, and only the one it names; any other argument is ignored. */
  lemma DoneOnlySets(m: Screen, which: int)
    ensures var r := Step(m, Done(which));
      && r.done1 == (m.done1 || (which == 1 && m.mounted && !m.isConnected))
      && r.done2 == (m.done2 || (which == 2 && m.mounted && !m.isConnected))
  {
  }

  /** Neither step done: Waiting with the blink on, and no status timer. */
  lemma NeitherDoneWaits(m: Screen)
    requires m.Valid() && !m.done1 && !m.done2
    ensures var r := StatusEffect(m);
      r.status == Waiting && r.showBlink && OnlyLoopTimer(r)
  {
    CleanupSettled(m);
  }

  /** Only the first step done: Connecting with the blink on, and the hint timer due in 5000 ms. */
  lemma FirstDoneConnects(m: Screen)
    requires m.Valid() && m.done1 && !m.done2
    ensures var r := StatusEffect(m);
      && r.status == Connecting && r.showBlink
      && r.hintTimer == Some(m.timers.nextId)
      && r.timers.pending[m.timers.nextId] == Timers.Timer(m.timers.now + HintDelayMs, HintCheck(false))
      && forall id :: id in r.timers.pending && id != m.timers.nextId ==> r.timers.pending[id].action == WakeLoop
  {
    CleanupSettled(m);
  }

  /** The hint timer's `if (!done2)` test always passes: it shows the hint with the blink
      off and stores a revert timer, due 10000 ms later, in the run's `revertTimer`. */
  lemma HintThenRevertTimer(m: Screen, h: nat)
    requires m.Valid() && m.mounted && Timers.CanFire(m.timers, h) && m.timers.pending[h].action.HintCheck?
    ensures var r := Step(m, TimerFired(h));
      && r.status == Hint && !r.showBlink
      && r.revertTimer == Some(m.timers.nextId)
      && r.timers.pending[m.timers.nextId] == Timers.Timer(m.timers.pending[h].due + HintRevertMs, RevertHint)
  {
  }

  /** The revert shows Waiting with the blink on and clears `done2`. `done2` was already
      false, so the effect does not re-run: `done1` stays set and nothing else is scheduled. */
  lemma RevertShowsWaiting(m: Screen, id: nat)
    requires m.Valid() && m.mounted && Timers.CanFire(m.timers, id) && PendingWith(m, id, RevertHint)
    ensures var r := Step(m, TimerFired(id));
      && r.status == Waiting && r.showBlink && !r.done2 && r.done1
      && OnlyLoopTimer(r)
  {
    var m0 := m.(timers := Timers.Fire(m.timers, id));
    forall j | j in m0.timers.pending
      ensures m0.timers.pending[j].action == WakeLoop
    {
      assert j in m.timers.pending && m0.timers.pending[j] == m.timers.pending[j];
      assert m.revertTimer == Some(id);
    }
  }

  /** Both steps done while online: the error text with the blink off, and a reset due in 7000 ms. */
  lemma BothDoneOnlineErrors(m: Screen)
    requires m.Valid() && m.done1 && m.done2 && m.isOnline
    ensures var r := StatusEffect(m);
      && r.status == ConnectionError && !r.showBlink
      && r.revertTimer == Some(m.timers.nextId)
      && r.timers.pending[m.timers.nextId] == Timers.Timer(m.timers.now + ErrorResetMs, ResetSteps)
  {
  }

  /** The reset clears both steps and shows Waiting with the blink on; nothing is left scheduled. */
  lemma ResetClearsSteps(m: Screen, id: nat)
    requires m.Valid() && m.mounted && Timers.CanFire(m.timers, id) && PendingWith(m, id, ResetSteps)
    ensures var r := Step(m, TimerFired(id));
      && !r.done1 && !r.done2 && r.status == Waiting && r.showBlink
      && OnlyLoopTimer(r)
  {
    var m0 := m.(timers := Timers.Fire(m.timers, id));
    var a := RunCallback(m0, ResetSteps);
    assert m0.Valid() && a.Tracked();
    CleanupSettled(a);
  }

  /** Both steps done while offline: Connected at once, with no timer. */
  lemma BothDoneOfflineConnects(m: Screen)
    requires m.Valid() && m.done1 && m.done2 && !m.isOnline
    ensures var r := StatusEffect(m);
      r.status == Connected && r.isConnected && !r.showBlink && OnlyLoopTimer(r)
  {
    CleanupSettled(m);
  }

  /** Only the second step done: no branch applies, so the status and the blink stay as they were. */
  lemma SecondDoneAloneKeepsStatus(m: Screen)
    requires m.Valid() && !m.done1 && m.done2
    ensures var r := StatusEffect(m);
      r.status == m.status && r.showBlink == m.showBlink && OnlyLoopTimer(r)
  {
    CleanupSettled(m);
  }

  lemma StatusEffectKeepsConnected(m: Screen)
    requires m.isConnected
    ensures StatusEffect(m).isConnected
  {
  }

  /** No event clears `isConnected`. */
  lemma ConnectedFire(m: Screen, id: nat)
    requires m.isConnected
    ensures Step(m, TimerFired(id)).isConnected
  {
    if Timers.CanFire(m.timers, id) {
      var m0 := m.(timers := Timers.Fire(m.timers, id));
      var a := RunCallback(m0, m.timers.pending[id].action);
      assert a.isConnected;
      StatusEffectKeepsConnected(a);
    }
  }

  lemma ConnectedProbe(m: Screen, r: Fetch.Reply)
    requires m.isConnected
    ensures Step(m, ProbeSettled(r)).isConnected
  {
    if m.loop == Probing {
      var online := Fetch.PingInternetOnce(r, PingTimeoutMs);
      var a := m.(isOnline := if m.mounted then online else m.isOnline,
                  loop := Sleeping,
                  timers := Timers.SetTimeout(m.timers, PingPauseMs, WakeLoop));
      StatusEffectKeepsConnected(a);
    }
  }

  /** No event clears `isConnected`. */
  lemma ConnectedStays(m: Screen, e: Event)
    requires m.isConnected
    ensures Step(m, e).isConnected
  {
    match e
    case Done(which) =>
    case ProbeSettled(r) => ConnectedProbe(m, r);
    case Elapse(ms) =>
    case TimerFired(id) => ConnectedFire(m, id);
    case Unmount =>
  }

  /** Once connected, connected for good: no sequence of events clears `isConnected`. */
  lemma {:induction false} ConnectedIsFinal(m: Screen, es: seq<Event>)
    requires m.isConnected
    ensures Run(m, es).isConnected
    decreases |es|
  {
    if es != [] {
      ConnectedStays(m, es[0]);
      ConnectedIsFinal(Step(m, es[0]), es[1..]);
    }
  }

  /** A settled probe sets `isOnline` to its result and pauses the loop for 2000 ms;
      the status effect this may re-run leaves the pause pending. */
  lemma ProbeSetsOnline(m: Screen, reply: Fetch.Reply)
    requires m.Valid() && m.mounted && m.loop == Probing
    ensures var r := Step(m, ProbeSettled(reply));
      && r.isOnline == Fetch.PingInternetOnce(reply, PingTimeoutMs)
      && r.loop == Sleeping
      && m.timers.nextId in r.timers.pending
      && r.timers.pending[m.timers.nextId] == Timers.Timer(m.timers.now + PingPauseMs, WakeLoop)
  {
    var a := m.(isOnline := Fetch.PingInternetOnce(reply, PingTimeoutMs),
                loop := Sleeping,
                timers := Timers.SetTimeout(m.timers, PingPauseMs, WakeLoop));
    assert m.timers.nextId in Cleanup(a).timers.pending;
  }

  /** The end of the pause starts the next probe while the loop is active, and ends the loop otherwise. */
  lemma WakeStartsNextProbe(m: Screen, id: nat)
    requires m.Valid() && Timers.CanFire(m.timers, id) && PendingWith(m, id, WakeLoop)
    ensures Step(m, TimerFired(id)).loop == if m.mounted then Probing else Stopped
  {
  }

  /** Unmounting cancels every status timer; only the ping loop's pause may remain. */
  lemma UnmountCancelsAll(m: Screen)
    requires m.Valid() && m.mounted
    ensures var r := Step(m, Unmount);
      !r.mounted && !r.active && OnlyLoopTimer(r)
  {
    CleanupSettled(m);
  }

  /** What the user sees and what the ping loop feeds back. */
  function Observable(m: Screen): (Status, bool, bool, bool, bool, bool) {
    (m.status, m.showBlink, m.done1, m.done2, m.isConnected, m.isOnline)
  }

  /** After unmount a timer's callback changes nothing the user sees, and a pause that
      ends stops the loop. */
  lemma UnmountedFire(m: Screen, id: nat)
    requires m.Valid() && !m.mounted
    ensures !Step(m, TimerFired(id)).mounted
    ensures Observable(Step(m, TimerFired(id))) == Observable(m)
    ensures Step(m, TimerFired(id)).loop in {m.loop, Stopped}
  {
    if Timers.CanFire(m.timers, id) {
      var m0 := Popped(m, id);
      var a := RunCallback(m0, m.timers.pending[id].action);
      assert !a.mounted && !a.active && Observable(a) == Observable(m) && a.loop in {m.loop, Stopped};
      assert Step(m, TimerFired(id)) == Rerendered(m0, a) == a;
    }
  }

  /** After unmount a settled probe's result is dropped. */
  lemma UnmountedProbe(m: Screen, r: Fetch.Reply)
    requires m.Valid() && !m.mounted
    ensures !Step(m, ProbeSettled(r)).mounted
    ensures Observable(Step(m, ProbeSettled(r))) == Observable(m)
    ensures Step(m, ProbeSettled(r)).loop in {m.loop, Sleeping}
  {
  }

  lemma UnmountedStep(m: Screen, e: Event)
    requires m.Valid() && !m.mounted
    ensures Step(m, e).Valid() && !Step(m, e).mounted
    ensures Observable(Step(m, e)) == Observable(m)
    ensures m.loop != Probing ==> Step(m, e).loop != Probing
  {
    StepValid(m, e);
    match e
    case Done(which) =>
    case ProbeSettled(r) => UnmountedProbe(m, r);
    case Elapse(ms) =>
    case TimerFired(id) => UnmountedFire(m, id);
    case Unmount =>
  }

  /** After unmounting nothing the user sees changes again, and once the probe in flight has settled no new probe starts. */
  lemma {:induction false} UnmountedIsFrozen(m: Screen, es: seq<Event>)
    requires m.Valid() && !m.mounted
    ensures Observable(Run(m, es)) == Observable(m)
    ensures m.loop != Probing ==> Run(m, es).loop != Probing
    decreases |es|
  {
    if es != [] {
      UnmountedStep(m, es[0]);
      UnmountedIsFrozen(Step(m, es[0]), es[1..]);
    }
  }
}
