/**
 * The earlier "Connect to Camera" screen (src/screens/old_Connect.jsx).
 *
 * Two "Done" buttons set `done1` and `done2`; a ping loop sets `isOnline`
 * from each answer and asks again 2000 ms after that answer. The status effect re-runs whenever `done1`, `done2` or
 * `isOnline` changes. It keeps its two timers in the variables `hintTimer`
 * and `revertTimer` of its own run; the hint callback stores the revert timer
 * in the same variable, and the run's cleanup clears both, so no timer of a
 * superseded run ever fires.
 *
 * `Step` is the specification; `OldConnectScreen` is the component, whose
 * handlers are proved to agree with it.
 */
module OldConnect {
  import opened Wrappers
  import Timers
  import Fetch

  const PingTimeoutMs: nat := 1000
  const PingPauseMs: nat := 2000
  const HintDelayMs: nat := 5000
  const HintRevertMs: nat := 10000
  const ErrorResetMs: nat := 7000

  datatype Status = Waiting | Connecting | Hint | ConnectionError | Connected

  const WaitingText: string := "🛜 Waiting for connection..."
  const ConnectingText: string := "⚙️ Connecting..."
  const HintText: string := "💡Didn't see any popup or notification? Turn off Do Not Disturb mode or wait a little longer"
  const ConnectionErrorText: string := "⚠️ Connection error. Forget the network and try again"
  const ConnectedText: string := "✅ Connected!"

  function Text(s: Status): string {
    match s
    case Waiting => WaitingText
    case Connecting => ConnectingText
    case Hint => HintText
    case ConnectionError => ConnectionErrorText
    case Connected => ConnectedText
  }

  /** The five status texts are pairwise distinct, so the enumeration loses nothing. */
  lemma TextInjective(s: Status, s': Status)
    ensures Text(s) == Text(s') ==> s == s'
  {
  }

  /** The callbacks handed to `setTimeout`. The hint callback tests `done2` as it
      was when its effect run started; `WakeLoop` ends the ping loop's pause. */
  datatype Action = HintCheck(done2AtRun: bool) | RevertHint | ResetSteps | WakeLoop

  datatype Loop = Probing | Sleeping | Stopped

  datatype Screen = Screen(
    status: Status,
    showBlink: bool,
    done1: bool,
    done2: bool,
    isConnected: bool,
    isOnline: bool,
    mounted: bool,                  // React drops setter calls once this is false
    active: bool,                   // the ping loop's flag, cleared by its effect cleanup
    loop: Loop,
    timers: Timers.Queue<Action>,
    hintTimer: Option<nat>,         // the current effect run's `hintTimer`
    revertTimer: Option<nat>)       // the current effect run's `revertTimer`
  {
    /** What the model keeps true in every reachable state. */
    predicate Valid() {
      Tracked() && Consistent()
    }

    /** Every pending status timer is held in one of the current run's two
        variables, and the ping loop has at most one pause pending. */
    predicate Tracked() {
      && timers.Valid()
      && active == mounted
      && (hintTimer.Some? ==> hintTimer.value < timers.nextId)
      && (revertTimer.Some? ==> revertTimer.value < timers.nextId)
      && (forall id :: id in timers.pending && timers.pending[id].action != WakeLoop ==>
            hintTimer == Some(id) || revertTimer == Some(id))
      && (hintTimer.Some? && hintTimer.value in timers.pending ==>
            revertTimer.None? && timers.pending[hintTimer.value].action.HintCheck?)
      && (revertTimer.Some? && revertTimer.value in timers.pending ==>
            timers.pending[revertTimer.value].action in {RevertHint, ResetSteps})
      && (forall id :: id in timers.pending && timers.pending[id].action == WakeLoop ==> loop == Sleeping)
      && (forall i, j ::
            (i in timers.pending && j in timers.pending
             && timers.pending[i].action == WakeLoop && timers.pending[j].action == WakeLoop) ==> i == j)
    }

    /** Every pending status timer was set under the `done1`/`done2` values that still hold. */
    predicate Consistent() {
      && (forall id :: id in timers.pending && timers.pending[id].action.HintCheck? ==>
            !timers.pending[id].action.done2AtRun && done1 && !done2)
      && (forall id :: id in timers.pending && timers.pending[id].action == RevertHint ==> done1 && !done2)
      && (forall id :: id in timers.pending && timers.pending[id].action == ResetSteps ==> done1 && done2)
    }
  }

  datatype Event =
    | Done(which: int)                    // a "Done" button's onClick
    | ProbeSettled(reply: Fetch.Reply)    // the awaited ping settles
    | Elapse(ms: nat)                     // time passes, no timer due
    | TimerFired(id: nat)                 // the earliest pending timer fires
    | Unmount                             // both effects' cleanups run

  /** `handleDone(which)`: each flag only ever goes from false to true. */
  function HandleDone(m: Screen, which: int): Screen {
    var m1 := if which == 1 && !m.done1 then m.(done1 := true) else m;
    if which == 2 && !m1.done2 then m1.(done2 := true) else m1
  }

  /** The setters of the status line and the blink: React ignores them once unmounted. */
  function WithStatus(m: Screen, s: Status, blink: bool): Screen {
    if m.mounted then m.(status := s, showBlink := blink) else m
  }

  /** The previous run's cleanup: `clearTimeout` on both of its variables. The next
      run starts with both variables unset. */
  function Cleanup(m: Screen): Screen {
    var q1 := if m.hintTimer.Some? then Timers.ClearTimeout(m.timers, m.hintTimer.value) else m.timers;
    var q2 := if m.revertTimer.Some? then Timers.ClearTimeout(q1, m.revertTimer.value) else q1;
    m.(timers := q2, hintTimer := None, revertTimer := None)
  }

  /** The body of the status effect: its three `if`s, starting with both timer variables unset. */
  function Evaluate(c: Screen): Screen {
    var c1 := if !c.done1 && !c.done2 then c.(status := Waiting, showBlink := true) else c;
    var c2 :=
      if c1.done1 && !c1.done2 then
        c1.(status := Connecting, showBlink := true,
            timers := Timers.SetTimeout(c1.timers, HintDelayMs, HintCheck(c1.done2)),
            hintTimer := Some(c1.timers.nextId))
      else c1;
    if c2.done1 && c2.done2 then
      if c2.isOnline then
        c2.(status := ConnectionError, showBlink := false,
            timers := Timers.SetTimeout(c2.timers, ErrorResetMs, ResetSteps),
            revertTimer := Some(c2.timers.nextId))
      else
        c2.(status := Connected, isConnected := true, showBlink := false)
    else c2
  }

  /** One run of the status effect: the previous run's cleanup, then the body. */
  function StatusEffect(m: Screen): Screen {
    Evaluate(Cleanup(m))
  }

  /** After an event handler: if a dependency of the status effect changed, the
      component re-renders and the effect re-runs once. */
  function Rerendered(before: Screen, after: Screen): Screen {
    if after.mounted
       && (after.done1 != before.done1 || after.done2 != before.done2 || after.isOnline != before.isOnline)
    then StatusEffect(after)
    else after
  }

  /** The screen right after mounting: initial state, then the status effect's first run. */
  function Mount(): Screen {
    StatusEffect(Screen(Waiting, true, false, false, false, true, true, true, Probing, Timers.Start(), None, None))
  }

  /** A timer's callback, run after the timer has left the queue. */
  function RunCallback(m: Screen, a: Action): Screen {
    match a
    case HintCheck(done2AtRun) =>
      if !done2AtRun then
        var m1 := WithStatus(m, Hint, false);
        m1.(timers := Timers.SetTimeout(m1.timers, HintRevertMs, RevertHint), revertTimer := Some(m1.timers.nextId))
      else m
    case RevertHint =>
      var m1 := WithStatus(m, Waiting, true);
      if m1.mounted then m1.(done2 := false) else m1
    case ResetSteps =>
      var m1 := WithStatus(m, Waiting, true);
      if m1.mounted then m1.(done1 := false, done2 := false) else m1
    case WakeLoop => m.(loop := if m.active then Probing else Stopped)
  }

  /** The specification: the screen after one event. Events that cannot happen in
      the given state (no probe in flight, a timer that is not the next due) leave it unchanged. */
  function Step(m: Screen, e: Event): Screen {
    match e
    case Done(which) =>
      // the buttons are rendered only while not connected
      if m.mounted && !m.isConnected then Rerendered(m, HandleDone(m, which)) else m
    case ProbeSettled(r) =>
      if m.loop == Probing then
        var online := Fetch.PingInternetOnce(r, PingTimeoutMs);
        Rerendered(m, m.(isOnline := if m.mounted then online else m.isOnline,
                       loop := Sleeping,
                       timers := Timers.SetTimeout(m.timers, PingPauseMs, WakeLoop)))
      else m
    case Elapse(ms) =>
      if Timers.CanElapse(m.timers, ms) then m.(timers := Timers.Elapse(m.timers, ms)) else m
    case TimerFired(id) =>
      if Timers.CanFire(m.timers, id) then
        var m0 := m.(timers := Timers.Fire(m.timers, id));
        Rerendered(m0, RunCallback(m0, m.timers.pending[id].action))
      else m
    case Unmount =>
      if m.mounted then Cleanup(m).(mounted := false, active := false) else m
  }

  /** The screen after a sequence of events. */
  function Run(m: Screen, es: seq<Event>): Screen
    decreases |es|
  {
    if es == [] then m else Run(Step(m, es[0]), es[1..])
  }

  /**
   * The component itself: its state variables as fields, the current effect
   * run's two timer variables, and the timer queue.
   */
  class OldConnectScreen {
    var status: Status
    var showBlink: bool
    var done1: bool
    var done2: bool
    var isConnected: bool
    var isOnline: bool
    var mounted: bool
    var active: bool
    var loop: Loop
    var timers: Timers.Queue<Action>
    var hintTimer: Option<nat>
    var revertTimer: Option<nat>

    function Snapshot(): Screen
      reads this
    {
      Screen(status, showBlink, done1, done2, isConnected, isOnline, mounted, active, loop, timers, hintTimer, revertTimer)
    }

    /** Mounting: the initial `useState` values, the ping loop's first probe, the status effect's first run. */
    constructor ()
      ensures Snapshot() == Mount()
    {
      status := Waiting;
      showBlink := true;
      done1 := false;
      done2 := false;
      isConnected := false;
      isOnline := true;
      mounted := true;
      active := true;
      loop := Probing;
      timers := Timers.Start();
      hintTimer := None;
      revertTimer := None;
      new;
      RunStatusEffect();
    }

    /** The previous run's cleanup (src/screens/old_Connect.jsx:94-97); the new run
        starts with both timer variables unset. */
    method RunCleanup()
      modifies this
      ensures Snapshot() == Cleanup(old(Snapshot()))
    {
      if hintTimer.Some? {
        timers := Timers.ClearTimeout(timers, hintTimer.value);
      }
      if revertTimer.Some? {
        timers := Timers.ClearTimeout(timers, revertTimer.value);
      }
      hintTimer, revertTimer := None, None;
    }

    /** The effect body at src/screens/old_Connect.jsx:49-92. */
    method RunBody()
      modifies this
      ensures Snapshot() == Evaluate(old(Snapshot()))
    {
      if !done1 && !done2 {
        status, showBlink := Waiting, true;
      }
      if done1 && !done2 {
        status, showBlink := Connecting, true;
        hintTimer := Some(timers.nextId);
        timers := Timers.SetTimeout(timers, HintDelayMs, HintCheck(done2));
      }
      if done1 && done2 {
        if isOnline {
          status, showBlink := ConnectionError, false;
          revertTimer := Some(timers.nextId);
          timers := Timers.SetTimeout(timers, ErrorResetMs, ResetSteps);
        } else {
          status := Connected;
          isConnected := true;
          showBlink := false;
        }
      }
    }

    /** A run of the status effect: the previous run's cleanup, then the body. */
    method RunStatusEffect()
      modifies this
      ensures Snapshot() == StatusEffect(old(Snapshot()))
    {
      RunCleanup();
      RunBody();
    }

    /** Re-runs the status effect if one of its dependencies differs from the given values. */
    method Rerender(done1Before: bool, done2Before: bool, isOnlineBefore: bool)
      modifies this
      ensures Snapshot() == Rerendered(
        old(Snapshot()).(done1 := done1Before, done2 := done2Before, isOnline := isOnlineBefore), old(Snapshot()))
    {
      if mounted && (done1 != done1Before || done2 != done2Before || isOnline != isOnlineBefore) {
        RunStatusEffect();
      }
    }

    /** A "Done" button's onClick (the buttons are shown only while not connected). */
    method HandleDone(which: int)
      modifies this
      ensures Snapshot() == Step(old(Snapshot()), Event.Done(which))
    {
      if !mounted || isConnected {
        return;
      }
      var d1, d2, online := done1, done2, isOnline;
      if which == 1 && !done1 {
        done1 := true;
      }
      if which == 2 && !done2 {
        done2 := true;
      }
      Rerender(d1, d2, online);
    }

    /** The ping loop resumes after `await pingInternetOnce()`: `setIsOnline(online)`, then the 2000 ms pause. */
    method ProbeSettled(reply: Fetch.Reply)
      modifies this
      ensures Snapshot() == Step(old(Snapshot()), Event.ProbeSettled(reply))
    {
      if loop != Probing {
        return;
      }
      var d1, d2, before := done1, done2, isOnline;
      var online := Fetch.PingInternetOnce(reply, PingTimeoutMs);
      if mounted {
        isOnline := online;
      }
      loop := Sleeping;
      timers := Timers.SetTimeout(timers, PingPauseMs, WakeLoop);
      Rerender(d1, d2, before);
    }

    /** Time passes without any timer falling due. */
    method Elapse(ms: nat)
      modifies this
      ensures Snapshot() == Step(old(Snapshot()), Event.Elapse(ms))
    {
      if Timers.CanElapse(timers, ms) {
        timers := Timers.Elapse(timers, ms);
      }
    }

    /** A timer's callback, once the timer has left the queue. */
    method Callback(action: Action)
      modifies this
      ensures Snapshot() == RunCallback(old(Snapshot()), action)
    {
      match action
      case HintCheck(done2AtRun) =>
        if !done2AtRun {
          if mounted {
            status, showBlink := Hint, false;
          }
          revertTimer := Some(timers.nextId);
          timers := Timers.SetTimeout(timers, HintRevertMs, RevertHint);
        }
      case RevertHint =>
        if mounted {
          status, showBlink := Waiting, true;
          done2 := false;
        }
      case ResetSteps =>
        if mounted {
          status, showBlink := Waiting, true;
          done1, done2 := false, false;
        }
      case WakeLoop =>
        loop := if active then Probing else Stopped;
    }

    /** The earliest pending timer fires, its callback runs, and the effect re-runs if a dependency changed. */
    method TimerFired(id: nat)
      modifies this
      ensures Snapshot() == Step(old(Snapshot()), Event.TimerFired(id))
    {
      if !Timers.CanFire(timers, id) {
        return;
      }
      var action := timers.pending[id].action;
      timers := Timers.Fire(timers, id);
      ghost var popped := Snapshot();
      var d1, d2, online := done1, done2, isOnline;
      Callback(action);
      ghost var ran := Snapshot();
      assert ran == RunCallback(popped, action);
      assert Rerendered(popped, ran) == Rerendered(ran.(done1 := d1, done2 := d2, isOnline := online), ran);
      Rerender(d1, d2, online);
    }

    /** Unmounting: the status effect's cleanup clears both timers, and the ping
        loop's cleanup sets `active = false`. */
    method Unmount()
      modifies this
      ensures Snapshot() == Step(old(Snapshot()), Event.Unmount)
    {
      if !mounted {
        return;
      }
      RunCleanup();
      mounted, active := false, false;
    }
  }
}
