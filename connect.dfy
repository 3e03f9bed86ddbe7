/**
 * The live "Connect to Camera" screen (src/screens/Connect.jsx).
 *
 * The component's state is the checklist `{wifi, portal}`, the `isOnline` flag
 * written by the ping loop, the selected platform, the status line and the
 * `isConnected` flag. The status effect re-runs whenever `checks`, `isOnline`
 * or `platform` changes; it derives the status and schedules delayed
 * transitions. Only the Android stall-hint timer is ever cancelled: the
 * cleanup returned from inside the hint callback is discarded by
 * `setTimeout`, and the 1000/5000 ms timers have no cleanup at all.
 *
 * `Step` is the specification (one event, one new state); `ConnectScreen`
 * is the component itself, whose methods change its fields setter by setter
 * and are proved to agree with `Step`.
 */
module Connect {
  import opened Wrappers
  import Timers
  import Fetch

  const PingTimeoutMs: nat := 1000
  const PingPauseMs: nat := 1500
  const HintDelayMs: nat := 3000
  const HintRevertMs: nat := 5000
  const SettleMs: nat := 1000
  const ProblemDelayMs: nat := 1000
  const ResetDelayMs: nat := 5000

  datatype Platform = Ios | Android
  datatype Key = Wifi | Portal

  datatype Checks = Checks(wifi: bool, portal: bool) {
    function Get(key: Key): bool {
      match key
      case Wifi => wifi
      case Portal => portal
    }
    predicate AllChecked() {
      wifi && portal
    }
  }

  function Other(key: Key): Key {
    match key
    case Wifi => Portal
    case Portal => Wifi
  }

  datatype Status = Waiting | StallHint | Connected | Problem

  const WaitingText: string := "🛜 Waiting for connection..."
  const StallHintText: string := "💡 Didn't see anything for step 2? Turn off Do Not Disturb mode & look out for notifications."
  const ConnectedText: string := "✅ Connected!"
  const ProblemText: string := "⚠️ Connection problem. Forget the network “floto_cam” and retry the steps again"

  /** The text the status line shows; distinct statuses show distinct texts. */
  function Text(s: Status): string {
    match s
    case Waiting => WaitingText
    case StallHint => StallHintText
    case Connected => ConnectedText
    case Problem => ProblemText
  }

  lemma TextInjective(s: Status, s': Status)
    ensures Text(s) == Text(s') ==> s == s'
  {
  }

  /** The callbacks the screen hands to `setTimeout`. `WakeLoop` ends the ping loop's pause. */
  datatype Action = ShowHint | RevertHint | Promote | ShowProblem | ResetChecks | WakeLoop

  /** Where the ping loop is suspended: awaiting a probe, awaiting its pause, or returned. */
  datatype Loop = Probing | Sleeping | Stopped

  datatype Screen = Screen(
    checks: Checks,
    isOnline: bool,
    platform: Platform,
    status: Status,
    isConnected: bool,
    mounted: bool,                  // React drops setter calls once this is false
    active: bool,                   // the ping loop's flag, cleared by its effect cleanup
    loop: Loop,
    timers: Timers.Queue<Action>,
    hintTimer: Option<nat>)         // the timer the status effect's current cleanup clears
  {
    /** What the model keeps true in every reachable state. */
    predicate Valid() {
      && timers.Valid()
      && active == mounted
      && (hintTimer.Some? ==>
            hintTimer.value < timers.nextId
            && (hintTimer.value in timers.pending ==> timers.pending[hintTimer.value].action == ShowHint))
      && (forall id :: id in timers.pending && timers.pending[id].action == ShowHint ==> hintTimer == Some(id))
      && (forall id :: id in timers.pending && timers.pending[id].action == WakeLoop ==> loop == Sleeping)
      && (forall i, j ::
            (i in timers.pending && j in timers.pending
             && timers.pending[i].action == WakeLoop && timers.pending[j].action == WakeLoop) ==> i == j)
    }
  }

  datatype Event =
    | Toggle(key: Key)                    // a checkbox's onChange
    | SelectPlatform(choice: Platform)    // the iOS / Android buttons
    | ProbeSettled(reply: Fetch.Reply)    // the awaited ping settles
    | Elapse(ms: nat)                     // time passes, no timer due
    | TimerFired(id: nat)                 // the earliest pending timer fires
    | Unmount                             // both effects' cleanups run

  /** The `toggle(key)` updater: a new checklist object with `key` flipped. */
  function Flip(c: Checks, key: Key): (r: Checks)
    ensures r.Get(key) == !c.Get(key)
    ensures r.Get(Other(key)) == c.Get(Other(key))
  {
    match key
    case Wifi => c.(wifi := !c.wifi)
    case Portal => c.(portal := !c.portal)
  }

  /** Toggling the same box twice restores the checklist. */
  lemma FlipTwice(c: Checks, key: Key)
    ensures Flip(Flip(c, key), key) == c
  {
  }

  /** A setter call: React ignores it once the component has unmounted. */
  function WithStatus(m: Screen, s: Status): Screen {
    if m.mounted then m.(status := s) else m
  }

  function WithConnected(m: Screen, c: bool): Screen {
    if m.mounted then m.(isConnected := c) else m
  }

  /** The cleanup the previous run of the status effect returned: only the
      Android branch returns one, and it clears that run's hint timer. */
  function Cleanup(m: Screen): Screen {
    var q := if m.hintTimer.Some? then Timers.ClearTimeout(m.timers, m.hintTimer.value) else m.timers;
    m.(timers := q, hintTimer := None)
  }

  /** One run of the status effect: the previous run's cleanup, then the body. */
  function StatusEffect(m: Screen): Screen {
    var c := Cleanup(m);
    if c.platform == Android && c.checks.wifi && !c.checks.portal then
      c.(status := Waiting, timers := Timers.SetTimeout(c.timers, HintDelayMs, ShowHint), hintTimer := Some(c.timers.nextId))
    else if !c.checks.AllChecked() then
      c.(isConnected := false, status := Waiting)
    else if !c.isOnline then
      c.(timers := Timers.SetTimeout(c.timers, SettleMs, Promote))
    else
      c.(timers := Timers.SetTimeout(c.timers, ProblemDelayMs, ShowProblem))
  }

  /** The screen right after mounting: initial state, then the status effect's first run. */
  function Mount(): Screen {
    StatusEffect(Screen(Checks(false, false), true, Ios, Waiting, false, true, true, Probing, Timers.Start(), None))
  }

  /** A timer's callback, run after the timer has left the queue. */
  function RunCallback(m: Screen, a: Action): Screen {
    match a
    case ShowHint =>
      // the cleanup this callback returns goes nowhere: the revert timer is never registered
      WithStatus(m, StallHint).(timers := Timers.SetTimeout(m.timers, HintRevertMs, RevertHint))
    case RevertHint => WithStatus(m, Waiting)
    case Promote => WithStatus(WithConnected(m, true), Connected)
    case ShowProblem =>
      var m1 := WithConnected(WithStatus(m, Problem), false);
      m1.(timers := Timers.SetTimeout(m1.timers, ResetDelayMs, ResetChecks))
    case ResetChecks =>
      // `setChecks` receives a new object, so the status effect always re-runs
      if m.mounted then StatusEffect(m.(checks := Checks(false, false), status := Waiting)) else m
    case WakeLoop => m.(loop := if m.active then Probing else Stopped)
  }

  /** The rest of one ping-loop iteration once its probe has settled. */
  function ApplyProbe(m: Screen, online: bool): Screen {
    var m1 := m.(isOnline := if m.mounted then online else m.isOnline,
                 loop := Sleeping,
                 timers := Timers.SetTimeout(m.timers, PingPauseMs, WakeLoop));
    if m.mounted && online != m.isOnline then StatusEffect(m1) else m1
  }

  /** The specification: the screen after one event. Events that cannot happen in
      the given state (no probe in flight, a timer that is not the next due) leave it unchanged. */
  function Step(m: Screen, e: Event): Screen {
    match e
    case Toggle(key) =>
      // the checkboxes are rendered only while not connected
      if m.mounted && !m.isConnected then StatusEffect(m.(checks := Flip(m.checks, key))) else m
    case SelectPlatform(p) =>
      if m.mounted && p != m.platform then StatusEffect(m.(platform := p)) else m
    case ProbeSettled(r) =>
      if m.loop == Probing then ApplyProbe(m, Fetch.PingInternetOnce(r, PingTimeoutMs)) else m
    case Elapse(ms) =>
      if Timers.CanElapse(m.timers, ms) then m.(timers := Timers.Elapse(m.timers, ms)) else m
    case TimerFired(id) =>
      if Timers.CanFire(m.timers, id)
      then RunCallback(m.(timers := Timers.Fire(m.timers, id)), m.timers.pending[id].action)
      else m
    case Unmount =>
      if m.mounted then Cleanup(m).(mounted := false, active := false) else m
  }

  /** The screen after a sequence of events. */
  function Run(m: Screen, es: seq<Event>): Screen
    decreases |es|
  {
    if es == [] then m else Run(Step(m, es[0]), es[1..])
  }

  /**
   * The component itself: its state variables as fields, its setters as field
   * updates, and the timer queue it schedules on. Each handler is proved to
   * leave the screen exactly as `Step` says.
   */
  class ConnectScreen {
    var checks: Checks
    var isOnline: bool
    var platform: Platform
    var status: Status
    var isConnected: bool
    var mounted: bool
    var active: bool
    var loop: Loop
    var timers: Timers.Queue<Action>
    var hintTimer: Option<nat>

    function Snapshot(): Screen
      reads this
    {
      Screen(checks, isOnline, platform, status, isConnected, mounted, active, loop, timers, hintTimer)
    }

    /** Mounting: the initial `useState` values, the ping loop's first probe, the status effect's first run. */
    constructor ()
      ensures Snapshot() == Mount()
    {
      checks := Checks(false, false);
      isOnline := true;
      platform := Ios;
      status := Waiting;
      isConnected := false;
      mounted := true;
      active := true;
      loop := Probing;
      timers := Timers.Start();
      hintTimer := None;
      new;
      RunStatusEffect();
    }

    method SetStatus(s: Status)
      modifies this
      ensures Snapshot() == WithStatus(old(Snapshot()), s)
    {
      if mounted {
        status := s;
      }
    }

    method SetIsConnected(c: bool)
      modifies this
      ensures Snapshot() == WithConnected(old(Snapshot()), c)
    {
      if mounted {
        isConnected := c;
      }
    }

    /** The previous run's cleanup, then the effect body at src/screens/Connect.jsx:42-82. */
    method RunStatusEffect()
      modifies this
      ensures Snapshot() == StatusEffect(old(Snapshot()))
    {
      if hintTimer.Some? {
        timers := Timers.ClearTimeout(timers, hintTimer.value);
      }
      hintTimer := None;
      var allChecked := checks.wifi && checks.portal;
      if platform == Android && checks.wifi && !checks.portal {
        status := Waiting;
        hintTimer := Some(timers.nextId);
        timers := Timers.SetTimeout(timers, HintDelayMs, ShowHint);
        return;
      }
      if !allChecked {
        isConnected := false;
        status := Waiting;
        return;
      }
      if allChecked && !isOnline {
        timers := Timers.SetTimeout(timers, SettleMs, Promote);
      } else if allChecked && isOnline {
        timers := Timers.SetTimeout(timers, ProblemDelayMs, ShowProblem);
      }
    }

    /** A checkbox's `onChange` (the checkboxes are shown only while not connected):
        `toggle(key)` stores a new checklist object, so the effect re-runs. */
    method Toggle(key: Key)
      modifies this
      ensures Snapshot() == Step(old(Snapshot()), Event.Toggle(key))
    {
      if mounted && !isConnected {
        checks := Flip(checks, key);
        RunStatusEffect();
      }
    }

    /** `setPlatform(p)`: the effect re-runs only if the platform changed. */
    method SelectPlatform(p: Platform)
      modifies this
      ensures Snapshot() == Step(old(Snapshot()), Event.SelectPlatform(p))
    {
      if mounted && p != platform {
        platform := p;
        RunStatusEffect();
      }
    }

    /** The ping loop resumes after `await pingInternetOnce()`: `setIsOnline(online)`,
        then the 1500 ms pause. The effect re-runs only if `isOnline` changed. */
    method ProbeSettled(reply: Fetch.Reply)
      modifies this
      ensures Snapshot() == Step(old(Snapshot()), Event.ProbeSettled(reply))
    {
      if loop != Probing {
        return;
      }
      var online := Fetch.PingInternetOnce(reply, PingTimeoutMs);
      var changed := mounted && online != isOnline;
      if mounted {
        isOnline := online;
      }
      loop := Sleeping;
      timers := Timers.SetTimeout(timers, PingPauseMs, WakeLoop);
      if changed {
        RunStatusEffect();
      }
    }

    /** Time passes without any timer falling due. */
    method Elapse(ms: nat)
      modifies this
      ensures Snapshot() == Step(old(Snapshot()), Event.Elapse(ms))
    {
      if Timers.CanElapse(timers, ms) {
        timers := Timers.Elapse(timers, ms);
      }
    }

    /** A timer's callback, once the timer has left the queue. */
    method Callback(action: Action)
      modifies this
      ensures Snapshot() == RunCallback(old(Snapshot()), action)
    {
      match action
      case ShowHint =>
        SetStatus(StallHint);
        timers := Timers.SetTimeout(timers, HintRevertMs, RevertHint);
      case RevertHint =>
        SetStatus(Waiting);
      case Promote =>
        SetIsConnected(true);
        SetStatus(Connected);
      case ShowProblem =>
        SetStatus(Problem);
        SetIsConnected(false);
        timers := Timers.SetTimeout(timers, ResetDelayMs, ResetChecks);
      case ResetChecks =>
        if mounted {
          checks := Checks(false, false);
          status := Waiting;
          RunStatusEffect();
        }
      case WakeLoop =>
        loop := if active then Probing else Stopped;
    }

    /** The earliest pending timer fires and its callback runs. */
    method TimerFired(id: nat)
      modifies this
      ensures Snapshot() == Step(old(Snapshot()), Event.TimerFired(id))
    {
      if !Timers.CanFire(timers, id) {
        return;
      }
      var action := timers.pending[id].action;
      timers := Timers.Fire(timers, id);
      Callback(action);
    }

    /** Unmounting: the status effect's cleanup clears the hint timer if it
        registered one, and the ping loop's cleanup sets `active = false`. */
    method Unmount()
      modifies this
      ensures Snapshot() == Step(old(Snapshot()), Event.Unmount)
    {
      if !mounted {
        return;
      }
      if hintTimer.Some? {
        timers := Timers.ClearTimeout(timers, hintTimer.value);
      }
      hintTimer := None;
      mounted := false;
      active := false;
    }
  }
}
