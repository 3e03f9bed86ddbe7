/**
 * What the live Connect screen (src/screens/Connect.jsx) does, proved about
 * the specification `Connect.Step`.
 */
module ConnectProperties {
  import opened Wrappers
  import Timers
  import Fetch
  import opened Connect

  /** A timer is pending under handle `id` with callback `a`. */
  predicate PendingWith(m: Screen, id: nat, a: Action) {
    id in m.timers.pending && m.timers.pending[id].action == a
  }

  /** After mounting the screen waits, assumes it is online, runs its first probe and has no timer pending. */
  lemma MountWaits()
    ensures Mount().Valid()
    ensures Mount().status == Waiting && !Mount().isConnected && Mount().isOnline
    ensures Mount().loop == Probing && Mount().timers.pending == map[]
  {
  }

  /** After the cleanup no hint timer is pending or registered. */
  lemma CleanupValid(m: Screen)
    requires m.Valid()
    ensures Cleanup(m).Valid()
    ensures forall id :: id in Cleanup(m).timers.pending ==> Cleanup(m).timers.pending[id].action != ShowHint
  {
    var c := Cleanup(m);
    forall id | id in c.timers.pending
      ensures c.timers.pending[id].action != ShowHint
    {
      assert id in m.timers.pending && c.timers.pending[id] == m.timers.pending[id];
    }
  }

  /** Setting a status timer other than the hint, with nothing else changed, keeps the invariant. */
  lemma ScheduleValid(c: Screen, delay: nat, a: Action)
    requires c.Valid() && a != ShowHint && a != WakeLoop
    ensures c.(timers := Timers.SetTimeout(c.timers, delay, a)).Valid()
  {
  }

  lemma StatusEffectValid(m: Screen)
    requires m.Valid() && m.mounted
    ensures StatusEffect(m).Valid()
  {
    var c := Cleanup(m);
    CleanupValid(m);
    if c.platform == Android && c.checks.wifi && !c.checks.portal {
      var r := StatusEffect(m);
      forall id | id in r.timers.pending && r.timers.pending[id].action == ShowHint
        ensures r.hintTimer == Some(id)
      {
        if id != c.timers.nextId {
          assert false;
        }
      }
    } else if !c.checks.AllChecked() {
    } else if !c.isOnline {
      ScheduleValid(c, SettleMs, Promote);
    } else {
      ScheduleValid(c, ProblemDelayMs, ShowProblem);
    }
  }

  /** The status effect keeps every pending timer except the hint. */
  lemma StatusEffectKeeps(m: Screen, id: nat)
    requires m.Valid() && id in m.timers.pending && m.timers.pending[id].action != ShowHint
    ensures id in StatusEffect(m).timers.pending && StatusEffect(m).timers.pending[id] == m.timers.pending[id]
  {
    assert id in Cleanup(m).timers.pending;
  }

  lemma ApplyProbeValid(m: Screen, online: bool)
    requires m.Valid() && m.loop == Probing
    ensures ApplyProbe(m, online).Valid()
  {
    var m1 := m.(isOnline := if m.mounted then online else m.isOnline,
                 loop := Sleeping,
                 timers := Timers.SetTimeout(m.timers, PingPauseMs, WakeLoop));
    assert m1.Valid();
    if m.mounted && online != m.isOnline { StatusEffectValid(m1); }
  }

  lemma FireValid(m: Screen, id: nat)
    requires m.Valid() && Timers.CanFire(m.timers, id)
    ensures RunCallback(m.(timers := Timers.Fire(m.timers, id)), m.timers.pending[id].action).Valid()
  {
    var a := m.timers.pending[id].action;
    var m0 := m.(timers := Timers.Fire(m.timers, id));
    PoppedValid(m, id);
    match a
    case ShowHint => ScheduleValid(WithStatus(m0, StallHint), HintRevertMs, RevertHint);
    case RevertHint =>
    case Promote =>
    case ShowProblem =>
      ScheduleValid(WithConnected(WithStatus(m0, Problem), false), ResetDelayMs, ResetChecks);
    case ResetChecks =>
      if m0.mounted { StatusEffectValid(m0.(checks := Checks(false, false), status := Waiting)); }
    case WakeLoop => WakeValid(m, id);
  }

  /** The timer `id` has left the queue: the invariant still holds. */
  lemma PoppedValid(m: Screen, id: nat)
    requires m.Valid() && Timers.CanFire(m.timers, id)
    ensures m.(timers := Timers.Fire(m.timers, id)).Valid()
  {
  }

  /** Once the loop's pause has fired no pause is pending, so the loop may move on. */
  lemma WakeValid(m: Screen, id: nat)
    requires m.Valid() && Timers.CanFire(m.timers, id) && m.timers.pending[id].action == WakeLoop
    ensures RunCallback(m.(timers := Timers.Fire(m.timers, id)), WakeLoop).Valid()
  {
    var m0 := m.(timers := Timers.Fire(m.timers, id));
    PoppedValid(m, id);
    forall j | j in m0.timers.pending
      ensures m0.timers.pending[j].action != WakeLoop
    {
      assert j in m.timers.pending && j != id;
    }
  }

  lemma ToggleValid(m: Screen, key: Key)
    requires m.Valid()
    ensures Step(m, Toggle(key)).Valid()
  {
    if m.mounted && !m.isConnected { StatusEffectValid(m.(checks := Flip(m.checks, key))); }
  }

  lemma SelectPlatformValid(m: Screen, p: Platform)
    requires m.Valid()
    ensures Step(m, SelectPlatform(p)).Valid()
  {
    if m.mounted && p != m.platform { StatusEffectValid(m.(platform := p)); }
  }

  lemma ProbeSettledValid(m: Screen, r: Fetch.Reply)
    requires m.Valid()
    ensures Step(m, ProbeSettled(r)).Valid()
  {
    if m.loop == Probing { ApplyProbeValid(m, Fetch.PingInternetOnce(r, PingTimeoutMs)); }
  }

  lemma ElapseValid(m: Screen, ms: nat)
    requires m.Valid()
    ensures Step(m, Elapse(ms)).Valid()
  {
    if Timers.CanElapse(m.timers, ms) {
      var r := m.(timers := Timers.Elapse(m.timers, ms));
      assert r.timers.pending == m.timers.pending;
    }
  }

  lemma TimerFiredValid(m: Screen, id: nat)
    requires m.Valid()
    ensures Step(m, TimerFired(id)).Valid()
  {
    if Timers.CanFire(m.timers, id) { FireValid(m, id); }
  }

  lemma UnmountValid(m: Screen)
    requires m.Valid()
    ensures Step(m, Unmount).Valid()
  {
    if m.mounted { CleanupValid(m); }
  }

  /** Every event keeps the model's invariant. */
  lemma StepValid(m: Screen, e: Event)
    requires m.Valid()
    ensures Step(m, e).Valid()
  {
    match e
    case Toggle(key) => ToggleValid(m, key);
    case SelectPlatform(p) => SelectPlatformValid(m, p);
    case ProbeSettled(r) => ProbeSettledValid(m, r);
    case Elapse(ms) => ElapseValid(m, ms);
    case TimerFired(id) => TimerFiredValid(m, id);
    case Unmount => UnmountValid(m);
  }

  /** The invariant holds after any sequence of events from any valid state, in particular from `Mount()`. */
  lemma {:induction false} RunValid(m: Screen, es: seq<Event>)
    requires m.Valid()
    ensures Run(m, es).Valid()
    decreases |es|
  {
    if es != [] {
      StepValid(m, es[0]);
      RunValid(Step(m, es[0]), es[1..]);
    }
  }

  /** Android, wifi checked, portal unchecked: this branch is tested first and returns
      early. The status becomes Waiting at once, `isConnected` is left as it was,
      the previous run's hint timer is cancelled and a new one is due in 3000 ms. */
  lemma AndroidHintBranch(m: Screen)
    requires m.Valid() && m.mounted
    requires m.platform == Android && m.checks.wifi && !m.checks.portal
    ensures var r := StatusEffect(m);
      && r.status == Waiting && r.isConnected == m.isConnected
      && r.hintTimer == Some(m.timers.nextId)
      && r.timers.pending[m.timers.nextId] == Timers.Timer(m.timers.now + HintDelayMs, ShowHint)
      && (m.hintTimer.Some? ==> m.hintTimer.value !in r.timers.pending)
      && r.timers.pending.Keys == m.timers.pending.Keys - HintHandles(m) + {m.timers.nextId}
  {
  }

  function HintHandles(m: Screen): set<nat> {
    if m.hintTimer.Some? then {m.hintTimer.value} else {}
  }

  /** When the hint timer fires the hint text shows, and a revert to Waiting is due 5000 ms later. */
  lemma HintThenRevert(m: Screen, h: nat)
    requires m.Valid() && m.mounted && m.hintTimer == Some(h) && Timers.CanFire(m.timers, h)
    ensures var r := Step(m, TimerFired(h));
      && r.status == StallHint
      && r.timers.now == m.timers.pending[h].due
      && PendingWith(r, m.timers.nextId, RevertHint)
      && r.timers.pending[m.timers.nextId].due == r.timers.now + HintRevertMs
  {
  }

  /** The revert shows Waiting again and changes nothing else the user sees. */
  lemma RevertShowsWaiting(m: Screen, id: nat)
    requires m.Valid() && m.mounted && Timers.CanFire(m.timers, id) && PendingWith(m, id, RevertHint)
    ensures var r := Step(m, TimerFired(id));
      r.status == Waiting && r.checks == m.checks && r.isConnected == m.isConnected
  {
  }

  /** A re-run of the status effect before the hint has fired cancels it. */
  lemma RerunCancelsHint(m: Screen, h: nat)
    requires m.Valid() && m.hintTimer == Some(h)
    ensures h !in StatusEffect(m).timers.pending
  {
  }

  /** The converse: the effect re-runs only when one of its dependencies changes,
      so a pending hint survives every event that leaves the checklist, the
      platform and `isOnline` as they are. In particular a probe that confirms the
      current `isOnline` does not restart the 3000 ms wait. */
  lemma HintSurvives(m: Screen, e: Event, h: nat)
    requires m.Valid() && m.hintTimer == Some(h) && h in m.timers.pending
    requires e != TimerFired(h) && e != Unmount && !e.Toggle?
    requires e.SelectPlatform? ==> e.choice == m.platform
    requires e.ProbeSettled? ==> Fetch.PingInternetOnce(e.reply, PingTimeoutMs) == m.isOnline
    requires e.TimerFired? && e.id in m.timers.pending ==> m.timers.pending[e.id].action != ResetChecks
    ensures h in Step(m, e).timers.pending && Step(m, e).timers.pending[h] == m.timers.pending[h]
    ensures Step(m, e).hintTimer == Some(h)
  {
    match e
    case SelectPlatform(_) =>
    case ProbeSettled(r) =>
    case Elapse(_) =>
    case TimerFired(j) =>
      if Timers.CanFire(m.timers, j) {
        assert m.timers.pending[j].action != ShowHint;
        PoppedValid(m, j);
      }
  }

  /** The only timer anything ever cancels is the pending hint: every other timer
      (the hint's revert, the 1000 ms promotion and problem timers, the 5000 ms reset,
      the ping loop's pause) survives every event except its own firing, unmounting included. */
  lemma OnlyHintIsCancelled(m: Screen, e: Event, id: nat)
    requires m.Valid() && id in m.timers.pending && m.timers.pending[id].action != ShowHint
    requires e != TimerFired(id)
    ensures id in Step(m, e).timers.pending && Step(m, e).timers.pending[id] == m.timers.pending[id]
  {
    match e
    case Toggle(key) =>
      if m.mounted && !m.isConnected { StatusEffectKeeps(m.(checks := Flip(m.checks, key)), id); }
    case SelectPlatform(p) =>
      if m.mounted && p != m.platform { StatusEffectKeeps(m.(platform := p), id); }
    case ProbeSettled(r) => ProbeKeeps(m, r, id);
    case Elapse(ms) =>
    case TimerFired(j) => OtherFireKeeps(m, j, id);
    case Unmount =>
      if m.mounted { assert id in Cleanup(m).timers.pending; }
  }

  lemma ProbeKeeps(m: Screen, r: Fetch.Reply, id: nat)
    requires m.Valid() && id in m.timers.pending && m.timers.pending[id].action != ShowHint
    ensures id in Step(m, ProbeSettled(r)).timers.pending
    ensures Step(m, ProbeSettled(r)).timers.pending[id] == m.timers.pending[id]
  {
    if m.loop == Probing {
      var online := Fetch.PingInternetOnce(r, PingTimeoutMs);
      var m1 := m.(isOnline := if m.mounted then online else m.isOnline,
                   loop := Sleeping,
                   timers := Timers.SetTimeout(m.timers, PingPauseMs, WakeLoop));
      assert m1.Valid() && id in m1.timers.pending && m1.timers.pending[id] == m.timers.pending[id];
      if m.mounted && online != m.isOnline { StatusEffectKeeps(m1, id); }
    }
  }

  lemma OtherFireKeeps(m: Screen, j: nat, id: nat)
    requires m.Valid() && id in m.timers.pending && m.timers.pending[id].action != ShowHint && j != id
    ensures id in Step(m, TimerFired(j)).timers.pending
    ensures Step(m, TimerFired(j)).timers.pending[id] == m.timers.pending[id]
  {
    if Timers.CanFire(m.timers, j) {
      PoppedValid(m, j);
      CallbackKeeps(m.(timers := Timers.Fire(m.timers, j)), m.timers.pending[j].action, id);
    }
  }

  /** A callback keeps every pending timer except the hint. */
  lemma CallbackKeeps(m: Screen, a: Action, id: nat)
    requires m.Valid() && id in m.timers.pending && m.timers.pending[id].action != ShowHint
    ensures id in RunCallback(m, a).timers.pending
    ensures RunCallback(m, a).timers.pending[id] == m.timers.pending[id]
  {
    match a
    case ShowHint =>
    case RevertHint =>
    case Promote =>
    case ShowProblem =>
    case ResetChecks =>
      if m.mounted { StatusEffectKeeps(m.(checks := Checks(false, false), status := Waiting), id); }
    case WakeLoop =>
  }

  /** Not all boxes checked and the Android branch does not apply: not connected,
      Waiting, and no timer scheduled. */
  lemma IncompleteChecklistWaits(m: Screen)
    requires m.Valid()
    requires !(m.platform == Android && m.checks.wifi && !m.checks.portal)
    requires !m.checks.AllChecked()
    ensures var r := StatusEffect(m);
      && r.status == Waiting && !r.isConnected
      && r.timers.nextId == m.timers.nextId
      && r.timers.pending.Keys == m.timers.pending.Keys - HintHandles(m)
  {
  }

  /** Both boxes checked while the ping reports offline: a promotion is due in 1000 ms;
      the status and `isConnected` do not change yet. */
  lemma OfflineSchedulesPromotion(m: Screen)
    requires m.Valid() && m.checks.AllChecked() && !m.isOnline
    ensures var r := StatusEffect(m);
      && r.status == m.status && r.isConnected == m.isConnected
      && r.timers.pending[m.timers.nextId] == Timers.Timer(m.timers.now + SettleMs, Promote)
      && r.timers.pending.Keys == m.timers.pending.Keys - HintHandles(m) + {m.timers.nextId}
  {
  }

  /** The promotion makes the screen Connected. */
  lemma PromotionConnects(m: Screen, id: nat)
    requires m.Valid() && m.mounted && Timers.CanFire(m.timers, id) && PendingWith(m, id, Promote)
    ensures var r := Step(m, TimerFired(id));
      r.isConnected && r.status == Connected && r.checks == m.checks
  {
  }

  /** Both boxes checked while the ping still reports online: the problem text is due in 1000 ms. */
  lemma OnlineSchedulesProblem(m: Screen)
    requires m.Valid() && m.checks.AllChecked() && m.isOnline
    ensures var r := StatusEffect(m);
      && r.status == m.status && r.isConnected == m.isConnected
      && r.timers.pending[m.timers.nextId] == Timers.Timer(m.timers.now + ProblemDelayMs, ShowProblem)
      && r.timers.pending.Keys == m.timers.pending.Keys - HintHandles(m) + {m.timers.nextId}
  {
  }

  /** The problem timer shows the problem text, clears `isConnected` and sets the reset 5000 ms later. */
  lemma ProblemThenReset(m: Screen, id: nat)
    requires m.Valid() && m.mounted && Timers.CanFire(m.timers, id) && PendingWith(m, id, ShowProblem)
    ensures var r := Step(m, TimerFired(id));
      && r.status == Problem && !r.isConnected && r.checks == m.checks
      && PendingWith(r, m.timers.nextId, ResetChecks)
      && r.timers.pending[m.timers.nextId].due == m.timers.pending[id].due + ResetDelayMs
  {
  }

  /** The reset unchecks both boxes and shows Waiting. */
  lemma ResetClearsChecklist(m: Screen, id: nat)
    requires m.Valid() && m.mounted && Timers.CanFire(m.timers, id) && PendingWith(m, id, ResetChecks)
    ensures var r := Step(m, TimerFired(id));
      r.checks == Checks(false, false) && r.status == Waiting && !r.isConnected
  {
  }

  /** A promotion scheduled while both boxes were checked still fires after a box
      is unchecked: the screen becomes Connected with an incomplete checklist. */
  lemma StalePromotion(m: Screen, id: nat)
    requires m.Valid() && m.mounted && !m.isConnected && m.platform == Ios && m.checks.AllChecked()
    requires Timers.CanFire(m.timers, id) && PendingWith(m, id, Promote)
    ensures var m2 := Step(m, Toggle(Portal));
      var m3 := Step(m2, TimerFired(id));
      && m2.status == Waiting && !m2.isConnected
      && !m3.checks.AllChecked() && m3.isConnected && m3.status == Connected
  {
    var m2 := Step(m, Toggle(Portal));
    OnlyHintIsCancelled(m, Toggle(Portal), id);
    assert Timers.CanFire(m2.timers, id);
  }

  /** A problem timer scheduled while both boxes were checked still fires after a box
      is unchecked, and the reset 5000 ms later clears the checklist regardless. */
  lemma StaleProblem(m: Screen, id: nat)
    requires m.Valid() && m.mounted && !m.isConnected && m.platform == Ios && m.checks.AllChecked()
    requires Timers.CanFire(m.timers, id) && PendingWith(m, id, ShowProblem)
    ensures var m2 := Step(m, Toggle(Portal));
      var m3 := Step(m2, TimerFired(id));
      && m2.status == Waiting
      && !m3.checks.AllChecked() && m3.status == Problem
      && PendingWith(m3, m2.timers.nextId, ResetChecks)
  {
    var m2 := Step(m, Toggle(Portal));
    OnlyHintIsCancelled(m, Toggle(Portal), id);
    assert Timers.CanFire(m2.timers, id);
  }

  /** A settled probe sets `isOnline` to its result and pauses the loop for 1500 ms. */
  lemma ProbeSetsOnline(m: Screen, reply: Fetch.Reply)
    requires m.Valid() && m.mounted && m.loop == Probing
    ensures var r := Step(m, ProbeSettled(reply));
      && r.isOnline == Fetch.PingInternetOnce(reply, PingTimeoutMs)
      && r.loop == Sleeping
      && m.timers.nextId in r.timers.pending
      && r.timers.pending[m.timers.nextId] == Timers.Timer(m.timers.now + PingPauseMs, WakeLoop)
  {
    var online := Fetch.PingInternetOnce(reply, PingTimeoutMs);
    var m1 := m.(isOnline := online, loop := Sleeping,
                 timers := Timers.SetTimeout(m.timers, PingPauseMs, WakeLoop));
    assert Step(m, ProbeSettled(reply)) == ApplyProbe(m, online);
    if online != m.isOnline {
      assert m1.Valid();
      StatusEffectKeeps(m1, m.timers.nextId);
    }
  }

  /** The end of the pause starts the next probe while the loop is active, and ends the loop otherwise. */
  lemma WakeStartsNextProbe(m: Screen, id: nat)
    requires m.Valid() && Timers.CanFire(m.timers, id) && PendingWith(m, id, WakeLoop)
    ensures Step(m, TimerFired(id)).loop == if m.mounted then Probing else Stopped
  {
  }

  /** A probe already in flight at unmount still completes its iteration (the loop
      pauses), but the `isOnline` write is dropped. */
  lemma LateProbeIsDropped(m: Screen, reply: Fetch.Reply)
    requires m.Valid() && !m.mounted && m.loop == Probing
    ensures var r := Step(m, ProbeSettled(reply));
      r.isOnline == m.isOnline && r.loop == Sleeping
  {
  }

  /** Unmounting cancels the pending hint and nothing else. */
  lemma UnmountCancelsOnlyHint(m: Screen)
    requires m.Valid() && m.mounted
    ensures var r := Step(m, Unmount);
      && !r.mounted && !r.active
      && r.timers.pending.Keys == m.timers.pending.Keys - HintHandles(m)
  {
  }

  /** What the user sees and what the ping loop feeds back. */
  function Observable(m: Screen): (Checks, bool, Platform, Status, bool) {
    (m.checks, m.isOnline, m.platform, m.status, m.isConnected)
  }

  lemma UnmountedStep(m: Screen, e: Event)
    requires m.Valid() && !m.mounted
    ensures Step(m, e).Valid() && !Step(m, e).mounted
    ensures Observable(Step(m, e)) == Observable(m)
    ensures m.loop != Probing ==> Step(m, e).loop != Probing
  {
    StepValid(m, e);
  }

  /** After unmounting nothing the user sees changes again, whatever happens, and once
      the probe in flight has settled no new probe starts. */
  lemma {:induction false} UnmountedIsFrozen(m: Screen, es: seq<Event>)
    requires m.Valid() && !m.mounted
    ensures Observable(Run(m, es)) == Observable(m)
    ensures m.loop != Probing ==> Run(m, es).loop != Probing
    decreases |es|
  {
    if es != [] {
      UnmountedStep(m, es[0]);
      UnmountedIsFrozen(Step(m, es[0]), es[1..]);
    }
  }
}
