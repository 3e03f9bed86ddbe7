/**
 * The device-probe screen (src/screens/Screen2.jsx). `pingPi` loads an image
 * from the camera's local address and races three browser events, a 2000 ms
 * timer, the image's `load` and its `error`: the first one to run sets `done`
 * and resolves the promise, and the later ones find `done` set or their handler
 * removed. The effect's `loop` repeats the probe, 1500 ms apart, until one
 * succeeds or the component unmounts, and a success sets `isConnected`.
 */
module DeviceProbe {
  import opened Wrappers

  const ImageTimeoutMs: nat := 2000
  const RetryPauseMs: nat := 1500

  const ConnectedText: string := "Connected!"
  const ConnectingText: string := "Connecting..."

  /** What the camera does with one probe image: it arrives after `ms`, the request
      fails after `ms`, or nothing ever comes back. */
  datatype ImageReply = Loads(ms: nat) | Fails(ms: nat) | Hangs

  /** The three callbacks the browser may run for one probe. */
  datatype Signal = TimeoutFired | LoadFired | ErrorFired

  /**
   * The closure state of one `pingPi` call: the `done` flag, whether the 2000 ms
   * timer is still pending, whether `img.onload` / `img.onerror` are still set, the
   * value the promise resolved to (if any) and how many times `resolve` was called.
   */
  datatype Probe = Probe(
    done: bool,
    timerArmed: bool,
    onload: bool,
    onerror: bool,
    resolved: Option<bool>,
    resolveCalls: nat)
  {
    /** The shape every reachable probe has: settled exactly when resolved, `resolve`
        called once per settling, handlers removed on settling, and everything still
        armed before it. */
    predicate Valid() {
      && (done <==> resolved.Some?)
      && resolveCalls == (if done then 1 else 0)
      && (done ==> !onload && !onerror)
      && (!done ==> onload && onerror && timerArmed)
    }
  }

  /** Right after `img.src` is assigned: timer pending, both handlers set, nothing settled. */
  function Start(): (p: Probe)
    ensures p.Valid() && !p.done && p.timerArmed && p.onload && p.onerror
  {
    Probe(false, true, true, true, None, 0)
  }

  /** The common tail of the three callbacks: set `done`, null both handlers, resolve. */
  function Settle(p: Probe, value: bool): (q: Probe)
    ensures q.done && !q.onload && !q.onerror && q.resolved == Some(value)
    ensures q.timerArmed == p.timerArmed && q.resolveCalls == p.resolveCalls + 1
  {
    p.(done := true, onload := false, onerror := false, resolved := Some(value),
       resolveCalls := p.resolveCalls + 1)
  }

  /**
   * The browser runs one callback. A cleared timer never fires and a nulled handler
   * never runs; a callback that does run does nothing once `done` is set. The timer
   * resolves false; `onload` clears the timer and resolves true; `onerror` clears the
   * timer and resolves false.
   */
  function Deliver(p: Probe, s: Signal): (q: Probe)
    ensures p.done ==> q.done && q.resolved == p.resolved && q.resolveCalls == p.resolveCalls
    ensures p.Valid() && !p.done ==>
      q.done && q.resolved == Some(s == LoadFired) && q.resolveCalls == 1
    ensures p.Valid() && !p.done ==> !q.onload && !q.onerror
    ensures p.Valid() && !p.done && s != TimeoutFired ==> !q.timerArmed
    ensures p.Valid() ==> q.Valid()
  {
    match s
    case TimeoutFired =>
      if !p.timerArmed then p
      else if p.done then p.(timerArmed := false)
      else Settle(p.(timerArmed := false), false)
    case LoadFired =>
      if !p.onload || p.done then p
      else Settle(p.(timerArmed := false), true)
    case ErrorFired =>
      if !p.onerror || p.done then p
      else Settle(p.(timerArmed := false), false)
  }

  /** The callbacks run in the order given. */
  function DeliverAll(p: Probe, signals: seq<Signal>): (q: Probe)
    decreases |signals|
  {
    if signals == [] then p
    else Deliver(DeliverAll(p, signals[..|signals| - 1]), signals[|signals| - 1])
  }

  /** Whatever callbacks run, in whatever order, the probe stays well-formed and a
      settled probe keeps its value and its single `resolve` call. */
  lemma {:induction false} DeliverAllValid(p: Probe, signals: seq<Signal>)
    requires p.Valid()
    ensures DeliverAll(p, signals).Valid()
    ensures p.done ==> DeliverAll(p, signals).resolved == p.resolved
    ensures p.done ==> DeliverAll(p, signals).resolveCalls == 1
    decreases |signals|
  {
    if signals != [] {
      DeliverAllValid(p, signals[..|signals| - 1]);
    }
  }

  /** `pingPi` settles exactly once: whichever callback runs first decides the value
      (true for `load`, false for `error` or the timeout), `resolve` is called once,
      and every later callback is ignored. */
  lemma {:induction false} FirstSignalDecides(signals: seq<Signal>)
    requires |signals| > 0
    ensures DeliverAll(Start(), signals).resolved == Some(signals[0] == LoadFired)
    ensures DeliverAll(Start(), signals).resolveCalls == 1
    ensures DeliverAll(Start(), signals).Valid()
    decreases |signals|
  {
    if |signals| == 1 {
      assert signals[..0] == [];
    } else {
      var init := signals[..|signals| - 1];
      FirstSignalDecides(init);
      assert init[0] == signals[0];
    }
  }

  /** Once settled, further callbacks change neither the value nor the number of
      `resolve` calls. */
  lemma SettledIsInert(p: Probe, signals: seq<Signal>)
    requires p.Valid() && p.done
    ensures DeliverAll(p, signals).resolved == p.resolved
    ensures DeliverAll(p, signals).resolveCalls == p.resolveCalls
  {
    DeliverAllValid(p, signals);
  }

  /** The callbacks the browser runs for one probe, in time order: the image's event at
      `ms` and the timer at 2000 ms. At a tie the timer, created first, runs first. */
  function Signals(r: ImageReply): (signals: seq<Signal>)
    ensures |signals| > 0 && TimeoutFired in signals
    ensures signals[0] == LoadFired <==> r.Loads? && r.ms < ImageTimeoutMs
    ensures signals[0] == ErrorFired <==> r.Fails? && r.ms < ImageTimeoutMs
  {
    match r
    case Loads(ms) => if ms < ImageTimeoutMs then [LoadFired, TimeoutFired] else [TimeoutFired, LoadFired]
    case Fails(ms) => if ms < ImageTimeoutMs then [ErrorFired, TimeoutFired] else [TimeoutFired, ErrorFired]
    case Hangs => [TimeoutFired]
  }

  /** A probe succeeds when the image loads before the 2000 ms timer. */
  predicate Verdict(r: ImageReply) {
    r.Loads? && r.ms < ImageTimeoutMs
  }

  /** `pingPi()` resolves, once, to `Verdict(r)`: the callbacks the browser runs for
      `r`, in time order, settle the probe with exactly that value. */
  lemma PingPiResolvesVerdict(r: ImageReply)
    ensures DeliverAll(Start(), Signals(r)).resolved == Some(Verdict(r))
    ensures DeliverAll(Start(), Signals(r)).resolveCalls == 1
  {
    FirstSignalDecides(Signals(r));
  }

  /** How long `await pingPi()` is suspended. */
  function SettleMs(r: ImageReply): (ms: nat)
    ensures ms <= ImageTimeoutMs
    ensures ms < ImageTimeoutMs <==> !r.Hangs? && r.ms < ImageTimeoutMs
    ensures !r.Hangs? && r.ms < ImageTimeoutMs ==> ms == r.ms
  {
    match r
    case Loads(ms) => if ms < ImageTimeoutMs then ms else ImageTimeoutMs
    case Fails(ms) => if ms < ImageTimeoutMs then ms else ImageTimeoutMs
    case Hangs => ImageTimeoutMs
  }

  /** The index of the first probe that succeeds, or `|rs|` when none does. */
  function FirstSuccess(rs: seq<ImageReply>): (n: nat)
    ensures n <= |rs|
    ensures forall k :: 0 <= k < n ==> !Verdict(rs[k])
    ensures n < |rs| ==> Verdict(rs[n])
  {
    if rs == [] then 0
    else if Verdict(rs[0]) then 0
    else 1 + FirstSuccess(rs[1..])
  }

  /** What the screen renders from `isConnected`. */
  datatype View = View(status: string, launchButton: bool)

  /** The status reads "Connected!" exactly when connected, and the Launch Camera App
      button is rendered exactly then. */
  function Render(isConnected: bool): (v: View)
    ensures v.status == ConnectedText <==> isConnected
    ensures v.launchButton <==> isConnected
    ensures v.launchButton <==> v.status == ConnectedText
  {
    View(if isConnected then ConnectedText else ConnectingText, isConnected)
  }

  /** The closure of one `pingPi` call, updated in place by the callbacks. */
  class ImageProbe {
    var done: bool
    var timerArmed: bool
    var onload: bool
    var onerror: bool
    var resolved: Option<bool>
    var resolveCalls: nat

    function Snapshot(): Probe
      reads this
    {
      Probe(done, timerArmed, onload, onerror, resolved, resolveCalls)
    }

    /** `new Image()`, the timer, both handlers, then `img.src = ...`. */
    constructor ()
      ensures Snapshot() == Start()
    {
      done := false;
      timerArmed := true;
      onload := true;
      onerror := true;
      resolved := None;
      resolveCalls := 0;
    }

    method SettleWith(value: bool)
      modifies this
      ensures Snapshot() == Settle(old(Snapshot()), value)
    {
      done := true;
      onload := false;    // `img.onload = img.onerror = null`
      onerror := false;
      resolved := Some(value);
      resolveCalls := resolveCalls + 1;
    }

    /** The browser runs one callback on this probe. */
    method RunCallback(s: Signal)
      modifies this
      ensures Snapshot() == Deliver(old(Snapshot()), s)
    {
      match s {
        case TimeoutFired =>
          if timerArmed {
            timerArmed := false;    // a timer fires once
            if !done {
              SettleWith(false);
            }
          }
        case LoadFired =>
          if onload && !done {
            timerArmed := false;    // `clearTimeout(timer)`
            SettleWith(true);
          }
        case ErrorFired =>
          if onerror && !done {
            timerArmed := false;    // `clearTimeout(timer)`
            SettleWith(false);
          }
      }
    }
  }

  /** `pingPi()`: arm a fresh probe and let the browser run its callbacks in time
      order; the result is the value the promise resolved to. */
  method PingPi(r: ImageReply) returns (ok: bool)
    ensures ok <==> r.Loads? && r.ms < ImageTimeoutMs
  {
    var img := new ImageProbe();
    var signals := Signals(r);
    img.RunCallback(signals[0]);
    assert img.Snapshot() == DeliverAll(Start(), signals[..1]);
    if |signals| > 1 {
      img.RunCallback(signals[1]);
      assert signals[..2][..1] == signals[..1];
      assert img.Snapshot() == DeliverAll(Start(), signals[..2]);
    }
    assert signals[..|signals|] == signals;
    PingPiResolvesVerdict(r);
    ok := img.resolved == Some(true);
  }

  class Screen2 {
    var isConnected: bool
    var active: bool        // the effect's `active` flag
    var now: nat            // the page clock, in milliseconds
    ghost var starts: seq<nat>      // when each probe was sent

    /** `useState(false)`: not connected until a probe succeeds. */
    constructor ()
      ensures !isConnected && !active && now == 0 && starts == []
    {
      isConnected := false;
      active := false;
      now := 0;
      starts := [];
    }

    /** `const ok = await pingPi()`: a probe is sent now and the loop is suspended
        until it settles. `sent` are the start times of this run's earlier probes. */
    method AwaitPingPi(r: ImageReply, ghost replies: seq<ImageReply>, ghost t0: nat, ghost sent: seq<nat>)
      returns (ok: bool, ghost sent': seq<nat>)
      requires Paced(sent, replies, t0) && |sent| < |replies| && r == replies[|sent|]
      requires sent == [] ==> now == t0
      requires sent != [] ==> now == sent[|sent| - 1] + SettleMs(replies[|sent| - 1]) + RetryPauseMs
      modifies this
      ensures ok == Verdict(r)
      ensures now == old(now) + SettleMs(r)
      ensures sent' == sent + [old(now)] && Paced(sent', replies, t0)
      ensures isConnected == old(isConnected) && active == old(active) && starts == old(starts)
    {
      PacedAppend(sent, replies, t0, now);
      sent' := sent + [now];
      ok := PingPi(r);
      now := now + SettleMs(r);
    }

    /**
     * The effect's `loop()`. `replies[k]` is what the camera does with the k-th
     * probe; the cleanup (`active = false`) runs while iteration `unmountDuring` is
     * suspended. The loop returns at the first success, after setting `isConnected`;
     * otherwise it pauses 1500 ms and retries while `active`. `isConnected` is only
     * ever set to true.
     */
    method Loop(replies: seq<ImageReply>, unmountDuring: nat)
      requires unmountDuring < |replies|
      modifies this
      ensures var f := FirstSuccess(replies[..unmountDuring + 1]);
        && (isConnected <==> old(isConnected) || f <= unmountDuring)
        && (active <==> f < unmountDuring)
        && |starts| == |old(starts)| + (if f <= unmountDuring then f + 1 else unmountDuring + 1)
      ensures old(isConnected) ==> isConnected
      ensures |starts| > |old(starts)| && starts[..|old(starts)|] == old(starts)
      ensures Paced(starts[|old(starts)|..], replies, old(now))
      ensures now == starts[|starts| - 1] + LastRunMs(replies, unmountDuring)
    {
      active := true;
      var i := 0;
      ghost var ss: seq<nat> := [];    // this run's probe start times
      while active
        invariant 0 <= i <= unmountDuring + 1
        invariant active <==> i <= unmountDuring
        invariant AllFail(replies[..i])
        invariant isConnected == old(isConnected)
        invariant |ss| == i
        invariant i == 0 ==> now == old(now)
        invariant i > 0 ==> now == ss[i - 1] + SettleMs(replies[i - 1]) + RetryPauseMs
        invariant Paced(ss, replies, old(now))
        invariant starts == old(starts)
        decreases unmountDuring + 1 - i
      {
        if i == unmountDuring {
          active := false;    // the cleanup runs while this probe is suspended
        }
        var ok;
        ok, ss := AwaitPingPi(replies[i], replies, old(now), ss);
        if ok {
          isConnected := true;
          starts := starts + ss;
          assert starts[|old(starts)|..] == ss && starts[..|old(starts)|] == old(starts);
          LastRunOnSuccess(replies, unmountDuring, i);
          return;
        }
        // `await new Promise((r) => setTimeout(r, 1500))`
        now := now + RetryPauseMs;
        AllFailAppend(replies, i);
        i := i + 1;
      }
      starts := starts + ss;
      assert starts[|old(starts)|..] == ss && starts[..|old(starts)|] == old(starts);
      LastRunOnFailure(replies, unmountDuring);
    }
  }

  /** Probe start times `ss` of one run of the loop that began at `t0`: the first probe
      starts at once, and each later one 1500 ms after the previous one settled. */
  ghost predicate Paced(ss: seq<nat>, replies: seq<ImageReply>, t0: nat) {
    && |ss| <= |replies|
    && (|ss| > 0 ==> ss[0] == t0)
    && forall k :: 0 <= k < |ss| - 1 ==> ss[k + 1] == ss[k] + SettleMs(replies[k]) + RetryPauseMs
  }

  /** Starting the next probe on time keeps the run paced. */
  lemma PacedAppend(ss: seq<nat>, replies: seq<ImageReply>, t0: nat, t: nat)
    requires Paced(ss, replies, t0) && |ss| < |replies|
    requires ss == [] ==> t == t0
    requires ss != [] ==> t == ss[|ss| - 1] + SettleMs(replies[|ss| - 1]) + RetryPauseMs
    ensures Paced(ss + [t], replies, t0)
  {
  }

  /** Every probe in `rs` fails. */
  ghost predicate AllFail(rs: seq<ImageReply>) {
    forall k :: 0 <= k < |rs| ==> !Verdict(rs[k])
  }

  lemma AllFailAppend(rs: seq<ImageReply>, i: nat)
    requires i < |rs| && AllFail(rs[..i]) && !Verdict(rs[i])
    ensures AllFail(rs[..i + 1])
  {
    assert forall k :: 0 <= k < i ==> rs[..i + 1][k] == rs[..i][k];
  }

  /** How long the loop runs after its last probe starts: that probe's settling
      time if it is the first success, and otherwise that plus the retry pause,
      after which the loop sees `active` cleared. */
  ghost function LastRunMs(replies: seq<ImageReply>, unmountDuring: nat): nat
    requires unmountDuring < |replies|
  {
    var f := FirstSuccess(replies[..unmountDuring + 1]);
    if f <= unmountDuring then SettleMs(replies[f]) else SettleMs(replies[unmountDuring]) + RetryPauseMs
  }

  /** The loop stops at probe `i` when every earlier probe failed and `i` succeeds. */
  lemma LastRunOnSuccess(replies: seq<ImageReply>, unmountDuring: nat, i: nat)
    requires i <= unmountDuring < |replies|
    requires AllFail(replies[..i]) && Verdict(replies[i])
    ensures FirstSuccess(replies[..unmountDuring + 1]) == i
    ensures LastRunMs(replies, unmountDuring) == SettleMs(replies[i])
  {
    assert replies[..unmountDuring + 1][..i] == replies[..i];
    FirstSuccessAt(replies[..unmountDuring + 1], i);
  }

  /** The loop stops at the cleanup when every probe up to it failed. */
  lemma LastRunOnFailure(replies: seq<ImageReply>, unmountDuring: nat)
    requires unmountDuring < |replies|
    requires AllFail(replies[..unmountDuring + 1])
    ensures FirstSuccess(replies[..unmountDuring + 1]) == unmountDuring + 1
    ensures LastRunMs(replies, unmountDuring) == SettleMs(replies[unmountDuring]) + RetryPauseMs
  {
    assert replies[..unmountDuring + 1][..unmountDuring + 1] == replies[..unmountDuring + 1];
    FirstSuccessAt(replies[..unmountDuring + 1], unmountDuring + 1);
  }

  /** The first success is at `i` when every probe before it fails and it succeeds (or
      it is the end). */
  lemma {:induction false} FirstSuccessAt(rs: seq<ImageReply>, i: nat)
    requires i <= |rs|
    requires AllFail(rs[..i])
    requires i < |rs| ==> Verdict(rs[i])
    ensures FirstSuccess(rs) == i
    decreases i
  {
    if i > 0 {
      assert rs[1..][..i - 1] == rs[1..i];
      FirstSuccessAt(rs[1..], i - 1);
    }
  }
}
