/**
 * The internet-probe screen (src/screens/Screen1.jsx): a loop that asks a
 * 204 echo endpoint whether the phone is still online, writes the answer to
 * `isOnline`, and pauses 1000 ms before asking again, until the component
 * unmounts. The status line and the "Next" button are functions of `isOnline`.
 */
module InternetProbe {
  import Fetch

  const ProbeTimeoutMs: nat := 1000
  const PauseMs: nat := 1000

  const WaitingText: string := "Waiting for connection..."
  const ConfirmText: string := "Click Next to confirm connection"

  /** One iteration's verdict: a 204 sets `isOnline` to true; any other status throws
      inside the `try`, and that, a network error and the 1000 ms abort all land in
      the `catch`, which sets it to false. */
  function ProbeVerdict(r: Fetch.Reply): (online: bool)
    ensures online <==> r.Response? && r.status == 204 && r.ms < ProbeTimeoutMs
    ensures online == Fetch.PingInternetOnce(r, ProbeTimeoutMs)
  {
    match Fetch.Race(r, ProbeTimeoutMs)
    case Status(code) => code == 204
    case NetworkError => false
    case Aborted => false
  }

  /** The verdicts of a run of probes, in order. */
  function Verdicts(rs: seq<Fetch.Reply>): (vs: seq<bool>)
    ensures |vs| == |rs|
    ensures forall k :: 0 <= k < |rs| ==> vs[k] == ProbeVerdict(rs[k])
  {
    seq(|rs|, k requires 0 <= k < |rs| => ProbeVerdict(rs[k]))
  }

  /** What the screen renders from `isOnline`. */
  datatype View = View(status: string, nextButton: bool)

  /** The status reads "Waiting for connection..." exactly while online, and the
      Next button is rendered exactly while offline, so exactly when it does not. */
  function Render(isOnline: bool): (v: View)
    ensures v.status == WaitingText <==> isOnline
    ensures v.nextButton <==> !isOnline
    ensures v.nextButton <==> v.status != WaitingText
  {
    View(if isOnline then WaitingText else ConfirmText, !isOnline)
  }

  class Screen1 {
    var isOnline: bool
    var active: bool        // the effect's `active` flag
    var now: nat            // the page clock, in milliseconds
    ghost var writes: seq<bool>     // every `setIsOnline` call, oldest first
    ghost var starts: seq<nat>      // when each probe was sent

    /** `useState(true)`: the screen assumes it is online until a probe says otherwise. */
    constructor ()
      ensures isOnline && !active && now == 0 && writes == [] && starts == []
    {
      isOnline := true;
      active := false;
      now := 0;
      writes := [];
      starts := [];
    }

    /** One iteration's body: `await fetch(...)` suspends until the reply or the
        abort, the verdict is written, then `await new Promise((r) => setTimeout(r,
        1000))` pauses. */
    method Probe(reply: Fetch.Reply)
      modifies this
      ensures isOnline == ProbeVerdict(reply)
      ensures now == old(now) + Fetch.Elapsed(reply, ProbeTimeoutMs) + PauseMs
      ensures active == old(active) && writes == old(writes) && starts == old(starts)
    {
      now := now + Fetch.Elapsed(reply, ProbeTimeoutMs);
      match Fetch.Race(reply, ProbeTimeoutMs) {
        case Status(code) =>
          if code == 204 {
            isOnline := true;
          } else {
            isOnline := false;    // `throw new Error("bad")`, caught below
          }
        case NetworkError =>
          isOnline := false;
        case Aborted =>
          isOnline := false;
      }
      now := now + PauseMs;
    }

    /**
     * The effect's `checkConnectivity()` loop. `replies[k]` is what the network does
     * with the k-th probe; the cleanup (`active = false`) runs while iteration
     * `unmountDuring` is suspended, so that iteration finishes and no other starts.
     * Every iteration writes its own verdict, so `isOnline` is the latest probe's
     * verdict and nothing else: no failure is counted.
     */
    method CheckConnectivity(replies: seq<Fetch.Reply>, unmountDuring: nat)
      requires unmountDuring < |replies|
      modifies this
      ensures !active
      ensures writes == old(writes) + Verdicts(replies[..unmountDuring + 1])
      ensures isOnline == ProbeVerdict(replies[unmountDuring])
      ensures |starts| == |old(starts)| + unmountDuring + 1 && starts[..|old(starts)|] == old(starts)
      ensures Paced(starts[|old(starts)|..], replies, old(now))
      ensures now == starts[|starts| - 1] + Fetch.Elapsed(replies[unmountDuring], ProbeTimeoutMs) + PauseMs
    {
      active := true;
      var i := 0;
      ghost var ws: seq<bool> := [];    // this run's `setIsOnline` calls
      ghost var ss: seq<nat> := [];     // this run's probe start times
      while active
        invariant 0 <= i <= unmountDuring + 1
        invariant active <==> i <= unmountDuring
        invariant ws == Verdicts(replies[..i])
        invariant |ss| == i
        invariant i == 0 ==> now == old(now)
        invariant i > 0 ==> isOnline == ProbeVerdict(replies[i - 1])
        invariant i > 0 ==> now == ss[i - 1] + Fetch.Elapsed(replies[i - 1], ProbeTimeoutMs) + PauseMs
        invariant Paced(ss, replies, old(now))
        invariant writes == old(writes) && starts == old(starts)
        decreases unmountDuring + 1 - i
      {
        PacedAppend(ss, replies, old(now), now);
        ss := ss + [now];
        if i == unmountDuring {
          active := false;    // the cleanup runs while this probe is suspended
        }
        Probe(replies[i]);
        VerdictsAppend(replies, i);
        ws := ws + [isOnline];
        i := i + 1;
      }
      writes := writes + ws;
      starts := starts + ss;
      assert starts[|old(starts)|..] == ss && starts[..|old(starts)|] == old(starts);
    }
  }

  /** Appending a probe appends its verdict. */
  lemma VerdictsAppend(rs: seq<Fetch.Reply>, i: nat)
    requires i < |rs|
    ensures Verdicts(rs[..i + 1]) == Verdicts(rs[..i]) + [ProbeVerdict(rs[i])]
  {
    assert rs[..i + 1] == rs[..i] + [rs[i]];
  }

  /** Probe start times `ss` of one run of the loop that began at `t0`: the first probe
      starts at once, and each later one 1000 ms after the previous one settled. */
  ghost predicate Paced(ss: seq<nat>, replies: seq<Fetch.Reply>, t0: nat) {
    && |ss| <= |replies|
    && (|ss| > 0 ==> ss[0] == t0)
    && forall k :: 0 <= k < |ss| - 1 ==>
      ss[k + 1] == ss[k] + Fetch.Elapsed(replies[k], ProbeTimeoutMs) + PauseMs
  }

  /** Starting the next probe on time keeps the run paced. */
  lemma PacedAppend(ss: seq<nat>, replies: seq<Fetch.Reply>, t0: nat, t: nat)
    requires Paced(ss, replies, t0) && |ss| < |replies|
    requires ss == [] ==> t == t0
    requires ss != [] ==> t == ss[|ss| - 1] + Fetch.Elapsed(replies[|ss| - 1], ProbeTimeoutMs) + PauseMs
    ensures Paced(ss + [t], replies, t0)
  {
  }
}
