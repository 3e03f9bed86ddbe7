/**
 * One `fetch` request raced against an AbortController that aborts it after
 * a fixed number of milliseconds, as every ping in the screens does it.
 */
module Fetch {

  /** What the network does with one request if nobody aborts it: answers with a
      status after `ms` milliseconds, fails (DNS, CORS, connection refused) after
      `ms` milliseconds, or never answers. */
  datatype Reply = Response(status: int, ms: nat) | Failure(ms: nat) | Silence

  /** How `await fetch(...)` settles: with a response carrying a status, by
      throwing a network error, or by throwing the AbortError. */
  datatype Outcome = Status(code: int) | NetworkError | Aborted

  /** The settled outcome when the abort timer is set to `timeoutMs`. The abort
      timer is armed before the request is sent, so a reply arriving exactly at
      `timeoutMs` loses the race. */
  function Race(r: Reply, timeoutMs: nat): (o: Outcome)
    ensures o.Status? <==> r.Response? && r.ms < timeoutMs
    ensures o.Status? ==> o.code == r.status
    ensures o == NetworkError <==> r.Failure? && r.ms < timeoutMs
  {
    match r
    case Response(status, ms) => if ms < timeoutMs then Status(status) else Aborted
    case Failure(ms) => if ms < timeoutMs then NetworkError else Aborted
    case Silence => Aborted
  }

  /** How long the `await` is suspended: never longer than the abort timer, and
      exactly that long when the request is aborted. */
  function Elapsed(r: Reply, timeoutMs: nat): (ms: nat)
    ensures ms <= timeoutMs
    ensures ms == timeoutMs <==> Race(r, timeoutMs) == Aborted
    ensures !r.Silence? && r.ms < timeoutMs ==> ms == r.ms
  {
    match r
    case Response(_, ms) => if ms < timeoutMs then ms else timeoutMs
    case Failure(ms) => if ms < timeoutMs then ms else timeoutMs
    case Silence => timeoutMs
  }

  /** `pingInternetOnce(timeoutMs)`, which both Connect screens define alike: online
      exactly when the echo endpoint answers 204 No Content before the abort;
      a network error and the abort are caught and read as offline. */
  function PingInternetOnce(r: Reply, timeoutMs: nat): (online: bool)
    ensures online <==> r.Response? && r.status == 204 && r.ms < timeoutMs
  {
    match Race(r, timeoutMs)
    case Status(code) => code == 204
    case NetworkError => false
    case Aborted => false
  }
}
