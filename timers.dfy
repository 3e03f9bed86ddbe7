/**
 * The browser's timer queue as the screens use it: a clock, `setTimeout`
 * (which hands out a fresh handle), `clearTimeout`, and the firing of the
 * earliest pending callback. Time is abstract: it passes only through
 * `Elapse` and `Fire`, never on its own.
 */
module Timers {

  /** A pending callback: when it is due and what it will do. */
  datatype Timer<A> = Timer(due: nat, action: A)

  /** The clock, the pending timers keyed by their handles, and the next handle to hand out. */
  datatype Queue<A> = Queue(now: nat, pending: map<nat, Timer<A>>, nextId: nat) {

    /** Every pending handle was handed out before, and no pending timer is overdue. */
    predicate Valid() {
      forall id :: id in pending ==> id < nextId && pending[id].due >= now
    }
  }

  /** The queue of a freshly loaded page: time zero, nothing pending. */
  function Start<A>(): Queue<A> {
    Queue(0, map[], 0)
  }

  /** `setTimeout(action, delay)`: the new timer gets handle `q.nextId`. */
  function SetTimeout<A>(q: Queue<A>, delay: nat, a: A): (r: Queue<A>)
    ensures r.now == q.now && r.nextId == q.nextId + 1
    ensures q.Valid() ==> r.Valid() && q.nextId !in q.pending
    ensures r.pending.Keys == q.pending.Keys + {q.nextId}
    ensures r.pending[q.nextId] == Timer(q.now + delay, a)
    ensures q.Valid() ==> forall id :: id in q.pending ==> r.pending[id] == q.pending[id]
  {
    Queue(q.now, q.pending[q.nextId := Timer(q.now + delay, a)], q.nextId + 1)
  }

  /** `clearTimeout(id)`: a handle that is no longer pending is ignored. */
  function ClearTimeout<A>(q: Queue<A>, id: nat): (r: Queue<A>)
    ensures r.now == q.now && r.nextId == q.nextId
    ensures q.Valid() ==> r.Valid()
    ensures r.pending.Keys == q.pending.Keys - {id}
    ensures forall j :: j in r.pending ==> r.pending[j] == q.pending[j]
    ensures id !in q.pending ==> r == q
  {
    Queue(q.now, q.pending - {id}, q.nextId)
  }

  /** The timer `id` is pending and no other pending timer is due before it. */
  predicate CanFire<A>(q: Queue<A>, id: nat) {
    id in q.pending && forall j :: j in q.pending ==> q.pending[id].due <= q.pending[j].due
  }

  /** Time advances to the due time of timer `id`, which leaves the queue; its callback is run by the caller. */
  function Fire<A>(q: Queue<A>, id: nat): (r: Queue<A>)
    requires CanFire(q, id)
    ensures q.Valid() ==> r.Valid() && r.now >= q.now
    ensures r.now == q.pending[id].due
    ensures r.pending.Keys == q.pending.Keys - {id} && r.nextId == q.nextId
    ensures forall j :: j in r.pending ==> r.pending[j] == q.pending[j]
  {
    Queue(q.pending[id].due, q.pending - {id}, q.nextId)
  }

  /** No pending timer falls due before `ms` more milliseconds have passed. */
  predicate CanElapse<A>(q: Queue<A>, ms: nat) {
    forall j :: j in q.pending ==> q.now + ms <= q.pending[j].due
  }

  /** `ms` milliseconds pass without any timer firing. */
  function Elapse<A>(q: Queue<A>, ms: nat): (r: Queue<A>)
    requires CanElapse(q, ms)
    ensures q.Valid() ==> r.Valid()
    ensures r.now == q.now + ms && r.pending == q.pending && r.nextId == q.nextId
  {
    Queue(q.now + ms, q.pending, q.nextId)
  }
}
