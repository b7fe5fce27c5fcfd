/** The cyclic barrier as a state machine: one step for each section that runs with the barrier's
    mutex held. A waiting thread is an entry of `waiters` holding the two indices it saved on its
    stack; `asleep` says whether it is still in the condition variable's wait set. */
module BarrierSpec {

  import opened Common

  datatype Outcome = SUCCESS | BROKEN | TIMEOUT

  /** The pair (m_reset_index, m_barrier_cond) a thread saves when it arrives. */
  datatype Epoch = Epoch(reset: nat, generation: nat)

  datatype Waiter = Waiter(epoch: Epoch, timed: bool, asleep: bool)

  /** The history of a run; the implementation keeps none of it. */
  datatype Entry =
    | Arrived(thread: Thread, epoch: Epoch)
    | Tripped(epoch: Epoch)
    | Abandoned(epoch: Epoch)
    | Returned(thread: Thread, epoch: Epoch, outcome: Outcome)

  datatype Barrier = Barrier(max: nat, count: int, reset: nat, generation: nat,
                             waiters: map<Thread, Waiter>, log: seq<Entry>)
  {
    function Current(): Epoch {
      Epoch(reset, generation)
    }
  }

  datatype Event =
    | Arrive(thread: Thread, timed: bool)
    | Resume(thread: Thread)   // notified or woken spuriously
    | Expire(thread: Thread)   // TimeWait returned false
    | Reset

  function Initial(max: nat): Barrier {
    Barrier(max, max, 0, 0, map[], [])
  }

  predicate Enabled(b: Barrier, e: Event) {
    match e
    case Arrive(t, _) => t !in b.waiters
    case Resume(t) => t in b.waiters
    case Expire(t) => t in b.waiters && b.waiters[t].timed
    case Reset => true
  }

  /** pthread_cond_broadcast: everybody leaves the wait set. */
  function WakeAll(waiters: map<Thread, Waiter>): map<Thread, Waiter> {
    map t | t in waiters :: waiters[t].(asleep := false)
  }

  function DoArrive(b: Barrier, t: Thread, timed: bool): Barrier {
    var e := b.Current();
    if b.count - 1 == 0 then
      b.(count := b.max, generation := b.generation + 1, waiters := WakeAll(b.waiters),
         log := b.log + [Arrived(t, e), Tripped(e), Returned(t, e, SUCCESS)])
    else
      b.(count := b.count - 1, waiters := b.waiters[t := Waiter(e, timed, true)],
         log := b.log + [Arrived(t, e)])
  }

  function Leave(b: Barrier, t: Thread, outcome: Outcome): Barrier
    requires t in b.waiters
  {
    b.(waiters := b.waiters - {t}, log := b.log + [Returned(t, b.waiters[t].epoch, outcome)])
  }

  function DoResume(b: Barrier, t: Thread): Barrier
    requires t in b.waiters
  {
    var w := b.waiters[t];
    if w.epoch == b.Current() then
      b.(waiters := b.waiters[t := w.(asleep := true)])
    else
      Leave(b, t, if w.epoch.reset != b.reset then BROKEN else SUCCESS)
  }

  function DoReset(b: Barrier): Barrier {
    b.(count := b.max, reset := b.reset + 1, waiters := WakeAll(b.waiters),
       log := b.log + [Abandoned(b.Current())])
  }

  function Act(b: Barrier, e: Event): Barrier
    requires Enabled(b, e)
  {
    match e
    case Arrive(t, timed) => DoArrive(b, t, timed)
    case Resume(t) => DoResume(b, t)
    case Expire(t) => Leave(b, t, TIMEOUT)
    case Reset => DoReset(b)
  }

  /** A scheduled event that is not enabled does nothing. */
  function Step(b: Barrier, e: Event): Barrier {
    if Enabled(b, e) then Act(b, e) else b
  }

  function Exec(b: Barrier, es: seq<Event>): Barrier {
    if es == [] then b else Step(Exec(b, es[..|es| - 1]), es[|es| - 1])
  }

  // ---------- What the history says ----------

  function Arrivals(log: seq<Entry>, e: Epoch): nat {
    if log == [] then 0
    else Arrivals(log[..|log| - 1], e)
         + if log[|log| - 1].Arrived? && log[|log| - 1].epoch == e then 1 else 0
  }

  function AllArrivals(log: seq<Entry>): nat {
    if log == [] then 0
    else AllArrivals(log[..|log| - 1]) + if log[|log| - 1].Arrived? then 1 else 0
  }

  function Returns(log: seq<Entry>, e: Epoch): nat {
    if log == [] then 0
    else Returns(log[..|log| - 1], e)
         + if log[|log| - 1].Returned? && log[|log| - 1].epoch == e then 1 else 0
  }

  /** The threads still inside Await that arrived in epoch `e`. */
  function Inside(b: Barrier, e: Epoch): set<Thread> {
    set t | t in b.waiters && b.waiters[t].epoch == e
  }
}
