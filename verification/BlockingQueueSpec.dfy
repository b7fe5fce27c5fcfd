/** The blocking queue as a state machine: one step for each section that runs with its mutex held.
    `waiters` are the threads inside Pop, PopTimeWait or Front that have gone to sleep at least once;
    `asleep` says whether the thread is still in the condition variable's wait set. */
module BlockingQueueSpec {
  import opened Common

  datatype Operation = POP | POP_TIME_WAIT | FRONT

  datatype Waiter = Waiter(operation: Operation, asleep: bool)

  datatype Delivery<T> = Delivery(thread: Thread, item: T)

  /** What Front returned, and how many items had been popped by then. */
  datatype Glance<T> = Glance(thread: Thread, item: T, popped: nat)

  datatype Queue<T> = Queue(items: seq<T>, waiters: map<Thread, Waiter>,
                            pushed: seq<T>, delivered: seq<Delivery<T>>, glances: seq<Glance<T>>)

  datatype Event<T> =
    | Push(item: T)
    | Begin(thread: Thread, operation: Operation)
    | Resume(thread: Thread)   // notified or woken spuriously
    | Expire(thread: Thread)   // TimeWait returned false

  function Initial<T>(items: seq<T>): Queue<T> {
    Queue(items, map[], items, [], [])
  }

  predicate Enabled<T>(q: Queue<T>, e: Event<T>) {
    match e
    case Push(_) => true
    case Begin(t, _) => t !in q.waiters
    case Resume(t) => t in q.waiters
    case Expire(t) => t in q.waiters && q.waiters[t].operation == POP_TIME_WAIT
  }

  function WakeAll(waiters: map<Thread, Waiter>): map<Thread, Waiter> {
    map t | t in waiters :: waiters[t].(asleep := false)
  }

  /** ConditionNotifyAllLocker tests `empty` before the element is added. */
  function DoPush<T>(q: Queue<T>, x: T): Queue<T> {
    q.(items := q.items + [x], pushed := q.pushed + [x],
       waiters := if q.items == [] then WakeAll(q.waiters) else q.waiters)
  }

  /** The head of the wait loop of a consumer that holds the mutex. */
  function Try<T>(q: Queue<T>, t: Thread, op: Operation): Queue<T> {
    if q.items == [] then
      q.(waiters := q.waiters[t := Waiter(op, true)])
    else if op == FRONT then
      q.(waiters := q.waiters - {t}, glances := q.glances + [Glance(t, q.items[0], |q.delivered|)])
    else
      q.(waiters := q.waiters - {t}, items := q.items[1..],
         delivered := q.delivered + [Delivery(t, q.items[0])])
  }

  function Act<T>(q: Queue<T>, e: Event<T>): Queue<T>
    requires Enabled(q, e)
  {
    match e
    case Push(x) => DoPush(q, x)
    case Begin(t, op) => Try(q, t, op)
    case Resume(t) => Try(q, t, q.waiters[t].operation)
    case Expire(t) => q.(waiters := q.waiters - {t})
  }

  function Step<T>(q: Queue<T>, e: Event<T>): Queue<T> {
    if Enabled(q, e) then Act(q, e) else q
  }

  function Exec<T>(q: Queue<T>, es: seq<Event<T>>): Queue<T> {
    if |es| == 0 then q else Step(Exec(q, es[..|es| - 1]), es[|es| - 1])
  }

  /** The items of the pushes in a schedule, in order. */
  function PushesOf<T>(es: seq<Event<T>>): seq<T> {
    if |es| == 0 then []
    else PushesOf(es[..|es| - 1]) + if es[|es| - 1].Push? then [es[|es| - 1].item] else []
  }

  function Items<T>(ds: seq<Delivery<T>>): seq<T> {
    if |ds| == 0 then [] else Items(ds[..|ds| - 1]) + [ds[|ds| - 1].item]
  }
}
