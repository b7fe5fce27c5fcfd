/** The blocking queue object. A consumer's call is cut where it gives up the mutex: `Begin` runs up to the
    first wait, `Resume` from a wake-up to the next wait or the return, `Expire` from a timed-out wait to
    the return. */
module BlockingQueueObject {
  import opened Common
  import opened BlockingQueueSpec

  class BlockingQueue<T> {
    var queue: seq<T>
    var waiters: map<Thread, Waiter>
    ghost var pushed: seq<T>
    ghost var delivered: seq<Delivery<T>>
    ghost var glances: seq<Glance<T>>

    ghost function Abs(): Queue<T>
      reads this
    {
      Queue(queue, waiters, pushed, delivered, glances)
    }

    constructor (items: seq<T>)
      ensures Abs() == Initial(items)
      ensures queue == items && waiters == map[]
    {
      queue, waiters, pushed, delivered, glances := items, map[], items, [], [];
    }

    method Push(elem: T)
      modifies this
      ensures Abs() == Act(old(Abs()), Event.Push(elem))
      ensures queue == old(queue) + [elem] && waiters.Keys == old(waiters).Keys
      ensures forall t | t in waiters :: waiters[t].operation == old(waiters)[t].operation
      ensures forall t | t in waiters :: waiters[t].asleep <==> old(waiters)[t].asleep && old(queue) != []
    {
      if |queue| == 0 {
        waiters := map t | t in waiters :: waiters[t].(asleep := false);
      }
      queue := queue + [elem];
      pushed := pushed + [elem];
    }

    /** The body of every consumer once it holds the mutex. On an empty queue it sleeps; otherwise it gets
        the head, which only Front leaves in the queue. */
    method Attempt(t: Thread, op: Operation) returns (r: Option<T>)
      modifies this
      ensures Abs() == Try(old(Abs()), t, op)
      ensures r == if old(queue) == [] then None else Some(old(queue)[0])
      ensures queue == if old(queue) == [] || op == FRONT then old(queue) else old(queue)[1..]
      ensures waiters == if r.None? then old(waiters)[t := Waiter(op, true)] else old(waiters) - {t}
      ensures delivered == old(delivered) + if r.Some? && op != FRONT then [Delivery(t, r.value)] else []
      ensures glances == old(glances) + if r.Some? && op == FRONT then [Glance(t, r.value, |delivered|)] else []
    {
      if |queue| == 0 {
        waiters := waiters[t := Waiter(op, true)];
        return None;
      }
      r := Some(queue[0]);
      waiters := waiters - {t};
      if op == FRONT {
        glances := glances + [Glance(t, queue[0], |delivered|)];
      } else {
        delivered := delivered + [Delivery(t, queue[0])];
        queue := queue[1..];
      }
    }

    method Begin(t: Thread, op: Operation) returns (r: Option<T>)
      requires t !in waiters
      modifies this
      ensures Abs() == Act(old(Abs()), Event.Begin(t, op))
      ensures r == if old(queue) == [] then None else Some(old(queue)[0])
      ensures queue == if old(queue) == [] || op == FRONT then old(queue) else old(queue)[1..]
      ensures waiters == if r.None? then old(waiters)[t := Waiter(op, true)] else old(waiters)
      ensures delivered == old(delivered) + if r.Some? && op != FRONT then [Delivery(t, r.value)] else []
    {
      r := Attempt(t, op);
      assert r.Some? ==> waiters == old(waiters);
    }

    method Resume(t: Thread) returns (r: Option<T>)
      requires t in waiters
      modifies this
      ensures Abs() == Act(old(Abs()), Event.Resume(t))
      ensures r == if old(queue) == [] then None else Some(old(queue)[0])
      ensures queue == if old(queue) == [] || old(waiters)[t].operation == FRONT then old(queue) else old(queue)[1..]
      ensures waiters == if r.None? then old(waiters)[t := old(waiters)[t].(asleep := true)] else old(waiters) - {t}
      ensures delivered ==
              old(delivered) + if r.Some? && old(waiters)[t].operation != FRONT then [Delivery(t, r.value)] else []
    {
      r := Attempt(t, waiters[t].operation);
    }

    /** PopTimeWait gives up and returns false: it takes nothing, even from a queue that is not empty. */
    method Expire(t: Thread) returns (popped: bool)
      requires t in waiters && waiters[t].operation == POP_TIME_WAIT
      modifies this
      ensures Abs() == Act(old(Abs()), Event.Expire(t))
      ensures !popped && queue == old(queue) && delivered == old(delivered) && waiters == old(waiters) - {t}
    {
      waiters := waiters - {t};
      popped := false;
    }
  }
}
