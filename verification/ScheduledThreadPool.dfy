/** The scheduled pool: several timer task handlers, and a counter that deals the tasks out to them in turn. */
module ScheduledThreadPoolObject {
  import opened RoundRobin
  import opened TimerTaskHandlerObject
  import TimerSpec

  datatype State = RUNNING | STOP | SHUTDOWN

  ghost predicate Disjoint(a: seq<TimerTask>, b: seq<TimerTask>) {
    forall t | t in a :: t !in b
  }

  /** Handlers that get to know a task new to all the others keep their tasks apart. */
  lemma StayDisjoint(before: seq<TimerTask>, after: seq<TimerTask>, other: seq<TimerTask>)
    requires Disjoint(before, other)
    requires forall t | t in after :: t in before || t !in other
    ensures Disjoint(after, other) && Disjoint(other, after)
  {
  }

  class ScheduledThreadPool {
    const handlers: seq<TimerTaskHandler>
    var index: nat
    var isRequestShutDown: bool
    var state: State
    ghost var dealt: seq<nat>

    ghost function Queues(): (qs: set<TimerTaskQueue>)
      ensures forall h | h in handlers :: h.taskQueue in qs
    {
      set h | h in handlers :: h.taskQueue
    }

    ghost function Known(): (ts: set<TimerTask>)
      reads handlers
      ensures forall h, t | h in handlers && t in h.known :: t in ts
    {
      set h, t | h in handlers && t in h.known :: t
    }

    ghost function Queued(): (ts: set<TimerTask>)
      reads Queues()
      ensures forall h, t | h in handlers && t in h.taskQueue.queue :: t in ts
    {
      set h, t | h in handlers && t in h.taskQueue.queue :: t
    }

    /** No two handlers share their queue, or a task. */
    ghost predicate Apart()
      reads handlers
    {
      && (forall i, j | 0 <= i < j < |handlers| ::
            handlers[i] != handlers[j] && handlers[i].taskQueue != handlers[j].taskQueue)
      && (forall h, k | h in handlers && k in handlers && h != k :: Disjoint(h.known, k.known))
    }

    ghost predicate Valid()
      reads this`index, this`dealt, handlers, Queues(), Known(), Queued()
    {
      && Apart()
      && (forall h | h in handlers :: h.Valid())
      && |dealt| == index
      && (|handlers| > 0 ==> InTurn(dealt, |handlers|))
    }

    /** Nobody holds this handler's queue mutex. */
    ghost predicate Free(h: TimerTaskHandler)
      reads h
    {
      h.Abs().pc != TimerSpec.Checked
    }

    constructor (threadNum: nat)
      ensures Valid() && |handlers| == threadNum && index == 0 && !isRequestShutDown && state == RUNNING
      ensures forall h | h in handlers :: fresh(h) && fresh(h.taskQueue) && h.taskQueue.queue == []
    {
      hide TimerTaskHandler.Valid;
      var hs: seq<TimerTaskHandler> := [];
      while |hs| < threadNum
        invariant |hs| <= threadNum
        invariant forall h | h in hs :: fresh(h) && fresh(h.taskQueue) && h.Valid() && h.known == []
        invariant forall h | h in hs :: h.taskQueue.queue == []
        invariant forall i, j | 0 <= i < j < |hs| :: hs[i] != hs[j] && hs[i].taskQueue != hs[j].taskQueue
      {
        var h := new TimerTaskHandler();
        hs := hs + [h];
      }
      handlers, index, isRequestShutDown, state, dealt := hs, 0, false, RUNNING, [];
    }

    /** A user task without a deadline is known to no handler. */
    lemma Unknown(task: TimerTask)
      requires Valid() && !task.isEnd && task.deadline == 0
      ensures task !in Known() && task !in Queued()
    {
      forall h | h in handlers ensures task !in h.known && task !in h.taskQueue.queue {
        h.NotKnown(task);
      }
    }

    /** A handler of which nothing was touched is as valid as before. */
    twostate lemma StaysValid(h: TimerTaskHandler)
      requires old(h.Valid()) && unchanged(h) && unchanged(h.taskQueue)
      requires forall t | t in h.known :: unchanged(t)
      ensures h.Valid()
    {
      var q := h.taskQueue.queue;
      forall i | 0 <= i < |q| ensures q[i].deadline == old(q[i].deadline) {
        assert q[i] in q && q[i] in h.known;
      }
      assert Deadlines(q) == old(Deadlines(q));
      forall id | 0 <= id < |h.known| ensures unchanged(h.known[id]) {
        assert h.known[id] in h.known;
      }
    }

    /** The choice of the handler; a call that is refused at the door does not take a turn. */
    method NextHandler() returns (h: nat)
      requires Valid() && |handlers| > 0
      modifies this`index, this`dealt
      ensures Valid() && h < |handlers| && h == old(index) % |handlers|
      ensures index == old(index) + 1 && dealt == old(dealt) + [h]
    {
      h := index % |handlers|;
      index := index + 1;
      dealt := dealt + [h];
    }

    /** What the chosen handler makes of the call. */
    ghost predicate Accepts(h: TimerTaskHandler, task: TimerTask)
      reads h, task
    {
      !h.isRequestClose && task.deadline == 0
    }

    /** What a caller has to hand in: a task object of the user, not cancelled without a request. */
    ghost predicate Fits(task: TimerTask)
      reads task
    {
      !task.isEnd && (task.IsCancelled() ==> task.isRequestCancel)
    }

    method GiveCron(h: TimerTaskHandler, task: TimerTask, now: nat, delay: nat) returns (accepted: bool)
      requires Valid() && h in handlers && Fits(task) && Free(h)
      modifies h`events, h`known, h.taskQueue, task`deadline, task`interval
      ensures accepted == old(Accepts(h, task))
      ensures Valid() <==> !accepted || (now + delay) > 0
      ensures task.deadline == if accepted then now + delay else old(task.deadline)
      ensures accepted ==> task !in old(Queued())
      ensures multiset(h.taskQueue.queue) ==
              multiset(old(h.taskQueue.queue)) + if accepted then multiset{task} else multiset{}
    {
      hide TimerTaskHandler.Valid, InTurn, Disjoint;
      if task.deadline == 0 { Unknown(task); }
      accepted := h.AddCronTimerTask(task, now, delay);
      forall k | k in handlers && k != h
        ensures k.Valid() && Disjoint(h.known, k.known) && Disjoint(k.known, h.known)
      {
        StaysValid(k);
        StayDisjoint(old(h.known), h.known, k.known);
      }
    }

    method AddCronTimerTask(task: TimerTask?, now: nat, delay: nat) returns (r: TimerTask?)
      requires Valid() && |handlers| > 0 && Free(handlers[index % |handlers|]) && (task != null ==> Fits(task))
      modifies this`index, this`dealt, handlers, Queues(), task
      ensures isRequestShutDown || task == null ==> r == null && index == old(index)
      ensures forall i | 0 <= i < |handlers| && i != old(index) % |handlers| ::
                handlers[i].taskQueue.queue == old(handlers[i].taskQueue.queue)
      ensures Valid() <==> r == null || (now + delay) > 0
      ensures r != null ==> r !in old(Queued())
      ensures !isRequestShutDown && task != null ==>
                && index == old(index) + 1
                && r == (if old(Accepts(handlers[index % |handlers|], task)) then task else null)
                && task.deadline == (if r == null then old(task.deadline) else now + delay)
                && multiset(handlers[old(index) % |handlers|].taskQueue.queue) ==
                   multiset(old(handlers[index % |handlers|].taskQueue.queue)) +
                   (if r != null then multiset{task} else multiset{})
    {
      hide InTurn, Disjoint, TimerTaskHandler.Valid;
      if isRequestShutDown || task == null {
        return null;
      }
      var i := NextHandler();
      var accepted := GiveCron(handlers[i], task, now, delay);
      r := if accepted then task else null;
    }

    method GiveCycle(h: TimerTaskHandler, task: TimerTask, now: nat, period: nat, runNow: bool) returns (accepted: bool)
      requires Valid() && h in handlers && Fits(task) && Free(h)
      modifies h`events, h`known, h.taskQueue, task`deadline, task`interval
      ensures accepted == old(Accepts(h, task))
      ensures Valid() <==> !accepted || (if runNow then now else now + period) > 0
      ensures task.deadline == if accepted then if runNow then now else now + period else old(task.deadline)
      ensures task.interval == if accepted then period else old(task.interval)
      ensures accepted ==> task !in old(Queued())
      ensures multiset(h.taskQueue.queue) ==
              multiset(old(h.taskQueue.queue)) + if accepted then multiset{task} else multiset{}
    {
      hide TimerTaskHandler.Valid, InTurn, Disjoint;
      if task.deadline == 0 { Unknown(task); }
      accepted := h.AddCycleTimerTask(task, now, period, runNow);
      forall k | k in handlers && k != h
        ensures k.Valid() && Disjoint(h.known, k.known) && Disjoint(k.known, h.known)
      {
        StaysValid(k);
        StayDisjoint(old(h.known), h.known, k.known);
      }
    }

    method AddCycleTimerTask(task: TimerTask?, now: nat, period: nat, runNow: bool) returns (r: TimerTask?)
      requires Valid() && |handlers| > 0 && Free(handlers[index % |handlers|]) && (task != null ==> Fits(task))
      modifies this`index, this`dealt, handlers, Queues(), task
      ensures isRequestShutDown || task == null ==> r == null && index == old(index)
      ensures forall i | 0 <= i < |handlers| && i != old(index) % |handlers| ::
                handlers[i].taskQueue.queue == old(handlers[i].taskQueue.queue)
      ensures Valid() <==> r == null || (if runNow then now else now + period) > 0
      ensures r != null ==> r !in old(Queued())
      ensures !isRequestShutDown && task != null ==>
                && index == old(index) + 1
                && r == (if old(Accepts(handlers[index % |handlers|], task)) then task else null)
                && task.deadline == (if r == null then old(task.deadline) else if runNow then now else now + period)
                && task.interval == (if r == null then old(task.interval) else period)
                && multiset(handlers[old(index) % |handlers|].taskQueue.queue) ==
                   multiset(old(handlers[index % |handlers|].taskQueue.queue)) +
                   (if r != null then multiset{task} else multiset{})
    {
      hide InTurn, Disjoint, TimerTaskHandler.Valid;
      if isRequestShutDown || task == null {
        return null;
      }
      var i := NextHandler();
      var accepted := GiveCycle(handlers[i], task, now, period, runNow);
      r := if accepted then task else null;
    }

    /** One handler's thread looks at its queue. It may move the deadline of a task in place; since no task
        belongs to two handlers, no other handler's heap is disturbed. */
    method PollHandler(h: TimerTaskHandler, now: nat) returns (task: TimerTask, fired: bool, ghost id: nat)
      requires Valid() && h in handlers && !Free(h)
      modifies h`events, h.taskQueue, h.taskQueue.queue`deadline
      ensures Valid() && id < |h.known| && task == h.known[id] && (fired <==> h.Abs().pc.InHand?)
      ensures h.events == old(h.events) + [TimerSpec.Event.Poll(now, id)]
    {
      hide InTurn, Disjoint, TimerTaskHandler.Valid;
      KnownQueue(h);
      task, fired, id := h.Poll(now);
      forall k | k in handlers && k != h ensures k.Valid() {
        forall t | t in k.known ensures unchanged(t) {
          assert t !in old(h.taskQueue.queue);
        }
        StaysValid(k);
      }
    }

    /** What a handler's queue holds, no other handler knows. */
    lemma KnownQueue(h: TimerTaskHandler)
      requires Valid() && h in handlers
      ensures forall k, t | k in handlers && k != h && t in k.known :: t !in h.taskQueue.queue
    {
    }

    method ShutDownOne(h: TimerTaskHandler)
      requires Valid() && h in handlers && Free(h)
      modifies h, h.taskQueue
      ensures Valid() && h.isRequestShutDown
      ensures !old(h.isRequestShutDown) ==>
                h.isRequestClose && SentinelAdded(old(h.taskQueue.queue), h.taskQueue.queue)
    {
      hide TimerTaskHandler.Valid, InTurn, Disjoint, SentinelAdded;
      h.ShutDown();
      forall k | k in handlers && k != h ensures Disjoint(h.known, k.known) && Disjoint(k.known, h.known) {
        NewToOthers(old(h.known), h.known, k.known);
      }
    }

    /** A list that grew by one object not in the other list. */
    lemma NewToOthers(before: seq<TimerTask>, after: seq<TimerTask>, other: seq<TimerTask>)
      requires Disjoint(before, other) && |before| <= |after| <= |before| + 1 && after[..|before|] == before
      requires |after| > |before| ==> after[|before|] !in other
      ensures Disjoint(after, other) && Disjoint(other, after)
    {
    }

    /** The loop over the handlers. */
    method ShutDownAll()
      requires Valid() && forall h | h in handlers :: Free(h)
      modifies handlers, Queues()
      ensures Valid()
      ensures forall h | h in handlers :: h.isRequestShutDown
      ensures forall h | h in handlers && !old(h.isRequestShutDown) ::
                h.isRequestClose && SentinelAdded(old(h.taskQueue.queue), h.taskQueue.queue)
    {
      hide TimerTaskHandler.Valid, InTurn, Disjoint, SentinelAdded;
      for i := 0 to |handlers|
        invariant Valid()
        invariant forall j | 0 <= j < i :: handlers[j].isRequestShutDown
        invariant forall j | 0 <= j < i && !old(handlers[j].isRequestShutDown) ::
                    handlers[j].isRequestClose &&
                    SentinelAdded(old(handlers[j].taskQueue.queue), handlers[j].taskQueue.queue)
        invariant forall j | i <= j < |handlers| :: unchanged(handlers[j]) && unchanged(handlers[j].taskQueue)
      {
        ShutDownOne(handlers[i]);
      }
    }

    /** The winner of the compare-and-set shuts the handlers down one after the other; later calls return
        at once. */
    method ShutDownHelper()
      requires Valid() && forall h | h in handlers :: Free(h)
      modifies this`isRequestShutDown, this`state, handlers, Queues()
      ensures Valid() && isRequestShutDown
      ensures state == if old(isRequestShutDown) then old(state) else SHUTDOWN
      ensures old(isRequestShutDown) ==> forall h | h in handlers :: unchanged(h) && unchanged(h.taskQueue)
      ensures !old(isRequestShutDown) ==> forall h | h in handlers :: h.isRequestShutDown
      ensures !old(isRequestShutDown) ==> forall h | h in handlers && !old(h.isRequestShutDown) ::
                h.isRequestClose && SentinelAdded(old(h.taskQueue.queue), h.taskQueue.queue)
    {
      hide TimerTaskHandler.Valid, InTurn, Disjoint, SentinelAdded;
      if !isRequestShutDown {
        isRequestShutDown := true;
        state := STOP;
        ShutDownAll();
        state := SHUTDOWN;
      }
    }

    /** The dealing is even, whatever was added. */
    lemma DealtEvenlySoFar(h: nat)
      requires Valid() && h < |handlers|
      ensures Count(dealt, h) == index / |handlers| + if h < index % |handlers| then 1 else 0
    {
      DealtEvenly(dealt, |handlers|, h);
    }
  }
}
