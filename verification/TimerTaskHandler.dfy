/** The timer's objects: tasks whose deadline changes in place, the queue that orders them by it, and the
    handler. The queue holds references, so a deadline written through a task is a key changed inside the
    heap. The handler's methods take the steps of TimerSpec: `Valid` couples the objects with its state. */
module TimerTaskHandlerObject {
  import opened Heap
  import TaskSpec
  import opened TimerProperties
  import opened TimerSpec

  class TimerTask {
    const isEnd: bool
    var deadline: nat
    var interval: nat
    var isRequestCancel: bool      // inherited from TaskBase
    var state: TaskSpec.State      // inherited from TaskBase

    constructor (isEnd: bool)
      ensures this.isEnd == isEnd && deadline == 0 && interval == 0 && !isRequestCancel && state == TaskSpec.INIT
    {
      this.isEnd, deadline, interval, isRequestCancel, state := isEnd, 0, 0, false, TaskSpec.INIT;
    }

    method SetDeadline(d: nat)
      modifies this`deadline
      ensures deadline == d
    {
      deadline := d;
    }

    method SetInterval(i: nat)
      modifies this`interval
      ensures interval == i
    {
      interval := i;
    }

    predicate IsIntervalTask()
      reads this
    {
      interval > 0
    }

    predicate IsCancelled()
      reads this
    {
      state == TaskSpec.CANCELLED
    }
  }

  ghost function Deadlines(q: seq<TimerTask>): (ks: seq<int>)
    reads q`deadline
    ensures |ks| == |q| && forall i | 0 <= i < |q| :: ks[i] == q[i].deadline
  {
    if q == [] then [] else Deadlines(q[..|q| - 1]) + [q[|q| - 1].deadline]
  }

  ghost predicate Distinct(q: seq<TimerTask>) {
    forall t | t in q :: multiset(q)[t] == 1
  }

  /** The deadlines at this moment, as a key function. */
  ghost function Snapshot(q: seq<TimerTask>): (key: TimerTask -> int)
    reads q`deadline
    ensures forall t | t in q :: key(t) == t.deadline
    ensures Keys(q, key) == Deadlines(q)
  {
    var m := map t | t in q :: t.deadline;
    t => if t in m then m[t] else 0
  }

  predicate CompareTimerTask(a: TimerTask, b: TimerTask)
    reads a, b
  {
    a.deadline > b.deadline
  }

  /** The comparator as it answers while these are the deadlines. */
  ghost function Later(key: TimerTask -> int): (TimerTask, TimerTask) -> bool {
    (a: TimerTask, b: TimerTask) => key(a) > key(b)
  }

  lemma ComparesDeadlines(q: seq<TimerTask>, key: TimerTask -> int)
    requires forall t | t in q :: key(t) == t.deadline
    ensures Answers(CompareTimerTask, Later(key), q) && Agrees(Later(key), key, q) && Keys(q, key) == Deadlines(q)
  {
  }

  lemma OnlyOnce(q: seq<TimerTask>)
    requires q != [] && Distinct(q)
    ensures q[0] !in q[1..]
  {
    assert q == [q[0]] + q[1..];
    assert multiset(q)[q[0]] == 1;
  }

  class TimerTaskQueue {
    var queue: seq<TimerTask>
    var waiting: bool   // the timer thread is in the condition variable's wait set

    ghost predicate Valid()
      reads this, queue`deadline
    {
      IsHeap(Deadlines(queue))
    }

    constructor ()
      ensures Valid() && queue == [] && !waiting
    {
      queue, waiting := [], false;
    }

    predicate IsEmpty()
      reads this
    {
      |queue| == 0
    }

    method GetMin() returns (t: TimerTask)
      requires Valid() && !IsEmpty()
      ensures t == queue[0]
      ensures t in queue && forall x | x in queue :: t.deadline <= x.deadline
    {
      t := queue[0];
      forall i | 0 <= i < |queue| ensures t.deadline <= queue[i].deadline {
        RootIsMin(Deadlines(queue), i);
      }
    }

    /** Take the root out; its own deadline may have been changed since it got there. */
    method PopMin() returns (t: TimerTask)
      requires !IsEmpty() && HeapBelowRoot(Deadlines(queue))
      modifies this`queue
      ensures Valid() && t == old(queue)[0]
      ensures multiset(queue) == multiset(old(queue)) - multiset{t}
      ensures forall x | x in queue :: x in old(queue)
    {
      hide Heap.Popped, IsHeap, HeapBelowRoot, Deadlines, Agrees, Answers, Keys, Later;
      t := queue[0];
      ghost var key := Snapshot(queue);
      ComparesDeadlines(queue, key);
      var rest := Heap.Pop(queue, CompareTimerTask, Later(key));
      PoppedIsHeap(queue, Later(key), key);
      SameElements(queue, rest);
      ComparesDeadlines(rest, key);
      queue := rest;
    }

    method Insert(t: TimerTask)
      requires Valid()
      modifies this`queue
      ensures Valid() && multiset(queue) == multiset(old(queue)) + multiset{t}
      ensures forall x | x in queue :: x == t || x in old(queue)
    {
      hide Heap.Pushed, IsHeap, Deadlines, Agrees, Answers, Keys, Later;
      ghost var key := Snapshot(queue + [t]);
      ComparesDeadlines(queue + [t], key);
      ComparesDeadlines(queue, key);
      var more := Heap.Push(queue, t, CompareTimerTask, Later(key));
      PushedIsHeap(queue, t, Later(key), key);
      assert multiset(queue + [t]) == multiset(queue) + multiset{t};
      SameElements(queue + [t], more);
      ComparesDeadlines(more, key);
      queue := more;
    }

    /** There is one timer thread, so notifying one waiter is enough. */
    method PushTask(t: TimerTask)
      requires Valid()
      modifies this
      ensures Valid() && !waiting
      ensures multiset(queue) == multiset(old(queue)) + multiset{t}
      ensures forall x | x in queue :: x == t || x in old(queue)
    {
      Insert(t);
      waiting := false;
    }

    /** Move the deadline of the root in place, then let the queue put it right. */
    method RekeyRoot(t: TimerTask, next: nat)
      requires Valid() && !IsEmpty() && t == queue[0] && Distinct(queue)
      modifies this`queue, t`deadline
      ensures Valid() && multiset(queue) == multiset(old(queue)) && t.deadline == next
    {
      hide IsHeap, HeapBelowRoot, Deadlines;
      ghost var q := queue;
      ghost var key := Snapshot(q);
      OnlyOnce(q);
      t.SetDeadline(next);
      RekeyedRoot(q, key, Snapshot(q));
      PopMinAndPush();
    }

    /** The root, whose deadline has been moved in place, finds its new position. */
    method PopMinAndPush()
      requires !IsEmpty() && HeapBelowRoot(Deadlines(queue))
      modifies this`queue
      ensures Valid() && multiset(queue) == multiset(old(queue))
      ensures forall x | x in queue :: x in old(queue)
    {
      var t := PopMin();
      Insert(t);
    }
  }

  // ---------- Queue contents as sets ----------

  lemma WithoutOne(q: seq<TimerTask>, r: seq<TimerTask>, t: TimerTask)
    requires Distinct(q) && t in q && multiset(r) == multiset(q) - multiset{t}
    ensures Distinct(r) && forall x :: x in r <==> x in q && x != t
  {
    forall x ensures x in r <==> x in q && x != t {
      assert x in r <==> multiset(r)[x] > 0;
      assert x in q <==> multiset(q)[x] > 0;
    }
  }

  lemma WithOne(q: seq<TimerTask>, r: seq<TimerTask>, t: TimerTask)
    requires Distinct(q) && t !in q && multiset(r) == multiset(q) + multiset{t}
    ensures Distinct(r) && forall x :: x in r <==> x in q || x == t
  {
    forall x ensures x in r <==> x in q || x == t {
      assert x in r <==> multiset(r)[x] > 0;
      assert x in q <==> multiset(q)[x] > 0;
    }
  }

  lemma Reordered(q: seq<TimerTask>, r: seq<TimerTask>)
    requires Distinct(q) && multiset(r) == multiset(q)
    ensures Distinct(r) && forall x :: x in r <==> x in q
  {
    forall x ensures x in r <==> x in q {
      assert x in r <==> multiset(r)[x] > 0;
      assert x in q <==> multiset(q)[x] > 0;
    }
  }

  // ---------- The objects and the specification's state ----------

  /** A task object and its entry in the specification. */
  ghost predicate Matches(t: TimerTask, k: Task)
    reads t
  {
    && k.deadline == t.deadline && k.interval == t.interval && k.isEnd == t.isEnd
    && k.requested == t.isRequestCancel && k.cancelled == t.IsCancelled()
  }

  ghost predicate AllDifferent(known: seq<TimerTask>) {
    forall i, j | 0 <= i < j < |known| :: known[i] != known[j]
  }

  /** The tasks the handler has accepted, numbered in that order. Each but the sentinel has a deadline, and that
      is how a task already accepted is known. */
  ghost predicate Knows(known: seq<TimerTask>, tasks: map<TaskId, Task>)
    reads known
  {
    && AllDifferent(known)
    && (forall id :: id in tasks <==> 0 <= id < |known|)
    && forall id | 0 <= id < |known| :: Matches(known[id], tasks[id]) && (known[id].isEnd || known[id].deadline > 0)
  }

  /** The part of an entry that the object shows. */
  predicate SameFields(k: Task, k': Task) {
    && k'.deadline == k.deadline && k'.interval == k.interval && k'.isEnd == k.isEnd
    && k'.requested == k.requested && k'.cancelled == k.cancelled
  }

  lemma DropEffect(s: Timer, now: nat, id: TaskId)
    requires Enabled(s, Event.Poll(now, id)) && id in s.tasks
    requires var k := s.tasks[id]; k.cancelled || k.requested || (k.deadline <= now && k.interval == 0)
    ensures var s' := Act(s, Event.Poll(now, id));
            && s'.queue == s.queue - {id} && s'.stage == s.stage && !IsAsleep(s'.pc)
            && s'.pc == (if s.tasks[id].cancelled then AtTop else InHand(id, !s.tasks[id].requested))
            && id in s'.tasks && s'.tasks == s.tasks[id := s'.tasks[id]] && SameFields(s.tasks[id], s'.tasks[id])
  {
    hide IsMin;
  }

  lemma RearmEffect(s: Timer, now: nat, id: TaskId)
    requires Enabled(s, Event.Poll(now, id)) && id in s.tasks
    requires var k := s.tasks[id]; !k.cancelled && !k.requested && k.deadline <= now && k.interval > 0
    ensures var s' := Act(s, Event.Poll(now, id));
            && s'.queue == s.queue && s'.stage == s.stage && s'.pc == InHand(id, true)
            && id in s'.tasks && s'.tasks == s.tasks[id := s'.tasks[id]]
            && SameFields(s.tasks[id].(deadline := now + s.tasks[id].interval), s'.tasks[id])
  {
    hide IsMin;
  }

  lemma CheckEffect(s: Timer)
    requires Enabled(s, Event.Check)
    ensures var id := s.pc.task;
            var k, s' := s.tasks[id], Act(s, Event.Check);
            && s'.queue == s.queue && s'.stage == s.stage
            && s'.pc == (if k.isEnd then Ended else if k.requested then AtTop else Cleared(id))
            && s'.tasks == s.tasks[id := if !k.isEnd && k.requested then k.(cancelled := true) else k]
  {
    assert s.tasks == s.tasks[s.pc.task := s.tasks[s.pc.task]];
  }

  lemma BeginEffect(s: Timer)
    requires Enabled(s, Event.Begin)
    ensures var id, s' := s.pc.task, Act(s, Event.Begin);
            && s'.queue == s.queue && s'.stage == s.stage && s'.pc == InBody(id)
            && id in s'.tasks && s'.tasks == s.tasks[id := s'.tasks[id]] && SameFields(s.tasks[id], s'.tasks[id])
  {
  }

  lemma EndEffect(s: Timer, checks: bool)
    requires Enabled(s, Event.EndBody(checks))
    ensures var id := s.pc.task;
            var k, s' := s.tasks[id], Act(s, Event.EndBody(checks));
            && s'.queue == s.queue && s'.stage == s.stage && s'.pc == AtTop
            && s'.tasks == s.tasks[id := if checks && k.requested then k.(cancelled := true) else k]
  {
    assert s.tasks == s.tasks[s.pc.task := s.tasks[s.pc.task]];
  }

  /** What a new entry looks like after the deadline has been written: the object shows it. */
  predicate Accepted(s: Timer, s': Timer, id: TaskId, deadline: nat, interval: nat, requested: bool, cancelled: bool) {
    && id in s'.tasks && s'.tasks == s.tasks[id := s'.tasks[id]] && s'.queue == s.queue && id in s'.pending
    && s'.pc == s.pc && s'.stage == s.stage
    && var k := s'.tasks[id];
       && k.deadline == deadline && k.interval == interval && !k.isEnd
       && k.requested == requested && k.cancelled == cancelled
  }

  /** The events of an accepted call: the handler gets to know the task, and the task gets its deadline. */
  predicate Adds(e: Event, id: TaskId, deadline: nat, interval: nat, oldInterval: nat) {
    match e
    case AddCron(i, now, delay) => i == id && deadline == now + delay && interval == oldInterval
    case AddCycle(i, now, period, runNow) =>
      i == id && deadline == (if runNow then now else now + period) && interval == period
    case _ => false
  }

  lemma AcceptEffect(s: Timer, id: TaskId, requested: bool, cancelled: bool, oldInterval: nat, e: Event,
                     deadline: nat, interval: nat)
    requires id !in s.tasks && (cancelled ==> requested) && !IsClosed(s) && deadline > 0
    requires Adds(e, id, deadline, interval, oldInterval)
    ensures var create := Event.Create(id, requested, cancelled, oldInterval);
            && Enabled(s, create) && Enabled(Act(s, create), e)
            && Accepted(s, Act(Act(s, create), e), id, deadline, interval, requested, cancelled)
  {
  }

  lemma PushEffect(s: Timer, id: TaskId)
    requires Enabled(s, Event.Push(id))
    ensures var s' := Act(s, Event.Push(id));
            s'.queue == s.queue + {id} && s'.tasks == s.tasks && s'.stage == s.stage && !IsAsleep(s'.pc)
            && (s'.pc == Checked <==> s.pc == Checked)
  {
  }

  lemma PushSentinelEffect(s: Timer, id: TaskId)
    requires Enabled(s, Event.PushSentinel(id))
    ensures var s' := Act(s, Event.PushSentinel(id));
            s'.queue == s.queue + {id} && s'.tasks == s.tasks[id := END_TIMER_TASK] && s'.stage == SentinelPushed
            && !IsAsleep(s'.pc)
  {
  }

  /** A task about to be pushed is known and not queued yet. */
  lemma PendingFacts(events: seq<Event>, id: TaskId)
    requires id in Exec(Initial(), events).pending
    ensures var s := Exec(Initial(), events); id in s.tasks && id !in s.queue
  {
    ReachableInv(events);
    assert TaskOk(Exec(Initial(), events), id);
  }

  lemma FreshFacts(events: seq<Event>, id: TaskId)
    requires id !in Exec(Initial(), events).tasks
    ensures id !in Exec(Initial(), events).queue
  {
    ReachableInv(events);
  }

  lemma NextId(known: seq<TimerTask>, tasks: map<TaskId, Task>)
    requires Knows(known, tasks)
    ensures |known| !in tasks
  {
  }

  lemma EntryMatches(t: TimerTask, s: Timer, s': Timer, id: TaskId)
    requires Accepted(s, s', id, t.deadline, t.interval, t.isRequestCancel, t.IsCancelled()) && !t.isEnd
    ensures Matches(t, s'.tasks[id]) && s'.tasks == s.tasks[id := s'.tasks[id]] && s'.queue == s.queue
  {
  }

  lemma HeldIff(known: seq<TimerTask>, ids: set<TaskId>, q: seq<TimerTask>, id: TaskId)
    requires Holds(known, ids, q) && id < |known|
    ensures id in ids <==> known[id] in q
  {
  }

  lemma OneMoreKnown(known: seq<TimerTask>, tasks: map<TaskId, Task>, t: TimerTask, k: Task)
    requires Knows(known, tasks) && t !in known && Matches(t, k) && (t.isEnd || t.deadline > 0)
    ensures Knows(known + [t], tasks[|known| := k])
  {
  }

  lemma MoreKnownHolds(known: seq<TimerTask>, ids: set<TaskId>, q: seq<TimerTask>, t: TimerTask)
    requires Holds(known, ids, q) && t !in q
    ensures Holds(known + [t], ids, q)
  {
  }

  /** The task in the thread's hands is known, and while its body is ahead or running it is not cancelled. */
  lemma HandFacts(events: seq<Event>)
    requires Occupied(Exec(Initial(), events).pc)
    ensures var s := Exec(Initial(), events);
            && s.pc.task in s.tasks
            && (s.pc.Cleared? || s.pc.InBody? ==> !s.tasks[s.pc.task].cancelled && !s.tasks[s.pc.task].isEnd)
  {
    ReachableInv(events);
    assert TaskOk(Exec(Initial(), events), Exec(Initial(), events).pc.task);
  }

  lemma EnabledPoll(s: Timer, now: nat, id: TaskId)
    requires Enabled(s, Event.Poll(now, id))
    ensures id in s.tasks
  {
  }

  lemma SleepEffect(s: Timer, now: nat, id: TaskId)
    requires Enabled(s, Event.Poll(now, id)) && id in s.tasks
    requires var k := s.tasks[id]; !k.cancelled && !k.requested && k.deadline > now
    ensures var s' := Act(s, Event.Poll(now, id));
            && s'.queue == s.queue && s'.tasks == s.tasks && s'.stage == s.stage
            && s'.pc == AsleepUntil(s.tasks[id].deadline)
  {
    hide IsMin;
  }

  ghost predicate Holds(known: seq<TimerTask>, ids: set<TaskId>, q: seq<TimerTask>) {
    && (forall t | t in q :: t in known)
    && (forall id | id in ids :: id < |known|)
    && forall id | 0 <= id < |known| :: id in ids <==> known[id] in q
  }

  lemma RemovedHolds(known: seq<TimerTask>, tasks: map<TaskId, Task>, ids: set<TaskId>, q: seq<TimerTask>,
                     r: seq<TimerTask>, id: TaskId)
    requires Knows(known, tasks) && Holds(known, ids, q) && id < |known| && known[id] in q && Distinct(q)
    requires multiset(r) == multiset(q) - multiset{known[id]}
    ensures Distinct(r) && Holds(known, ids - {id}, r)
  {
    WithoutOne(q, r, known[id]);
  }

  lemma AddedHolds(known: seq<TimerTask>, tasks: map<TaskId, Task>, ids: set<TaskId>, q: seq<TimerTask>,
                   r: seq<TimerTask>, id: TaskId)
    requires Knows(known, tasks) && Holds(known, ids, q) && id !in ids && id < |known| && Distinct(q)
    requires multiset(r) == multiset(q) + multiset{known[id]}
    ensures Distinct(r) && Holds(known, ids + {id}, r)
  {
    WithOne(q, r, known[id]);
  }

  lemma ReorderedHolds(known: seq<TimerTask>, ids: set<TaskId>, q: seq<TimerTask>, r: seq<TimerTask>)
    requires Holds(known, ids, q) && Distinct(q) && multiset(r) == multiset(q)
    ensures Distinct(r) && Holds(known, ids, r)
  {
    Reordered(q, r);
  }

  /** An entry changed in what the object does not show. */
  lemma SameKnown(known: seq<TimerTask>, tasks: map<TaskId, Task>, id: TaskId, k: Task)
    requires Knows(known, tasks) && id < |known| && SameFields(tasks[id], k)
    ensures Knows(known, tasks[id := k])
  {
  }

  /** An entry and its object changed; the others are as they were. */
  lemma OneKnown(known: seq<TimerTask>, tasks: map<TaskId, Task>, id: TaskId, k: Task)
    requires AllDifferent(known) && id < |known| && (forall i :: i in tasks <==> 0 <= i < |known|)
    requires forall i | 0 <= i < |known| && i != id ::
               Matches(known[i], tasks[i]) && (known[i].isEnd || known[i].deadline > 0)
    requires Matches(known[id], k) && (known[id].isEnd || known[id].deadline > 0)
    ensures Knows(known, tasks[id := k])
  {
  }

  /** The queue has grown by one sentinel, whose deadline is not after that of any other task. */
  ghost predicate SentinelAdded(before: seq<TimerTask>, after: seq<TimerTask>)
    reads after
  {
    exists end | end in after ::
      end.isEnd && end.deadline == 0 && multiset(after) == multiset(before) + multiset{end}
  }

  lemma OneSentinel(before: seq<TimerTask>, after: seq<TimerTask>, end: TimerTask)
    requires end.isEnd && end.deadline == 0 && multiset(after) == multiset(before) + multiset{end}
    ensures SentinelAdded(before, after)
  {
    assert end in multiset(after);
  }

  class TimerTaskHandler {
    const taskQueue: TimerTaskQueue
    var isRequestShutDown: bool
    var isRequestClose: bool   // of the timer thread
    ghost var known: seq<TimerTask>
    ghost var events: seq<Event>

    /** The state of TimerSpec that this handler has reached. */
    ghost function Abs(): Timer
      reads this
    {
      Exec(Initial(), events)
    }

    ghost predicate Valid()
      reads this, taskQueue, taskQueue.queue, known
    {
      && taskQueue.Valid() && Distinct(taskQueue.queue)
      && Knows(known, Abs().tasks) && Holds(known, Abs().queue, taskQueue.queue)
      && (isRequestShutDown <==> Abs().stage != NotRequested)
      && (isRequestClose <==> IsClosed(Abs()))
      && (taskQueue.waiting <==> IsAsleep(Abs().pc))
    }

    constructor ()
      ensures Valid() && known == [] && events == [] && taskQueue.queue == [] && fresh(taskQueue)
      ensures !isRequestShutDown && !isRequestClose
    {
      taskQueue := new TimerTaskQueue();
      isRequestShutDown, isRequestClose, known, events := false, false, [], [];
    }

    ghost method Log(e: Event)
      requires Enabled(Abs(), e)
      modifies this`events
      ensures events == old(events) + [e] && Abs() == Act(old(Abs()), e)
    {
      events := events + [e];
      assert events[..|events| - 1] == old(events);
    }

    /** The thread takes the queue mutex: it leaves by the close exception, waits, or goes on to poll. */
    method Acquire() returns (polls: bool)
      requires Valid() && Abs().pc == AtTop
      modifies this`events, taskQueue`waiting
      ensures Valid() && events == old(events) + [Event.Acquire] && Enabled(old(Abs()), Event.Acquire)
      ensures polls <==> !isRequestClose && taskQueue.queue != []
      ensures taskQueue.waiting <==> !isRequestClose && taskQueue.queue == []
      ensures Abs().pc == if isRequestClose then Ended else if polls then Checked else AsleepOnEmpty
    {
      hide Exec, IsHeap, Distinct, Deadlines, Matches;
      Log(Event.Acquire);
      polls := !isRequestClose && !taskQueue.IsEmpty();
      assert Abs().queue == {} <==> taskQueue.IsEmpty() by {
        if !taskQueue.IsEmpty() { assert taskQueue.queue[0] in known; }
      }
      taskQueue.waiting := !isRequestClose && taskQueue.IsEmpty();
    }

    /** A woken or expired thread is on its way back to the mutex. */
    method Wake()
      requires Valid() && taskQueue.waiting
      modifies this`events, taskQueue`waiting
      ensures Valid() && events == old(events) + [Event.Wake] && Enabled(old(Abs()), Event.Wake)
      ensures !taskQueue.waiting && Abs().pc == AtTop
    {
      Log(Event.Wake);
      taskQueue.waiting := false;
    }

    // ---------- Poll ----------

    ghost predicate IsHead(id: TaskId)
      reads this, taskQueue, taskQueue.queue, known
    {
      Valid() && Abs().pc == Checked && !taskQueue.IsEmpty() && id < |known| && known[id] == taskQueue.queue[0]
    }

    /** The root of the heap is a task of least deadline also for the specification. */
    lemma HeadIsMin() returns (id: TaskId)
      requires Valid() && Abs().pc == Checked
      ensures IsHead(id) && IsMin(Abs(), id) && id in Abs().queue
      ensures taskQueue.Valid() && !taskQueue.waiting && id in Abs().tasks && Matches(known[id], Abs().tasks[id])
    {
      ReachableInv(events);
      var s := Abs();
      var some :| some in s.queue;
      assert known[some] in taskQueue.queue;
      var head := taskQueue.queue[0];
      assert head in known;
      id :| 0 <= id < |known| && known[id] == head;
      forall t | t in s.queue && t in s.tasks ensures s.tasks[id].deadline <= s.tasks[t].deadline {
        var i :| 0 <= i < |taskQueue.queue| && taskQueue.queue[i] == known[t];
        RootIsMin(Deadlines(taskQueue.queue), i);
      }
    }

    /** The stretch of ThreadFunction that runs with the queue mutex held and a task in the queue: it takes a
        task of least deadline. A cancelled one is dropped; one with a cancel request or, once due, without an
        interval is removed and fired; a due periodic one is fired and queued again for one interval after
        this reading; for any other the thread waits. */
    method Poll(now: nat) returns (task: TimerTask, fired: bool, ghost id: TaskId)
      requires Valid() && Abs().pc == Checked
      modifies this`events, taskQueue, taskQueue.queue`deadline
      ensures Valid() && known == old(known) && id < |known| && task == known[id]
      ensures Enabled(old(Abs()), Event.Poll(now, id)) && events == old(events) + [Event.Poll(now, id)]
      ensures task in old(taskQueue.queue)
      ensures forall t | t in old(taskQueue.queue) :: old(task.deadline) <= old(t.deadline)
      ensures forall t | t in old(taskQueue.queue) && t != task :: t.deadline == old(t.deadline)
      ensures fired <==> !task.IsCancelled() && (task.isRequestCancel || old(task.deadline) <= now)
      ensures multiset(taskQueue.queue) ==
              if task.IsCancelled() || task.isRequestCancel || (old(task.deadline) <= now && task.interval == 0)
              then multiset(old(taskQueue.queue)) - multiset{task} else multiset(old(taskQueue.queue))
      ensures task.deadline ==
              if fired && !task.isRequestCancel && task.interval > 0 then now + task.interval else old(task.deadline)
      ensures taskQueue.waiting <==> !task.IsCancelled() && !fired
      ensures Abs().pc == if fired then InHand(id, !task.isRequestCancel)
                          else if task.IsCancelled() then AtTop else AsleepUntil(task.deadline)
    {
      hide Act, Exec, IsHeap, Holds, Distinct, Deadlines, Knows, Matches, IsMin;
      id := HeadIsMin();
      task := taskQueue.GetMin();
      fired := PollHead(task, now, id);
    }

    method PollHead(task: TimerTask, now: nat, ghost id: TaskId) returns (fired: bool)
      requires IsHead(id) && Enabled(Abs(), Event.Poll(now, id)) && task == known[id] && task in taskQueue.queue
      modifies this`events, taskQueue, task`deadline
      ensures Valid() && known == old(known) && events == old(events) + [Event.Poll(now, id)]
      ensures fired <==> !task.IsCancelled() && (task.isRequestCancel || old(task.deadline) <= now)
      ensures multiset(taskQueue.queue) ==
              if task.IsCancelled() || task.isRequestCancel || (old(task.deadline) <= now && task.interval == 0)
              then multiset(old(taskQueue.queue)) - multiset{task} else multiset(old(taskQueue.queue))
      ensures task.deadline ==
              if fired && !task.isRequestCancel && task.interval > 0 then now + task.interval else old(task.deadline)
      ensures taskQueue.waiting <==> !task.IsCancelled() && !fired
      ensures Abs().pc == if fired then InHand(id, !task.isRequestCancel)
                          else if task.IsCancelled() then AtTop else AsleepUntil(task.deadline)
    {
      hide Act, Exec, Enabled, IsHead, Valid;
      fired := !task.IsCancelled() && (task.isRequestCancel || task.deadline <= now);
      if task.IsCancelled() || task.isRequestCancel || (task.deadline <= now && !task.IsIntervalTask()) {
        DropHead(task, now, id);
      } else if task.deadline <= now {
        Rearm(task, now, id);
      } else {
        AwaitHead(task, now, id);
      }
    }

    /** The head leaves the queue. */
    method DropHead(task: TimerTask, ghost now: nat, ghost id: TaskId)
      requires IsHead(id) && Enabled(Abs(), Event.Poll(now, id)) && task == known[id]
      requires task.IsCancelled() || task.isRequestCancel || (task.deadline <= now && task.interval == 0)
      modifies this`events, taskQueue
      ensures Valid() && known == old(known) && events == old(events) + [Event.Poll(now, id)]
      ensures Abs().pc == if task.IsCancelled() then AtTop else InHand(id, !task.isRequestCancel)
      ensures multiset(taskQueue.queue) == multiset(old(taskQueue.queue)) - multiset{task} && !taskQueue.waiting
    {
      hide Act, Exec, Enabled, IsMin, IsHeap, Holds, Distinct, SameFields;
      ghost var s, q := Abs(), taskQueue.queue;
      EnabledPoll(s, now, id);
      DropEffect(s, now, id);
      RootMayMove(Deadlines(q));
      hide Knows, Matches;
      var t := taskQueue.PopMin();
      Log(Event.Poll(now, id));
      RemovedHolds(known, s.tasks, s.queue, q, taskQueue.queue, id);
      SameKnown(known, s.tasks, id, Abs().tasks[id]);
    }

    /** A periodic task gets its next deadline. */
    method Rearm(task: TimerTask, now: nat, ghost id: TaskId)
      requires IsHead(id) && Enabled(Abs(), Event.Poll(now, id)) && task == known[id]
      requires !task.IsCancelled() && !task.isRequestCancel && task.deadline <= now && task.interval > 0
      modifies this`events, taskQueue, task`deadline
      ensures Valid() && known == old(known) && events == old(events) + [Event.Poll(now, id)]
      ensures Abs().pc == InHand(id, true) && task.deadline == now + task.interval
      ensures multiset(taskQueue.queue) == multiset(old(taskQueue.queue)) && !taskQueue.waiting
    {
      hide Act, Exec, Enabled, IsMin, IsHeap, Holds, Distinct, Deadlines;
      ghost var s, q := Abs(), taskQueue.queue;
      EnabledPoll(s, now, id);
      RearmEffect(s, now, id);
      taskQueue.RekeyRoot(task, now + task.interval);
      Log(Event.Poll(now, id));
      ReorderedHolds(known, s.queue, q, taskQueue.queue);
      OneKnown(known, s.tasks, id, Abs().tasks[id]);
    }

    /** The head is not due: the thread waits for it. */
    method AwaitHead(task: TimerTask, ghost now: nat, ghost id: TaskId)
      requires IsHead(id) && Enabled(Abs(), Event.Poll(now, id)) && task == known[id]
      requires !task.IsCancelled() && !task.isRequestCancel && task.deadline > now
      modifies this`events, taskQueue`waiting
      ensures Valid() && known == old(known) && events == old(events) + [Event.Poll(now, id)]
      ensures Abs().pc == AsleepUntil(task.deadline) && taskQueue.waiting
    {
      hide Act, Exec, IsMin, IsHeap, Holds, Distinct, Deadlines;
      EnabledPoll(Abs(), now, id);
      SleepEffect(Abs(), now, id);
      Log(Event.Poll(now, id));
      taskQueue.waiting := true;
    }

    // ---------- Run ----------

    /** The task the thread has in its hands. */
    ghost predicate InHands(task: TimerTask)
      reads this, known
    {
      Occupied(Abs().pc) && Abs().pc.task < |known| && task == known[Abs().pc.task]
    }

    /** The check at the head of Run; the sentinel ends the loop instead. */
    method Check(task: TimerTask) returns (runs: bool)
      requires Valid() && Abs().pc.InHand? && InHands(task)
      modifies this`events, task`state
      ensures Valid() && known == old(known) && events == old(events) + [Event.Check]
      ensures Enabled(old(Abs()), Event.Check)
      ensures runs <==> !task.isEnd && !task.isRequestCancel
      ensures Abs().pc == if task.isEnd then Ended else if runs then Cleared(old(Abs()).pc.task) else AtTop
      ensures task.state == if runs || task.isEnd then old(task.state) else TaskSpec.CANCELLED
    {
      hide Act, Exec, Holds, IsHeap, Distinct, Deadlines;
      ghost var s := Abs();
      HandFacts(events);
      CheckEffect(s);
      runs := !task.isEnd && !task.isRequestCancel;
      if !runs && !task.isEnd {
        task.state := TaskSpec.CANCELLED;
      }
      Log(Event.Check);
      OneKnown(known, s.tasks, s.pc.task, Abs().tasks[s.pc.task]);
    }

    method Begin(task: TimerTask)
      requires Valid() && Abs().pc.Cleared? && InHands(task)
      modifies this`events, task`state
      ensures Valid() && known == old(known) && events == old(events) + [Event.Begin]
      ensures Enabled(old(Abs()), Event.Begin) && task.state == TaskSpec.RUNNING
      ensures Abs().pc == InBody(old(Abs()).pc.task)
    {
      hide Act, Exec, Holds, IsHeap, Distinct, Deadlines;
      ghost var s := Abs();
      HandFacts(events);
      BeginEffect(s);
      task.state := TaskSpec.RUNNING;
      Log(Event.Begin);
      OneKnown(known, s.tasks, s.pc.task, Abs().tasks[s.pc.task]);
    }

    /** The body ends, perhaps by a check of its own that throws. */
    method EndBody(task: TimerTask, checks: bool)
      requires Valid() && Abs().pc.InBody? && InHands(task)
      modifies this`events, task`state
      ensures Valid() && known == old(known) && events == old(events) + [Event.EndBody(checks)]
      ensures Enabled(old(Abs()), Event.EndBody(checks))
      ensures task.state == if checks && task.isRequestCancel then TaskSpec.CANCELLED else TaskSpec.FINISHED
      ensures Abs().pc == AtTop
    {
      hide Act, Exec, Holds, IsHeap, Distinct, Deadlines;
      ghost var s := Abs();
      HandFacts(events);
      EndEffect(s, checks);
      task.state := if checks && task.isRequestCancel then TaskSpec.CANCELLED else TaskSpec.FINISHED;
      Log(Event.EndBody(checks));
      OneKnown(known, s.tasks, s.pc.task, Abs().tasks[s.pc.task]);
    }

    // ---------- The loop ----------

    /** The sentinel is due at any time. */
    lemma SentinelIsDue(id: TaskId)
      requires Valid() && id < |known| && known[id].isEnd
      ensures known[id].deadline == 0 && !known[id].IsCancelled() && !known[id].isRequestCancel
    {
      ReachableInv(events);
      assert Matches(known[id], Abs().tasks[id]);
    }

    /** Run, for the task the thread has in its hands: its body runs exactly if no cancel was requested, and
        then the thread is at the top of its loop again. For the sentinel the loop ends instead. */
    method FireTask(task: TimerTask, bodyChecks: bool) returns (goesOn: bool)
      requires Valid() && Abs().pc.InHand? && InHands(task)
      modifies this`events, task`state
      ensures Valid() && known == old(known)
      ensures goesOn <==> !task.isEnd
      ensures Abs().pc == if goesOn then AtTop else Ended
      ensures task.state == if task.isEnd then old(task.state)
                            else if task.isRequestCancel then TaskSpec.CANCELLED else TaskSpec.FINISHED
    {
      hide Act, Exec, Valid, Enabled;
      goesOn := !task.isEnd;
      var runs := Check(task);
      if runs {
        Begin(task);
        EndBody(task, bodyChecks);
      }
    }

    /** A turn of ThreadFunction with nobody in between. It ends the loop exactly if a close was requested or
        the head is the sentinel. On an empty queue, and on a head that is not due, the thread waits.
        Otherwise the head, a task of least deadline, is fired: it leaves the queue, or goes back with its
        next deadline. */
    method ThreadTurn(now: nat, bodyChecks: bool) returns (goesOn: bool, ghost head: TimerTask?)
      requires Valid() && Abs().pc == AtTop
      modifies this`events, taskQueue, taskQueue.queue`deadline, taskQueue.queue`state
      ensures Valid() && known == old(known)
      ensures (goesOn <==> Abs().pc != Ended) && (goesOn && !taskQueue.waiting ==> Abs().pc == AtTop)
      ensures head == null <==> isRequestClose || old(taskQueue.queue) == []
      ensures head == null ==> taskQueue.queue == old(taskQueue.queue)
      ensures head == null ==> goesOn == !isRequestClose && (taskQueue.waiting <==> !isRequestClose)
      ensures head != null ==> head in old(taskQueue.queue) && (goesOn <==> !head.isEnd)
      ensures head != null ==> forall t | t in old(taskQueue.queue) :: old(head.deadline) <= old(t.deadline)
      ensures head != null ==>
                var dropped := old(head.IsCancelled());
                var due := head.isRequestCancel || old(head.deadline) <= now;
                && (taskQueue.waiting <==> !dropped && !due)
                && multiset(taskQueue.queue) ==
                   (if dropped || (due && (head.isRequestCancel || head.interval == 0))
                    then multiset(old(taskQueue.queue)) - multiset{head} else multiset(old(taskQueue.queue)))
                && head.deadline == (if !dropped && due && !head.isRequestCancel && head.interval > 0
                                     then now + head.interval else old(head.deadline))
                && head.state == (if dropped || !due || head.isEnd then old(head.state)
                                  else if head.isRequestCancel then TaskSpec.CANCELLED else TaskSpec.FINISHED)
    {
      hide Act, Exec, Valid, Enabled;
      var polls := Acquire();
      if !polls {
        return !isRequestClose, null;
      }
      var task, fired;
      ghost var id;
      task, fired, id := Poll(now);
      head := task;
      goesOn := true;
      if fired {
        goesOn := FireTask(task, bodyChecks);
      } else if task.isEnd {
        SentinelIsDue(id);
      }
    }

    // ---------- The other threads ----------

    method RequestCancel(task: TimerTask, ghost id: TaskId)
      requires Valid() && id < |known| && task == known[id] && !task.isEnd
      modifies this`events, task`isRequestCancel
      ensures Valid() && known == old(known) && events == old(events) + [Event.Cancel(id)]
      ensures Enabled(old(Abs()), Event.Cancel(id)) && task.isRequestCancel
    {
      hide Exec, Holds, IsHeap, Distinct;
      ghost var s := Abs();
      task.isRequestCancel := true;
      Log(Event.Cancel(id));
      OneKnown(known, s.tasks, id, Abs().tasks[id]);
    }

    /** A user task without a deadline is none of those accepted so far. */
    lemma NotKnown(task: TimerTask)
      requires Valid() && !task.isEnd && task.deadline == 0
      ensures task !in known && task !in taskQueue.queue
    {
    }

    /** The unlocked first half of adding a task: it gets its deadline. */
    method Accept(task: TimerTask, deadline: nat, interval: nat, ghost e: Event)
      requires Valid() && !isRequestClose && !task.isEnd && task.deadline == 0 && deadline > 0
      requires task.IsCancelled() ==> task.isRequestCancel
      requires Adds(e, |known|, deadline, interval, task.interval)
      modifies this`events, this`known, task`deadline, task`interval
      ensures Valid() && known == old(known) + [task] && Abs().pc == old(Abs()).pc && |old(known)| in Abs().pending
      ensures events == old(events) + [Event.Create(|old(known)|, task.isRequestCancel, task.IsCancelled(),
                                                    old(task.interval)), e]
      ensures task.deadline == deadline && task.interval == interval
    {
      hide Act, Exec, Enabled, IsHeap, Distinct, Deadlines, Adds, Knows, Holds, Matches;
      ghost var s, id, before := Abs(), |known|, task.interval;
      NotKnown(task);
      NextId(known, s.tasks);
      AcceptEffect(s, id, task.isRequestCancel, task.IsCancelled(), before, e, deadline, interval);
      task.SetInterval(interval);
      task.SetDeadline(deadline);
      Log(Event.Create(id, task.isRequestCancel, task.IsCancelled(), before));
      Log(e);
      EntryMatches(task, s, Abs(), id);
      OneMoreKnown(known, s.tasks, task, Abs().tasks[id]);
      MoreKnownHolds(known, s.queue, taskQueue.queue, task);
      known := known + [task];
    }

    /** The locked second half: the task goes into the queue and the timer thread is notified. */
    method PushPending(task: TimerTask, ghost id: TaskId)
      requires Valid() && id in Abs().pending && id < |known| && task == known[id] && Abs().pc != Checked
      modifies this`events, taskQueue
      ensures Valid() && known == old(known) && events == old(events) + [Event.Push(id)]
      ensures Enabled(old(Abs()), Event.Push(id)) && !taskQueue.waiting && task !in old(taskQueue.queue)
      ensures multiset(taskQueue.queue) == multiset(old(taskQueue.queue)) + multiset{task}
    {
      hide Act, Exec, IsHeap, Distinct, Deadlines, Matches, Knows, Holds;
      ghost var s, q := Abs(), taskQueue.queue;
      PendingFacts(events, id);
      PushEffect(s, id);
      HeldIff(known, s.queue, q, id);
      taskQueue.PushTask(task);
      Log(Event.Push(id));
      AddedHolds(known, s.tasks, s.queue, q, taskQueue.queue, id);
    }

    /** The calls are refused after a close, and for a task that has a deadline; a task accepted was not in the
        queue before. Should the deadline come out as 0 the handler could not tell the task from one never
        added, and only then its books are no longer in order. */
    method AddCronTimerTask(task: TimerTask, now: nat, delay: nat) returns (accepted: bool)
      requires Valid() && !task.isEnd && (task.IsCancelled() ==> task.isRequestCancel) && Abs().pc != Checked
      modifies this`events, this`known, taskQueue, task`deadline, task`interval
      ensures accepted <==> !isRequestClose && old(task.deadline) == 0
      ensures Valid() <==> !accepted || now + delay > 0
      ensures taskQueue.Valid()
      ensures task.interval == old(task.interval)
      ensures task.deadline == if accepted then now + delay else old(task.deadline)
      ensures accepted ==> task !in old(known) && task !in old(taskQueue.queue)
      ensures multiset(taskQueue.queue) ==
              multiset(old(taskQueue.queue)) + if accepted then multiset{task} else multiset{}
      ensures taskQueue.waiting == (old(taskQueue.waiting) && !accepted)
      ensures if accepted && now + delay > 0 then
                && known == old(known) + [task]
                && events == old(events) +
                   [Event.Create(|old(known)|, task.isRequestCancel, task.IsCancelled(), task.interval),
                    Event.AddCron(|old(known)|, now, delay), Event.Push(|old(known)|)]
              else
                known == old(known) && events == old(events)
    {
      accepted := Add(task, now + delay, task.interval, Event.AddCron(|known|, now, delay));
    }

    method AddCycleTimerTask(task: TimerTask, now: nat, period: nat, runNow: bool) returns (accepted: bool)
      requires Valid() && !task.isEnd && (task.IsCancelled() ==> task.isRequestCancel) && Abs().pc != Checked
      modifies this`events, this`known, taskQueue, task`deadline, task`interval
      ensures accepted <==> !isRequestClose && old(task.deadline) == 0
      ensures Valid() <==> !accepted || (if runNow then now else now + period) > 0
      ensures taskQueue.Valid()
      ensures task.interval == if accepted then period else old(task.interval)
      ensures task.deadline ==
              if !accepted then old(task.deadline) else if runNow then now else now + period
      ensures accepted ==> task !in old(known) && task !in old(taskQueue.queue)
      ensures multiset(taskQueue.queue) ==
              multiset(old(taskQueue.queue)) + if accepted then multiset{task} else multiset{}
      ensures taskQueue.waiting == (old(taskQueue.waiting) && !accepted)
      ensures if accepted && task.deadline > 0 then
                && known == old(known) + [task]
                && events == old(events) +
                   [Event.Create(|old(known)|, task.isRequestCancel, task.IsCancelled(), old(task.interval)),
                    Event.AddCycle(|old(known)|, now, period, runNow), Event.Push(|old(known)|)]
              else
                known == old(known) && events == old(events)
    {
      accepted := Add(task, if runNow then now else now + period, period,
                      Event.AddCycle(|known|, now, period, runNow));
    }

    /** What the two calls share. */
    method Add(task: TimerTask, deadline: nat, interval: nat, ghost e: Event) returns (accepted: bool)
      requires Valid() && !task.isEnd && (task.IsCancelled() ==> task.isRequestCancel) && Abs().pc != Checked
      requires Adds(e, |known|, deadline, interval, task.interval)
      modifies this`events, this`known, taskQueue, task`deadline, task`interval
      ensures accepted <==> !isRequestClose && old(task.deadline) == 0
      ensures Valid() <==> !accepted || deadline > 0
      ensures taskQueue.Valid()
      ensures task.deadline == if accepted then deadline else old(task.deadline)
      ensures task.interval == if accepted then interval else old(task.interval)
      ensures accepted ==> task !in old(known) && task !in old(taskQueue.queue)
      ensures multiset(taskQueue.queue) ==
              multiset(old(taskQueue.queue)) + if accepted then multiset{task} else multiset{}
      ensures taskQueue.waiting == (old(taskQueue.waiting) && !accepted)
      ensures if accepted && deadline > 0 then
                && known == old(known) + [task]
                && events == old(events) +
                   [Event.Create(|old(known)|, task.isRequestCancel, task.IsCancelled(), old(task.interval)), e,
                    Event.Push(|old(known)|)]
              else
                known == old(known) && events == old(events)
    {
      hide Act, Exec, Enabled, IsHeap, Distinct, Deadlines, Matches, Knows, Adds;
      accepted := !isRequestClose && task.deadline == 0;
      if accepted {
        NotKnown(task);
        if deadline > 0 {
          ghost var id := |known|;
          Accept(task, deadline, interval, e);
          PushPending(task, id);
        } else {
          task.SetInterval(interval);
          taskQueue.PushTask(task);
          assert task in multiset(taskQueue.queue);
        }
      }
    }

    // ---------- Shutdown ----------

    method RequestShutDown() returns (won: bool)
      requires Valid()
      modifies this`events, this`isRequestShutDown
      ensures Valid() && isRequestShutDown && (won <==> !old(isRequestShutDown))
      ensures events == old(events) + if won then [Event.ShutDown] else []
      ensures won ==> Abs() == old(Abs()).(stage := Requested)
    {
      won := !isRequestShutDown;
      if won {
        hide Exec, IsHeap, Distinct, Deadlines, Matches, Knows, Holds;
        isRequestShutDown := true;
        Log(Event.ShutDown);
      }
    }

    /** The queued sentinel is a fresh task, so its deadline is 0. */
    method PushSentinel() returns (end: TimerTask)
      requires Valid() && Abs().stage == Requested && Abs().pc != Checked
      modifies this`events, this`known, taskQueue
      ensures Valid() && fresh(end) && end.isEnd && end.deadline == 0 && known == old(known) + [end]
      ensures events == old(events) + [Event.PushSentinel(|old(known)|)] && Abs().stage == SentinelPushed
      ensures multiset(taskQueue.queue) == multiset(old(taskQueue.queue)) + multiset{end} && !taskQueue.waiting
    {
      hide Act, Exec, IsHeap, Distinct, Deadlines, Knows, Holds;
      ghost var s, q, id := Abs(), taskQueue.queue, |known|;
      NextId(known, s.tasks);
      FreshFacts(events, id);
      PushSentinelEffect(s, id);
      end := new TimerTask(true);
      MoreKnownHolds(known, s.queue, q, end);
      OneMoreKnown(known, s.tasks, end, END_TIMER_TASK);
      taskQueue.PushTask(end);
      Log(Event.PushSentinel(id));
      known := known + [end];
      AddedHolds(known, Abs().tasks, s.queue, q, taskQueue.queue, id);
    }

    method AsyncClose()
      requires Valid() && Abs().stage == SentinelPushed
      modifies this`events, this`isRequestClose
      ensures Valid() && isRequestClose && events == old(events) + [Event.SetClose]
    {
      hide Exec, IsHeap, Distinct, Deadlines, Matches, Knows, Holds;
      isRequestClose := true;
      Log(Event.SetClose);
    }

    /** The sentinel goes in before the thread is told to close; a second call does nothing. ShutDownNow
        goes on to wait for the thread. */
    method ShutDown()
      requires Valid() && Abs().pc != Checked
      modifies this`events, this`known, this`isRequestShutDown, this`isRequestClose, taskQueue
      ensures Valid() && isRequestShutDown
      ensures old(isRequestShutDown) ==>
                && isRequestClose == old(isRequestClose) && events == old(events) && known == old(known)
                && taskQueue.queue == old(taskQueue.queue) && taskQueue.waiting == old(taskQueue.waiting)
      ensures !old(isRequestShutDown) ==>
                && isRequestClose && !taskQueue.waiting
                && events == old(events) + [Event.ShutDown, Event.PushSentinel(|old(known)|), Event.SetClose]
                && |known| == |old(known)| + 1 && known[..|old(known)|] == old(known) && fresh(known[|old(known)|])
                && SentinelAdded(old(taskQueue.queue), taskQueue.queue)
    {
      hide Act, Exec, Valid, SentinelAdded;
      var won := RequestShutDown();
      if won {
        ghost var q := taskQueue.queue;
        var end := PushSentinel();
        OneSentinel(q, taskQueue.queue, end);
        AsyncClose();
      }
    }
  }
}
