/** What every schedule of a timer task handler keeps, for arbitrary clock readings. */
module TimerProperties {
  import opened TimerSpec

  // ---------- The invariant ----------

  function One(b: bool): nat {
    if b then 1 else 0
  }

  /** The firings of a task: each at a reading not before the deadline it was due at; the first was due
      at the deadline the task was added with, and each later one an interval after the reading before. */
  ghost predicate Chain(dues: seq<nat>, readings: seq<nat>, first: nat, interval: nat) {
    && |dues| == |readings|
    && (forall i | 0 <= i < |readings| :: dues[i] <= readings[i])
    && (readings != [] ==> dues[0] == first)
    && (forall i | 0 < i < |dues| :: dues[i] == readings[i - 1] + interval)
  }

  ghost predicate FiringsOk(k: Task) {
    && Chain(k.dues, k.readings, k.first, k.interval)
    && (k.added && k.interval > 0 ==>
          k.deadline == if k.readings == [] then k.first else k.readings[|k.readings| - 1] + k.interval)
    && (k.added && k.interval == 0 ==> k.deadline == k.first && |k.readings| <= k.removals)
  }

  /** What the timer thread has in its hands of a task. */
  datatype Hand = Away | ByDeadline | ByCancel | ToBegin | Inside

  function HandOf(pc: Pc, id: TaskId): Hand {
    if pc == InHand(id, true) then ByDeadline
    else if pc == InHand(id, false) then ByCancel
    else if pc == Cleared(id) then ToBegin
    else if pc == InBody(id) then Inside
    else Away
  }

  /** The thread has popped the task and has not started its body yet. */
  predicate BodyAhead(hand: Hand) {
    hand == ByDeadline || hand == ToBegin
  }

  /** A task that was added is in exactly one place: about to be pushed, queued, or popped for good. */
  ghost predicate PlaceOk(k: Task, pending: bool, queued: bool) {
    if k.added then One(pending) + One(queued) + k.removals == 1
    else
      && !pending && !queued
      && k == NEW_TASK.(requested := k.requested, cancelled := k.cancelled, interval := k.interval)
  }

  ghost predicate Ok(k: Task, pending: bool, queued: bool, hand: Hand) {
    && PlaceOk(k, pending, queued)
    && FiringsOk(k)
    && (k.added && !k.isEnd ==> k.deadline > 0)
    && (k.cancelled ==> k.requested)
    && (hand != Away ==> k.added)
    && (hand == ByCancel ==> k.requested)
    && (hand == ToBegin || hand == Inside ==> !k.isEnd && !k.cancelled)
    && k.bodies + One(BodyAhead(hand)) <= |k.readings|
  }

  ghost predicate TaskOk(s: Timer, id: TaskId)
    requires id in s.tasks
  {
    Ok(s.tasks[id], id in s.pending, id in s.queue, HandOf(s.pc, id))
  }

  /** Whoever sleeps, sleeps on the least deadline. */
  ghost predicate SleepOk(s: Timer) {
    && (s.pc == AsleepOnEmpty ==> s.queue == {})
    && (s.pc.AsleepUntil? ==> exists t :: IsMin(s, t) && s.tasks[t].deadline == s.pc.deadline)
    && (s.pc == Checked ==> s.queue != {})
  }

  ghost predicate Pushed(s: Timer) {
    s.stage == SentinelPushed || s.stage == CloseSet
  }

  /** The sentinel is first in the queue until it is taken, and then the thread is on its way out. */
  ghost predicate SentinelOk(s: Timer) {
    && (forall id | id in s.tasks :: s.tasks[id].isEnd <==> Pushed(s) && id == s.sentinel)
    && (Pushed(s) ==>
          && s.sentinel in s.tasks
          && (var k := s.tasks[s.sentinel];
              && !k.requested && !k.cancelled && k.interval == 0 && k.deadline == 0 && k.added
              && s.sentinel !in s.pending)
          && (s.sentinel in s.queue || s.pc == InHand(s.sentinel, true) || s.pc == Ended))
    && (Pushed(s) && s.sentinel in s.queue ==> !IsAsleep(s.pc))
  }

  // ---------- One task ----------

  lemma RemoveOk(k: Task, hand: Hand)
    requires Ok(k, false, true, Away) && (hand == Away || (hand == ByCancel && k.requested))
    ensures Ok(k.(removals := k.removals + 1), false, false, hand)
  {
  }

  lemma FireOnceOk(k: Task, now: nat)
    requires Ok(k, false, true, Away) && k.deadline <= now && k.interval == 0
    ensures Ok(Fired(k, now).(removals := k.removals + 1), false, false, ByDeadline)
  {
  }

  lemma FireAgainOk(k: Task, now: nat)
    requires Ok(k, false, true, Away) && k.deadline <= now && k.interval > 0
    ensures Ok(Fired(k, now).(deadline := now + k.interval), false, true, ByDeadline)
  {
  }

  lemma CheckOk(k: Task, pending: bool, queued: bool, hand: Hand)
    requires Ok(k, pending, queued, hand) && (hand == ByDeadline || hand == ByCancel)
    ensures k.requested ==> Ok(k.(cancelled := true), pending, queued, Away)
    ensures !k.requested && !k.isEnd ==> Ok(k, pending, queued, ToBegin)
    ensures Ok(k, pending, queued, Away)
  {
  }

  lemma BeginOk(k: Task, pending: bool, queued: bool)
    requires Ok(k, pending, queued, ToBegin)
    ensures Ok(k.(bodies := k.bodies + 1), pending, queued, Inside)
  {
  }

  lemma RequestOk(k: Task, pending: bool, queued: bool, hand: Hand)
    requires Ok(k, pending, queued, hand)
    ensures Ok(k.(requested := true), pending, queued, hand)
  {
  }

  lemma EndOk(k: Task, pending: bool, queued: bool)
    requires Ok(k, pending, queued, Inside)
    ensures Ok(k, pending, queued, Away) && (k.requested ==> Ok(k.(cancelled := true), pending, queued, Away))
  {
  }

  lemma FreshOk(requested: bool, cancelled: bool, interval: nat)
    requires cancelled ==> requested
    ensures Ok(NEW_TASK.(requested := requested, cancelled := cancelled, interval := interval), false, false, Away)
    ensures Ok(END_TIMER_TASK, false, true, Away)
  {
  }

  // ---------- All tasks ----------

  /** The thread has a task in its hands. */
  predicate Occupied(pc: Pc) {
    pc.InHand? || pc.Cleared? || pc.InBody?
  }

  ghost predicate TasksOk(s: Timer) {
    && s.queue <= s.tasks.Keys && s.pending <= s.tasks.Keys
    && (Occupied(s.pc) ==> s.pc.task in s.tasks && s.tasks[s.pc.task].added)
    && forall id | id in s.tasks :: TaskOk(s, id)
  }

  /** One task, its place and the thread's hand changed; that task is in order. */
  lemma OneTask(s: Timer, s': Timer, id: TaskId)
    requires TasksOk(s) && id in s'.tasks && TaskOk(s', id)
    requires s'.tasks == s.tasks[id := s'.tasks[id]]
    requires s'.queue - {id} == s.queue - {id} && s'.pending - {id} == s.pending - {id}
    requires forall t | t != id :: HandOf(s'.pc, t) == HandOf(s.pc, t)
    requires Occupied(s'.pc) ==> s'.pc.task in s'.tasks && s'.tasks[s'.pc.task].added
    ensures TasksOk(s')
  {
    hide Ok;
    forall t | t in s'.tasks ensures TaskOk(s', t) {
      if t != id {
        assert TaskOk(s, t);
        assert t in s.queue <==> t in s.queue - {id};
        assert t in s'.queue <==> t in s'.queue - {id};
        assert t in s.pending <==> t in s.pending - {id};
        assert t in s'.pending <==> t in s'.pending - {id};
      }
    }
    forall t | t in s'.queue ensures t in s'.tasks.Keys { assert t != id ==> t in s'.queue - {id}; }
    forall t | t in s'.pending ensures t in s'.tasks.Keys { assert t != id ==> t in s'.pending - {id}; }
  }

  /** Only the thread's place changed, and nothing comes into its hands. */
  lemma NoTask(s: Timer, s': Timer)
    requires TasksOk(s) && s'.tasks == s.tasks && s'.queue == s.queue && s'.pending == s.pending
    requires (!Occupied(s'.pc) && !Occupied(s.pc)) || s'.pc == s.pc
    ensures TasksOk(s')
  {
    hide Ok;
    forall t | t in s'.tasks ensures TaskOk(s', t) {
      assert TaskOk(s, t) && HandOf(s'.pc, t) == HandOf(s.pc, t);
    }
  }

  lemma PollKeepsTasks(s: Timer, now: nat, id: TaskId)
    requires TasksOk(s) && Enabled(s, Poll(now, id))
    ensures TasksOk(DoPoll(s, now, id))
  {
    hide Ok;
    var k := s.tasks[id];
    var s' := DoPoll(s, now, id);
    assert TaskOk(s, id);
    AddedInQueue(k, id in s.pending);
    match Decide(k.deadline, k.interval, k.cancelled, k.requested, now)
    case Drop => RemoveOk(k, Away); OneTask(s, s', id);
    case FireCancelled => RemoveOk(k, ByCancel); OneTask(s, s', id);
    case FireOnce => FireOnceOk(k, now); OneTask(s, s', id);
    case FireAgain(d) => FireAgainOk(k, now); OneTask(s, s', id);
    case Sleep(d) => NoTask(s, s');
  }

  lemma AddedInQueue(k: Task, pending: bool)
    requires Ok(k, pending, true, Away)
    ensures k.added && !pending
  {
  }

  lemma CheckKeepsTasks(s: Timer)
    requires TasksOk(s) && Enabled(s, Check)
    ensures TasksOk(Step(s, Check))
  {
    hide Ok;
    var id := s.pc.task;
    var k := s.tasks[id];
    assert TaskOk(s, id);
    CheckOk(k, id in s.pending, id in s.queue, HandOf(s.pc, id));
    assert s.tasks == s.tasks[id := k];
    OneTask(s, Step(s, Check), id);
  }

  lemma BeginKeepsTasks(s: Timer)
    requires TasksOk(s) && Enabled(s, Begin)
    ensures TasksOk(Step(s, Begin))
  {
    hide Ok;
    var id := s.pc.task;
    assert TaskOk(s, id);
    BeginOk(s.tasks[id], id in s.pending, id in s.queue);
    OneTask(s, Step(s, Begin), id);
  }

  lemma EndBodyKeepsTasks(s: Timer, checks: bool)
    requires TasksOk(s) && Enabled(s, EndBody(checks))
    ensures TasksOk(Step(s, EndBody(checks)))
  {
    hide Ok;
    var id := s.pc.task;
    assert TaskOk(s, id);
    EndOk(s.tasks[id], id in s.pending, id in s.queue);
    assert s.tasks == s.tasks[id := s.tasks[id]];
    OneTask(s, Step(s, EndBody(checks)), id);
  }

  lemma AddKeepsTasks(s: Timer, id: TaskId, deadline: nat, interval: nat)
    requires TasksOk(s) && id in s.tasks && !s.tasks[id].isEnd && deadline > 0
    ensures TasksOk(DoAdd(s, id, deadline, interval))
  {
  }

  lemma PushKeepsTasks(s: Timer, id: TaskId)
    requires TasksOk(s) && Enabled(s, Push(id))
    ensures TasksOk(Step(s, Push(id)))
  {
  }

  lemma CancelKeepsTasks(s: Timer, id: TaskId)
    requires TasksOk(s) && Enabled(s, Cancel(id))
    ensures TasksOk(Step(s, Cancel(id)))
  {
    hide Ok;
    assert TaskOk(s, id);
    RequestOk(s.tasks[id], id in s.pending, id in s.queue, HandOf(s.pc, id));
    OneTask(s, Step(s, Cancel(id)), id);
  }

  lemma FreshKeepsTasks(s: Timer, e: Event, id: TaskId)
    requires TasksOk(s) && Enabled(s, e) && ((e.Create? && e.task == id) || e == PushSentinel(id))
    ensures TasksOk(Step(s, e))
  {
    hide Ok;
    if e.Create? { FreshOk(e.requested, e.cancelled, e.interval); } else { FreshOk(false, false, 0); }
    assert id !in s.queue && id !in s.pending;
    OneTask(s, Step(s, e), id);
  }

  lemma StepKeepsTasks(s: Timer, e: Event)
    requires TasksOk(s)
    ensures TasksOk(Step(s, e))
  {
    hide TasksOk, DoAdd, DoPoll, DoCheck, DoBegin, DoEndBody, IsMin;
    if Enabled(s, e) {
      match e
      case Create(id, _, _, _) => FreshKeepsTasks(s, e, id);
      case AddCron(id, now, delay) => AddKeepsTasks(s, id, now + delay, s.tasks[id].interval);
      case AddCycle(id, now, interval, runNow) =>
        AddKeepsTasks(s, id, if runNow then now else now + interval, interval);
      case Push(id) => PushKeepsTasks(s, id);
      case Cancel(id) => CancelKeepsTasks(s, id);
      case PushSentinel(id) => FreshKeepsTasks(s, e, id);
      case Poll(now, head) => PollKeepsTasks(s, now, head);
      case Check => CheckKeepsTasks(s);
      case Begin => BeginKeepsTasks(s);
      case EndBody(checks) => EndBodyKeepsTasks(s, checks);
      case _ => NoTask(s, Act(s, e));
    }
  }

  // ---------- Sleep and sentinel ----------

  lemma SameMin(s: Timer, s': Timer)
    requires SleepOk(s) && s'.queue == s.queue && s'.pc == s.pc
    requires forall t | t in s.queue && t in s.tasks :: t in s'.tasks && s'.tasks[t].deadline == s.tasks[t].deadline
    requires s.queue <= s.tasks.Keys
    ensures SleepOk(s')
  {
  }

  lemma PollKeepsSleep(s: Timer, now: nat, id: TaskId)
    requires Enabled(s, Poll(now, id))
    ensures SleepOk(DoPoll(s, now, id))
  {
  }

  lemma AddKeepsSleep(s: Timer, id: TaskId, deadline: nat, interval: nat)
    requires TasksOk(s) && SleepOk(s) && id in s.tasks && !s.tasks[id].isEnd
    ensures SleepOk(DoAdd(s, id, deadline, interval))
  {
    assert TaskOk(s, id);
    SameMin(s, DoAdd(s, id, deadline, interval));
  }

  lemma StepKeepsSleep(s: Timer, e: Event)
    requires TasksOk(s) && SleepOk(s)
    ensures SleepOk(Step(s, e))
  {
    hide SleepOk, DoAdd, DoPoll, IsMin, Ok, TaskOk;
    if Enabled(s, e) {
      match e
      case Create(id, _, _, _) => SameMin(s, Act(s, e));
      case AddCron(id, now, delay) => AddKeepsSleep(s, id, now + delay, s.tasks[id].interval);
      case AddCycle(id, now, interval, runNow) =>
        AddKeepsSleep(s, id, if runNow then now else now + interval, interval);
      case Cancel(id) => SameMin(s, Act(s, e));
      case ShutDown => SameMin(s, Act(s, e));
      case SetClose => SameMin(s, Act(s, e));
      case Poll(now, head) => PollKeepsSleep(s, now, head);
      case _ => AwakeIsOk(Act(s, e));
    }
  }

  lemma AwakeIsOk(s: Timer)
    requires (IsAsleep(s.pc) ==> s.pc == AsleepOnEmpty && s.queue == {}) && (s.pc == Checked ==> s.queue != {})
    ensures SleepOk(s)
  {
  }

  /** With the sentinel queued, the head is the sentinel. */
  lemma HeadIsSentinel(s: Timer, id: TaskId)
    requires TasksOk(s) && SentinelOk(s) && IsMin(s, id) && Pushed(s) && s.sentinel in s.queue
    ensures id == s.sentinel
  {
  }

  lemma PollKeepsSentinel(s: Timer, now: nat, id: TaskId)
    requires TasksOk(s) && SentinelOk(s) && Enabled(s, Poll(now, id))
    ensures SentinelOk(DoPoll(s, now, id))
  {
    hide Ok, TasksOk;
    if Pushed(s) { HeadIsSentinel(s, id); }
  }

  lemma CheckKeepsSentinel(s: Timer)
    requires SentinelOk(s) && Enabled(s, Check)
    ensures SentinelOk(DoCheck(s, s.pc.task))
  {
  }

  lemma CreateKeepsSentinel(s: Timer, e: Event)
    requires SentinelOk(s) && Enabled(s, e) && e.Create?
    ensures SentinelOk(Act(s, e))
  {
  }

  lemma SentinelIsFresh(s: Timer, id: TaskId)
    requires SentinelOk(s) && Enabled(s, PushSentinel(id)) && id !in s.pending
    ensures SentinelOk(Act(s, PushSentinel(id)))
  {
  }

  lemma ThreadKeepsSentinel(s: Timer, e: Event)
    requires SentinelOk(s) && Enabled(s, e) && (e.Acquire? || e.Wake?)
    ensures SentinelOk(Act(s, e))
  {
  }

  lemma BodyKeepsSentinel(s: Timer, e: Event)
    requires SentinelOk(s) && Enabled(s, e) && (e.Begin? || e.EndBody?)
    ensures SentinelOk(Act(s, e))
  {
  }

  lemma AddKeepsSentinel(s: Timer, id: TaskId, deadline: nat, interval: nat)
    requires SentinelOk(s) && id in s.tasks && !s.tasks[id].isEnd
    ensures SentinelOk(DoAdd(s, id, deadline, interval))
  {
  }

  lemma OthersKeepSentinel(s: Timer, e: Event)
    requires SentinelOk(s) && Enabled(s, e)
    requires e.Push? || e.Cancel? || e.ShutDown? || e.SetClose?
    ensures SentinelOk(Act(s, e))
  {
    match e
    case Push(_) => {}
    case Cancel(_) => {}
    case ShutDown => {}
    case SetClose => {}
  }

  lemma StepKeepsSentinel(s: Timer, e: Event)
    requires TasksOk(s) && SentinelOk(s)
    ensures SentinelOk(Step(s, e))
  {
    hide TasksOk, SentinelOk, Enabled, Act;
    if Enabled(s, e) {
      match e
      case Poll(now, head) => PollStep(s, e); PollKeepsSentinel(s, now, head);
      case Check => CheckStep(s); CheckKeepsSentinel(s);
      case Create(_, _, _, _) => CreateKeepsSentinel(s, e);
      case PushSentinel(id) => PushSentinelStep(s, id); SentinelIsFresh(s, id);
      case AddCron(id, now, delay) =>
        AddStep(s, e);
        AddKeepsSentinel(s, id, now + delay, s.tasks[id].interval);
      case AddCycle(id, now, interval, runNow) =>
        AddStep(s, e);
        AddKeepsSentinel(s, id, if runNow then now else now + interval, interval);
      case Begin => BodyKeepsSentinel(s, e);
      case EndBody(_) => BodyKeepsSentinel(s, e);
      case Push(_) => OthersKeepSentinel(s, e);
      case Cancel(_) => OthersKeepSentinel(s, e);
      case ShutDown => OthersKeepSentinel(s, e);
      case SetClose => OthersKeepSentinel(s, e);
      case _ => ThreadKeepsSentinel(s, e);
    }
  }

  lemma PollStep(s: Timer, e: Event)
    requires e.Poll? && Enabled(s, e)
    ensures e.head in s.tasks && Act(s, e) == DoPoll(s, e.now, e.head)
  {
  }

  lemma PushSentinelStep(s: Timer, id: TaskId)
    requires TasksOk(s) && Enabled(s, PushSentinel(id))
    ensures id !in s.pending
  {
    Unknown(s, id);
  }

  lemma AddStep(s: Timer, e: Event)
    requires (e.AddCron? || e.AddCycle?) && Enabled(s, e)
    ensures e.task in s.tasks && !s.tasks[e.task].isEnd
    ensures e.AddCron? ==> Act(s, e) == DoAdd(s, e.task, e.now + e.delay, s.tasks[e.task].interval)
    ensures e.AddCycle? ==> Act(s, e) == DoAdd(s, e.task, if e.runNow then e.now else e.now + e.interval, e.interval)
  {
  }

  lemma CheckStep(s: Timer)
    requires Enabled(s, Check)
    ensures s.pc.InHand? && s.pc.task in s.tasks && Act(s, Check) == DoCheck(s, s.pc.task)
  {
  }

  lemma Unknown(s: Timer, id: TaskId)
    requires TasksOk(s) && id !in s.tasks
    ensures id !in s.queue && id !in s.pending
  {
  }

  // ---------- All schedules ----------

  ghost predicate Inv(s: Timer) {
    TasksOk(s) && SleepOk(s) && SentinelOk(s)
  }

  lemma StepKeepsInv(s: Timer, e: Event)
    requires Inv(s)
    ensures Inv(Step(s, e))
  {
    hide TasksOk, SleepOk, SentinelOk, Step;
    StepKeepsTasks(s, e);
    StepKeepsSleep(s, e);
    StepKeepsSentinel(s, e);
  }

  lemma {:induction false} ExecKeepsInv(s: Timer, es: seq<Event>)
    requires Inv(s)
    ensures Inv(Exec(s, es))
  {
    hide Inv, Step;
    if es != [] {
      ExecKeepsInv(s, es[..|es| - 1]);
      StepKeepsInv(Exec(s, es[..|es| - 1]), es[|es| - 1]);
    }
  }

  lemma {:induction false} ReachableInv(es: seq<Event>)
    ensures Inv(Exec(Initial(), es))
  {
    ExecKeepsInv(Initial(), es);
  }
}
