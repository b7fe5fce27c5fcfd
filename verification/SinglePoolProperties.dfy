/** What every schedule of the single-threaded pool keeps. */
module SinglePoolProperties {
  import opened Common
  import opened PriorityOrder
  import opened SinglePoolSpec

  /** The consumer has left its loop. */
  predicate IsOut(pc: ConsumerPc) {
    pc == Left || pc == AtSignal || pc == Gone
  }

  // ---------- Queue and consumer ----------

  ghost predicate QueueInv(p: Pool) {
    && AsHeap(p.mode, p.log) == Some(p.heap)
    && (p.pc == Asleep ==> p.heap == multiset{})
    && (p.pc.Running? ==> !p.pc.task.isEnd)
  }

  function Popped(log: seq<Entry>): multiset<Task> {
    multiset(Outs(log))
  }

  /** A user task is pending, or queued, or was popped; the sentinel comes on top of these. */
  predicate Balanced(p: Pool, t: Task) {
    && p.accepted[t] + (if t == END_PRIORITY_TASK && p.phase == Finished then 1 else 0) ==
       p.pending[t] + p.heap[t] + Popped(p.log)[t]
    && (t.isEnd ==> p.accepted[t] == 0 && p.pending[t] == 0 && (Popped(p.log)[t] > 0 ==> IsOut(p.pc)))
  }

  ghost predicate TaskInv(p: Pool) {
    forall t: Task :: Balanced(p, t)
  }

  predicate ShutDownInv(p: Pool) {
    && (p.request <==> p.phase != Idle)
    && (p.closed <==> p.phase == ToPushEnd || p.phase == Finished)
    && (p.state == SHUTDOWN <==> p.pc == AtSignal || p.pc == Gone)
    && (IsOut(p.pc) ==> p.closed)
  }

  ghost predicate CallersInv(p: Pool) {
    && (forall t | t in p.callers && p.callers[t].now && p.callers[t].pc == Returned :: p.state == SHUTDOWN)
    && (forall t | t in p.callers && p.callers[t].pc == AsleepInWait :: p.callers[t].now)
  }

  lemma PushKeepsQueueInv(p: Pool, t: Task)
    requires QueueInv(p)
    ensures QueueInv(PushTask(p, t))
  {
  }

  lemma TakeKeepsQueueInv(p: Pool, t: Task)
    requires QueueInv(p) && p.pc == AtGet && IsFirst(p.mode, p.heap, t)
    ensures QueueInv(TakeTask(p, t))
  {
  }

  lemma OtherStepKeepsQueueInv(p: Pool, e: Event)
    requires QueueInv(p) && Enabled(p, e) && !IsQueueStep(e)
    ensures QueueInv(Act(p, e))
  {
    hide AsHeap, IsFirst, Sleepers, SleepsInWait;
    match e
    case Add(_) => {}
    case Check => {}
    case Sleep => {}
    case Spurious => {}
    case EndRun => {}
    case Finish => {}
    case Signal(_) => {}
    case Call(_, _) => {}
    case Calling(_) => {}
    case CallSpurious(_) => {}
  }

  lemma StepKeepsQueueInv(p: Pool, e: Event)
    requires QueueInv(p) && Enabled(p, e)
    ensures QueueInv(Act(p, e))
  {
    hide AsHeap, IsFirst, Sleepers, PushTask, TakeTask;
    if IsQueueStep(e) {
      match e
      case Push(t) => { PushKeepsQueueInv(p.(pending := p.pending - multiset{t}), t); }
      case Get(t) => { TakeKeepsQueueInv(p, t); }
      case Winning => { PushKeepsQueueInv(p, END_PRIORITY_TASK); }
    } else {
      hide QueueInv, Act;
      OtherStepKeepsQueueInv(p, e);
    }
  }

  lemma SentinelIsQueuedLast(p: Pool, u: Task)
    requires TaskInv(p) && u.isEnd && IsFirst(p.mode, p.heap, u)
    ensures p.phase == Finished
  {
    assert Balanced(p, u);
  }

  lemma PushKeepsBalance(p: Pool, u: Task, t: Task)
    requires Balanced(p, t) && u in p.pending
    ensures Balanced(Act(p, Push(u)), t)
  {
    hide AsHeap, Outs;
    LogGrows(p.mode, p.log, In(u));
  }

  lemma PushEndKeepsBalance(p: Pool, t: Task)
    requires Balanced(p, t) && p.phase == ToPushEnd
    ensures Balanced(DoWinning(p), t)
  {
  }

  lemma TakeKeepsBalance(p: Pool, u: Task, t: Task)
    requires Balanced(p, t) && p.pc == AtGet && IsFirst(p.mode, p.heap, u)
    ensures Balanced(TakeTask(p, u), t)
  {
  }

  lemma SameBalance(p: Pool, q: Pool, t: Task)
    requires Balanced(p, t)
    requires q.accepted == p.accepted && q.pending == p.pending && q.heap == p.heap && q.log == p.log
    requires (q.phase == Finished <==> p.phase == Finished) && (IsOut(p.pc) ==> IsOut(q.pc))
    ensures Balanced(q, t)
  {
  }

  lemma AddKeepsBalance(p: Pool, u: Task, t: Task)
    requires Balanced(p, t) && !u.isEnd
    ensures Balanced(Act(p, Add(u)), t)
  {
    hide Popped;
  }

  /** What every other step leaves alone. */
  lemma OthersLeaveTasks(p: Pool, e: Event)
    requires Enabled(p, e) && !IsQueueStep(e) && !e.Add? && ShutDownInv(p)
    ensures var q := Act(p, e);
            && q.accepted == p.accepted && q.pending == p.pending && q.heap == p.heap && q.log == p.log
            && (q.phase == Finished <==> p.phase == Finished) && (IsOut(p.pc) ==> IsOut(q.pc))
  {
    hide IsFirst, Sleepers, SleepsInWait;
    match e
    case Check => {}
    case Sleep => {}
    case Spurious => {}
    case EndRun => {}
    case Finish => {}
    case Signal(_) => {}
    case Call(_, _) => {}
    case Calling(_) => {}
    case CallSpurious(_) => {}
  }

  lemma WinningKeepsBalance(p: Pool, t: Task)
    requires Balanced(p, t) && p.phase != Idle && p.phase != Finished
    ensures Balanced(DoWinning(p), t)
  {
    if p.phase == ToPushEnd {
      PushEndKeepsBalance(p, t);
    } else {
      hide Balanced;
      SameBalance(p, DoWinning(p), t);
    }
  }

  lemma StepKeepsBalance(p: Pool, e: Event, t: Task)
    requires Balanced(p, t) && Enabled(p, e) && ShutDownInv(p)
    ensures Balanced(Act(p, e), t)
  {
    hide Balanced, PushTask, TakeTask, DoWinning, IsFirst, ShutDownInv;
    if IsQueueStep(e) || e.Add? {
      match e
      case Push(u) => { PushKeepsBalance(p, u, t); }
      case Get(u) => { TakeKeepsBalance(p, u, t); }
      case Winning => { WinningKeepsBalance(p, t); }
      case Add(u) => { AddKeepsBalance(p, u, t); }
    } else {
      OthersLeaveTasks(p, e);
      hide Act, Enabled;
      SameBalance(p, Act(p, e), t);
    }
  }

  /** What a push or a pop leaves alone. */
  lemma Frame(p: Pool, t: Task)
    ensures var q := PushTask(p, t);
            && q == p.(heap := q.heap, log := p.log + [In(t)], pc := q.pc)
            && (q.pc == p.pc || (p.pc == Asleep && q.pc == AtGet))
    ensures var q := TakeTask(p, t);
            q == p.(heap := q.heap, log := p.log + [Out(t)], pc := if t.isEnd then Left else Running(t))
  {
  }

  lemma PushKeepsShutDownInv(p: Pool, t: Task)
    requires ShutDownInv(p)
    ensures ShutDownInv(PushTask(p, t)) && PushTask(p, t).phase == p.phase
  {
  }

  lemma TakeKeepsShutDownInv(p: Pool, t: Task)
    requires ShutDownInv(p) && p.pc == AtGet && (t.isEnd ==> p.phase == Finished)
    ensures ShutDownInv(TakeTask(p, t))
  {
  }

  lemma StepKeepsShutDownInv(p: Pool, e: Event)
    requires ShutDownInv(p) && TaskInv(p) && Enabled(p, e)
    ensures ShutDownInv(Act(p, e))
  {
    hide IsFirst, Sleepers, SleepsInWait, CanCall, TaskInv, PushTask, TakeTask;
    match e
    case Push(t) => { PushKeepsShutDownInv(p.(pending := p.pending - multiset{t}), t); }
    case Get(t) => { if t.isEnd { SentinelIsQueuedLast(p, t); } TakeKeepsShutDownInv(p, t); }
    case Winning => { PushKeepsShutDownInv(p, END_PRIORITY_TASK); }
    case Add(_) => {}
    case Check => {}
    case Sleep => {}
    case Spurious => {}
    case EndRun => {}
    case Finish => {}
    case Signal(_) => {}
    case Call(_, _) => {}
    case Calling(_) => {}
    case CallSpurious(_) => {}
  }

  predicate IsCallerStep(e: Event) {
    e.Signal? || e.Call? || e.Calling? || e.CallSpurious?
  }

  predicate IsQueueStep(e: Event) {
    e.Push? || e.Get? || e.Winning?
  }

  lemma OthersLeaveCallers(p: Pool, e: Event)
    requires Enabled(p, e) && !IsCallerStep(e)
    ensures Act(p, e).callers == p.callers
  {
    hide IsFirst, Sleepers, PushTask, TakeTask;
    match e
    case Push(u) => { Frame(p.(pending := p.pending - multiset{u}), u); }
    case Get(u) => { Frame(p, u); }
    case Winning => { Frame(p, END_PRIORITY_TASK); }
    case Add(_) => {}
    case Check => {}
    case Sleep => {}
    case Spurious => {}
    case EndRun => {}
    case Finish => {}
  }

  lemma OthersLeaveQueue(p: Pool, e: Event)
    requires Enabled(p, e) && !IsQueueStep(e)
    ensures var q := Act(p, e); q.log == p.log && q.heap == p.heap && q.closed == p.closed
  {
  }

  /** The states follow one another in one direction. */
  lemma ShutDownStays(p: Pool, e: Event)
    requires ShutDownInv(p) && Enabled(p, e) && p.state == SHUTDOWN
    ensures Act(p, e).state == SHUTDOWN
  {
  }

  /** A caller whose place changes keeps the invariant if it sleeps only in ShutDownNow and returns from
      that only in SHUTDOWN. */
  lemma OneCallerMoves(p: Pool, q: Pool, t: Thread, c: Caller)
    requires CallersInv(p) && q.callers == p.callers[t := c] && q.state == p.state
    requires c.pc == Returned && c.now ==> p.state == SHUTDOWN
    requires c.pc == AsleepInWait ==> c.now
    ensures CallersInv(q)
  {
  }

  lemma CallerStepKeepsCallersInv(p: Pool, e: Event)
    requires CallersInv(p) && Enabled(p, e) && IsCallerStep(e)
    ensures CallersInv(Act(p, e))
  {
    hide Sleepers, IsFirst, CallersInv, PushTask, TakeTask, DoWinning;
    var q := Act(p, e);
    match e
    case Signal(t) => {
      if p.request && SleepsInWait(p, t) { OneCallerMoves(p, q, t, q.callers[t]); } else { SameCallers(p, q); }
    }
    case Call(t, _) => { OneCallerMoves(p, q, t, q.callers[t]); }
    case Calling(t) => { OneCallerMoves(p, q, t, q.callers[t]); }
    case CallSpurious(t) => { OneCallerMoves(p, q, t, q.callers[t]); }
  }

  lemma SameCallers(p: Pool, q: Pool)
    requires CallersInv(p) && q.callers == p.callers && q.state == p.state
    ensures CallersInv(q)
  {
  }

  lemma StepKeepsCallersInv(p: Pool, e: Event)
    requires CallersInv(p) && ShutDownInv(p) && Enabled(p, e)
    ensures CallersInv(Act(p, e))
  {
    hide Enabled, Act, ShutDownInv;
    if IsCallerStep(e) {
      CallerStepKeepsCallersInv(p, e);
    } else {
      OthersLeaveCallers(p, e);
      if p.state == SHUTDOWN { ShutDownStays(p, e); }
    }
  }

  ghost predicate Inv(p: Pool) {
    QueueInv(p) && TaskInv(p) && ShutDownInv(p) && CallersInv(p)
  }

  lemma StepKeepsInv(p: Pool, e: Event)
    requires Inv(p)
    ensures Inv(Step(p, e))
  {
    hide QueueInv, ShutDownInv, CallersInv, Balanced, Enabled, Act;
    if Enabled(p, e) {
      StepKeepsQueueInv(p, e);
      StepKeepsShutDownInv(p, e);
      StepKeepsCallersInv(p, e);
      forall t: Task ensures Balanced(Act(p, e), t) {
        StepKeepsBalance(p, e, t);
      }
    }
  }

  lemma {:induction false} ReachableInv(mode: RunMode, es: seq<Event>)
    ensures Inv(Exec(Initial(mode), es))
  {
    if es != [] {
      ReachableInv(mode, es[..|es| - 1]);
      StepKeepsInv(Exec(Initial(mode), es[..|es| - 1]), es[|es| - 1]);
    }
  }

  // ---------- Order and conservation ----------

  /** Every pop takes a first task of what is queued. With increasing stamps the pool is a plain queue in
      the modes FIFO and PRIORITY, and a stack in mode LIFO. */
  lemma {:induction false} QueueOrStack(mode: RunMode, es: seq<Event>)
    ensures var p := Exec(Initial(mode), es);
            && AsHeap(mode, p.log) == Some(p.heap)
            && (IncreasingStamps(Ins(p.log)) ==>
                  var model := if mode == LIFO then AsStack(p.log) else AsQueue(p.log);
                  model.Some? && multiset(model.value) == p.heap)
  {
    ReachableInv(mode, es);
    ModeIsFixed(mode, es);
    var p := Exec(Initial(mode), es);
    if IncreasingStamps(Ins(p.log)) {
      if mode == LIFO { HeapIsStack(p.log); } else { HeapIsQueue(mode, p.log); }
    }
  }

  lemma {:induction false} ModeIsFixed(mode: RunMode, es: seq<Event>)
    ensures Exec(Initial(mode), es).mode == mode
  {
    if es != [] {
      ModeIsFixed(mode, es[..|es| - 1]);
    }
  }

  /** The tasks that the schedule adds and the pool does not refuse. */
  function Admitted(mode: RunMode, es: seq<Event>): multiset<Task> {
    if es == [] then multiset{}
    else
      var e := es[|es| - 1];
      Admitted(mode, es[..|es| - 1])
      + if e.Add? && !e.task.isEnd && !Exec(Initial(mode), es[..|es| - 1]).request then multiset{e.task} else multiset{}
  }

  lemma StepAccepts(p: Pool, e: Event)
    ensures Step(p, e).accepted ==
            p.accepted + if e.Add? && !e.task.isEnd && !p.request then multiset{e.task} else multiset{}
  {
    hide IsFirst, Sleepers, SleepsInWait, PushTask, TakeTask;
    if Enabled(p, e) {
      match e
      case Push(u) => { Frame(p.(pending := p.pending - multiset{u}), u); }
      case Get(u) => { Frame(p, u); }
      case Winning => { Frame(p, END_PRIORITY_TASK); }
      case _ => {}
    }
  }

  lemma {:induction false} AdmittedIsAccepted(mode: RunMode, es: seq<Event>)
    ensures Exec(Initial(mode), es).accepted == Admitted(mode, es)
  {
    hide Step;
    if es != [] {
      AdmittedIsAccepted(mode, es[..|es| - 1]);
      StepAccepts(Exec(Initial(mode), es[..|es| - 1]), es[|es| - 1]);
    }
  }

  lemma {:induction false} AcceptedAreSomewhere(mode: RunMode, es: seq<Event>)
    ensures var p := Exec(Initial(mode), es);
            p.accepted + (if p.phase == Finished then multiset{END_PRIORITY_TASK} else multiset{}) ==
            p.pending + p.heap + Popped(p.log)
  {
    ReachableInv(mode, es);
    var p := Exec(Initial(mode), es);
    forall t: Task
      ensures (p.accepted + (if p.phase == Finished then multiset{END_PRIORITY_TASK} else multiset{}))[t] ==
              (p.pending + p.heap + Popped(p.log))[t]
    {
      assert Balanced(p, t);
    }
  }

  /** No task is lost or handed out twice: what the schedule adds before a shutdown is requested is on its
      way into the queue, in it, or was popped, and the sentinel is the only task besides. */
  lemma {:induction false} TasksAreConserved(mode: RunMode, es: seq<Event>)
    ensures var p := Exec(Initial(mode), es);
            Admitted(mode, es) + (if p.phase == Finished then multiset{END_PRIORITY_TASK} else multiset{}) ==
            p.pending + p.heap + Popped(p.log)
  {
    AcceptedAreSomewhere(mode, es);
    AdmittedIsAccepted(mode, es);
  }

  // ---------- After the close flag ----------

  /** Pops that the consumer may still make without meeting the check again. */
  function MayPop(pc: ConsumerPc): nat {
    if pc == AtGet || pc == Asleep then 1 else 0
  }

  lemma StepPopsWithinBound(p: Pool, e: Event)
    requires p.closed
    ensures var q := Step(p, e);
            && q.closed && (IsOut(p.pc) ==> IsOut(q.pc))
            && |Outs(q.log)| + MayPop(q.pc) <= |Outs(p.log)| + MayPop(p.pc)
            && Outs(p.log) <= Outs(q.log)
  {
    if Enabled(p, e) {
      hide Act, Enabled, Outs;
      if IsQueueStep(e) {
        QueueStepPops(p, e);
      } else {
        OthersLeaveQueue(p, e);
        OthersNeverPop(p, e);
      }
    }
  }

  lemma PushPops(p: Pool, t: Task)
    requires p.closed && t in p.pending
    ensures var q := Act(p, Push(t));
            q.closed && (q.pc == p.pc || (p.pc == Asleep && q.pc == AtGet)) && Outs(q.log) == Outs(p.log)
  {
    hide PushTask, Outs;
    Frame(p.(pending := p.pending - multiset{t}), t);
    LogGrows(p.mode, p.log, In(t));
  }

  lemma GetPops(p: Pool, t: Task)
    requires p.closed && Enabled(p, Get(t))
    ensures var q := Act(p, Get(t));
            && q.closed && p.pc == AtGet && q.pc == (if t.isEnd then Left else Running(t))
            && Outs(q.log) == Outs(p.log) + [t]
  {
    hide TakeTask, Outs, IsFirst;
    Frame(p, t);
    LogGrows(p.mode, p.log, Out(t));
  }

  lemma WinningPops(p: Pool)
    requires p.closed && Enabled(p, Winning)
    ensures var q := Act(p, Winning);
            q.closed && (q.pc == p.pc || (p.pc == Asleep && q.pc == AtGet)) && Outs(q.log) == Outs(p.log)
  {
    hide PushTask, Outs;
    if p.phase == ToPushEnd {
      Frame(p, END_PRIORITY_TASK);
      LogGrows(p.mode, p.log, In(END_PRIORITY_TASK));
    }
  }

  lemma QueueStepPops(p: Pool, e: Event)
    requires p.closed && Enabled(p, e) && IsQueueStep(e)
    ensures var q := Act(p, e);
            && q.closed && (IsOut(p.pc) ==> IsOut(q.pc))
            && |Outs(q.log)| + MayPop(q.pc) <= |Outs(p.log)| + MayPop(p.pc)
            && Outs(p.log) <= Outs(q.log)
  {
    PushIsEnabled(p, e);
    hide Act, Enabled, Outs;
    match e
    case Push(t) => { PushPops(p, t); }
    case Get(t) => { GetPops(p, t); }
    case Winning => { WinningPops(p); }
  }

  lemma PushIsEnabled(p: Pool, e: Event)
    requires Enabled(p, e)
    ensures e.Push? ==> e.task in p.pending
  {
  }

  lemma OthersNeverPop(p: Pool, e: Event)
    requires p.closed && Enabled(p, e) && !IsQueueStep(e)
    ensures var q := Act(p, e); (IsOut(p.pc) ==> IsOut(q.pc)) && MayPop(q.pc) <= MayPop(p.pc)
  {
  }

  /** Once the close flag is set at most one more task is popped, and none if the consumer is not inside
      GetTask: in any continuation of any run. Once out of its loop the consumer stays out. */
  lemma {:induction false} AtMostOneMorePop(p: Pool, es: seq<Event>)
    requires p.closed
    ensures var q := Exec(p, es);
            && q.closed && (IsOut(p.pc) ==> IsOut(q.pc))
            && |Outs(q.log)| + MayPop(q.pc) <= |Outs(p.log)| + MayPop(p.pc)
            && Outs(p.log) <= Outs(q.log)
  {
    hide Step;
    if es != [] {
      AtMostOneMorePop(p, es[..|es| - 1]);
      StepPopsWithinBound(Exec(p, es[..|es| - 1]), es[|es| - 1]);
    }
  }

  /** A step after the close flag pops what it was given to pop, if anything. */
  lemma StepPops(p: Pool, e: Event)
    requires p.closed
    ensures Outs(Step(p, e).log) == Outs(p.log) + if Enabled(p, e) && e.Get? then [e.task] else []
  {
    if Enabled(p, e) {
      PushIsEnabled(p, e);
      hide Act, Enabled, Outs;
      if IsQueueStep(e) {
        match e
        case Push(t) => { PushPops(p, t); }
        case Get(t) => { GetPops(p, t); }
        case Winning => { WinningPops(p); }
      } else {
        OthersLeaveQueue(p, e);
      }
    }
  }

  ghost predicate PositivePriorities(p: Pool) {
    forall t | t in p.accepted :: t.priority > 0
  }

  /** Smallest priority first: the sentinel, whose priority is 0, is before every task with a positive one. */
  lemma SentinelIsFirst(p: Pool, t: Task)
    requires Inv(p) && p.phase == Finished && p.mode != LIFO && PositivePriorities(p) && Enabled(p, Get(t))
    ensures t == END_PRIORITY_TASK
  {
    SentinelIsThere(p);
    assert Balanced(p, t);
  }

  lemma NothingIsAccepted(p: Pool, e: Event)
    requires ShutDownInv(p) && p.phase == Finished
    ensures Step(p, e).accepted == p.accepted && Step(p, e).phase == Finished && Step(p, e).mode == p.mode
  {
    hide IsFirst, Sleepers, PushTask, TakeTask;
    if Enabled(p, e) {
      match e
      case Push(u) => { Frame(p.(pending := p.pending - multiset{u}), u); }
      case Get(u) => { Frame(p, u); }
      case _ => {}
    }
  }

  /** In the modes that put the smallest priority first, with positive priorities no user task is popped
      after the sentinel's push, in any continuation: all that can still come out is the sentinel. */
  lemma {:induction false} SentinelOvertakesAll(mode: RunMode, es: seq<Event>, fs: seq<Event>)
    requires mode != LIFO && Exec(Initial(mode), es).phase == Finished && PositivePriorities(Exec(Initial(mode), es))
    ensures var p := Exec(Initial(mode), es);
            Outs(Exec(p, fs).log) in {Outs(p.log), Outs(p.log) + [END_PRIORITY_TASK]}
  {
    ReachableInv(mode, es);
    ModeIsFixed(mode, es);
    FinishedIsClosed(Exec(Initial(mode), es));
    OnlyTheSentinel(Exec(Initial(mode), es), fs);
  }

  lemma {:induction false} OnlyTheSentinel(p: Pool, fs: seq<Event>)
    requires Inv(p) && p.phase == Finished && p.closed && p.mode != LIFO && PositivePriorities(p)
    ensures var q := Exec(p, fs);
            && Inv(q) && q.phase == Finished && q.closed && q.mode != LIFO && PositivePriorities(q)
            && Outs(q.log) in {Outs(p.log), Outs(p.log) + [END_PRIORITY_TASK]}
  {
    hide Step, Inv, Outs;
    if fs != [] {
      var q, e := Exec(p, fs[..|fs| - 1]), fs[|fs| - 1];
      OnlyTheSentinel(p, fs[..|fs| - 1]);
      StepKeepsInv(q, e);
      InvShutDown(q);
      NothingIsAccepted(q, e);
      StepPops(q, e);
      AtMostOneMorePop(p, fs);
      assert Outs(q.log) + [] == Outs(q.log);
      if e.Get? && Enabled(q, e) { SentinelIsFirst(q, e.task); }
    }
  }

  lemma InvShutDown(p: Pool)
    requires Inv(p)
    ensures ShutDownInv(p)
  {
  }

  /** When ShutDownNow returns the consumer has left its loop; whatever is scheduled afterwards, no further
      task is popped and none is running. */
  lemma {:induction false} ShutDownNowIsFinal(mode: RunMode, es: seq<Event>, t: Thread, more: seq<Event>)
    requires var p := Exec(Initial(mode), es);
             t in p.callers && p.callers[t].now && p.callers[t].pc == Returned
    ensures var p := Exec(Initial(mode), es);
            var q := Exec(p, more);
            p.state == SHUTDOWN && IsOut(q.pc) && Outs(q.log) == Outs(p.log)
  {
    ReachableInv(mode, es);
    AtMostOneMorePop(Exec(Initial(mode), es), more);
  }

  // ---------- The consumer never oversleeps and gets to its end ----------

  lemma {:induction false} SomeTaskIsFirst(mode: RunMode, heap: multiset<Task>) returns (first: Task)
    requires heap != multiset{}
    ensures IsFirst(mode, heap, first)
    decreases |heap|
  {
    var t :| t in heap;
    if heap == multiset{t} {
      first := t;
    } else {
      var rest := heap - multiset{t};
      assert heap == rest + multiset{t};
      first := SomeTaskIsFirst(mode, rest);
      if Rank(mode, t) < Rank(mode, first) {
        first := t;
      }
    }
  }

  /** The consumer sleeps only on an empty queue, and not at all once the sentinel has been pushed. */
  lemma {:induction false} ConsumerNeverOversleeps(mode: RunMode, es: seq<Event>)
    ensures var p := Exec(Initial(mode), es);
            p.pc == Asleep ==> p.heap == multiset{} && p.phase != Finished
  {
    ReachableInv(mode, es);
    var p := Exec(Initial(mode), es);
    assert Balanced(p, END_PRIORITY_TASK);
  }

  function StepsToGone(pc: ConsumerPc): nat {
    match pc
    case Asleep => 6
    case AtGet => 5
    case Running(_) => 4
    case AtCheck => 3
    case Left => 2
    case AtSignal => 1
    case Gone => 0
  }

  predicate IsConsumerStep(e: Event) {
    e.Check? || e.Get? || e.EndRun? || e.Finish? || e.Signal?
  }

  /** After the sentinel's push the consumer can always make a step of its own until it is gone, each such
      step brings it nearer to its end, and no other thread's step takes it further away. */
  lemma {:induction false} ConsumerReachesItsEnd(mode: RunMode, es: seq<Event>)
    requires Exec(Initial(mode), es).phase == Finished
    ensures var p := Exec(Initial(mode), es);
            && (p.pc != Gone ==> exists e :: IsConsumerStep(e) && Enabled(p, e))
            && (forall e | Enabled(p, e) && IsConsumerStep(e) :: StepsToGone(Act(p, e).pc) < StepsToGone(p.pc))
            && (forall e | Enabled(p, e) :: StepsToGone(Act(p, e).pc) <= StepsToGone(p.pc))
  {
    ReachableInv(mode, es);
    ConsumerNeverOversleeps(mode, es);
    var p := Exec(Initial(mode), es);
    if p.pc != Gone {
      var e := NextConsumerStep(p);
    }
    forall e | Enabled(p, e)
      ensures StepsToGone(Act(p, e).pc) <= StepsToGone(p.pc)
      ensures IsConsumerStep(e) ==> StepsToGone(Act(p, e).pc) < StepsToGone(p.pc)
    {
      StepComesNearer(p, e);
    }
  }

  lemma SentinelIsThere(p: Pool)
    requires Inv(p) && p.phase == Finished && !IsOut(p.pc)
    ensures END_PRIORITY_TASK in p.heap
  {
    assert Balanced(p, END_PRIORITY_TASK);
  }

  lemma FinishedIsClosed(p: Pool)
    requires Inv(p) && p.phase == Finished
    ensures p.closed
  {
  }

  lemma NextConsumerStep(p: Pool) returns (e: Event)
    requires Inv(p) && p.phase == Finished && p.pc != Gone && p.pc != Asleep
    ensures IsConsumerStep(e) && Enabled(p, e)
  {
    match p.pc
    case AtCheck => { e := Check; }
    case AtGet => {
      SentinelIsThere(p);
      var t := SomeTaskIsFirst(p.mode, p.heap);
      e := Get(t);
    }
    case Running(_) => { e := EndRun; }
    case Left => { e := Finish; }
    case AtSignal => {
      var t: Thread :| Sleepers(p) == {} || t in Sleepers(p);
      e := Signal(t);
    }
  }

  lemma QueueStepNearer(p: Pool, e: Event)
    requires p.closed && p.pc != Asleep && Enabled(p, e) && IsQueueStep(e)
    ensures StepsToGone(Act(p, e).pc) <= StepsToGone(p.pc)
    ensures IsConsumerStep(e) ==> StepsToGone(Act(p, e).pc) < StepsToGone(p.pc)
  {
    PushIsEnabled(p, e);
    hide Outs, Act, Enabled;
    match e
    case Push(t) => { PushPops(p, t); }
    case Get(t) => { GetPops(p, t); }
    case Winning => { WinningPops(p); }
  }

  lemma CallerStepLeavesConsumer(p: Pool, e: Event)
    requires Enabled(p, e) && IsCallerStep(e) && !e.Signal?
    ensures Act(p, e).pc == p.pc
  {
    hide Sleepers, IsFirst;
    match e
    case Call(t, now) => {}
    case Calling(t) => { CallingMovesTheCaller(p, t); }
    case CallSpurious(t) => { SetCallerFrame(p, t, AtWait); }
  }

  lemma StepComesNearer(p: Pool, e: Event)
    requires Inv(p) && p.phase == Finished && p.pc != Asleep && Enabled(p, e)
    ensures StepsToGone(Act(p, e).pc) <= StepsToGone(p.pc)
    ensures IsConsumerStep(e) ==> StepsToGone(Act(p, e).pc) < StepsToGone(p.pc)
  {
    FinishedIsClosed(p);
    if IsQueueStep(e) {
      hide Inv, Act, Enabled;
      QueueStepNearer(p, e);
    } else if IsCallerStep(e) && !e.Signal? {
      CallerStepLeavesConsumer(p, e);
    } else {
      if e.Sleep? { SentinelIsThere(p); }
      hide Inv;
      ConsumerStepNearer(p, e);
    }
  }

  lemma ConsumerStepNearer(p: Pool, e: Event)
    requires Enabled(p, e) && p.closed && p.pc != Asleep
    requires !IsQueueStep(e) && (IsCallerStep(e) ==> e.Signal?) && !e.Sleep?
    ensures StepsToGone(Act(p, e).pc) <= StepsToGone(p.pc)
    ensures IsConsumerStep(e) ==> StepsToGone(Act(p, e).pc) < StepsToGone(p.pc)
  {
    hide IsFirst, Sleepers, SleepsInWait, SetCaller;
    match e
    case Add(_) => {}
    case Check => {}
    case Spurious => {}
    case EndRun => {}
    case Finish => {}
    case Signal(t) => { SignalEnds(p, t); }
  }

  lemma SignalEnds(p: Pool, t: Thread)
    ensures DoSignal(p, t).pc == Gone
  {
  }

  lemma SetCallerFrame(p: Pool, t: Thread, pc: CallerPc)
    requires t in p.callers
    ensures SetCaller(p, t, pc).pc == p.pc
  {
  }

  lemma CallingMovesTheCaller(p: Pool, t: Thread)
    requires t in p.callers
    ensures DoCalling(p, t).pc == p.pc
  {
  }

  // ---------- One signal for all who wait ----------

  /** The consumer signals once. Its signal lets everybody out who sleeps in ShutDownNow exactly if no
      more than one thread does. */
  lemma {:induction false} SignalReleasesAllIffOne(mode: RunMode, es: seq<Event>, t: Thread)
    requires Enabled(Exec(Initial(mode), es), Signal(t))
    ensures var p := Exec(Initial(mode), es);
            Sleepers(Step(p, Signal(t))) == {} <==> |Sleepers(p)| <= 1
  {
    ReachableInv(mode, es);
    var p := Exec(Initial(mode), es);
    SignalWakes(p, t);
    if t in Sleepers(p) {
      assert Sleepers(p) == Sleepers(p) - {t} + {t};
    }
  }

  lemma SignalWakes(p: Pool, t: Thread)
    requires Inv(p) && Enabled(p, Signal(t))
    ensures Sleepers(Step(p, Signal(t))) == Sleepers(p) - {t}
  {
    hide QueueInv, TaskInv, CallersInv;
  }

  /** A thread that this signal passed over stays asleep for good, save for a spurious wake-up. */
  lemma {:induction false} NoSecondSignal(p: Pool, es: seq<Event>, t: Thread)
    requires p.pc == Gone && SleepsInWait(p, t) && CallSpurious(t) !in es
    ensures var q := Exec(p, es); q.pc == Gone && SleepsInWait(q, t)
  {
    hide Step;
    if es != [] {
      var before, e := es[..|es| - 1], es[|es| - 1];
      assert e in es && forall x | x in before :: x in es;
      NoSecondSignal(p, before, t);
      SleeperStays(Exec(p, before), e, t);
    }
  }

  lemma SleeperStays(p: Pool, e: Event, t: Thread)
    requires p.pc == Gone && SleepsInWait(p, t) && e != CallSpurious(t)
    ensures var q := Step(p, e); q.pc == Gone && SleepsInWait(q, t)
  {
    hide IsFirst, Sleepers, PushTask, TakeTask;
    if Enabled(p, e) {
      match e
      case Push(u) => { Frame(p.(pending := p.pending - multiset{u}), u); }
      case Winning => { Frame(p, END_PRIORITY_TASK); }
      case _ => {}
    }
  }

  /** The threads that ever called ShutDownNow. */
  function NowCallers(p: Pool): set<Thread> {
    set t | t in p.callers && p.callers[t].now
  }

  /** So a single caller of ShutDownNow is always let out. */
  lemma {:induction false} OneCallerIsLetOut(mode: RunMode, es: seq<Event>)
    requires |NowCallers(Exec(Initial(mode), es))| <= 1
    ensures var p := Exec(Initial(mode), es); p.pc == Gone ==> Sleepers(p) == {}
  {
    if es != [] {
      var before := es[..|es| - 1];
      var p := Exec(Initial(mode), before);
      ReachableInv(mode, before);
      CallersOnlyGrow(p, es[|es| - 1]);
      OneCallerIsLetOut(mode, before);
      SleeperStep(p, es[|es| - 1]);
    }
  }

  lemma CallersOnlyGrow(p: Pool, e: Event)
    ensures NowCallers(p) <= NowCallers(Step(p, e)) && |NowCallers(p)| <= |NowCallers(Step(p, e))|
  {
    NowCallersStay(p, e);
    var a, b := NowCallers(p), NowCallers(Step(p, e));
    assert b == a + (b - a);
  }

  lemma NowCallersStay(p: Pool, e: Event)
    ensures NowCallers(p) <= NowCallers(Step(p, e))
  {
  }

  lemma SleeperStep(p: Pool, e: Event)
    requires Inv(p) && |NowCallers(p)| <= 1 && (p.pc == Gone ==> Sleepers(p) == {})
    ensures var q := Step(p, e); q.pc == Gone ==> Sleepers(q) == {}
  {
    var q := Step(p, e);
    if q.pc == Gone && Sleepers(q) != {} {
      var u :| u in Sleepers(q);
      NewSleeper(p, e, u);
    }
  }

  /** Of two sleepers the signal leaves one asleep; there is no other way to sleep on a finished pool. */
  lemma NewSleeper(p: Pool, e: Event, u: Thread)
    requires Inv(p) && Step(p, e).pc == Gone && SleepsInWait(Step(p, e), u)
    requires p.pc == Gone ==> Sleepers(p) == {}
    ensures |NowCallers(p)| > 1
  {
    hide IsFirst, PushTask, TakeTask, QueueInv, TaskInv;
    assert SleepsInWait(p, u) ==> u in Sleepers(p);
    match e
    case Push(u) => { Frame(p.(pending := p.pending - multiset{u}), u); }
    case Get(u) => { Frame(p, u); }
    case Winning => { Frame(p, END_PRIORITY_TASK); }
    case Add(_) => {}
    case Check => {}
    case Sleep => {}
    case Spurious => {}
    case EndRun => {}
    case Finish => {}
    case Signal(t) => {
      var two := {t, u};
      assert NowCallers(p) == two + (NowCallers(p) - two);
    }
    case Call(_, _) => {}
    case Calling(_) => {}
    case CallSpurious(_) => {}
  }

  lemma Extend(mode: RunMode, es: seq<Event>, p: Pool, e: Event) returns (longer: seq<Event>, q: Pool)
    requires Exec(Initial(mode), es) == p && Enabled(p, e)
    ensures Exec(Initial(mode), longer) == q == Act(p, e)
  {
    longer, q := es + [e], Act(p, e);
    assert longer[..|longer| - 1] == es;
  }

  /** Both callers are past the winner's work and sleep; the consumer has not moved. */
  lemma {:induction false} TwoAsleep(mode: RunMode) returns (es: seq<Event>, p: Pool)
    ensures Exec(Initial(mode), es) == p && p.pc == AtCheck && p.closed && p.request && p.state == STOP
    ensures p.callers == map[1 := Caller(AsleepInWait, true), 2 := Caller(AsleepInWait, true)]
  {
    hide Exec, PushTask, IsFirst, Sleepers;
    p := Initial(mode);
    es, p := Extend(mode, [], p, Call(1, true)) by { EmptyRun(mode); }
    es, p := Extend(mode, es, p, Call(2, true));
    es, p := WinnerDone(mode, es, p);
    es, p := Extend(mode, es, p, Calling(1));
    es, p := Extend(mode, es, p, Calling(1));
    es, p := Extend(mode, es, p, Calling(2));
  }

  lemma WinnerDone(mode: RunMode, es0: seq<Event>, p0: Pool) returns (es: seq<Event>, p: Pool)
    requires Exec(Initial(mode), es0) == p0 && p0.phase == ToSetStop && p0.pc == AtCheck
    ensures Exec(Initial(mode), es) == p && p.phase == Finished && p.closed && p.state == STOP
    ensures p.pc == AtCheck && p.request == p0.request && p.callers == p0.callers
  {
    hide Exec, PushTask, IsFirst, Sleepers;
    es, p := Extend(mode, es0, p0, Winning);
    es, p := Extend(mode, es, p, Winning);
    Frame(p, END_PRIORITY_TASK);
    es, p := Extend(mode, es, p, Winning);
  }

  lemma EmptyRun(mode: RunMode)
    ensures Exec(Initial(mode), []) == Initial(mode)
  {
  }

  /** Two callers of ShutDownNow can hang: both fall asleep before the one signal comes, and the second
      sleeps on whatever is scheduled from then on. */
  lemma {:induction false} TwoCallersHang(mode: RunMode) returns (es: seq<Event>)
    ensures var p := Exec(Initial(mode), es);
            && p.pc == Gone && p.state == SHUTDOWN && p.callers.Keys == {1, 2} && p.callers[1].pc == Returned
            && forall more | CallSpurious(2) !in more :: SleepsInWait(Exec(p, more), 2)
  {
    hide Exec, PushTask, IsFirst, Sleepers;
    var p;
    es, p := TwoAsleep(mode);
    es, p := Extend(mode, es, p, Check);
    es, p := Extend(mode, es, p, Finish);
    es, p := Extend(mode, es, p, Signal(1));
    es, p := Extend(mode, es, p, Calling(1));
    forall more | CallSpurious(2) !in more ensures SleepsInWait(Exec(p, more), 2) {
      NoSecondSignal(p, more, 2);
    }
  }
  /** Of at most k callers of ShutDownNow none is left asleep once the thread is gone. */
  ghost predicate LetsOut(mode: RunMode, k: nat) {
    forall es | |NowCallers(Exec(Initial(mode), es))| <= k ::
      Exec(Initial(mode), es).pc == Gone ==> Sleepers(Exec(Initial(mode), es)) == {}
  }

  /** In every run, then: one signal is enough for at most k callers if and only if k <= 1. */
  lemma {:induction false} OneSignalIsEnoughIff(mode: RunMode, k: nat)
    ensures LetsOut(mode, k) <==> k <= 1
  {
    hide Exec;
    if k <= 1 {
      forall es | |NowCallers(Exec(Initial(mode), es))| <= k
        ensures Exec(Initial(mode), es).pc == Gone ==> Sleepers(Exec(Initial(mode), es)) == {}
      {
        OneCallerIsLetOut(mode, es);
      }
    } else {
      var es := TwoCallersHang(mode);
      var p := Exec(Initial(mode), es);
      assert NowCallers(p) <= {1, 2};
      AtMostTwo(NowCallers(p));
      NowOrLater(p);
      assert SleepsInWait(p, 2) && 2 in Sleepers(p);
    }
  }

  lemma AtMostTwo(s: set<Thread>)
    requires s <= {1, 2}
    ensures |s| <= 2
  {
    assert s - {1, 2} == {};
    assert |{1, 2} - s| + |s| == |{1, 2} - s + s| && {1, 2} - s + s == {1, 2};
  }

  lemma NowOrLater(p: Pool)
    ensures Exec(p, []) == p
  {
  }

  // ---------- Spurious wake-ups ----------

  /** The consumer woken for no reason is asleep again if there is still no task. */
  lemma SpuriousConsumer(p: Pool)
    requires p.pc == Asleep && p.heap == multiset{}
    ensures var p1 := Step(p, Spurious);
            p1 == p.(pc := AtGet) && Enabled(p1, Sleep) && Step(p1, Sleep) == p
  {
  }

  /** So is a caller of ShutDownNow short of SHUTDOWN. */
  lemma SpuriousCaller(p: Pool, t: Thread)
    requires t in p.callers && p.callers[t] == Caller(AsleepInWait, true) && p.state != SHUTDOWN
    ensures var p1 := Step(p, CallSpurious(t));
            && p1 == p.(callers := p.callers[t := Caller(AtWait, true)])
            && Enabled(p1, Calling(t)) && Step(p1, Calling(t)) == p
  {
    var p1 := Step(p, CallSpurious(t));
    assert Step(p1, Calling(t)).callers == p.callers;
  }
}
