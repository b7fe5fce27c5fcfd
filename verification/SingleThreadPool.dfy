/** The single-threaded pool object. Its two heaps are binary heaps over their comparator; the run mode
    says which of them is in use. Each method is one step of SinglePoolSpec. */
module SingleThreadPoolObject {
  import opened Common
  import opened Heap
  import opened PriorityOrder
  import opened SinglePoolSpec

  lemma ArrayTakesIn(mode: RunMode, log: seq<Entry>, q: seq<Task>, t: Task)
    requires AsArray(mode, log) == Some(q)
    ensures AsArray(mode, log + [In(t)]) == Some(Pushed(q, t, Comparator(mode)))
    ensures multiset(Pushed(q, t, Comparator(mode))) == multiset(q) + multiset{t}
  {
    ArrayIsHeap(mode, log);
    hide IsHeap, Pushed;
    LogGrows(mode, log, In(t));
    ArrayStepIsHeapStep(mode, q, In(t));
  }

  lemma ArrayGivesOut(mode: RunMode, log: seq<Entry>, q: seq<Task>)
    requires AsArray(mode, log) == Some(q) && q != []
    ensures AsArray(mode, log + [Out(q[0])]) == Some(Popped(q, Comparator(mode)))
    ensures multiset(Popped(q, Comparator(mode))) == multiset(q) - multiset{q[0]} && IsFirst(mode, multiset(q), q[0])
  {
    ArrayIsHeap(mode, log);
    RootIsFirst(mode, q);
    hide IsHeap, Popped;
    LogGrows(mode, log, Out(q[0]));
    ArrayStepIsHeapStep(mode, q, Out(q[0]));
  }

  lemma ComparatorAnswers(mode: RunMode, q: seq<Task>)
    ensures Answers(Comparator(mode), Comparator(mode), q)
  {
  }

  lemma InAndOut(m: multiset<Task>, t: Task)
    ensures m + multiset{t} - multiset{t} == m
  {
  }

  lemma GetIsEnabled(p: Pool, t: Task)
    requires p.pc == AtGet && IsFirst(p.mode, p.heap, t)
    ensures Enabled(p, Get(t))
  {
  }

  lemma SleepIsEnabled(p: Pool)
    requires p.pc == AtGet && p.heap == multiset{}
    ensures Enabled(p, Sleep)
  {
  }

  lemma CallIsEnabled(p: Pool, t: Thread, now: bool)
    requires t !in p.callers
    ensures Enabled(p, Call(t, now)) && Act(p, Call(t, now)) == DoCall(p, t, now)
  {
  }

  lemma SignalLeaves(p: Pool, t: Thread)
    requires p.request && (Sleepers(p) == {} || SleepsInWait(p, t))
    ensures Sleepers(DoSignal(p, t)) == Sleepers(p) - {t} && DoSignal(p, t).callers.Keys == p.callers.Keys
    ensures DoSignal(p, t).pc == Gone && DoSignal(p, t).state == p.state
  {
    assert t !in Sleepers(p) || SleepsInWait(p, t);
  }

  class SingleThreadPool {
    const runMode: RunMode
    var taskQueueGreater: seq<Task>
    var taskQueueLesser: seq<Task>
    var state: State
    var isRequestShutDown: bool
    var isRequestClose: bool          // of the pool's thread
    var pc: ConsumerPc
    var phase: Phase
    var callers: map<Thread, Caller>
    ghost var pending: multiset<Task>
    ghost var accepted: multiset<Task>
    ghost var log: seq<Entry>

    /** The heap in use. */
    function Tasks(): seq<Task>
      reads this`taskQueueGreater, this`taskQueueLesser
    {
      if runMode == LIFO then taskQueueLesser else taskQueueGreater
    }

    /** The array is the one that the pushes and pops so far lead to; so what is proved of such arrays holds of
        it, first of all that it is a heap. */
    ghost predicate Valid()
      reads this`taskQueueGreater, this`taskQueueLesser, this`log
    {
      AsArray(runMode, log) == Some(Tasks())
    }

    ghost function Abs(): Pool
      reads this
    {
      Pool(runMode, state, isRequestShutDown, isRequestClose, multiset(Tasks()), pc, phase, callers,
           pending, accepted, log)
    }

    constructor (mode: RunMode)
      ensures Valid() && Abs() == Initial(mode)
      ensures runMode == mode && Tasks() == [] && state == RUNNING && !isRequestShutDown && !isRequestClose
      ensures pc == AtCheck && phase == Idle && callers == map[] && pending == accepted == multiset{} && log == []
    {
      runMode, taskQueueGreater, taskQueueLesser := mode, [], [];
      state, isRequestShutDown, isRequestClose, pc, phase := RUNNING, false, false, AtCheck, Idle;
      callers, pending, accepted, log := map[], multiset{}, multiset{}, [];
    }

    predicate Empty()
      reads this`taskQueueGreater, this`taskQueueLesser
      ensures Empty() <==> multiset(Tasks()) == multiset{}
    {
      assert Tasks() != [] ==> Tasks()[0] in multiset(Tasks());
      |Tasks()| == 0
    }

    // ---------- Adding a task ----------

    /** The flag test; a task that passes it is pushed in a later step. */
    method DoAddTask(task: Task) returns (admitted: bool)
      requires Valid() && !task.isEnd
      modifies this`pending, this`accepted
      ensures Valid() && Abs() == Act(old(Abs()), Add(task))
      ensures admitted <==> !isRequestShutDown
      ensures pending == old(pending) + if admitted then multiset{task} else multiset{}
      ensures accepted == old(accepted) + if admitted then multiset{task} else multiset{}
    {
      hide Valid, IsFirst, Sleepers, SinglePoolSpec.PushTask;
      admitted := !isRequestShutDown;
      if admitted {
        pending, accepted := pending + multiset{task}, accepted + multiset{task};
      }
    }

    /** push on the heap in use. */
    method PushHeap(task: Task)
      requires Valid()
      modifies this`taskQueueGreater, this`taskQueueLesser, this`log
      ensures Valid() && log == old(log) + [In(task)]
      ensures multiset(Tasks()) == multiset(old(Tasks())) + multiset{task}
    {
      hide Pushed;
      ComparatorAnswers(runMode, Tasks() + [task]);
      var queue := Heap.Push(Tasks(), task, Comparator(runMode), Comparator(runMode));
      ArrayTakesIn(runMode, log, Tasks(), task);
      log := log + [In(task)];
      if runMode == LIFO {
        taskQueueLesser := queue;
      } else {
        taskQueueGreater := queue;
      }
    }

    /** top and pop of the heap in use. */
    method PopHeap() returns (top: Task)
      requires Valid() && !Empty()
      modifies this`taskQueueGreater, this`taskQueueLesser, this`log
      ensures Valid() && IsFirst(runMode, old(Abs()).heap, top)
      ensures Abs() == old(Abs()).(heap := old(Abs()).heap - multiset{top}, log := old(log) + [Out(top)])
    {
      hide Popped, IsFirst;
      top := Tasks()[0];
      ComparatorAnswers(runMode, Tasks());
      var queue := Heap.Pop(Tasks(), Comparator(runMode), Comparator(runMode));
      ArrayGivesOut(runMode, log, Tasks());
      log := log + [Out(top)];
      if runMode == LIFO {
        taskQueueLesser := queue;
      } else {
        taskQueueGreater := queue;
      }
    }

    method PushTask(task: Task)
      requires Valid()
      modifies this`taskQueueGreater, this`taskQueueLesser, this`log, this`pc
      ensures Valid() && Abs() == SinglePoolSpec.PushTask(old(Abs()), task)
      ensures multiset(Tasks()) == multiset(old(Tasks())) + multiset{task} && log == old(log) + [In(task)]
      ensures pc == if old(pc) == Asleep && old(Tasks()) == [] then AtGet else old(pc)
    {
      hide Valid;
      if Empty() && pc == Asleep {
        pc := AtGet;
      }
      PushHeap(task);
    }

    method PushPending(task: Task)
      requires Valid() && task in pending
      modifies this`pending, this`taskQueueGreater, this`taskQueueLesser, this`log, this`pc
      ensures Valid() && Abs() == Act(old(Abs()), Event.Push(task))
      ensures pending == old(pending) - multiset{task}
      ensures multiset(Tasks()) == multiset(old(Tasks())) + multiset{task} && log == old(log) + [In(task)]
      ensures pc == if old(pc) == Asleep && old(Tasks()) == [] then AtGet else old(pc)
    {
      pending := pending - multiset{task};
      PushTask(task);
    }

    /** The whole call with nobody in between: a task that is admitted is in the queue, and the consumer is
        awake if it waited for one; a task that is refused changes nothing. */
    method AddTask(task: Task) returns (admitted: bool)
      requires Valid() && !task.isEnd
      modifies this`pending, this`accepted, this`taskQueueGreater, this`taskQueueLesser, this`log, this`pc
      ensures Valid() && (admitted <==> !isRequestShutDown)
      ensures admitted ==>
                && multiset(Tasks()) == multiset(old(Tasks())) + multiset{task} && log == old(log) + [In(task)]
                && pc == (if old(pc) == Asleep && old(Tasks()) == [] then AtGet else old(pc))
                && accepted == old(accepted) + multiset{task} && pending == old(pending)
      ensures !admitted ==>
                pending == old(pending) && accepted == old(accepted) && Tasks() == old(Tasks()) && log == old(log) &&
                pc == old(pc)
    {
      hide Valid, Act, Enabled;
      admitted := DoAddTask(task);
      if admitted {
        PushPending(task);
        InAndOut(old(pending), task);
      }
    }

    // ---------- The consumer ----------

    /** checkFunc; false stands for the exception. */
    method CheckFunc() returns (go: bool)
      requires Valid() && pc == AtCheck
      modifies this`pc
      ensures Valid() && Abs() == Act(old(Abs()), Check)
      ensures go <==> !isRequestClose
      ensures pc == if go then AtGet else Left
    {
      hide Valid, IsFirst, Sleepers, SinglePoolSpec.PushTask;
      go := !isRequestClose;
      pc := if go then AtGet else Left;
    }

    method TakeTop() returns (top: Task)
      requires Valid() && !Empty() && pc == AtGet
      modifies this`taskQueueGreater, this`taskQueueLesser, this`log, this`pc
      ensures Valid() && IsFirst(runMode, old(Abs()).heap, top) && Abs() == TakeTask(old(Abs()), top)
      ensures multiset(Tasks()) == multiset(old(Tasks())) - multiset{top} && log == old(log) + [Out(top)]
      ensures pc == if top.isEnd then Left else Running(top)
    {
      hide IsFirst, Valid, Empty;
      top := PopHeap();
      Leave(top);
    }

    /** What the consumer does next with the task it has popped. */
    method Leave(top: Task)
      modifies this`pc
      ensures Abs() == old(Abs()).(pc := if top.isEnd then Left else Running(top))
    {
      pc := if top.isEnd then Left else Running(top);
    }

    /** GetTask from taking the mutex to the wait or to the return: a first task, or none. */
    method GetTask() returns (task: Option<Task>)
      requires Valid() && pc == AtGet
      modifies this`taskQueueGreater, this`taskQueueLesser, this`log, this`pc
      ensures Valid()
      ensures task == None <==> old(Tasks()) == []
      ensures task == None ==> Enabled(old(Abs()), Sleep)
      ensures task == None ==> Tasks() == old(Tasks()) && log == old(log) && pc == Asleep
      ensures task == None ==> Abs() == old(Abs()).(pc := Asleep)
      ensures task.Some? ==>
                && multiset(Tasks()) == multiset(old(Tasks())) - multiset{task.value}
                && log == old(log) + [Out(task.value)]
                && pc == (if task.value.isEnd then Left else Running(task.value))
      ensures task.Some? ==> Enabled(old(Abs()), Get(task.value)) && Abs() == TakeTask(old(Abs()), task.value)
      ensures task.Some? ==> IsFirst(runMode, multiset(old(Tasks())), task.value)
    {
      hide IsFirst, Valid, Enabled, TakeTask;
      if Empty() {
        SleepIsEnabled(Abs());
        pc := Asleep;
        return None;
      }
      ghost var p := Abs();
      var top := TakeTop();
      GetIsEnabled(p, top);
      task := Some(top);
    }

    method EndRun()
      requires Valid() && pc.Running?
      modifies this`pc
      ensures Valid() && Abs() == Act(old(Abs()), SinglePoolSpec.EndRun)
      ensures pc == AtCheck
    {
      hide Valid, IsFirst, Sleepers, SinglePoolSpec.PushTask;
      pc := AtCheck;
    }

    /** GetTask and what comes of it: wait on an empty queue; otherwise take a first task, and run it or leave
        if it is the sentinel. */
    method HandleTask() returns (task: Option<Task>)
      requires Valid() && pc == AtGet
      modifies this`taskQueueGreater, this`taskQueueLesser, this`log, this`pc
      ensures Valid()
      ensures task == None <==> old(Tasks()) == []
      ensures task == None ==> Tasks() == old(Tasks()) && log == old(log) && pc == Asleep
      ensures task.Some? ==>
                && IsFirst(runMode, multiset(old(Tasks())), task.value)
                && multiset(Tasks()) == multiset(old(Tasks())) - multiset{task.value}
                && log == old(log) + [Out(task.value)]
                && pc == (if task.value.isEnd then Left else AtCheck)
    {
      hide Valid, Act, Enabled, IsFirst, TakeTask;
      task := GetTask();
      if task.Some? && !task.value.isEnd {
        EndRun();
      }
    }

    /** A turn of the work loop with nobody in between; it ends if the thread was told to close. */
    method ProcessTask() returns (task: Option<Task>)
      requires Valid() && pc == AtCheck
      modifies this`taskQueueGreater, this`taskQueueLesser, this`log, this`pc
      ensures Valid()
      ensures task == None <==> isRequestClose || old(Tasks()) == []
      ensures task == None ==>
                Tasks() == old(Tasks()) && log == old(log) && pc == if isRequestClose then Left else Asleep
      ensures task.Some? ==>
                && IsFirst(runMode, multiset(old(Tasks())), task.value)
                && multiset(Tasks()) == multiset(old(Tasks())) - multiset{task.value}
                && log == old(log) + [Out(task.value)]
                && pc == (if task.value.isEnd then Left else AtCheck)
    {
      hide Valid, Act, Enabled, IsFirst, TakeTask;
      task := None;
      var go := CheckFunc();
      if go {
        task := HandleTask();
      }
    }

    /** The first half of NotifyWhenThreadStop. */
    method SetShutDown()
      requires Valid() && pc == Left
      modifies this`state, this`pc
      ensures Valid() && Abs() == Act(old(Abs()), Finish)
      ensures Abs() == old(Abs()).(state := SHUTDOWN, pc := AtSignal)
    {
      hide Valid, IsFirst, Sleepers, SinglePoolSpec.PushTask;
      state := SHUTDOWN;
      pc := AtSignal;
    }

    /** The second half: one signal, which wakes `t` if anybody sleeps. */
    method NotifyOne(t: Thread)
      requires Valid() && pc == AtSignal && (Sleepers(Abs()) == {} || SleepsInWait(Abs(), t))
      modifies this`callers, this`pc
      ensures Valid() && Abs() == Act(old(Abs()), Signal(t))
      ensures Abs() == DoSignal(old(Abs()), t)
      ensures pc == Gone && callers.Keys == old(callers).Keys
      ensures forall c | c in callers ::
                callers[c] == if c == t && isRequestShutDown && old(callers)[c].pc == AsleepInWait
                              then old(callers)[c].(pc := AtWait) else old(callers)[c]
    {
      hide Valid, Sleepers, DoCall, DoWinning, DoCalling, CanCall, IsFirst, SinglePoolSpec.PushTask, TakeTask;
      if isRequestShutDown && t in callers && callers[t].pc == AsleepInWait {
        callers := callers[t := callers[t].(pc := AtWait)];
      }
      pc := Gone;
    }

    // ---------- Shutting down ----------

    /** The compare-and-set of ShutDown. */
    method RequestShutDown(t: Thread, now: bool) returns (won: bool)
      requires Valid() && t !in callers
      modifies this`isRequestShutDown, this`phase, this`callers
      ensures Valid() && Abs() == Act(old(Abs()), Call(t, now))
      ensures won <==> !old(isRequestShutDown)
      ensures isRequestShutDown && phase == (if won then ToSetStop else old(phase))
      ensures callers == old(callers)[t := Caller(if won then Winner else AtWait, now)]
      ensures Abs() == DoCall(old(Abs()), t, now)
    {
      hide Valid, Enabled, Act;
      CallIsEnabled(Abs(), t, now);
      won := !isRequestShutDown;
      callers := callers[t := Caller(if won then Winner else AtWait, now)];
      if won {
        isRequestShutDown, phase := true, ToSetStop;
      }
    }

    method SetStop()
      requires Valid() && phase == ToSetStop
      modifies this`state, this`phase
      ensures Valid() && Abs() == Act(old(Abs()), Winning)
      ensures Abs() == old(Abs()).(state := STOP, phase := ToClose)
    {
      hide Valid, IsFirst, Sleepers, SinglePoolSpec.PushTask;
      state, phase := STOP, ToClose;
    }

    method AsyncClose()
      requires Valid() && phase == ToClose
      modifies this`isRequestClose, this`phase
      ensures Valid() && Abs() == Act(old(Abs()), Winning)
      ensures Abs() == old(Abs()).(closed := true, phase := ToPushEnd)
    {
      hide Valid, IsFirst, Sleepers, SinglePoolSpec.PushTask;
      isRequestClose, phase := true, ToPushEnd;
    }

    method PushEnd()
      requires Valid() && phase == ToPushEnd
      modifies this`taskQueueGreater, this`taskQueueLesser, this`log, this`pc, this`phase
      ensures Valid() && Abs() == Act(old(Abs()), Winning)
      ensures Abs() == SinglePoolSpec.PushTask(old(Abs()), END_PRIORITY_TASK).(phase := Finished)
      ensures multiset(Tasks()) == multiset(old(Tasks())) + multiset{END_PRIORITY_TASK} && phase == Finished
      ensures pc == if old(pc) == Asleep && old(Tasks()) == [] then AtGet else old(pc)
    {
      hide Valid, IsFirst, Sleepers, DoCall, DoCalling, DoSignal, TakeTask;
      PushTask(END_PRIORITY_TASK);
      phase := Finished;
    }

    /** The winner is done with the shutdown and goes on to the wait. */
    method ProceedToWait(t: Thread)
      requires Valid() && t in callers && callers[t].pc == Winner && phase == Finished
      modifies this`callers
      ensures Valid() && Enabled(old(Abs()), Calling(t)) && Abs() == Act(old(Abs()), Calling(t))
      ensures callers == old(callers)[t := Caller(AtWait, old(callers)[t].now)]
    {
      hide Valid, IsFirst, Sleepers, SinglePoolSpec.PushTask;
      callers := callers[t := callers[t].(pc := AtWait)];
    }

    /** The wait of ShutDownNow from taking the mutex to sleep or to the return; ShutDown just returns. */
    method AwaitShutDown(t: Thread) returns (done: bool)
      requires Valid() && t in callers && callers[t].pc == AtWait
      modifies this`callers
      ensures Valid() && Enabled(old(Abs()), Calling(t)) && Abs() == Act(old(Abs()), Calling(t))
      ensures done <==> (callers[t].now ==> state == SHUTDOWN)
      ensures callers == old(callers)[t := Caller(if done then Returned else AsleepInWait, old(callers)[t].now)]
    {
      hide Valid, IsFirst, Sleepers, SinglePoolSpec.PushTask;
      done := !callers[t].now || state == SHUTDOWN;
      callers := callers[t := callers[t].(pc := if done then Returned else AsleepInWait)];
    }

    // ---------- Whole calls, undisturbed ----------

    /** ShutDown: the first call leaves the pool stopped and its thread told to close, with one sentinel more in
        the queue and the consumer awake if it was waiting for a task; a later call changes nothing of this. */
    method ShutDown(t: Thread, now: bool) returns (won: bool)
      requires Valid() && t !in callers
      modifies this
      ensures Valid() && isRequestShutDown
      ensures won <==> !old(isRequestShutDown)
      ensures callers == old(callers)[t := Caller(if won then Winner else AtWait, now)]
      ensures multiset(Tasks()) == multiset(old(Tasks())) + if won then multiset{END_PRIORITY_TASK} else multiset{}
      ensures if won then state == STOP && isRequestClose && phase == Finished
              else state == old(state) && isRequestClose == old(isRequestClose) && phase == old(phase)
      ensures pc == if won && old(Empty()) && old(pc) == Asleep then AtGet else old(pc)
    {
      hide Valid, Act, Enabled;
      won := RequestShutDown(t, now);
      if won {
        SetStop();
        AsyncClose();
        PushEnd();
      }
    }

    /** NotifyWhenThreadStop: the pool is shut down, the thread is gone, and of the callers asleep in ShutDownNow
        one is awake; the others sleep on. */
    method NotifyWhenThreadStop(t: Thread)
      requires Valid() && pc == Left && isRequestShutDown && (Sleepers(Abs()) == {} || SleepsInWait(Abs(), t))
      modifies this
      ensures Valid() && state == SHUTDOWN && pc == Gone
      ensures Sleepers(Abs()) == old(Sleepers(Abs())) - {t}
      ensures callers.Keys == old(callers.Keys)
    {
      hide Valid, Act, Enabled;
      SetShutDown();
      assert Sleepers(Abs()) == old(Sleepers(Abs()));
      SignalLeaves(Abs(), t);
      NotifyOne(t);
    }
  }
}
