/** The scaling pool object. Each small method is one step of PoolSpec: one atomic access or one section
    with a mutex held. The loops that run under the thread-map mutex and the member functions are given
    whole, as they run when nobody else is scheduled in between: what they achieve, and that they are a run
    of the specification. */
module ScalingThreadPoolObject {
  import opened Common
  import opened PoolRuns
  import opened PoolSpec

  // ---------- The steps ----------

  lemma Counts(p: Pool, w: nat)
    requires w < |p.workers| && p.workers[w].pc == AtCount
    ensures var me := p.workers[w].(pc := AtCompare(p.stopped + 1), fate := Counted);
            Takes(p, Work(w), p.(stopped := p.stopped + 1, workers := p.workers[w := me]))
  {
    hide Judge, WakeCallers;
  }

  // ---------- Reaping ----------

  /** Every entry of the reaping list that is still in the map belongs to a worker that has ended. */
  ghost predicate Reapable(p: Pool) {
    forall j | 0 <= j < |p.sub| && p.sub[j] > 0 && p.sub[j] - 1 in p.threads ::
      p.sub[j] - 1 < |p.workers| && p.workers[p.sub[j] - 1].pc == Done
  }

  ghost function Unreported(threads: set<nat>, ids: seq<nat>): set<nat> {
    set w | w in threads && w + 1 !in ids
  }

  lemma NoneReported(threads: set<nat>)
    ensures Unreported(threads, []) == threads
  {
  }

  lemma UnreportedMeans(threads: set<nat>, ids: seq<nat>)
    ensures forall w :: w in Unreported(threads, ids) <==> w in threads && w + 1 !in ids
  {
  }

  lemma OneMoreReported(threads: set<nat>, ids: seq<nat>, id: nat)
    ensures Unreported(threads, ids + [id]) ==
            if id > 0 then Unreported(threads, ids) - {id - 1} else Unreported(threads, ids)
  {
  }

  lemma OneReaped(p: Pool, i: nat, threads: set<nat>)
    requires Reapable(p) && p.monitor == MReap(i) && i < |p.sub|
    requires p.threads == Unreported(threads, p.sub[..i])
    ensures CanMonitor(p) && Reapable(DoReap(p, i))
    ensures p.sub[i] > 0 && p.sub[i] - 1 in p.threads ==>
              p.sub[i] - 1 < |p.workers| && p.workers[p.sub[i] - 1].pc == Done
    ensures DoReap(p, i) == p.(monitor := MReap(i + 1), threads := Unreported(threads, p.sub[..i + 1]))
  {
    hide Unreported;
    assert p.sub[..i + 1] == p.sub[..i] + [p.sub[i]];
    OneMoreReported(threads, p.sub[..i], p.sub[i]);
  }

  lemma AllReaped(p: Pool)
    requires p.monitor == MReap(|p.sub|)
    ensures CanMonitor(p) && DoReap(p, |p.sub|) == p.(sub := [], monitor := MCheck)
  {
  }

  class ScalingThreadPool {
    const corePoolSize: nat
    const maxThreadSize: nat
    var isRequestShutDown: bool
    var state: State
    var stoppedThreadNum: nat
    var taskQueue: seq<Item>
    var workers: seq<Worker>
    var threads: set<nat>
    var subWorkerThreadId: seq<nat>
    var phase: Phase
    var callers: map<Thread, Caller>
    var monitor: MonitorPc
    var monitorClosed: bool
    var submitters: map<Thread, Submitter>
    ghost var accepted: seq<nat>
    ghost var pushed: seq<Item>
    ghost var started: seq<nat>

    ghost function Abs(): Pool
      reads this
    {
      Pool(corePoolSize, maxThreadSize, isRequestShutDown, state, stoppedThreadNum, taskQueue, workers,
           threads, subWorkerThreadId, phase, callers, monitor, monitorClosed, submitters,
           accepted, pushed, started)
    }

    constructor (minThreadSize: nat, maxSize: nat)
      ensures Abs() == Initial(minThreadSize, maxSize)
      ensures corePoolSize == minThreadSize && maxThreadSize == maxSize
      ensures !isRequestShutDown && state == RUNNING && stoppedThreadNum == 0 && taskQueue == []
      ensures workers == seq(minThreadSize, i => Worker(Starting, false, Working))
      ensures forall w :: w in threads <==> 0 <= w < minThreadSize
      ensures subWorkerThreadId == [] && phase == Idle && callers == map[] && submitters == map[]
      ensures monitor == MCheck && !monitorClosed
    {
      corePoolSize, maxThreadSize := minThreadSize, maxSize;
      isRequestShutDown, state, stoppedThreadNum, taskQueue := false, RUNNING, 0, [];
      workers := seq(minThreadSize, i => Worker(Starting, false, Working));
      threads := Below(minThreadSize);
      subWorkerThreadId, phase, callers, monitor, monitorClosed := [], Idle, map[], MCheck, false;
      submitters, accepted, pushed, started := map[], [], [], [];
    }

    // ---------- Queue and monitor notification ----------

    method Push(item: Item)
      modifies this`taskQueue, this`workers, this`pushed
      ensures Abs() == PushItem(old(Abs()), item)
      ensures taskQueue == old(taskQueue) + [item] && |workers| == |old(workers)|
      ensures forall w: nat | w < |workers| ::
                workers[w] == if old(taskQueue) == [] && old(workers)[w].pc == Asleep
                              then old(workers)[w].(pc := Awake) else old(workers)[w]
    {
      if taskQueue == [] {
        workers := WakeWorkers(workers);
      }
      taskQueue := taskQueue + [item];
      pushed := pushed + [item];
    }

    predicate JudgeFunc()
      reads this
      ensures JudgeFunc() == Judge(Abs())
      ensures |taskQueue| <= 1024 || |threads| >= maxThreadSize ==> (JudgeFunc() <==> subWorkerThreadId != [])
      ensures |taskQueue| > 1024 && |threads| < maxThreadSize ==> JudgeFunc()
    {
      (|taskQueue| > TASK_QUEUE_SIZE_THRESHOLD && |threads| < maxThreadSize) || subWorkerThreadId != []
    }

    /** The thread map is not locked. */
    predicate MapIsFree()
      reads this
      ensures MapIsFree() == Free(Abs())
    {
      !phase.Closing? && !phase.Pushing? && monitor != MRecheck && monitor != MScale && !monitor.MReap?
    }

    method NotifyMonitorIfNeeded()
      modifies this`monitor
      ensures Abs() == old(Abs()).(monitor := Notified(old(Abs())))
      ensures monitor == if old(monitor) == MAsleep &&
                            ((|taskQueue| > 1024 && |threads| < maxThreadSize) || subWorkerThreadId != [])
                         then MAwake else old(monitor)
    {
      if JudgeFunc() && monitor == MAsleep {
        monitor := MAwake;
      }
    }

    // ---------- A worker ----------

    method MoveTo(w: nat, pc: WorkerPc)
      requires w < |workers|
      modifies this`workers
      ensures workers == old(workers)[w := old(workers)[w].(pc := pc)]
      ensures Abs() == SetPc(old(Abs()), w, pc)
    {
      workers := workers[w := workers[w].(pc := pc)];
    }

    /** checkFunc; false stands for the exception. */
    method CheckFunc(w: nat) returns (go: bool)
      requires w < |workers| && workers[w].pc in {Starting, AtCheck}
      modifies this`workers
      ensures Takes(old(Abs()), Work(w), Abs())
      ensures Abs() == SetPc(old(Abs()), w,
                             if !go then Left else if old(workers)[w].pc == Starting then AtCheck else AtPop)
      ensures go <==> !old(workers)[w].close
    {
      go := !workers[w].close;
      MoveTo(w, if !go then Left else if workers[w].pc == Starting then AtCheck else AtPop);
    }

    /** PopTimeWait from taking the queue mutex to the wait or to the return. */
    method PopTimeWait(w: nat) returns (popped: Option<Item>)
      requires w < |workers| && workers[w].pc in {AtPop, Awake}
      modifies this`workers, this`taskQueue
      ensures Takes(old(Abs()), Work(w), Abs())
      ensures popped == if old(taskQueue) == [] then None else Some(old(taskQueue)[0])
      ensures Abs() == if popped == None then SetPc(old(Abs()), w, Asleep)
                       else SetPc(old(Abs()), w, Holds(popped.value)).(queue := old(taskQueue)[1..])
    {
      if taskQueue == [] {
        MoveTo(w, Asleep);
        popped := None;
      } else {
        popped := Some(taskQueue[0]);
        MoveTo(w, Holds(taskQueue[0]));
        taskQueue := taskQueue[1..];
      }
    }

    method WaitExpires(w: nat)
      requires w < |workers| && workers[w].pc in {Asleep, Awake}
      modifies this`workers
      ensures Takes(old(Abs()), WorkTimeout(w), Abs())
      ensures Abs() == SetPc(old(Abs()), w, AtJudge)
    {
      MoveTo(w, AtJudge);
    }

    method IfMoreThan(w: nat) returns (more: bool)
      requires w < |workers| && workers[w].pc == AtJudge && MapIsFree()
      modifies this`workers
      ensures Takes(old(Abs()), Work(w), Abs())
      ensures Abs() == SetPc(old(Abs()), w, if more then AtSelfClose else AtCheck)
      ensures more <==> |threads| > corePoolSize
    {
      more := |threads| > corePoolSize;
      MoveTo(w, if more then AtSelfClose else AtCheck);
    }

    method CloseItself(w: nat)
      requires w < |workers| && workers[w].pc == AtSelfClose
      modifies this`workers
      ensures Takes(old(Abs()), Work(w), Abs())
      ensures Abs() == old(Abs()).(workers := old(workers)[w := old(workers)[w].(pc := AtCheck, close := true)])
    {
      workers := workers[w := workers[w].(pc := AtCheck, close := true)];
    }

    /** Leave the loop on a sentinel, run anything else. */
    method Dispatch(w: nat) returns (run: bool)
      requires w < |workers| && workers[w].pc.Holds?
      modifies this`workers, this`started
      ensures Takes(old(Abs()), Work(w), Abs())
      ensures run <==> old(workers)[w].pc.item != EndTask
      ensures var item := old(workers)[w].pc.item;
              Abs() == if run then SetPc(old(Abs()), w, InTask(item.id)).(started := old(started) + [item.id])
                       else SetPc(old(Abs()), w, Left)
    {
      var item := workers[w].pc.item;
      run := item.UserTask?;
      if run {
        MoveTo(w, InTask(item.id));
        started := started + [item.id];
      } else {
        MoveTo(w, Left);
      }
    }

    method EndTaskRun(w: nat)
      requires w < |workers| && workers[w].pc.InTask?
      modifies this`workers
      ensures Takes(old(Abs()), Work(w), Abs())
      ensures Abs() == SetPc(old(Abs()), w, AtCheck)
    {
      MoveTo(w, AtCheck);
    }

    // ---------- NotifyWhenThreadsStop ----------

    method LoadRequest(w: nat) returns (shuttingDown: bool)
      requires w < |workers| && workers[w].pc == Left
      modifies this`workers
      ensures Takes(old(Abs()), Work(w), Abs())
      ensures Abs() == SetPc(old(Abs()), w, if shuttingDown then AtCount else AtReport)
      ensures shuttingDown <==> isRequestShutDown
    {
      shuttingDown := isRequestShutDown;
      MoveTo(w, if shuttingDown then AtCount else AtReport);
    }

    method AddWorkerThreadIdToSubVector(w: nat)
      requires w < |workers| && workers[w].pc == AtReport && MapIsFree()
      modifies this`workers, this`subWorkerThreadId
      ensures Takes(old(Abs()), Work(w), Abs())
      ensures var me := old(workers)[w].(pc := AtReportNotify, fate := Reported);
              Abs() == old(Abs()).(sub := old(subWorkerThreadId) + [w + 1], workers := old(workers)[w := me])
    {
      subWorkerThreadId := subWorkerThreadId + [w + 1];
      workers := workers[w := workers[w].(pc := AtReportNotify, fate := Reported)];
    }

    method NotifyAfterReport(w: nat)
      requires w < |workers| && workers[w].pc == AtReportNotify && MapIsFree()
      modifies this`workers, this`monitor
      ensures Takes(old(Abs()), Work(w), Abs())
      ensures Abs() == SetPc(old(Abs()), w, Done).(monitor := Notified(old(Abs())))
    {
      NotifyMonitorIfNeeded();
      MoveTo(w, Done);
    }

    method CountStopped(w: nat)
      requires w < |workers| && workers[w].pc == AtCount
      modifies this`workers, this`stoppedThreadNum
      ensures Takes(old(Abs()), Work(w), Abs())
      ensures var me := old(workers)[w].(pc := AtCompare(stoppedThreadNum), fate := Counted);
              Abs() == old(Abs()).(stopped := old(stoppedThreadNum) + 1, workers := old(workers)[w := me])
    {
      hide Takes;
      Counts(Abs(), w);
      stoppedThreadNum := stoppedThreadNum + 1;
      workers := workers[w := workers[w].(pc := AtCompare(stoppedThreadNum), fate := Counted)];
    }

    method CompareStopped(w: nat) returns (last: bool)
      requires w < |workers| && workers[w].pc.AtCompare?
      modifies this`workers
      ensures Takes(old(Abs()), Work(w), Abs())
      ensures Abs() == SetPc(old(Abs()), w, if last then AtSetShutDown else Done)
      ensures last <==> old(workers)[w].pc.count >= |threads|
    {
      last := workers[w].pc.count >= |threads|;
      MoveTo(w, if last then AtSetShutDown else Done);
    }

    method SetShutDown(w: nat)
      requires w < |workers| && workers[w].pc == AtSetShutDown
      modifies this`workers, this`state
      ensures Takes(old(Abs()), Work(w), Abs())
      ensures Abs() == SetPc(old(Abs()), w, AtBroadcast).(state := SHUTDOWN)
    {
      state := SHUTDOWN;
      MoveTo(w, AtBroadcast);
    }

    method NotifyAllCallers(w: nat)
      requires w < |workers| && workers[w].pc == AtBroadcast
      modifies this`workers, this`callers
      ensures Takes(old(Abs()), Work(w), Abs())
      ensures Abs() == SetPc(old(Abs()), w, Done).(callers :=
                         if isRequestShutDown then WakeCallers(old(callers)) else old(callers))
      ensures callers.Keys == old(callers).Keys
      ensures forall c | c in callers ::
                callers[c] == if isRequestShutDown && old(callers)[c].pc == AsleepInWait
                              then old(callers)[c].(pc := AwakeInWait) else old(callers)[c]
    {
      if isRequestShutDown {
        callers := WakeCallers(callers);
      }
      MoveTo(w, Done);
    }

    // ---------- DoAddTask ----------

    method BeginAddTask(t: Thread, task: Option<nat>) returns (admitted: bool)
      requires t !in submitters
      modifies this`submitters, this`accepted
      ensures Takes(old(Abs()), Submit(t, task), Abs())
      ensures admitted <==> !isRequestShutDown && task.Some?
      ensures Abs() == if !admitted then old(Abs())
                       else old(Abs()).(submitters := old(submitters)[t := AtPush(task.value)],
                                        accepted := old(accepted) + [task.value])
    {
      admitted := !isRequestShutDown && task.Some?;
      if admitted {
        submitters := submitters[t := AtPush(task.value)];
        accepted := accepted + [task.value];
      }
    }

    method PushTask(t: Thread)
      requires t in submitters && submitters[t].AtPush?
      modifies this`taskQueue, this`workers, this`pushed, this`submitters
      ensures Takes(old(Abs()), Submitting(t), Abs())
      ensures Abs() == PushItem(old(Abs()), UserTask(old(submitters)[t].id)).(
                         submitters := old(submitters)[t := AtNotify])
    {
      Push(UserTask(submitters[t].id));
      submitters := submitters[t := AtNotify];
    }

    method NotifyAfterPush(t: Thread)
      requires t in submitters && submitters[t] == AtNotify && MapIsFree()
      modifies this`monitor, this`submitters
      ensures Takes(old(Abs()), Submitting(t), Abs())
      ensures Abs() == old(Abs()).(monitor := Notified(old(Abs())), submitters := old(submitters) - {t})
    {
      NotifyMonitorIfNeeded();
      submitters := submitters - {t};
    }

    // ---------- ShutDown and ShutDownNow ----------

    method RequestShutDown(t: Thread, now: bool) returns (won: bool)
      requires t !in callers
      modifies this`isRequestShutDown, this`phase, this`callers
      ensures Takes(old(Abs()), Event.ShutDown(t, now), Abs())
      ensures Abs() == old(Abs()).(request := true, phase := if won then ToSetStop else old(phase),
                                   callers := old(callers)[t := Caller(if won then Winner else AtWait, now)])
      ensures won <==> !old(isRequestShutDown)
    {
      won := !isRequestShutDown;
      if won {
        isRequestShutDown := true;
        phase := ToSetStop;
      }
      callers := callers[t := Caller(if won then Winner else AtWait, now)];
    }

    method SetStop()
      requires phase == ToSetStop
      modifies this`state, this`phase
      ensures Takes(old(Abs()), Winning(0), Abs())
      ensures Abs() == old(Abs()).(state := STOP, phase := ToLockThreads)
    {
      state := STOP;
      phase := ToLockThreads;
    }

    method LockThreads()
      requires phase == ToLockThreads && MapIsFree()
      modifies this`phase
      ensures Takes(old(Abs()), Winning(0), Abs())
      ensures Abs() == old(Abs()).(phase := Closing(old(threads)))
    {
      phase := Closing(threads);
    }

    method AsyncClose(w: nat)
      requires phase.Closing? && w in phase.open && w < |workers|
      modifies this`workers, this`phase
      ensures Takes(old(Abs()), Winning(w), Abs())
      ensures Abs() == old(Abs()).(phase := Closing(old(phase).open - {w}),
                                   workers := old(workers)[w := old(workers)[w].(close := true)])
    {
      workers := workers[w := workers[w].(close := true)];
      phase := Closing(phase.open - {w});
    }

    method BeginPushing()
      requires phase == Closing({})
      modifies this`phase
      ensures Takes(old(Abs()), Winning(0), Abs())
      ensures Abs() == old(Abs()).(phase := Pushing(|old(threads)|))
    {
      phase := Pushing(|threads|);
    }

    method PushEndTask()
      requires phase.Pushing? && phase.left > 0
      modifies this`taskQueue, this`workers, this`pushed, this`phase
      ensures Takes(old(Abs()), Winning(0), Abs())
      ensures Abs() == PushItem(old(Abs()), EndTask).(phase := Pushing(old(phase).left - 1))
    {
      Push(EndTask);
      phase := Pushing(phase.left - 1);
    }

    method UnlockThreads()
      requires phase == Pushing(0)
      modifies this`phase
      ensures Takes(old(Abs()), Winning(0), Abs())
      ensures Abs() == old(Abs()).(phase := ToCloseMonitor)
    {
      phase := ToCloseMonitor;
    }

    method CloseMonitor()
      requires phase == ToCloseMonitor
      modifies this`monitorClosed, this`phase
      ensures Takes(old(Abs()), Winning(0), Abs())
      ensures Abs() == old(Abs()).(monitorClosed := true, phase := ToPushZero)
    {
      monitorClosed := true;
      phase := ToPushZero;
    }

    method AddZeroToSubVector()
      requires phase == ToPushZero && MapIsFree()
      modifies this`subWorkerThreadId, this`phase
      ensures Takes(old(Abs()), Winning(0), Abs())
      ensures Abs() == old(Abs()).(sub := old(subWorkerThreadId) + [0], phase := ToNotifyMonitor)
    {
      subWorkerThreadId := subWorkerThreadId + [0];
      phase := ToNotifyMonitor;
    }

    method NotifyMonitor()
      requires phase == ToNotifyMonitor && MapIsFree()
      modifies this`monitor, this`phase
      ensures Takes(old(Abs()), Winning(0), Abs())
      ensures Abs() == old(Abs()).(monitor := Notified(old(Abs())), phase := Finished)
    {
      NotifyMonitorIfNeeded();
      phase := Finished;
    }

    /** The end of ShutDown for its winner, or a turn of ShutDownNow's wait loop. */
    method Proceed(t: Thread) returns (returned: bool)
      requires t in callers
      requires callers[t].pc in {AtWait, AwakeInWait} || (callers[t].pc == Winner && phase == Finished)
      modifies this`callers
      ensures Takes(old(Abs()), Calling(t), Abs())
      ensures Abs() == SetCaller(old(Abs()), t, if old(callers)[t].pc == Winner then AtWait
                                                else if returned then Returned else AsleepInWait)
      ensures returned <==> old(callers)[t].pc != Winner && (old(callers)[t].now ==> state == SHUTDOWN)
      ensures callers == old(callers)[t := Caller(if old(callers)[t].pc == Winner then AtWait
                                                  else if returned then Returned else AsleepInWait,
                                                  old(callers)[t].now)]
    {
      returned := callers[t].pc != Winner && (callers[t].now ==> state == SHUTDOWN);
      var pc := if callers[t].pc == Winner then AtWait else if returned then Returned else AsleepInWait;
      callers := callers[t := callers[t].(pc := pc)];
    }

    // ---------- The monitor ----------

    method MonitorStep()
      requires monitor in {MCheck, MRecheck} || (monitor in {MLock, MAwake} && MapIsFree())
      modifies this`monitor
      ensures Takes(old(Abs()), Monitor, Abs())
      ensures Abs() == old(Abs()).(monitor :=
                         if old(monitor) == MCheck then (if monitorClosed then MExited else MLock)
                         else if old(monitor) == MRecheck then (if monitorClosed then MExited else MScale)
                         else if old(JudgeFunc()) then MRecheck else MAsleep)
    {
      if monitor == MCheck {
        monitor := if monitorClosed then MExited else MLock;
      } else if monitor == MRecheck {
        monitor := if monitorClosed then MExited else MScale;
      } else {
        monitor := if JudgeFunc() then MRecheck else MAsleep;
      }
    }

    /** The wait of the monitor is limited to ten seconds; after that it goes on whatever the condition. */
    method MonitorWaitExpires()
      requires monitor in {MAsleep, MAwake} && MapIsFree()
      modifies this`monitor
      ensures Takes(old(Abs()), MonitorTimeout, Abs())
      ensures monitor == MRecheck
    {
      monitor := MRecheck;
    }

    /** A worker more exactly if more than 1024 tasks wait and the map is below its limit. */
    method AddWorkerThread()
      requires monitor == MScale
      modifies this`threads, this`workers, this`monitor
      ensures Takes(old(Abs()), Monitor, Abs())
      ensures Abs() == (if Crowded(old(Abs())) then AddWorker(old(Abs())) else old(Abs())).(monitor := MReap(0))
      ensures if |taskQueue| > 1024 && |old(threads)| < maxThreadSize
              then workers == old(workers) + [Worker(Starting, false, Working)] &&
                   threads == old(threads) + {|old(workers)|}
              else workers == old(workers) && threads == old(threads)
    {
      if |taskQueue| > TASK_QUEUE_SIZE_THRESHOLD && |threads| < maxThreadSize {
        threads := threads + {|workers|};
        workers := workers + [Worker(Starting, false, Working)];
      }
      monitor := MReap(0);
    }

    /** One turn of the reaping loop, or its end. */
    method SubWorkerThread() returns (erased: bool)
      requires monitor.MReap?
      requires monitor.next < |subWorkerThreadId| ==>
                 var id := subWorkerThreadId[monitor.next];
                 id > 0 && id - 1 in threads ==> id - 1 < |workers| && workers[id - 1].pc == Done
      modifies this`threads, this`subWorkerThreadId, this`monitor
      ensures Takes(old(Abs()), Monitor, Abs())
      ensures Abs() == DoReap(old(Abs()), old(monitor).next)
      ensures erased <==> threads != old(threads)
      ensures if old(monitor).next >= |old(subWorkerThreadId)|
              then threads == old(threads) && subWorkerThreadId == [] && monitor == MCheck
              else
                && (forall w :: w in threads <==> w in old(threads) && w + 1 != subWorkerThreadId[old(monitor).next])
                && subWorkerThreadId == old(subWorkerThreadId) && monitor == MReap(old(monitor).next + 1)
    {
      var next := monitor.next;
      erased := false;
      if next >= |subWorkerThreadId| {
        subWorkerThreadId := [];
        monitor := MCheck;
      } else {
        var id := subWorkerThreadId[next];
        if id > 0 && id - 1 in threads {
          erased := true;
          threads := threads - {id - 1};
        }
        monitor := MReap(next + 1);
      }
    }

    // ---------- The loops, undisturbed ----------

    /** Tell every worker in the map to close. */
    method CloseWorkers()
      requires phase == Closing(threads) && forall w | w in threads :: w < |workers|
      modifies this
      ensures RunsTo(old(Abs()), Abs())
      ensures |workers| == |old(workers)|
      ensures Abs() == old(Abs()).(phase := Closing({}), workers := workers)
      ensures forall w: nat | w < |workers| ::
                workers[w] == if w in threads then old(workers)[w].(close := true) else old(workers)[w]
    {
      hide RunsTo, Takes;
      NoStep(Abs());
      while phase.open != {}
        invariant phase.Closing? && phase.open <= threads && |workers| == |old(workers)|
        invariant Abs() == old(Abs()).(phase := phase, workers := workers)
        invariant forall w: nat | w < |workers| ::
                    workers[w] == if w in threads - phase.open then old(workers)[w].(close := true) else old(workers)[w]
        invariant RunsTo(old(Abs()), Abs())
        decreases |phase.open|
      {
        var w :| w in phase.open;
        ghost var q := Abs();
        AsyncClose(w);
        OneStep(old(Abs()), q, Winning(w), Abs());
      }
    }

    /** Push one sentinel for every worker in the map. */
    method PushSentinels()
      requires phase == Pushing(|threads|)
      modifies this
      ensures RunsTo(old(Abs()), Abs())
      ensures |workers| == |old(workers)|
      ensures Abs() == old(Abs()).(phase := Pushing(0), workers := workers, queue := taskQueue, pushed := pushed)
      ensures taskQueue == old(taskQueue) + seq(|threads|, i => EndTask)
      ensures forall w: nat | w < |workers| :: workers[w].close == old(workers)[w].close
      ensures threads != {} ==> forall w: nat | w < |workers| :: old(taskQueue) == [] ==> workers[w].pc != Asleep
    {
      hide RunsTo, Takes;
      NoStep(Abs());
      while phase.left > 0
        invariant phase.Pushing? && phase.left <= |threads| && |workers| == |old(workers)|
        invariant Abs() == old(Abs()).(phase := phase, workers := workers, queue := taskQueue, pushed := pushed)
        invariant taskQueue == old(taskQueue) + seq(|threads| - phase.left, i => EndTask)
        invariant forall w: nat | w < |workers| :: workers[w].close == old(workers)[w].close
        invariant phase.left < |threads| && old(taskQueue) == [] ==>
                    forall w: nat | w < |workers| :: workers[w].pc != Asleep
        invariant RunsTo(old(Abs()), Abs())
        decreases phase.left
      {
        ghost var q := Abs();
        PushEndTask();
        OneStep(old(Abs()), q, Winning(0), Abs());
      }
    }

    /** Erase every reported worker from the map, and forget the reports. */
    method Reap()
      requires monitor == MReap(0) && Reapable(Abs())
      modifies this
      ensures RunsTo(old(Abs()), Abs())
      ensures Abs() == old(Abs()).(monitor := MCheck, sub := [], threads := threads)
      ensures threads == Unreported(old(threads), old(subWorkerThreadId))
      ensures forall w :: w in threads <==> w in old(threads) && w + 1 !in old(subWorkerThreadId)
    {
      hide RunsTo, Takes, Reapable, CanMonitor, DoReap, Unreported;
      ghost var p0 := Abs();
      NoStep(p0);
      NoneReported(threads);
      for i := 0 to |subWorkerThreadId|
        invariant monitor == MReap(i) && Reapable(Abs()) && i <= |old(subWorkerThreadId)|
        invariant Abs() == p0.(monitor := MReap(i), threads := Unreported(old(threads), old(subWorkerThreadId)[..i]))
        invariant RunsTo(p0, Abs())
      {
        ghost var q := Abs();
        OneReaped(q, i, old(threads));
        var erased := SubWorkerThread();
        OneStep(p0, q, Monitor, Abs());
      }
      assert old(subWorkerThreadId)[..|subWorkerThreadId|] == old(subWorkerThreadId);
      ghost var q := Abs();
      AllReaped(q);
      var erased := SubWorkerThread();
      OneStep(p0, q, Monitor, Abs());
      UnreportedMeans(old(threads), old(subWorkerThreadId));
    }

    // ---------- The member functions, undisturbed ----------

    /** The task is refused once shutdown is requested; otherwise it is queued and whoever waits for it is
        out of the wait set. */
    method DoAddTask(t: Thread, task: Option<nat>) returns (admitted: bool)
      requires t !in submitters && MapIsFree()
      modifies this
      ensures RunsTo(old(Abs()), Abs())
      ensures admitted <==> !old(isRequestShutDown) && task.Some?
      ensures !admitted ==> Abs() == old(Abs())
      ensures admitted ==>
                && taskQueue == old(taskQueue) + [UserTask(task.value)] && accepted == old(accepted) + [task.value]
                && (old(taskQueue) == [] ==> forall w | w in workers :: w.pc != Asleep)
                && (old(taskQueue) != [] ==> workers == old(workers))
                && (JudgeFunc() ==> monitor != MAsleep) && (!JudgeFunc() ==> monitor == old(monitor))
                && callers == old(callers) && state == old(state) && started == old(started)
                && submitters == old(submitters) && threads == old(threads)
                && subWorkerThreadId == old(subWorkerThreadId)
    {
      hide RunsTo, Takes;
      ghost var p0 := Abs();
      NoStep(p0);
      ghost var q := Abs();
      admitted := BeginAddTask(t, task);
      OneStep(p0, q, Submit(t, task), Abs());
      if admitted {
        q := Abs();
        PushTask(t);
        OneStep(p0, q, Submitting(t), Abs());
        q := Abs();
        NotifyAfterPush(t);
        OneStep(p0, q, Submitting(t), Abs());
        assert submitters == old(submitters);
      }
    }

    /** The finish action without a request: the worker reports itself and wakes the monitor. */
    method ReportItself(w: nat)
      requires w < |workers| && workers[w].pc == AtReport && MapIsFree()
      modifies this
      ensures RunsTo(old(Abs()), Abs())
      ensures monitor != MAsleep
      ensures Abs() == old(Abs()).(sub := old(subWorkerThreadId) + [w + 1], monitor := monitor,
                                   workers := old(workers)[w := old(workers)[w].(pc := Done, fate := Reported)])
    {
      hide RunsTo, Takes;
      ghost var p0 := Abs();
      NoStep(p0);
      ghost var q := Abs();
      AddWorkerThreadIdToSubVector(w);
      OneStep(p0, q, Work(w), Abs());
      q := Abs();
      NotifyAfterReport(w);
      OneStep(p0, q, Work(w), Abs());
      assert workers == old(workers)[w := old(workers)[w].(pc := Done, fate := Reported)];
    }

    /** The finish action during a shutdown: the worker counts itself, and the one that completes the count
        ends the shutdown and wakes every caller. */
    method CountItself(w: nat)
      requires w < |workers| && workers[w].pc == AtCount && isRequestShutDown
      modifies this
      ensures RunsTo(old(Abs()), Abs())
      ensures stoppedThreadNum == old(stoppedThreadNum) + 1
      ensures Abs() == old(Abs()).(stopped := stoppedThreadNum, callers := callers,
                                   state := if stoppedThreadNum >= |threads| then SHUTDOWN else old(state),
                                   workers := old(workers)[w := old(workers)[w].(pc := Done, fate := Counted)])
      ensures stoppedThreadNum >= |threads| ==> forall c | c in callers :: callers[c].pc != AsleepInWait
    {
      hide RunsTo, Takes;
      ghost var p0 := Abs();
      NoStep(p0);
      ghost var q := Abs();
      CountStopped(w);
      OneStep(p0, q, Work(w), Abs());
      q := Abs();
      var last := CompareStopped(w);
      OneStep(p0, q, Work(w), Abs());
      if last {
        q := Abs();
        SetShutDown(w);
        OneStep(p0, q, Work(w), Abs());
        q := Abs();
        NotifyAllCallers(w);
        OneStep(p0, q, Work(w), Abs());
      }
      assert workers == old(workers)[w := old(workers)[w].(pc := Done, fate := Counted)];
    }

    /** A worker's finish action: reaping or counting, as the shutdown flag says when it is read. */
    method NotifyWhenThreadsStop(w: nat)
      requires w < |workers| && workers[w].pc == Left && MapIsFree()
      modifies this
      ensures RunsTo(old(Abs()), Abs())
      ensures workers == old(workers)[w := old(workers)[w].(pc := Done, fate :=
                           if isRequestShutDown then Counted else Reported)]
      ensures !isRequestShutDown ==>
                && subWorkerThreadId == old(subWorkerThreadId) + [w + 1] && monitor != MAsleep
                && state == old(state) && stoppedThreadNum == old(stoppedThreadNum) && callers == old(callers)
      ensures isRequestShutDown ==>
                && stoppedThreadNum == old(stoppedThreadNum) + 1 && subWorkerThreadId == old(subWorkerThreadId)
                && state == (if stoppedThreadNum >= |threads| then SHUTDOWN else old(state))
                && (stoppedThreadNum >= |threads| ==> forall c | c in callers :: callers[c].pc != AsleepInWait)
      ensures isRequestShutDown == old(isRequestShutDown) && threads == old(threads)
    {
      hide RunsTo, Takes;
      ghost var p0 := Abs();
      NoStep(p0);
      var shuttingDown := LoadRequest(w);
      OneStep(p0, p0, Work(w), Abs());
      ghost var q := Abs();
      if shuttingDown {
        CountItself(w);
      } else {
        ReportItself(w);
      }
      Joined(p0, q, Abs());
    }

    /** The end of a shutdown: the monitor is told to close and has a reason to wake. */
    method NotifyMonitorThread()
      requires phase == ToCloseMonitor && MapIsFree()
      modifies this
      ensures RunsTo(old(Abs()), Abs())
      ensures monitor != MAsleep && (old(monitor) != MAsleep ==> monitor == old(monitor))
      ensures Abs() == old(Abs()).(monitorClosed := true, sub := old(subWorkerThreadId) + [0], monitor := monitor,
                                   phase := Finished)
    {
      hide RunsTo, Takes;
      ghost var p0 := Abs();
      NoStep(p0);
      ghost var q := Abs();
      CloseMonitor();
      OneStep(p0, q, Winning(0), Abs());
      q := Abs();
      AddZeroToSubVector();
      OneStep(p0, q, Winning(0), Abs());
      q := Abs();
      NotifyMonitor();
      OneStep(p0, q, Winning(0), Abs());
    }

    /** The body of ShutDown for the thread that won the race: STOP, every worker of the map told to close,
        a sentinel for each of them, the monitor told to close. */
    method StopEverything()
      requires phase == ToSetStop && MapIsFree() && forall w | w in threads :: w < |workers|
      modifies this
      ensures RunsTo(old(Abs()), Abs())
      ensures state == STOP && phase == Finished && monitorClosed && monitor != MAsleep
      ensures subWorkerThreadId == old(subWorkerThreadId) + [0]
      ensures taskQueue == old(taskQueue) + seq(|threads|, i => EndTask)
      ensures |workers| == |old(workers)|
      ensures forall w: nat | w < |workers| :: workers[w].close <==> old(workers)[w].close || w in threads
      ensures threads != {} && old(taskQueue) == [] ==> forall w: nat | w < |workers| :: workers[w].pc != Asleep
      ensures threads == old(threads) && callers == old(callers) && isRequestShutDown == old(isRequestShutDown)
      ensures submitters == old(submitters) && stoppedThreadNum == old(stoppedThreadNum)
    {
      hide RunsTo, Takes;
      ghost var p0 := Abs();
      NoStep(p0);
      ghost var q := Abs();
      SetStop();
      OneStep(p0, q, Winning(0), Abs());
      q := Abs();
      LockThreads();
      OneStep(p0, q, Winning(0), Abs());
      ghost var p1 := Abs();
      CloseWorkers();
      Joined(p0, p1, Abs());
      q := Abs();
      BeginPushing();
      OneStep(p0, q, Winning(0), Abs());
      ghost var p2 := Abs();
      PushSentinels();
      Joined(p0, p2, Abs());
      q := Abs();
      UnlockThreads();
      OneStep(p0, q, Winning(0), Abs());
      ghost var p3 := Abs();
      NotifyMonitorThread();
      Joined(p0, p3, Abs());
    }

    /** ShutDown (now == false) and ShutDownNow (now == true). Only the first call does anything besides
        waiting; ShutDownNow returns exactly in SHUTDOWN and sleeps otherwise. */
    method ShutDown(t: Thread, now: bool) returns (returned: bool)
      requires t !in callers && MapIsFree() && forall w | w in threads :: w < |workers|
      modifies this
      ensures RunsTo(old(Abs()), Abs())
      ensures returned <==> now ==> state == SHUTDOWN
      ensures callers == old(callers)[t := Caller(if returned then Returned else AsleepInWait, now)]
      ensures old(isRequestShutDown) ==> Abs() == old(Abs()).(callers := callers)
      ensures !old(isRequestShutDown) ==>
                && isRequestShutDown && state == STOP && monitorClosed && monitor != MAsleep
                && subWorkerThreadId == old(subWorkerThreadId) + [0]
                && taskQueue == old(taskQueue) + seq(|threads|, i => EndTask)
                && threads == old(threads) && |workers| == |old(workers)|
                && (forall w: nat | w < |workers| :: workers[w].close <==> old(workers)[w].close || w in threads)
                && (threads != {} && old(taskQueue) == [] ==> forall w | w in workers :: w.pc != Asleep)
    {
      hide RunsTo, Takes;
      ghost var p0 := Abs();
      NoStep(p0);
      ghost var q := Abs();
      var won := RequestShutDown(t, now);
      OneStep(p0, q, Event.ShutDown(t, now), Abs());
      if won {
        ghost var p1 := Abs();
        StopEverything();
        Joined(p0, p1, Abs());
        q := Abs();
        var waits := Proceed(t);
        OneStep(p0, q, Calling(t), Abs());
      }
      q := Abs();
      returned := Proceed(t);
      OneStep(p0, q, Calling(t), Abs());
    }

    // ---------- The two loops of the threads, one undisturbed turn ----------

    /** A turn of the worker's loop: leave if told to close, wait on an empty queue, otherwise take the
        head and run it, or leave if it is a sentinel. */
    method ProcessTask(w: nat)
      requires w < |workers| && workers[w].pc == AtCheck
      modifies this
      ensures RunsTo(old(Abs()), Abs())
      ensures var takes := !old(workers)[w].close && old(taskQueue) != [];
              var runs := takes && old(taskQueue)[0] != EndTask;
              var pc := if runs then AtCheck else if takes || old(workers)[w].close then Left else Asleep;
              Abs() == SetPc(old(Abs()), w, pc).(
                         queue := if takes then old(taskQueue)[1..] else old(taskQueue),
                         started := if runs then old(started) + [old(taskQueue)[0].id] else old(started))
    {
      hide RunsTo, Takes;
      ghost var p0 := Abs();
      NoStep(p0);
      ghost var q := Abs();
      var go := CheckFunc(w);
      OneStep(p0, q, Work(w), Abs());
      if go {
        q := Abs();
        var popped := PopTimeWait(w);
        OneStep(p0, q, Work(w), Abs());
        if popped.Some? {
          q := Abs();
          var run := Dispatch(w);
          OneStep(p0, q, Work(w), Abs());
          if run {
            q := Abs();
            EndTaskRun(w);
            OneStep(p0, q, Work(w), Abs());
          }
        }
      }
    }

    /** A worker whose wait expired: it leaves exactly if the map holds more than core workers. */
    method HandleTimeout(w: nat) returns (retires: bool)
      requires w < |workers| && workers[w].pc in {Asleep, Awake} && MapIsFree()
      modifies this
      ensures RunsTo(old(Abs()), Abs())
      ensures retires <==> |threads| > corePoolSize
      ensures Abs() == old(Abs()).(workers := workers)
      ensures workers == old(workers)[w := if retires then old(workers)[w].(pc := Left, close := true)
                                           else old(workers)[w].(pc := AtCheck)]
    {
      hide RunsTo, Takes;
      ghost var p0 := Abs();
      NoStep(p0);
      ghost var q := Abs();
      WaitExpires(w);
      OneStep(p0, q, WorkTimeout(w), Abs());
      q := Abs();
      retires := IfMoreThan(w);
      OneStep(p0, q, Work(w), Abs());
      if retires {
        q := Abs();
        CloseItself(w);
        OneStep(p0, q, Work(w), Abs());
        q := Abs();
        var go := CheckFunc(w);
        OneStep(p0, q, Work(w), Abs());
      }
    }

    /** The monitor with something to do: it adds a worker to a crowded pool below its limit and erases
        exactly the reported ones. */
    method ScaleAndReap()
      requires monitor == MScale && Reapable(Abs()) && forall w | w in threads :: w < |workers|
      requires forall j | 0 <= j < |subWorkerThreadId| :: subWorkerThreadId[j] <= |workers|
      modifies this
      ensures RunsTo(old(Abs()), Abs())
      ensures Abs() == old(Abs()).(monitor := MCheck, sub := [], workers := workers, threads := threads)
      ensures workers == old(workers) +
                         if |taskQueue| > 1024 && |old(threads)| < maxThreadSize
                         then [Worker(Starting, false, Working)] else []
      ensures forall w :: w in threads <==>
                (w in old(threads) || |old(workers)| <= w < |workers|) && w + 1 !in old(subWorkerThreadId)
    {
      hide RunsTo, Takes, Unreported, Crowded, AddWorker;
      ghost var p0 := Abs();
      NoStep(p0);
      AddWorkerThread();
      OneStep(p0, p0, Monitor, Abs());
      assert taskQueue == old(taskQueue) && subWorkerThreadId == old(subWorkerThreadId);
      ghost var q := Abs();
      Reap();
      Joined(p0, q, Abs());
    }

    /** A turn of the monitor: exit if told to close, sleep if there is nothing to do, otherwise scale and
        reap. */
    method HandleWorkerThread()
      requires monitor == MCheck && MapIsFree() && Reapable(Abs()) && forall w | w in threads :: w < |workers|
      requires forall j | 0 <= j < |subWorkerThreadId| :: subWorkerThreadId[j] <= |workers|
      modifies this
      ensures RunsTo(old(Abs()), Abs())
      ensures old(monitorClosed) ==> Abs() == old(Abs()).(monitor := MExited)
      ensures !old(monitorClosed) && old(subWorkerThreadId) == [] &&
              (|taskQueue| <= 1024 || |old(threads)| >= maxThreadSize)
              ==> Abs() == old(Abs()).(monitor := MAsleep)
      ensures (|taskQueue| <= 1024 || |old(threads)| >= maxThreadSize) ==> workers == old(workers)
      ensures !old(monitorClosed) && |taskQueue| > 1024 && |old(threads)| < maxThreadSize ==>
                workers == old(workers) + [Worker(Starting, false, Working)]
      ensures !old(monitorClosed) ==>
                && subWorkerThreadId == []
                && forall w :: w in threads <==>
                     (w in old(threads) || |old(workers)| <= w < |workers|) && w + 1 !in old(subWorkerThreadId)
      ensures Abs() == old(Abs()).(monitor := monitor, sub := subWorkerThreadId, workers := workers, threads := threads)
    {
      hide RunsTo, Takes, Unreported;
      ghost var p0 := Abs();
      NoStep(p0);
      MonitorStep();
      OneStep(p0, p0, Monitor, Abs());
      if monitor == MLock {
        ghost var q := Abs();
        MonitorStep();
        OneStep(p0, q, Monitor, Abs());
        if monitor == MRecheck {
          q := Abs();
          MonitorStep();
          OneStep(p0, q, Monitor, Abs());
          q := Abs();
          ScaleAndReap();
          Joined(p0, q, Abs());
        }
      }
    }
  }
}
