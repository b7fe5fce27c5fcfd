/** How a pool that scales, of any sizes core < max, can fail: the schedules that lead there. */
module ScalingPoolFailures {
  import opened Common
  import opened PoolRuns
  import opened PoolSpec
  import Base = PoolProperties
  import Tasks = PoolTasks

  /** Some schedule of a pool of these sizes leads here. */
  ghost predicate Reached(p: Pool) {
    RunsTo(Initial(p.core, p.max), p)
  }

  lemma Move(p: Pool, e: Event) returns (q: Pool)
    requires Reached(p) && Enabled(p, e)
    ensures q == Act(p, e) && Reached(q)
  {
    Base.StepKeepsSizes(p, e);
    hide RunsTo, Act, Enabled;
    q := Act(p, e);
    OneStep(Initial(p.core, p.max), p, e, q);
  }

  lemma ReachedInv(p: Pool)
    requires Reached(p)
    ensures Base.Inv(p)
  {
    hide Base.Inv;
    var es :| Exec(Initial(p.core, p.max), es) == p;
    Base.InitialInv(p.core, p.max);
    Base.ExecKeepsInv(Initial(p.core, p.max), es);
  }

  // ---------- The pool grows beyond core ----------

  /** No shutdown, nobody inside the pool but its workers, no sentinel queued. */
  ghost predicate Calm(p: Pool) {
    && !p.request && p.phase == Idle && p.state == RUNNING && p.stopped == 0
    && p.sub == [] && p.monitor == MCheck && !p.monitorClosed
    && p.submitters == map[] && p.callers == map[]
    && (forall x | x in p.queue :: x.UserTask?)
  }

  const FRESH := Worker(Starting, false, Working)

  /** Out of the loop by its own decision. */
  const RETIRING := Worker(Left, true, Working)

  function Copies(n: nat, w: Worker): seq<Worker> {
    seq(n, i => w)
  }

  lemma OneMore(p: Pool, id: nat) returns (p': Pool)
    requires Reached(p) && Calm(p) && WakeWorkers(p.workers) == p.workers
    ensures Reached(p') && Calm(p') && p'.core == p.core && p'.max == p.max && |p'.queue| == |p.queue| + 1
    ensures p'.workers == p.workers && p'.threads == p.threads
  {
    hide Reached, Judge, WakeWorkers;
    var p1 := Move(p, Submit(0, Some(id)));
    var p2 := Move(p1, Submitting(0));
    assert p2.queue == p.queue + [UserTask(id)];
    p' := Move(p2, Submitting(0));
    assert p'.submitters == map[];
  }

  lemma {:induction false} MoreTasks(p: Pool, k: nat) returns (p': Pool)
    requires Reached(p) && Calm(p) && WakeWorkers(p.workers) == p.workers
    ensures Reached(p') && Calm(p') && p'.core == p.core && p'.max == p.max && |p'.queue| == |p.queue| + k
    ensures p'.workers == p.workers && p'.threads == p.threads
  {
    hide Reached, Calm, WakeWorkers;
    if k == 0 {
      p' := p;
    } else {
      p' := MoreTasks(p, k - 1);
      p' := OneMore(p', k);
    }
  }

  lemma {:induction false} Submitted(core: nat, max: nat, k: nat) returns (p: Pool)
    ensures Reached(p) && Calm(p) && p.core == core && p.max == max && |p.queue| == k
    ensures p.workers == Copies(core, FRESH) && p.threads == Below(core)
  {
    p := Initial(core, max);
    NoStep(p);
    assert WakeWorkers(p.workers) == p.workers;
    p := MoreTasks(p, k);
  }

  /** The monitor wakes up, or does not sleep, when there is something to do. */
  lemma MonitorComes(p: Pool) returns (q: Pool)
    requires Reached(p) && Free(p) && p.monitor == MCheck && !p.monitorClosed && Judge(p)
    ensures Reached(q) && q == p.(monitor := MScale)
  {
    hide Reached;
    var p1 := Move(p, Monitor);
    var p2 := Move(p1, Monitor);
    assert p2 == p.(monitor := MRecheck);
    q := Move(p2, Monitor);
  }

  lemma AddsWorker(p: Pool) returns (q: Pool)
    requires Reached(p) && p.monitor == MScale && Crowded(p) && p.sub == []
    ensures Reached(q) && q == AddWorker(p).(monitor := MCheck)
  {
    hide Reached, Crowded, AddWorker;
    var p1 := Move(p, Monitor);
    assert p1 == AddWorker(p).(monitor := MReap(0));
    AddWorkerKeepsSub(p);
    q := Move(p1, Monitor);
  }

  lemma AddWorkerKeepsSub(p: Pool)
    ensures AddWorker(p).sub == p.sub
  {
  }

  /** The monitor finds more than 1024 queued tasks and adds a worker. */
  lemma {:induction false} Grown(core: nat, max: nat) returns (p: Pool)
    requires core < max
    ensures Reached(p) && Calm(p) && p.core == core && p.max == max
    ensures p.workers == Copies(core + 1, FRESH) && p.threads == Below(core + 1)
  {
    hide Reached, Notified, WakeCallers, WakeWorkers;
    p := Submitted(core, max, TASK_QUEUE_SIZE_THRESHOLD + 1);
    p := MonitorComes(p);
    p := AddsWorker(p);
    assert p.workers == Copies(core + 1, FRESH);
  }

  // ---------- Its newest worker does all the work ----------

  /** A worker's step that changes only the worker. */
  lemma Alone(p: Pool, w: nat) returns (q: Pool)
    requires Reached(p) && w < |p.workers| && (p.workers[w].pc == AtJudge ==> Free(p))
    requires p.workers[w].pc in {Starting, AtCheck, AtJudge, AtSelfClose, Left}
             || (p.workers[w].pc == AtPop && p.queue == [])
    ensures Reached(q) && q == p.(workers := p.workers[w := Next(p, p.workers[w])])
  {
    hide Reached, Free, Judge, WakeCallers, Next;
    q := Move(p, Work(w));
  }

  /** One round of worker `w`: check, pop, begin, end. */
  lemma OneRound(p: Pool, w: nat) returns (p': Pool)
    requires Reached(p) && Calm(p) && p.queue != []
    requires w < |p.workers| && p.workers[w] == FRESH.(pc := AtCheck)
    ensures Reached(p') && Calm(p') && p'.queue == p.queue[1..]
    ensures p'.core == p.core && p'.max == p.max && p'.workers == p.workers && p'.threads == p.threads
  {
    hide Reached, Judge, Notified, WakeCallers, WakeWorkers;
    var p1 := Move(p, Work(w));
    var p2 := Move(p1, Work(w));
    assert p2.workers[w].pc == Holds(p.queue[0]) && p.queue[0].UserTask?;
    var p3 := Move(p2, Work(w));
    p' := Move(p3, Work(w));
    assert p'.workers == p.workers;
  }

  lemma {:induction false} Drained(p: Pool, w: nat) returns (p': Pool)
    requires Reached(p) && Calm(p)
    requires w < |p.workers| && p.workers[w] == FRESH.(pc := AtCheck)
    ensures Reached(p') && Calm(p') && p'.queue == []
    ensures p'.core == p.core && p'.max == p.max && p'.workers == p.workers && p'.threads == p.threads
    decreases |p.queue|
  {
    if p.queue == [] {
      p' := p;
    } else {
      var q := OneRound(p, w);
      p' := Drained(q, w);
    }
  }

  /** The workers of a pool that has grown by one and has nothing left to do. */
  ghost predicate Idling(p: Pool) {
    && Reached(p) && Calm(p) && p.queue == [] && |p.workers| == p.core + 1 && p.threads == Below(p.core + 1)
    && forall i: nat | i <= p.core :: p.workers[i] == if i < p.core then FRESH else FRESH.(pc := AtCheck)
  }

  lemma {:induction false} NothingToDo(core: nat, max: nat) returns (p: Pool)
    requires core < max
    ensures Idling(p) && p.core == core && p.max == max
  {
    hide Reached, Judge;
    p := Grown(core, max);
    p := Alone(p, core);
    p := Drained(p, core);
  }

  // ---------- Retiring ----------

  /** A worker that goes to sleep on the empty queue of a pool with more than core workers leaves its loop
      when the wait times out. */
  lemma WalksOut(p: Pool, w: nat) returns (q: Pool)
    requires Reached(p) && Free(p) && p.queue == [] && |p.threads| > p.core
    requires w < |p.workers| && p.workers[w] == FRESH.(pc := AtCheck)
    ensures Reached(q) && q == p.(workers := p.workers[w := RETIRING])
  {
    hide Reached, Judge, WakeCallers, WakeWorkers;
    var p1 := Alone(p, w);
    var p2 := Alone(p1, w);
    assert p2 == p.(workers := p.workers[w := FRESH.(pc := Asleep)]);
    var p3 := Move(p2, WorkTimeout(w));
    var p4 := Alone(p3, w);
    assert p4 == p.(workers := p.workers[w := FRESH.(pc := AtSelfClose)]);
    var p5 := Alone(p4, w);
    q := Alone(p5, w);
    assert q.workers == p.workers[w := RETIRING];
  }

  /** It reports itself for reaping. */
  lemma Reports(p: Pool, w: nat) returns (q: Pool)
    requires Reached(p) && Free(p) && !p.request && w < |p.workers| && p.workers[w] == RETIRING
    ensures Reached(q)
    ensures q == p.(workers := p.workers[w := Worker(AtReportNotify, true, Reported)], sub := p.sub + [w + 1])
  {
    hide Reached, Judge, WakeCallers, WakeWorkers;
    var p1 := Alone(p, w);
    q := Move(p1, Work(w));
    assert q.workers == p.workers[w := Worker(AtReportNotify, true, Reported)];
  }

  /** The newest worker has retired and is about to notify the monitor; nobody else has moved. */
  ghost predicate HasReported(p: Pool) {
    && Reached(p) && Calm(p.(sub := [])) && p.sub == [p.core + 1] && p.queue == []
    && |p.workers| == p.core + 1 && p.threads == Below(p.core + 1)
    && p.workers[p.core] == Worker(AtReportNotify, true, Reported)
  }

  lemma {:induction false} Retired(core: nat, max: nat) returns (p: Pool)
    requires core < max
    ensures HasReported(p) && p.core == core && p.max == max
  {
    hide Reached, Judge;
    p := NothingToDo(core, max);
    p := WalksOut(p, core);
    p := Reports(p, core);
  }

  // ---------- Shutdown that cannot complete ----------

  /** The winner's progress while the retired worker waits to be reaped. */
  ghost predicate ShuttingDown(p: Pool, ph: Phase) {
    && Reached(p) && p.request && p.phase == ph && p.monitor == MCheck && !p.monitorClosed
    && |p.workers| == p.core + 1 && p.threads == Below(p.core + 1) && p.workers[p.core].fate == Reported
  }

  lemma {:induction false} AllTold(p: Pool, open: set<nat>) returns (q: Pool)
    requires ShuttingDown(p, Closing(open)) && open <= p.threads
    ensures ShuttingDown(q, Closing({})) && q.core == p.core && q.max == p.max
    decreases |open|
  {
    hide Reached, Judge, WakeWorkers;
    if open == {} {
      q := p;
    } else {
      var w :| w in open;
      var p1 := Move(p, Winning(w));
      q := AllTold(p1, open - {w});
    }
  }

  lemma {:induction false} AllPushed(p: Pool, k: nat) returns (q: Pool)
    requires ShuttingDown(p, Pushing(k))
    ensures ShuttingDown(q, Pushing(0)) && q.core == p.core && q.max == p.max
    decreases k
  {
    hide Reached, Judge;
    if k == 0 {
      q := p;
    } else {
      var p1 := Move(p, Winning(0));
      q := AllPushed(p1, k - 1);
    }
  }

  /** Shutdown is requested while a retired worker waits to be reaped; the monitor sees its own close flag
      first and exits, so that the map keeps an entry that is never counted. */
  lemma {:induction false} MonitorGone(core: nat, max: nat) returns (p: Pool)
    requires core < max
    ensures Reached(p) && p.core == core && p.max == max && p.request && Base.RetiredEntryLeft(p, core)
  {
    hide Reached, Judge, WakeWorkers;
    p := Retired(core, max);
    p := Move(p, Work(core));
    p := Move(p, ShutDown(0, true));
    p := Move(p, Winning(0));
    p := Move(p, Winning(0));
    p := AllTold(p, p.threads);
    p := Move(p, Winning(0));
    p := AllPushed(p, |p.threads|);
    p := Move(p, Winning(0));
    p := Move(p, Winning(0));
    p := Move(p, Monitor);
  }

  ghost predicate NeverShutDown(core: nat, max: nat, es: seq<Event>) {
    var p := Exec(Initial(core, max), es);
    p.request && forall fs :: Exec(p, fs).state != SHUTDOWN
  }

  /** With core < max there is a run that requests a shutdown and after which no schedule whatever reaches
      SHUTDOWN: ShutDownNow never returns. */
  lemma {:induction false} ShutDownCanHang(core: nat, max: nat)
    requires core < max
    ensures exists es :: NeverShutDown(core, max, es)
  {
    var p := MonitorGone(core, max);
    ReachedInv(p);
    var es :| Exec(Initial(core, max), es) == p;
    forall fs ensures Exec(p, fs).state != SHUTDOWN {
      Base.RetiredEntryBlocksShutDown(p, core, fs);
    }
    assert NeverShutDown(core, max, es);
  }

  // ---------- Deadlock on the retire path ----------

  /** The monitor, holding the thread map, joins a worker that still has to take the map's mutex. */
  predicate Deadlocked(p: Pool, w: nat) {
    && p.monitor.MReap? && p.monitor.next < |p.sub| && p.sub[p.monitor.next] == w + 1
    && w in p.threads && w < |p.workers| && p.workers[w].pc == AtReportNotify
    && PhaseBeforeLock(p.phase)
  }

  predicate PhaseBeforeLock(ph: Phase) {
    ph == Idle || ph == ToSetStop || ph == ToLockThreads
  }

  lemma DeadlockStays(p: Pool, e: Event, w: nat)
    requires Deadlocked(p, w)
    ensures Deadlocked(Step(p, e), w)
  {
    hide Next, Judge, WakeCallers;
    if Enabled(p, e) {
      match e
      case Work(v) =>
      case Winning(v) => match p.phase { case Closing(open) => case Pushing(k) => case _ => }
      case _ =>
    }
  }

  lemma DeadlockIsRetired(p: Pool, w: nat)
    requires Base.Inv(p) && Deadlocked(p, w)
    ensures p.state != SHUTDOWN
  {
    assert Base.WorkerOk(p, w);
  }

  /** The two wait for each other for ever; a shutdown never gets the mutex to tell a worker. */
  lemma {:induction false} DeadlockIsForever(p: Pool, w: nat, fs: seq<Event>)
    requires Base.Inv(p) && Deadlocked(p, w)
    ensures Deadlocked(Exec(p, fs), w) && Exec(p, fs).state != SHUTDOWN
  {
    hide Step, Base.Inv, Deadlocked;
    if fs != [] {
      DeadlockIsForever(p, w, fs[..|fs| - 1]);
      DeadlockStays(Exec(p, fs[..|fs| - 1]), fs[|fs| - 1], w);
    }
    Base.ExecKeepsInv(p, fs);
    DeadlockIsRetired(Exec(p, fs), w);
  }

  /** The deadlock is reached without any call to ShutDown: it is enough that the monitor wakes after the
      worker has reported and before that worker has notified. */
  lemma {:induction false} RetiringCanDeadlock(core: nat, max: nat)
    requires core < max
    ensures exists es :: Deadlocked(Exec(Initial(core, max), es), core)
                         && !Exec(Initial(core, max), es).request
  {
    hide Reached, WakeWorkers;
    var p := Retired(core, max);
    p := MonitorComes(p);
    p := Move(p, Monitor);
    assert Deadlocked(p, core);
    ByRun(p);
  }

  lemma ByRun(p: Pool)
    requires Reached(p)
    ensures exists es :: Exec(Initial(p.core, p.max), es) == p
  {
  }

  // ---------- Everybody retires at once ----------

  /** The workers below k have left their loops, the others have nothing to do. */
  ghost predicate WalkedOut(p: Pool, k: nat) {
    && Reached(p) && Calm(p) && p.queue == [] && k <= |p.workers| == p.core + 1 && p.threads == Below(p.core + 1)
    && (forall i: nat | i < k :: p.workers[i] == RETIRING)
    && (forall i: nat | k <= i <= p.core :: p.workers[i] == FRESH || p.workers[i] == FRESH.(pc := AtCheck))
  }

  /** Every worker finds core + 1 threads in the map, so every worker retires, the core ones as well. */
  lemma {:induction false} EverybodyOut(p: Pool, k: nat) returns (q: Pool)
    requires WalkedOut(p, k)
    ensures WalkedOut(q, p.core + 1) && q.core == p.core && q.max == p.max
    decreases p.core + 1 - k
  {
    hide Reached, Judge;
    if k == p.core + 1 {
      q := p;
    } else {
      var p1 := p;
      if p.workers[k].pc == Starting { p1 := Alone(p, k); }
      var p2 := WalksOut(p1, k);
      q := EverybodyOut(p2, k + 1);
    }
  }

  lemma {:induction false} AllOut(core: nat, max: nat) returns (p: Pool)
    requires core < max
    ensures WalkedOut(p, core + 1) && p.core == core && p.max == max
  {
    hide Reached, Judge, Calm;
    p := NothingToDo(core, max);
    p := EverybodyOut(p, 0);
  }

  // ---------- SHUTDOWN that is overwritten ----------

  /** Shutdown is requested; of the n workers in the map, all on their way out, those below k have counted
      themselves. */
  ghost predicate Counting(p: Pool, n: nat, k: nat) {
    && Reached(p) && p.request && p.stopped == k && k <= n <= |p.workers| && p.threads == Below(n)
    && (k > 0 ==> p.workers[k - 1].pc == AtCompare(k))
    && (forall i: nat | k <= i < n :: p.workers[i] == RETIRING)
  }

  lemma {:induction false} EverybodyCounts(p: Pool, n: nat, k: nat) returns (q: Pool)
    requires Counting(p, n, k)
    ensures Counting(q, n, n) && |q.workers| == |p.workers| && q == p.(workers := q.workers, stopped := n)
    decreases n - k
  {
    hide Reached, Judge, WakeCallers, Notified;
    if k == n {
      q := p;
    } else {
      var p1 := Alone(p, k);
      var p2 := Move(p1, Work(k));
      q := EverybodyCounts(p2, n, k + 1);
    }
  }

  /** The last to count itself ends the shutdown. */
  lemma LastOneDecides(p: Pool, n: nat) returns (q: Pool)
    requires Counting(p, n, n) && n > 0
    ensures Reached(q) && |q.workers| == |p.workers| && q == p.(workers := q.workers, state := SHUTDOWN)
  {
    hide Reached, Judge, WakeCallers, Notified;
    var p1 := Move(p, Work(n - 1));
    assert p1.workers[n - 1].pc == AtSetShutDown;
    q := Move(p1, Work(n - 1));
  }

  /** All workers retire together, find the request and count themselves; the last one writes SHUTDOWN
      before the winner has written STOP over it. */
  lemma {:induction false} ShutDownBeforeStop(core: nat, max: nat) returns (p: Pool)
    requires core < max
    ensures Reached(p) && p.core == core && p.max == max && p.state == SHUTDOWN && p.phase == ToSetStop
  {
    hide Reached, Judge, WakeCallers, Notified;
    p := AllOut(core, max);
    p := Move(p, ShutDown(0, true));
    p := EverybodyCounts(p, core + 1, 0);
    p := LastOneDecides(p, core + 1);
  }

  // ---------- A pool without workers ----------

  /** The workers below k have ended and wait to be reaped, in order. */
  ghost predicate Reporting(p: Pool, k: nat) {
    && Reached(p) && Calm(p.(sub := [])) && p.queue == []
    && k <= |p.workers| == p.core + 1 && p.threads == Below(p.core + 1)
    && |p.sub| == k && (forall i: nat | i < k :: p.sub[i] == i + 1 && p.workers[i].pc == Done)
    && (forall i: nat | k <= i <= p.core :: p.workers[i] == RETIRING)
  }

  lemma {:induction false} EverybodyReports(p: Pool, k: nat) returns (q: Pool)
    requires Reporting(p, k)
    ensures Reporting(q, p.core + 1) && q.core == p.core && q.max == p.max
    decreases p.core + 1 - k
  {
    hide Reached, Judge, WakeCallers;
    if k == p.core + 1 {
      q := p;
    } else {
      var p1 := Reports(p, k);
      var p2 := Move(p1, Work(k));
      q := EverybodyReports(p2, k + 1);
    }
  }

  /** The monitor has erased the workers below j. */
  ghost predicate Reaping(p: Pool, j: nat) {
    && Reached(p) && p.monitor == MReap(j) && j <= |p.sub| == |p.workers| == p.core + 1 && !p.request
    && (forall i :: i in p.threads <==> j <= i <= p.core)
    && (forall i: nat | i <= p.core :: p.sub[i] == i + 1 && p.workers[i].pc == Done)
  }

  lemma {:induction false} EverybodyReaped(p: Pool, j: nat) returns (q: Pool)
    requires Reaping(p, j)
    ensures Reaping(q, p.core + 1) && q.core == p.core && q.max == p.max
    decreases p.core + 1 - j
  {
    hide Reached, Judge;
    if j == p.core + 1 {
      q := p;
    } else {
      var p1 := Move(p, Monitor);
      q := EverybodyReaped(p1, j + 1);
    }
  }

  /** The pool loses all its workers, the core ones as well, while it is running. */
  lemma {:induction false} EveryWorkerCanRetire(core: nat, max: nat)
    requires core < max
    ensures exists es :: var p := Exec(Initial(core, max), es); p.threads == {} && !p.request
  {
    hide Reached, WakeCallers;
    var p := AllOut(core, max);
    p := EverybodyReports(p, 0);
    p := MonitorComes(p);
    p := Move(p, Monitor);
    p := EverybodyReaped(p, 0);
    assert p.threads == {};
    ByRun(p);
  }

  // ---------- A task after ShutDownNow ----------

  /** The map has room; its workers are on their way out, and nobody sleeps on the queue. */
  ghost predicate Leaving(p: Pool, n: nat) {
    && Reached(p) && Calm(p) && 1 <= n <= |p.workers| && n < p.max && p.threads == Below(n)
    && (forall i: nat | i < n :: p.workers[i] == RETIRING)
    && (forall w | w in p.workers :: w.pc != Asleep)
  }

  lemma ReapsOne(p: Pool, w: nat) returns (q: Pool)
    requires Reached(p) && p.monitor == MScale && !Crowded(p) && p.sub == [w + 1]
    requires w in p.threads && w < |p.workers| && p.workers[w].pc == Done
    ensures Reached(q) && q == p.(monitor := MCheck, sub := [], threads := p.threads - {w})
  {
    hide Reached, Judge;
    var p1 := Move(p, Monitor);
    var p2 := Move(p1, Monitor);
    assert p2 == p.(monitor := MReap(1), threads := p.threads - {w});
    q := Move(p2, Monitor);
  }

  /** The newest of the workers that walked out is reaped, the others are still to do their finish action. */
  lemma NewestReaped(p: Pool) returns (q: Pool)
    requires WalkedOut(p, p.core + 1) && p.core > 0 && p.core < p.max
    ensures Leaving(q, p.core) && q.core == p.core && q.max == p.max
  {
    hide Reached, WakeCallers;
    var p1 := Reports(p, p.core);
    var p2 := Move(p1, Work(p.core));
    assert p2.workers == p.workers[p.core := Worker(Done, true, Reported)];
    var p3 := MonitorComes(p2);
    q := ReapsOne(p3, p.core);
    assert Below(p.core + 1) - {p.core} == Below(p.core);
  }

  lemma {:induction false} RoomToGrow(core: nat, max: nat) returns (p: Pool, n: nat)
    requires core < max && max > 1
    ensures Leaving(p, n) && p.core == core && p.max == max
  {
    hide Reached, Calm;
    p := AllOut(core, max);
    if core == 0 {
      n := 1;
    } else {
      n := core;
      p := NewestReaped(p);
    }
  }

  /** The monitor has seen a crowded queue and stands before adding a worker, holding the map. */
  ghost predicate AboutToGrow(p: Pool) {
    p.monitor == MScale && Crowded(p) && p.queue[0].UserTask?
  }

  /** Meanwhile the workers of the map count themselves, and a caller of ShutDownNow returns. */
  lemma {:induction false} ReturnsBeforeGrowing(core: nat, max: nat) returns (p: Pool)
    requires core < max && max > 1
    ensures Reached(p) && p.core == core && p.max == max && AboutToGrow(p)
    ensures 1 in p.callers && p.callers[1] == Caller(Returned, true)
  {
    hide Reached, Judge, WakeCallers, WakeWorkers;
    var n;
    p, n := RoomToGrow(core, max);
    NobodyToWake(p.workers);
    p := MoreTasks(p, TASK_QUEUE_SIZE_THRESHOLD + 1);
    assert p.queue[0] in p.queue;
    p := Grows(p);
    p := Move(p, ShutDown(0, true));
    p := Move(p, ShutDown(1, true));
    p := Move(p, Winning(0));
    p := EverybodyCounts(p, n, 0);
    p := LastOneDecides(p, n);
    p := Move(p, Calling(1));
  }

  lemma NobodyToWake(ws: seq<Worker>)
    requires forall w | w in ws :: w.pc != Asleep
    ensures WakeWorkers(ws) == ws
  {
  }

  lemma Grows(p: Pool) returns (q: Pool)
    requires Reached(p) && Free(p) && p.monitor == MCheck && !p.monitorClosed && Crowded(p)
    ensures Reached(q) && q == p.(monitor := MScale)
  {
    q := MonitorComes(p);
  }

  ghost predicate StartsATask(p: Pool, fs: seq<Event>) {
    Exec(p, fs).started != p.started
  }

  /** A worker that nobody told to close takes the task at the head of the queue. */
  lemma TakesATask(p: Pool, q: Pool, w: nat) returns (r: Pool)
    requires RunsTo(p, q) && w < |q.workers| && q.workers[w] == FRESH && q.queue != [] && q.queue[0].UserTask?
    ensures RunsTo(p, r) && r.started == q.started + [q.queue[0].id]
  {
    hide RunsTo;
    var q1 := WorksOn(p, q, w);
    var q2 := WorksOn(p, q1, w);
    var q3 := WorksOn(p, q2, w);
    r := WorksOn(p, q3, w);
  }

  lemma WorksOn(p: Pool, q: Pool, w: nat) returns (r: Pool)
    requires RunsTo(p, q) && w < |q.workers|
    requires q.workers[w].pc in {Starting, AtCheck, AtPop} || q.workers[w].pc.Holds?
    ensures RunsTo(p, r) && r.workers == q.workers[w := Next(q, q.workers[w])]
    ensures r.queue == if q.workers[w].pc == AtPop && q.queue != [] then q.queue[1..] else q.queue
    ensures r.started == if q.workers[w].pc.Holds? && q.workers[w].pc.item.UserTask?
                         then q.started + [q.workers[w].pc.item.id] else q.started
  {
    r := DoWork(q, w);
    Tasks.WorkOnTasks(q, w);
    hide DoWork, Next;
    OneStep(p, q, Work(w), r);
  }

  /** The worker that is added now gets no close flag. */
  lemma {:induction false} NewWorkerRuns(p: Pool)
    requires AboutToGrow(p)
    ensures exists fs :: StartsATask(p, fs)
  {
    hide RunsTo, Judge;
    NoStep(p);
    var q := Act(p, Monitor);
    OneStep(p, p, Monitor, q);
    assert q.workers[|p.workers|] == FRESH && q.queue == p.queue && q.started == p.started;
    var r := TakesATask(p, q, |p.workers|);
    SomeRun(p, r);
  }

  lemma SomeRun(p: Pool, q: Pool)
    requires RunsTo(p, q) && q.started != p.started
    ensures exists fs :: StartsATask(p, fs)
  {
    var fs :| Exec(p, fs) == q;
    assert StartsATask(p, fs);
  }

  ghost predicate StartsAfterReturn(core: nat, max: nat, es: seq<Event>, c: Thread, fs: seq<Event>) {
    var p := Exec(Initial(core, max), es);
    c in p.callers && p.callers[c] == Caller(Returned, true) && StartsATask(p, fs)
  }

  /** With core < max and room for two workers there is a run in which ShutDownNow has returned and a task
      is started after that. */
  lemma {:induction false} TaskAfterShutDownNow(core: nat, max: nat)
    requires core < max && max > 1
    ensures exists es, c, fs :: StartsAfterReturn(core, max, es, c, fs)
  {
    var p := ReturnsBeforeGrowing(core, max);
    NewWorkerRuns(p);
    var fs :| StartsATask(p, fs);
    var es :| Exec(Initial(core, max), es) == p;
    assert StartsAfterReturn(core, max, es, 1, fs);
  }
}
