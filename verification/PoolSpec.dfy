/** The scaling thread pool as a state machine. A step is one atomic access or one section that runs with
    a mutex held; the two places where a thread keeps the thread-map mutex over several steps (the winner
    of the shutdown race, the monitor) are phases of their own. The fixed pool is the case core == max. */
module PoolSpec {
  import opened Common

  const TASK_QUEUE_SIZE_THRESHOLD: nat := 1024

  /** What the task queue holds: a user task or a sentinel. */
  datatype Item = UserTask(id: nat) | EndTask

  datatype State = RUNNING | STOP | SHUTDOWN

  // ---------- Workers ----------

  /** Where a worker stands: in its work loop up to InTask, then in its finish action. */
  datatype WorkerPc =
    | Starting                 // about to check the close flag before the loop
    | AtCheck                  // head of the loop: check the close flag
    | AtPop                    // about to take the queue mutex
    | Asleep                   // in the queue's wait set
    | Awake                    // out of the wait set, mutex not taken again yet
    | AtJudge                  // the wait timed out; about to compare the pool size
    | AtSelfClose              // too many threads; about to set its own close flag
    | Holds(item: Item)        // popped an item
    | InTask(id: nat)          // inside the task
    | Left                     // out of the loop; about to read the shutdown flag
    | AtReport                 // about to report itself for reaping
    | AtReportNotify
    | AtCount                  // about to count itself as stopped
    | AtCompare(count: nat)    // counted as number `count`; about to compare with the map's size
    | AtSetShutDown
    | AtBroadcast
    | Done

  /** How a worker ended, if it has. */
  datatype Fate = Working | Reported | Counted

  datatype Worker = Worker(pc: WorkerPc, close: bool, fate: Fate)

  // ---------- The other threads ----------

  /** The caller that wins the compare-and-set runs ShutDown's body. It holds the thread-map mutex in
      Closing and Pushing. */
  datatype Phase =
    | Idle
    | ToSetStop
    | ToLockThreads
    | Closing(open: set<nat>)   // workers not told to close yet
    | Pushing(left: nat)        // sentinels not pushed yet
    | ToCloseMonitor
    | ToPushZero
    | ToNotifyMonitor
    | Finished

  datatype CallerPc = Winner | AtWait | AsleepInWait | AwakeInWait | Returned

  /** A thread inside ShutDown (now == false) or ShutDownNow (now == true). */
  datatype Caller = Caller(pc: CallerPc, now: bool)

  /** The monitor holds the thread-map mutex from MRecheck to the end of MReap. */
  datatype MonitorPc =
    | MCheck | MLock | MAsleep | MAwake | MRecheck | MScale | MReap(next: nat) | MExited

  datatype Submitter = AtPush(id: nat) | AtNotify

  datatype Pool = Pool(
    core: nat,
    max: nat,
    request: bool,                        // m_isRequestShutDown
    state: State,
    stopped: nat,                         // m_stoppedThreadNum
    queue: seq<Item>,
    workers: seq<Worker>,                 // every worker ever created; worker i has thread id i + 1
    threads: set<nat>,                    // the workers that are keys of m_threads
    sub: seq<nat>,                        // m_subWorkerThreadId: thread ids, or 0 for the wake-up entry
    phase: Phase,
    callers: map<Thread, Caller>,
    monitor: MonitorPc,
    monitorClosed: bool,
    submitters: map<Thread, Submitter>,
    // history
    accepted: seq<nat>,                   // ids of the user tasks DoAddTask did not refuse
    pushed: seq<Item>,
    started: seq<nat>)                    // ids of the user tasks handed to Run

  datatype Event =
    | Work(w: nat)                        // the worker's next step
    | WorkTimeout(w: nat)
    | WorkSpurious(w: nat)
    | Submit(thread: Thread, task: Option<nat>)
    | Submitting(thread: Thread)
    | ShutDown(thread: Thread, now: bool) // the compare-and-set
    | Winning(w: nat)                     // the winner's next step; w: the worker it closes
    | Calling(thread: Thread)
    | CallSpurious(thread: Thread)
    | Monitor
    | MonitorTimeout
    | MonitorSpurious

  /** The numbers below n. */
  function Below(n: nat): (r: set<nat>)
    ensures forall i :: i in r <==> 0 <= i < n
    ensures |r| == n
  {
    if n == 0 then {} else Below(n - 1) + {n - 1}
  }

  function Initial(core: nat, max: nat): Pool {
    Pool(core, max, false, RUNNING, 0, [], seq(core, i => Worker(Starting, false, Working)),
         Below(core), [], Idle, map[], MCheck, false, map[], [], [], [])
  }

  // ---------- Conditions ----------

  predicate MonitorHolds(p: Pool) {
    p.monitor == MRecheck || p.monitor == MScale || p.monitor.MReap?
  }

  /** The thread-map mutex is free. */
  predicate Free(p: Pool) {
    !p.phase.Closing? && !p.phase.Pushing? && !MonitorHolds(p)
  }

  predicate Crowded(p: Pool) {
    |p.queue| > TASK_QUEUE_SIZE_THRESHOLD && |p.threads| < p.max
  }

  /** JudgeFunc: there is something for the monitor to do. */
  predicate Judge(p: Pool) {
    Crowded(p) || p.sub != []
  }

  // ---------- Condition variables ----------

  function WakeWorkers(ws: seq<Worker>): seq<Worker> {
    seq(|ws|, i requires 0 <= i < |ws| => if ws[i].pc == Asleep then ws[i].(pc := Awake) else ws[i])
  }

  function WakeCallers(cs: map<Thread, Caller>): map<Thread, Caller> {
    map c | c in cs :: if cs[c].pc == AsleepInWait then cs[c].(pc := AwakeInWait) else cs[c]
  }

  /** BlockingQueue::Push: broadcast if the queue was empty. */
  function PushItem(p: Pool, x: Item): Pool {
    p.(queue := p.queue + [x], pushed := p.pushed + [x],
       workers := if p.queue == [] then WakeWorkers(p.workers) else p.workers)
  }

  /** Where the monitor stands after a notification that depends on JudgeFunc. */
  function Notified(p: Pool): MonitorPc {
    if Judge(p) && p.monitor == MAsleep then MAwake else p.monitor
  }

  // ---------- Workers ----------

  function SetPc(p: Pool, w: nat, pc: WorkerPc): Pool
    requires w < |p.workers|
  {
    p.(workers := p.workers[w := p.workers[w].(pc := pc)])
  }

  /** The worker's own part of its next step. */
  function Next(p: Pool, me: Worker): Worker {
    match me.pc
    case Starting => me.(pc := if me.close then Left else AtCheck)
    case AtCheck => me.(pc := if me.close then Left else AtPop)
    case AtPop | Awake => me.(pc := if p.queue == [] then Asleep else Holds(p.queue[0]))
    case AtJudge => me.(pc := if |p.threads| > p.core then AtSelfClose else AtCheck)
    case AtSelfClose => me.(pc := AtCheck, close := true)
    case Holds(item) => me.(pc := if item == EndTask then Left else InTask(item.id))
    case InTask(_) => me.(pc := AtCheck)
    case Left => me.(pc := if p.request then AtCount else AtReport)
    case AtReport => me.(pc := AtReportNotify, fate := Reported)
    case AtReportNotify => me.(pc := Done)
    case AtCount => me.(pc := AtCompare(p.stopped + 1), fate := Counted)
    case AtCompare(k) => me.(pc := if k >= |p.threads| then AtSetShutDown else Done)
    case AtSetShutDown => me.(pc := AtBroadcast)
    case AtBroadcast => me.(pc := Done)
    case Asleep | Done => me
  }

  /** A worker's next step: its own part, and what it does to each field of the pool. */
  function DoWork(p: Pool, w: nat): Pool
    requires w < |p.workers|
  {
    var pc := p.workers[w].pc;
    p.(workers := p.workers[w := Next(p, p.workers[w])],
       queue := if (pc == AtPop || pc == Awake) && p.queue != [] then p.queue[1..] else p.queue,
       started := if pc.Holds? && pc.item.UserTask? then p.started + [pc.item.id] else p.started,
       sub := if pc == AtReport then p.sub + [w + 1] else p.sub,
       monitor := if pc == AtReportNotify then Notified(p) else p.monitor,
       stopped := if pc == AtCount then p.stopped + 1 else p.stopped,
       state := if pc == AtSetShutDown then SHUTDOWN else p.state,
       callers := if pc == AtBroadcast && p.request then WakeCallers(p.callers) else p.callers)
  }

  predicate CanWork(p: Pool, w: nat) {
    && w < |p.workers|
    && p.workers[w].pc != Asleep && p.workers[w].pc != Done
    && (p.workers[w].pc in {AtJudge, AtReport, AtReportNotify} ==> Free(p))
  }

  // ---------- Submitters ----------

  function DoSubmit(p: Pool, t: Thread, task: Option<nat>): Pool {
    if p.request || task == None then p
    else p.(submitters := p.submitters[t := AtPush(task.value)], accepted := p.accepted + [task.value])
  }

  function DoSubmitting(p: Pool, t: Thread): Pool
    requires t in p.submitters
  {
    match p.submitters[t]
    case AtPush(id) => PushItem(p, UserTask(id)).(submitters := p.submitters[t := AtNotify])
    case AtNotify => p.(monitor := Notified(p), submitters := p.submitters - {t})
  }

  // ---------- Shutdown ----------

  function DoShutDown(p: Pool, t: Thread, now: bool): Pool {
    if p.request then p.(callers := p.callers[t := Caller(AtWait, now)])
    else p.(request := true, phase := ToSetStop, callers := p.callers[t := Caller(Winner, now)])
  }

  function CloseOne(p: Pool, open: set<nat>, w: nat): Pool
    requires w < |p.workers|
  {
    p.(workers := p.workers[w := p.workers[w].(close := true)], phase := Closing(open - {w}))
  }

  predicate CanWin(p: Pool, w: nat) {
    match p.phase
    case Idle => false
    case Finished => false
    case Closing(open) => open != {} ==> w in open && w < |p.workers|
    case Pushing(_) => true
    case ToSetStop => true
    case ToCloseMonitor => true
    case _ => Free(p)
  }

  function DoWinning(p: Pool, w: nat): Pool
    requires CanWin(p, w)
  {
    match p.phase
    case ToSetStop => p.(state := STOP, phase := ToLockThreads)
    case ToLockThreads => p.(phase := Closing(p.threads))
    case Closing(open) => if open == {} then p.(phase := Pushing(|p.threads|)) else CloseOne(p, open, w)
    case Pushing(k) => if k == 0 then p.(phase := ToCloseMonitor) else PushItem(p, EndTask).(phase := Pushing(k - 1))
    case ToCloseMonitor => p.(monitorClosed := true, phase := ToPushZero)
    case ToPushZero => p.(sub := p.sub + [0], phase := ToNotifyMonitor)
    case ToNotifyMonitor => p.(monitor := Notified(p), phase := Finished)
    case Idle => p
    case Finished => p
  }

  predicate CanCall(p: Pool, t: Thread) {
    && t in p.callers
    && match p.callers[t].pc
       case Winner => p.phase == Finished
       case AtWait => true
       case AwakeInWait => true
       case AsleepInWait => false
       case Returned => false
  }

  function SetCaller(p: Pool, t: Thread, pc: CallerPc): Pool
    requires t in p.callers
  {
    p.(callers := p.callers[t := p.callers[t].(pc := pc)])
  }

  /** ShutDown returns; ShutDownNow waits for the state SHUTDOWN. */
  function DoCalling(p: Pool, t: Thread): Pool
    requires t in p.callers
  {
    if p.callers[t].pc == Winner then SetCaller(p, t, AtWait)
    else if p.callers[t].now && p.state != SHUTDOWN then SetCaller(p, t, AsleepInWait)
    else SetCaller(p, t, Returned)
  }

  // ---------- The monitor ----------

  function AddWorker(p: Pool): Pool {
    p.(workers := p.workers + [Worker(Starting, false, Working)], threads := p.threads + {|p.workers|})
  }

  function DoReap(p: Pool, next: nat): Pool {
    if next >= |p.sub| then p.(sub := [], monitor := MCheck)
    else if p.sub[next] > 0 && p.sub[next] - 1 in p.threads then
      p.(threads := p.threads - {p.sub[next] - 1}, monitor := MReap(next + 1))
    else p.(monitor := MReap(next + 1))
  }

  function DoMonitor(p: Pool): Pool {
    match p.monitor
    case MCheck => p.(monitor := if p.monitorClosed then MExited else MLock)
    case MLock => p.(monitor := if Judge(p) then MRecheck else MAsleep)
    case MAwake => p.(monitor := if Judge(p) then MRecheck else MAsleep)
    case MRecheck => p.(monitor := if p.monitorClosed then MExited else MScale)
    case MScale => (if Crowded(p) then AddWorker(p) else p).(monitor := MReap(0))
    case MReap(next) => DoReap(p, next)
    case MAsleep => p
    case MExited => p
  }

  predicate CanMonitor(p: Pool) {
    match p.monitor
    case MLock => Free(p)
    case MAwake => Free(p)
    case MReap(next) =>
      next < |p.sub| && p.sub[next] > 0 && p.sub[next] - 1 in p.threads ==>
        p.sub[next] - 1 < |p.workers| && p.workers[p.sub[next] - 1].pc == Done
    case MAsleep => false
    case MExited => false
    case _ => true
  }

  // ---------- Steps and schedules ----------

  predicate Enabled(p: Pool, e: Event) {
    match e
    case Work(w) => CanWork(p, w)
    case WorkTimeout(w) => w < |p.workers| && p.workers[w].pc in {Asleep, Awake}
    case WorkSpurious(w) => w < |p.workers| && p.workers[w].pc == Asleep
    case Submit(t, _) => t !in p.submitters
    case Submitting(t) => t in p.submitters && (p.submitters[t] == AtNotify ==> Free(p))
    case ShutDown(t, _) => t !in p.callers
    case Winning(w) => CanWin(p, w)
    case Calling(t) => CanCall(p, t)
    case CallSpurious(t) => t in p.callers && p.callers[t].pc == AsleepInWait
    case Monitor => CanMonitor(p)
    case MonitorTimeout => p.monitor in {MAsleep, MAwake} && Free(p)
    case MonitorSpurious => p.monitor == MAsleep
  }

  function Act(p: Pool, e: Event): Pool
    requires Enabled(p, e)
  {
    match e
    case Work(w) => DoWork(p, w)
    case WorkTimeout(w) => SetPc(p, w, AtJudge)
    case WorkSpurious(w) => SetPc(p, w, Awake)
    case Submit(t, task) => DoSubmit(p, t, task)
    case Submitting(t) => DoSubmitting(p, t)
    case ShutDown(t, now) => DoShutDown(p, t, now)
    case Winning(w) => DoWinning(p, w)
    case Calling(t) => DoCalling(p, t)
    case CallSpurious(t) => SetCaller(p, t, AwakeInWait)
    case Monitor => DoMonitor(p)
    case MonitorTimeout => p.(monitor := MRecheck)
    case MonitorSpurious => p.(monitor := MAwake)
  }

  function Step(p: Pool, e: Event): Pool {
    if Enabled(p, e) then Act(p, e) else p
  }

  function Exec(p: Pool, es: seq<Event>): Pool {
    if es == [] then p else Step(Exec(p, es[..|es| - 1]), es[|es| - 1])
  }
}
