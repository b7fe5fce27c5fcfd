/** The single-threaded pool as a state machine: its one consumer, any number of threads that add tasks,
    and any number that call ShutDown or ShutDownNow. A step is one atomic access or one section that runs
    with a mutex held. The heap is the bag of its tasks; taking its top means taking some first task. */
module SinglePoolSpec {
  import opened Common
  import opened PriorityOrder

  /** A fresh PriorityTask has priority 0. */
  const END_PRIORITY_TASK := Task(0, 0, true)

  datatype State = RUNNING | STOP | SHUTDOWN

  datatype ConsumerPc =
    | AtCheck          // about to call checkFunc
    | AtGet            // about to take the queue mutex
    | Asleep           // in the queue's wait set
    | Running(task: Task)
    | Left             // out of the loop; about to write SHUTDOWN
    | AtSignal         // about to signal one thread that waits for SHUTDOWN
    | Gone

  /** How far the caller that won the compare-and-set has come. */
  datatype Phase = Idle | ToSetStop | ToClose | ToPushEnd | Finished

  datatype CallerPc = Winner | AtWait | AsleepInWait | Returned

  /** A thread inside ShutDown (now == false) or ShutDownNow (now == true). */
  datatype Caller = Caller(pc: CallerPc, now: bool)

  datatype Pool = Pool(
    mode: RunMode,
    state: State,
    request: bool,                  // m_isRequestShutDown
    closed: bool,                   // the thread's close flag
    heap: multiset<Task>,
    pc: ConsumerPc,
    phase: Phase,
    callers: map<Thread, Caller>,
    pending: multiset<Task>,        // past the flag test of DoAddTask, not pushed yet
    // history
    accepted: multiset<Task>,
    log: seq<Entry>)                // pushes and pops, in order

  datatype Event =
    | Add(task: Task)               // the flag test
    | Push(task: Task)
    | Check
    | Get(task: Task)               // the whole of GetTask, if there is a task to get
    | Sleep                         // GetTask finds nothing and waits
    | Spurious                      // the consumer's wait ends by itself
    | EndRun
    | Finish                        // write SHUTDOWN
    | Signal(thread: Thread)        // signal the state condition; `thread` wakes if anyone sleeps there
    | Call(thread: Thread, now: bool)
    | Winning
    | Calling(thread: Thread)
    | CallSpurious(thread: Thread)

  function Initial(mode: RunMode): Pool {
    Pool(mode, RUNNING, false, false, multiset{}, AtCheck, Idle, map[], multiset{}, multiset{}, [])
  }

  // ---------- Pushing and popping ----------

  /** PushTask signals if the heap was empty; the consumer is the only thread that can be waiting. */
  function PushTask(p: Pool, t: Task): Pool {
    p.(heap := p.heap + multiset{t}, log := p.log + [In(t)],
       pc := if p.heap == multiset{} && p.pc == Asleep then AtGet else p.pc)
  }

  function TakeTask(p: Pool, t: Task): Pool {
    p.(heap := p.heap - multiset{t}, log := p.log + [Out(t)],
       pc := if t.isEnd then Left else Running(t))
  }

  // ---------- Shutting down ----------

  predicate SleepsInWait(p: Pool, t: Thread) {
    t in p.callers && p.callers[t].pc == AsleepInWait
  }

  function Sleepers(p: Pool): set<Thread> {
    set t | t in p.callers && p.callers[t].pc == AsleepInWait
  }

  function SetCaller(p: Pool, t: Thread, pc: CallerPc): Pool
    requires t in p.callers
  {
    p.(callers := p.callers[t := p.callers[t].(pc := pc)])
  }

  function DoCall(p: Pool, t: Thread, now: bool): Pool {
    if p.request then p.(callers := p.callers[t := Caller(AtWait, now)])
    else p.(request := true, phase := ToSetStop, callers := p.callers[t := Caller(Winner, now)])
  }

  function DoWinning(p: Pool): Pool {
    match p.phase
    case ToSetStop => p.(state := STOP, phase := ToClose)
    case ToClose => p.(closed := true, phase := ToPushEnd)
    case ToPushEnd => PushTask(p, END_PRIORITY_TASK).(phase := Finished)
    case Idle => p
    case Finished => p
  }

  predicate CanCall(p: Pool, t: Thread) {
    && t in p.callers
    && match p.callers[t].pc
       case Winner => p.phase == Finished
       case AtWait => true
       case AsleepInWait => false
       case Returned => false
  }

  /** ShutDown returns; ShutDownNow waits for the state SHUTDOWN. */
  function DoCalling(p: Pool, t: Thread): Pool
    requires t in p.callers
  {
    if p.callers[t].pc == Winner then SetCaller(p, t, AtWait)
    else if p.callers[t].now && p.state != SHUTDOWN then SetCaller(p, t, AsleepInWait)
    else SetCaller(p, t, Returned)
  }

  /** ConditionNotifyLocker: one signal, and only if a shutdown was requested. */
  function DoSignal(p: Pool, t: Thread): Pool {
    if p.request && SleepsInWait(p, t) then SetCaller(p, t, AtWait).(pc := Gone) else p.(pc := Gone)
  }

  // ---------- Steps and schedules ----------

  predicate Enabled(p: Pool, e: Event) {
    match e
    case Add(t) => !t.isEnd
    case Push(t) => t in p.pending
    case Check => p.pc == AtCheck
    case Get(t) => p.pc == AtGet && IsFirst(p.mode, p.heap, t)
    case Sleep => p.pc == AtGet && p.heap == multiset{}
    case Spurious => p.pc == Asleep
    case EndRun => p.pc.Running?
    case Finish => p.pc == Left
    case Signal(t) => p.pc == AtSignal && (Sleepers(p) == {} || SleepsInWait(p, t))
    case Call(t, _) => t !in p.callers
    case Winning => p.phase != Idle && p.phase != Finished
    case Calling(t) => CanCall(p, t)
    case CallSpurious(t) => SleepsInWait(p, t)
  }

  function Act(p: Pool, e: Event): Pool
    requires Enabled(p, e)
  {
    match e
    case Add(t) =>
      if p.request then p
      else p.(pending := p.pending + multiset{t}, accepted := p.accepted + multiset{t})
    case Push(t) => PushTask(p.(pending := p.pending - multiset{t}), t)
    case Check => p.(pc := if p.closed then Left else AtGet)
    case Get(t) => TakeTask(p, t)
    case Sleep => p.(pc := Asleep)
    case Spurious => p.(pc := AtGet)
    case EndRun => p.(pc := AtCheck)
    case Finish => p.(state := SHUTDOWN, pc := AtSignal)
    case Signal(t) => DoSignal(p, t)
    case Call(t, now) => DoCall(p, t, now)
    case Winning => DoWinning(p)
    case Calling(t) => DoCalling(p, t)
    case CallSpurious(t) => SetCaller(p, t, AtWait)
  }

  function Step(p: Pool, e: Event): Pool {
    if Enabled(p, e) then Act(p, e) else p
  }

  function Exec(p: Pool, es: seq<Event>): Pool {
    if es == [] then p else Step(Exec(p, es[..|es| - 1]), es[|es| - 1])
  }
}
