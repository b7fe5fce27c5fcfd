/** One timer task handler as a state machine: its thread, any number of threads that add and cancel
    tasks, and those that shut it down. A step is one atomic access or one section with the queue mutex
    held; the thread also holds that mutex in `Checked`. Clock readings are arbitrary. The queue is the
    set of queued tasks, and taking its head means taking some task of least deadline. */
module TimerSpec {

  type TaskId = nat

  datatype Task = Task(
    deadline: nat,
    interval: nat,
    isEnd: bool,          // the shutdown sentinel
    requested: bool,      // m_isRequestCancel
    cancelled: bool,      // m_state == CANCELLED
    // history
    added: bool,
    first: nat,           // the deadline it was added with
    dues: seq<nat>,       // its deadline at each firing by deadline
    readings: seq<nat>,   // the clock reading of each such firing
    bodies: nat,          // bodies started
    removals: nat)        // times it was popped for good

  datatype Pc =
    | AtTop                                // about to take the queue mutex
    | Checked                              // holds it; the queue is not empty and no close was seen
    | AsleepOnEmpty
    | AsleepUntil(deadline: nat)
    | InHand(task: TaskId, due: bool)      // popped to fire, by its deadline or because of a cancel
    | Cleared(task: TaskId)                // past the check of Run, body not started yet
    | InBody(task: TaskId)
    | Ended                                // left the loop, by break or by the close exception

  datatype Stage = NotRequested | Requested | SentinelPushed | CloseSet

  datatype Timer = Timer(
    tasks: map<TaskId, Task>,
    queue: set<TaskId>,
    pending: set<TaskId>,     // deadline set, not pushed yet
    pc: Pc,
    stage: Stage,             // how far the one caller that shuts down has come
    sentinel: TaskId)

  datatype Event =
    | Create(task: TaskId, requested: bool, cancelled: bool, interval: nat)
    | AddCron(task: TaskId, now: nat, delay: nat)
    | AddCycle(task: TaskId, now: nat, interval: nat, runNow: bool)
    | Push(task: TaskId)
    | Cancel(task: TaskId)
    | ShutDown
    | PushSentinel(task: TaskId)
    | SetClose
    | Acquire
    | Poll(now: nat, head: TaskId)
    | Wake
    | Check
    | Begin
    | EndBody(checks: bool)

  function Initial(): Timer {
    Timer(map[], {}, {}, AtTop, NotRequested, 0)
  }

  const NEW_TASK := Task(0, 0, false, false, false, false, 0, [], [], 0, 0)
  const END_TIMER_TASK := NEW_TASK.(isEnd := true, added := true)

  predicate IsClosed(s: Timer) {
    s.stage == CloseSet
  }

  predicate IsMin(s: Timer, head: TaskId) {
    && head in s.queue && head in s.tasks
    && forall t | t in s.queue && t in s.tasks :: s.tasks[head].deadline <= s.tasks[t].deadline
  }

  // ---------- What the thread does with the head of the queue ----------

  datatype Action = Drop | FireCancelled | FireOnce | FireAgain(deadline: nat) | Sleep(until: nat)

  function Decide(deadline: nat, interval: nat, cancelled: bool, requested: bool, now: nat): Action {
    if cancelled then Drop
    else if requested then FireCancelled
    else if deadline <= now then (if interval > 0 then FireAgain(now + interval) else FireOnce)
    else Sleep(deadline)
  }

  function Remove(s: Timer, id: TaskId, k: Task, pc: Pc): Timer {
    s.(tasks := s.tasks[id := k.(removals := k.removals + 1)], queue := s.queue - {id}, pc := pc)
  }

  function Fired(k: Task, now: nat): Task {
    k.(dues := k.dues + [k.deadline], readings := k.readings + [now])
  }

  function DoPoll(s: Timer, now: nat, id: TaskId): Timer
    requires id in s.tasks
  {
    var k := s.tasks[id];
    match Decide(k.deadline, k.interval, k.cancelled, k.requested, now)
    case Drop => Remove(s, id, k, AtTop)
    case FireCancelled => Remove(s, id, k, InHand(id, false))
    case FireOnce => Remove(s, id, Fired(k, now), InHand(id, true))
    case FireAgain(d) => s.(tasks := s.tasks[id := Fired(k, now).(deadline := d)], pc := InHand(id, true))
    case Sleep(d) => s.(pc := AsleepUntil(d))
  }

  /** The check at the head of Run; the sentinel is not run, it ends the loop. The state CANCELLED is written
      in the same step, since nobody but the timer thread reads it here. */
  function DoCheck(s: Timer, id: TaskId): Timer
    requires id in s.tasks
  {
    var k := s.tasks[id];
    if k.isEnd then s.(pc := Ended)
    else if k.requested then s.(tasks := s.tasks[id := k.(cancelled := true)], pc := AtTop)
    else s.(pc := Cleared(id))
  }

  /** The body starts, whether or not a cancel was requested since the check. */
  function DoBegin(s: Timer, id: TaskId): Timer
    requires id in s.tasks
  {
    s.(tasks := s.tasks[id := s.tasks[id].(bodies := s.tasks[id].bodies + 1)], pc := InBody(id))
  }

  function DoEndBody(s: Timer, id: TaskId, checks: bool): Timer
    requires id in s.tasks
  {
    var k := s.tasks[id];
    if checks && k.requested then s.(tasks := s.tasks[id := k.(cancelled := true)], pc := AtTop)
    else s.(pc := AtTop)
  }

  function DoAcquire(s: Timer): Timer {
    s.(pc := if IsClosed(s) then Ended else if s.queue == {} then AsleepOnEmpty else Checked)
  }

  // ---------- What the other threads do ----------

  predicate IsAsleep(pc: Pc) {
    pc == AsleepOnEmpty || pc.AsleepUntil?
  }

  /** A task is accepted if no close was requested and it has never been given a deadline. */
  function DoAdd(s: Timer, id: TaskId, deadline: nat, interval: nat): Timer
    requires id in s.tasks
  {
    var k := s.tasks[id];
    if IsClosed(s) || k.deadline != 0 then s
    else s.(tasks := s.tasks[id := k.(deadline := deadline, interval := interval, added := true, first := deadline)],
            pending := s.pending + {id})
  }

  /** PushTask notifies the timer thread. */
  function Notified(pc: Pc): Pc {
    if IsAsleep(pc) then AtTop else pc
  }

  predicate Enabled(s: Timer, e: Event) {
    match e
    case Create(id, requested, cancelled, _) => id !in s.tasks && (cancelled ==> requested)
    case AddCron(id, now, delay) => id in s.tasks && !s.tasks[id].isEnd && now + delay > 0
    case AddCycle(id, now, interval, runNow) =>
      id in s.tasks && !s.tasks[id].isEnd && (if runNow then now > 0 else now + interval > 0)
    case Push(id) => id in s.pending && s.pc != Checked
    case Cancel(id) => id in s.tasks && !s.tasks[id].isEnd
    case ShutDown => s.stage == NotRequested
    case PushSentinel(id) => s.stage == Requested && id !in s.tasks && s.pc != Checked
    case SetClose => s.stage == SentinelPushed
    case Acquire => s.pc == AtTop
    case Poll(_, head) => s.pc == Checked && IsMin(s, head)
    case Wake => IsAsleep(s.pc)
    case Check => s.pc.InHand? && s.pc.task in s.tasks
    case Begin => s.pc.Cleared? && s.pc.task in s.tasks
    case EndBody(_) => s.pc.InBody? && s.pc.task in s.tasks
  }

  function Act(s: Timer, e: Event): Timer
    requires Enabled(s, e)
  {
    match e
    case Create(id, requested, cancelled, interval) =>
      s.(tasks := s.tasks[id := NEW_TASK.(requested := requested, cancelled := cancelled, interval := interval)])
    case AddCron(id, now, delay) => DoAdd(s, id, now + delay, s.tasks[id].interval)
    case AddCycle(id, now, interval, runNow) => DoAdd(s, id, if runNow then now else now + interval, interval)
    case Push(id) => s.(queue := s.queue + {id}, pending := s.pending - {id}, pc := Notified(s.pc))
    case Cancel(id) => s.(tasks := s.tasks[id := s.tasks[id].(requested := true)])
    case ShutDown => s.(stage := Requested)
    case PushSentinel(id) =>
      s.(tasks := s.tasks[id := END_TIMER_TASK], queue := s.queue + {id}, sentinel := id,
         stage := SentinelPushed, pc := Notified(s.pc))
    case SetClose => s.(stage := CloseSet)
    case Acquire => DoAcquire(s)
    case Poll(now, head) => DoPoll(s, now, head)
    case Wake => s.(pc := AtTop)
    case Check => DoCheck(s, s.pc.task)
    case Begin => DoBegin(s, s.pc.task)
    case EndBody(checks) => DoEndBody(s, s.pc.task, checks)
  }

  function Step(s: Timer, e: Event): Timer {
    if Enabled(s, e) then Act(s, e) else s
  }

  function Exec(s: Timer, es: seq<Event>): Timer {
    if es == [] then s else Step(Exec(s, es[..|es| - 1]), es[|es| - 1])
  }
}
