/** A task and its cancellation as a state machine. One runner executes `Run`, possibly again and again
    (a periodic task); any number of threads call `Cancel`. A step is one atomic access or one section
    that runs with the task's state mutex held. */
module TaskSpec {
  import opened Common

  datatype State = INIT | RUNNING | FINISHED | CANCELLED

  /** Where the runner stands in Run. */
  datatype RunnerPc =
    | Idle          // outside Run
    | Checked       // past the check, state not written yet
    | InBody        // inside DoRun
    | Completed     // DoRun returned, FINISHED not written yet
    | Thrown        // the cancel exception was caught, CANCELLED not written yet
    | Written       // stop state written, waiters not woken yet

  /** Where a thread stands in Cancel. */
  datatype CancelPc =
    | Requested     // flag stored, mutex not taken yet
    | Asleep        // in the wait set
    | Awake         // out of the wait set, mutex not taken again yet

  datatype Task = Task(
    state: State,
    requestCancel: bool,
    runner: RunnerPc,
    cancellers: map<Thread, CancelPc>,
    // history
    bodies: nat,          // bodies started
    lateBodies: nat,      // bodies started after the first request
    pastCheck: bool)      // at the first request the runner was past its check

  datatype Event =
    | Runner                 // the runner's next step
    | BodyThrows             // DoRun calls CheckCancellation and that throws
    | Cancel(thread: Thread) // store the flag
    | Await(thread: Thread)  // take the mutex, test the state
    | Spurious(thread: Thread)

  function Initial(): Task {
    Task(INIT, false, Idle, map[], 0, 0, false)
  }

  predicate IsStopState(s: State) {
    s == FINISHED || s == CANCELLED
  }

  predicate Enabled(k: Task, e: Event) {
    match e
    case Runner => true
    case BodyThrows => k.runner == InBody && k.requestCancel
    case Cancel(t) => t !in k.cancellers
    case Await(t) => t in k.cancellers && k.cancellers[t] != Asleep
    case Spurious(t) => t in k.cancellers && k.cancellers[t] == Asleep
  }

  function WakeAll(cancellers: map<Thread, CancelPc>): map<Thread, CancelPc> {
    map t | t in cancellers :: if cancellers[t] == Asleep then Awake else cancellers[t]
  }

  function DoRunner(k: Task): Task {
    match k.runner
    case Idle => k.(runner := if k.requestCancel then Thrown else Checked)
    case Checked =>
      k.(state := RUNNING, runner := InBody, bodies := k.bodies + 1,
         lateBodies := k.lateBodies + if k.requestCancel then 1 else 0)
    case InBody => k.(runner := Completed)
    case Completed => k.(state := FINISHED, runner := Written)
    case Thrown => k.(state := CANCELLED, runner := Written)
    case Written =>
      k.(runner := Idle, cancellers := if k.requestCancel then WakeAll(k.cancellers) else k.cancellers)
  }

  function DoCancel(k: Task, t: Thread): Task {
    k.(requestCancel := true, cancellers := k.cancellers[t := Requested],
       pastCheck := if k.requestCancel then k.pastCheck else k.runner == Checked)
  }

  function DoAwait(k: Task, t: Thread): Task {
    k.(cancellers := if IsStopState(k.state) then k.cancellers - {t} else k.cancellers[t := Asleep])
  }

  function Act(k: Task, e: Event): Task
    requires Enabled(k, e)
  {
    match e
    case Runner => DoRunner(k)
    case BodyThrows => k.(runner := Thrown)
    case Cancel(t) => DoCancel(k, t)
    case Await(t) => DoAwait(k, t)
    case Spurious(t) => k.(cancellers := k.cancellers[t := Awake])
  }

  function Step(k: Task, e: Event): Task {
    if Enabled(k, e) then Act(k, e) else k
  }

  function Exec(k: Task, es: seq<Event>): Task {
    if es == [] then k else Step(Exec(k, es[..|es| - 1]), es[|es| - 1])
  }

  /** The call to Cancel that this step lets return. */
  predicate Returns(k: Task, t: Thread) {
    t in k.cancellers && Enabled(k, Await(t)) && IsStopState(k.state)
  }

  /** Steps the runner still needs to be outside Run. */
  function StepsToIdle(pc: RunnerPc): nat {
    match pc
    case Idle => 0
    case Written => 1
    case Thrown => 2
    case Completed => 2
    case InBody => 3
    case Checked => 4
  }
}
