/** Closing a thread, as a state machine. The state field is written without the mutex, so a closer that
    holds the mutex and has just seen "not finished" is a state of its own (`Holding`): the thread may
    write FINISHED before that closer is in the wait set. */
module CloseSpec {
  import opened Common

  datatype State = INIT | RUNNING | FINISHED

  datatype ThreadPc =
    | Created        // about to write RUNNING
    | FirstCheck     // about to call CheckIsRequestClose
    | InWork         // inside the work function
    | Leaving        // out of the work function, finish action not run yet
    | ActionDone     // finish action run, FINISHED not written yet
    | AboutToNotify  // FINISHED written, mutex not taken yet
    | Gone

  datatype CloserPc =
    | AtLock         // won the CAS; about to take the mutex
    | Holding        // has the mutex, has seen a state other than FINISHED
    | Asleep         // in the wait set
    | Awake          // out of the wait set, mutex not taken again yet

  datatype Closeable = Closeable(
    state: State,
    requestClose: bool,
    pc: ThreadPc,
    holder: Option<Thread>,            // owner of the mutex between two steps
    closers: map<Thread, CloserPc>,    // the threads inside Close
    // history
    actionRuns: nat,
    won: set<Thread>,                  // closers whose CAS succeeded
    returned: set<Thread>)             // of those, the ones that have returned

  datatype Event =
    | ThreadStep
    | WorkThrows                 // checkFunc throws inside the work function
    | AsyncClose
    | Close(thread: Thread)      // the CAS
    | CloserStep(thread: Thread)
    | Spurious(thread: Thread)

  function Initial(): Closeable {
    Closeable(INIT, false, Created, None, map[], 0, {}, {})
  }

  predicate Enabled(c: Closeable, e: Event) {
    match e
    case ThreadStep => c.pc != Gone && (c.pc == AboutToNotify ==> c.holder == None)
    case WorkThrows => c.pc == InWork && c.requestClose
    case AsyncClose => true
    case Close(t) => t !in c.closers && t !in c.won
    case CloserStep(t) =>
      && t in c.closers && c.closers[t] != Asleep
      && (if c.closers[t] == Holding then c.holder == Some(t) else c.holder == None)
    case Spurious(t) => t in c.closers && c.closers[t] == Asleep
  }

  function WakeAll(closers: map<Thread, CloserPc>): map<Thread, CloserPc> {
    map t | t in closers :: if closers[t] == Asleep then Awake else closers[t]
  }

  function DoThread(c: Closeable): Closeable
    requires c.pc != Gone
  {
    match c.pc
    case Created => c.(state := RUNNING, pc := FirstCheck)
    case FirstCheck => c.(pc := if c.requestClose then Leaving else InWork)
    case InWork => c.(pc := Leaving)
    case Leaving => c.(pc := ActionDone, actionRuns := c.actionRuns + 1)
    case ActionDone => c.(state := FINISHED, pc := AboutToNotify)
    case AboutToNotify => c.(pc := Gone, closers := if c.requestClose then WakeAll(c.closers) else c.closers)
  }

  /** A CAS that fails returns at once; nothing changes. */
  function DoClose(c: Closeable, t: Thread): Closeable {
    if c.requestClose then c
    else c.(requestClose := true, closers := c.closers[t := AtLock], won := c.won + {t})
  }

  function DoCloser(c: Closeable, t: Thread): Closeable
    requires t in c.closers
  {
    if c.closers[t] == Holding then
      c.(closers := c.closers[t := Asleep], holder := None)
    else if c.state == FINISHED then
      c.(closers := c.closers - {t}, returned := c.returned + {t})
    else
      c.(closers := c.closers[t := Holding], holder := Some(t))
  }

  function Act(c: Closeable, e: Event): Closeable
    requires Enabled(c, e)
  {
    match e
    case ThreadStep => DoThread(c)
    case WorkThrows => c.(pc := Leaving)
    case AsyncClose => c.(requestClose := true)
    case Close(t) => DoClose(c, t)
    case CloserStep(t) => DoCloser(c, t)
    case Spurious(t) => c.(closers := c.closers[t := Awake])
  }

  function Step(c: Closeable, e: Event): Closeable {
    if Enabled(c, e) then Act(c, e) else c
  }

  function Exec(c: Closeable, es: seq<Event>): Closeable {
    if es == [] then c else Step(Exec(c, es[..|es| - 1]), es[|es| - 1])
  }

  /** Steps until nobody inside Close can be asleep any more: the thread's own steps to its end. */
  function StepsToGone(pc: ThreadPc): nat {
    match pc
    case Created => 6
    case FirstCheck => 5
    case InWork => 4
    case Leaving => 3
    case ActionDone => 2
    case AboutToNotify => 1
    case Gone => 0
  }
}
