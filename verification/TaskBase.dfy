/** The task object. `Run` and `Cancel` are cut between their atomic accesses; `Run` and `Cancel` themselves
    are the sequence of those steps with nobody in between. */
module TaskBaseObject {
  import opened Common
  import opened TaskSpec

  class TaskBase {
    var state: State
    var isRequestCancel: bool
    var runner: RunnerPc
    var cancellers: map<Thread, CancelPc>
    ghost var bodies: nat
    ghost var lateBodies: nat
    ghost var pastCheck: bool

    ghost function Abs(): Task
      reads this
    {
      Task(state, isRequestCancel, runner, cancellers, bodies, lateBodies, pastCheck)
    }

    constructor ()
      ensures Abs() == Initial()
      ensures state == INIT && !isRequestCancel && runner == Idle && cancellers == map[] && bodies == 0
    {
      state, isRequestCancel, runner, cancellers := INIT, false, Idle, map[];
      bodies, lateBodies, pastCheck := 0, 0, false;
    }

    /** CheckCancellation at the head of Run: the exception is the result false. */
    method CheckBeforeRun() returns (go: bool)
      requires runner == Idle
      modifies this`runner
      ensures Abs() == Act(old(Abs()), Event.Runner)
      ensures go <==> !isRequestCancel
      ensures runner == if go then Checked else Thrown
    {
      go := !isRequestCancel;
      runner := if go then Checked else Thrown;
    }

    method SetRunning()
      requires runner == Checked
      modifies this`state, this`runner, this`bodies, this`lateBodies
      ensures Abs() == Act(old(Abs()), Event.Runner)
      ensures state == RUNNING && runner == InBody && bodies == old(bodies) + 1
      ensures lateBodies == old(lateBodies) + if isRequestCancel then 1 else 0
    {
      state := RUNNING;
      runner := InBody;
      bodies := bodies + 1;
      lateBodies := lateBodies + if isRequestCancel then 1 else 0;
    }

    /** The body ends; it may do so by a CheckCancellation of its own that throws. */
    method EndBody(checks: bool) returns (completed: bool)
      requires runner == InBody
      modifies this`runner
      ensures completed <==> !(checks && isRequestCancel)
      ensures runner == if completed then Completed else Thrown
      ensures Abs() == Act(old(Abs()), if completed then Event.Runner else BodyThrows)
    {
      completed := !(checks && isRequestCancel);
      runner := if completed then Completed else Thrown;
    }

    method SetStopState()
      requires runner == Completed || runner == Thrown
      modifies this`state, this`runner
      ensures Abs() == Act(old(Abs()), Event.Runner)
      ensures state == (if old(runner) == Completed then FINISHED else CANCELLED) && runner == Written
    {
      state := if runner == Completed then FINISHED else CANCELLED;
      runner := Written;
    }

    method WakeCancellers()
      requires runner == Written
      modifies this`cancellers, this`runner
      ensures Abs() == Act(old(Abs()), Event.Runner)
      ensures runner == Idle && cancellers.Keys == old(cancellers).Keys
      ensures forall t | t in cancellers ::
                cancellers[t] == if isRequestCancel && old(cancellers)[t] == Asleep then Awake else old(cancellers)[t]
    {
      if isRequestCancel {
        cancellers := map t | t in cancellers :: if cancellers[t] == Asleep then Awake else cancellers[t];
      }
      runner := Idle;
    }

    method Run(bodyChecks: bool)
      requires runner == Idle
      modifies this
      ensures runner == Idle && isRequestCancel == old(isRequestCancel)
      ensures state == if old(isRequestCancel) then CANCELLED else FINISHED
      ensures bodies == old(bodies) + if old(isRequestCancel) then 0 else 1
      ensures cancellers.Keys == old(cancellers).Keys
      ensures forall t | t in cancellers ::
                cancellers[t] == if isRequestCancel && old(cancellers)[t] == Asleep then Awake else old(cancellers)[t]
    {
      var go := CheckBeforeRun();
      if go {
        SetRunning();
        var completed := EndBody(bodyChecks);
      }
      SetStopState();
      WakeCancellers();
    }

    method RequestCancel(t: Thread)
      requires t !in cancellers
      modifies this`isRequestCancel, this`cancellers, this`pastCheck
      ensures Abs() == Act(old(Abs()), Event.Cancel(t))
      ensures isRequestCancel && cancellers == old(cancellers)[t := Requested]
      ensures pastCheck == if old(isRequestCancel) then old(pastCheck) else runner == Checked
    {
      pastCheck := if isRequestCancel then pastCheck else runner == Checked;
      isRequestCancel := true;
      cancellers := cancellers[t := Requested];
    }

    /** The wait loop of Cancel, from taking the mutex to the next wait or to the return. */
    method AwaitStop(t: Thread) returns (returned: bool)
      requires t in cancellers && cancellers[t] != Asleep
      modifies this`cancellers
      ensures Abs() == Act(old(Abs()), Event.Await(t))
      ensures returned <==> Returns(old(Abs()), t)
      ensures returned <==> state == FINISHED || state == CANCELLED
      ensures cancellers == if returned then old(cancellers) - {t} else old(cancellers)[t := Asleep]
    {
      returned := state == FINISHED || state == CANCELLED;
      cancellers := if returned then cancellers - {t} else cancellers[t := Asleep];
    }

    /** The whole call: the request is stored; the caller returns at once from a task in a stop state, even
        if its runner is about to start another body, and sleeps otherwise. */
    method Cancel(t: Thread) returns (returned: bool)
      requires t !in cancellers
      modifies this
      ensures isRequestCancel && state == old(state) && runner == old(runner) && bodies == old(bodies)
      ensures returned <==> state == FINISHED || state == CANCELLED
      ensures cancellers == if returned then old(cancellers) else old(cancellers)[t := Asleep]
    {
      RequestCancel(t);
      returned := AwaitStop(t);
      assert returned ==> cancellers == old(cancellers);
    }
  }
}
