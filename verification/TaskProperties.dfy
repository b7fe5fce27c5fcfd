/** What every schedule of one runner and any number of cancellers keeps. */
module TaskProperties {
  import opened Common
  import opened TaskSpec

  /** Who sleeps, and who is about to wake the sleepers. */
  ghost predicate HandshakeOk(k: Task) {
    && (k.cancellers != map[] ==> k.requestCancel)
    && (k.runner == Written ==> IsStopState(k.state))
    && (k.runner in {InBody, Completed} ==> k.state == RUNNING)
    && (k.state == RUNNING ==> k.runner in {InBody, Completed, Thrown})
    && (forall t | t in k.cancellers && k.cancellers[t] == Asleep ::
          IsStopState(k.state) ==> k.runner == Written)
  }

  /** What a request still lets through. */
  ghost predicate RequestOk(k: Task) {
    && (k.runner == Thrown ==> k.requestCancel)
    && (k.state == CANCELLED ==> k.requestCancel && k.runner in {Idle, Thrown, Written})
    && (!k.requestCancel ==> k.lateBodies == 0)
    && (k.requestCancel ==>
          k.lateBodies + (if k.runner == Checked then 1 else 0) == if k.pastCheck then 1 else 0)
  }

  ghost predicate Inv(k: Task) {
    HandshakeOk(k) && RequestOk(k)
  }

  lemma StepKeepsInv(k: Task, e: Event)
    requires Inv(k)
    ensures Inv(Step(k, e))
  {
  }

  lemma {:induction false} ExecKeepsInv(k: Task, es: seq<Event>)
    requires Inv(k)
    ensures Inv(Exec(k, es))
  {
    if es != [] {
      ExecKeepsInv(k, es[..|es| - 1]);
      StepKeepsInv(Exec(k, es[..|es| - 1]), es[|es| - 1]);
    }
  }

  // ---------- No wake-up is lost ----------

  /** If a canceller sleeps on a task that has stopped, the runner stands exactly between writing the
      stop state and the broadcast, and that broadcast takes place: after the runner's next step nobody
      sleeps. */
  lemma {:induction false} NoLostWakeUp(es: seq<Event>, t: Thread)
    requires var k := Exec(Initial(), es);
             t in k.cancellers && k.cancellers[t] == Asleep && IsStopState(k.state)
    ensures var k := Exec(Initial(), es);
            && k.runner == Written && k.requestCancel
            && var k' := Step(k, Runner);
               forall u | u in k'.cancellers :: k'.cancellers[u] != Asleep
  {
    ExecKeepsInv(Initial(), es);
    assert Exec(Initial(), es).cancellers != map[];
  }

  /** The runner, whatever its body decides, leaves Run within StepsToIdle steps, and if a cancel was
      requested nobody sleeps when it does. */
  lemma {:induction false} RunnerReleasesSleepers(k: Task)
    requires Inv(k) && k.runner != Idle
    ensures var k' := Step(k, Runner);
            && StepsToIdle(k'.runner) < StepsToIdle(k.runner)
            && (k'.runner == Idle ==>
                  IsStopState(k'.state) && forall t | t in k'.cancellers :: k'.cancellers[t] != Asleep)
    ensures Enabled(k, BodyThrows) ==> StepsToIdle(Step(k, BodyThrows).runner) < StepsToIdle(k.runner)
  {
  }

  /** Outside Run a canceller sleeps only on a task that has never been run. */
  lemma {:induction false} SleepersOutsideRun(es: seq<Event>, t: Thread)
    requires var k := Exec(Initial(), es);
             t in k.cancellers && k.cancellers[t] == Asleep && k.runner == Idle
    ensures var k := Exec(Initial(), es);
            k.state == INIT && k.bodies == 0
  {
    ExecKeepsInv(Initial(), es);
    InitMeansNeverRun(es);
  }

  lemma {:induction false} InitMeansNeverRun(es: seq<Event>)
    ensures var k := Exec(Initial(), es); k.state == INIT ==> k.bodies == 0
  {
    if es != [] {
      InitMeansNeverRun(es[..|es| - 1]);
      ExecKeepsInv(Initial(), es[..|es| - 1]);
    }
  }

  predicate IsRunnerStep(e: Event) {
    e == Runner || e == BodyThrows
  }

  /** Without the runner the task shows what it showed. */
  lemma {:induction false} StateNeedsTheRunner(k: Task, es: seq<Event>)
    requires forall e | e in es :: !IsRunnerStep(e)
    ensures Exec(k, es).state == k.state
  {
    if es != [] {
      assert es[|es| - 1] in es && forall e | e in es[..|es| - 1] :: e in es;
      StateNeedsTheRunner(k, es[..|es| - 1]);
    }
  }

  /** The call of Cancel by `t` comes to its return, with no step of the runner. */
  ghost predicate ReturnsUnaided(k: Task, t: Thread, es: seq<Event>) {
    && (forall e | e in es :: !IsRunnerStep(e))
    && Returns(Exec(Step(k, Cancel(t)), es), t)
  }

  /** On a task that is not run any more Cancel returns if and only if the task is stopped at the call: a
      task that ended a run is, one that was never run is not. */
  lemma {:induction false} CancelReturnsUnaidedIff(k: Task, t: Thread)
    requires t !in k.cancellers
    ensures (exists es :: ReturnsUnaided(k, t, es)) <==> IsStopState(k.state)
  {
    var k' := Step(k, Cancel(t));
    if IsStopState(k.state) {
      assert Exec(k', []) == k';
      assert ReturnsUnaided(k, t, []);
    } else {
      forall es ensures !ReturnsUnaided(k, t, es) {
        if ReturnsUnaided(k, t, es) { StateNeedsTheRunner(k', es); }
      }
    }
  }

  /** Outside Run, then: a call of Cancel comes to its return without the runner if and only if the task
      has been run at least once. */
  lemma {:induction false} CancelOutsideRun(es: seq<Event>, t: Thread)
    requires var k := Exec(Initial(), es); k.runner == Idle && t !in k.cancellers
    ensures var k := Exec(Initial(), es);
            (exists fs :: ReturnsUnaided(k, t, fs)) <==> k.state != INIT
  {
    ExecKeepsInv(Initial(), es);
    CancelReturnsUnaidedIff(Exec(Initial(), es), t);
  }

  // ---------- After a request ----------

  /** After the first request exactly those bodies start that were already past their check: one if the
      runner was there, none otherwise. */
  lemma {:induction false} AtMostOneLateBody(es: seq<Event>)
    ensures var k := Exec(Initial(), es);
            && k.lateBodies <= 1
            && (k.requestCancel && !k.pastCheck ==> k.lateBodies == 0)
            && (k.requestCancel && k.pastCheck ==> (k.lateBodies == 1 <==> k.runner != Checked))
  {
    ExecKeepsInv(Initial(), es);
  }

  /** A cancelled task was requested to cancel, and stays cancelled without a further body, however
      often it is run again. */
  lemma {:induction false} CancelledIsAbsorbing(k: Task, es: seq<Event>)
    requires Inv(k) && k.state == CANCELLED
    ensures k.requestCancel
    ensures Exec(k, es).state == CANCELLED && Exec(k, es).bodies == k.bodies
  {
    if es != [] {
      CancelledIsAbsorbing(k, es[..|es| - 1]);
      ExecKeepsInv(k, es[..|es| - 1]);
    }
  }

  // ---------- What a return of Cancel means ----------

  lemma {:induction false} RequestStays(k: Task, es: seq<Event>)
    requires k.requestCancel
    ensures Exec(k, es).requestCancel
  {
    if es != [] { RequestStays(k, es[..|es| - 1]); }
  }

  /** Once a request is stored and the runner is not past its check, no schedule starts a body. */
  lemma {:induction false} NoFurtherBody(k: Task, es: seq<Event>)
    requires k.requestCancel && k.runner != Checked
    ensures Exec(k, es).bodies == k.bodies && Exec(k, es).runner != Checked
  {
    if es != [] {
      NoFurtherBody(k, es[..|es| - 1]);
      RequestStays(k, es[..|es| - 1]);
    }
  }

  ghost predicate StartsBody(k: Task, fs: seq<Event>) {
    Exec(k, fs).bodies > k.bodies
  }

  /** When Cancel returns, a body can still start if and only if the runner of a task that had finished
      before is past its check: the caller then saw the FINISHED of the previous round. */
  lemma {:induction false} WhenCancelReturns(es: seq<Event>, t: Thread)
    requires Returns(Exec(Initial(), es), t)
    ensures var k := Exec(Initial(), es);
            var k' := Step(k, Await(t));
            && t !in k'.cancellers
            && ((exists fs :: StartsBody(k', fs)) <==> k.runner == Checked)
            && (k.runner == Checked ==> k.state == FINISHED)
  {
    ExecKeepsInv(Initial(), es);
    var k := Exec(Initial(), es);
    var k' := Step(k, Await(t));
    assert k.requestCancel by { assert k.cancellers != map[]; }
    if k.runner == Checked {
      var fs := [Runner];
      assert fs[..0] == [] && Exec(k', []) == k';
      assert Exec(k', fs) == Step(k', Runner);
      assert StartsBody(k', fs);
    } else {
      forall fs ensures !StartsBody(k', fs) {
        NoFurtherBody(k', fs);
      }
    }
  }

  /** A schedule in which the Cancel called by `t` in state `k` returns after `es`, and then `fs` starts
      another body. */
  ghost predicate ReturnsTooEarly(k: Task, t: Thread, es: seq<Event>, fs: seq<Event>) {
    var k1 := Exec(Step(k, Cancel(t)), es);
    Returns(k1, t) && StartsBody(Step(k1, Await(t)), fs)
  }

  lemma {:induction false} CheckedMeansStale(k: Task, es: seq<Event>)
    requires Inv(k) && k.requestCancel && (k.runner == Checked ==> !IsStopState(k.state))
    ensures var k1 := Exec(k, es);
            Inv(k1) && k1.requestCancel && (k1.runner == Checked ==> !IsStopState(k1.state))
  {
    if es != [] {
      CheckedMeansStale(k, es[..|es| - 1]);
      StepKeepsInv(Exec(k, es[..|es| - 1]), es[|es| - 1]);
    }
  }

  /** A call to Cancel can return with a body still to come exactly if, at the call, the task shows the
      FINISHED of an earlier round while the runner is already past its check. In particular a Cancel
      called before the first round has finished is final. */
  lemma {:induction false} CancelIsFinalUnlessStale(k: Task, t: Thread)
    requires Inv(k) && t !in k.cancellers
    ensures (exists es, fs :: ReturnsTooEarly(k, t, es, fs)) <==> k.runner == Checked && k.state == FINISHED
  {
    var k0 := Step(k, Cancel(t));
    StepKeepsInv(k, Cancel(t));
    if k.runner == Checked && k.state == FINISHED {
      var k1 := Step(k0, Await(t));
      assert Exec(k0, []) == k0 && Returns(k0, t);
      assert [Runner][..0] == [] && Exec(k1, []) == k1;
      assert Exec(k1, [Runner]) == Step(k1, Runner);
      assert ReturnsTooEarly(k, t, [], [Runner]);
    } else {
      forall es, fs ensures !ReturnsTooEarly(k, t, es, fs) {
        CheckedMeansStale(k0, es);
        var k1 := Exec(k0, es);
        if Returns(k1, t) { NoFurtherBody(Step(k1, Await(t)), fs); }
      }
    }
  }

  /** The stale FINISHED of a periodic task: Cancel returns, and then a body starts. */
  lemma CancelReturnsTooEarly()
    ensures var k := Exec(Initial(), [Runner, Runner, Runner, Runner, Runner, Runner, Cancel(7)]);
            Returns(k, 7) && Step(Step(k, Await(7)), Runner).bodies == 2
  {
    var round := [Runner, Runner, Runner, Runner, Runner, Runner];
    var k6 := Exec(Initial(), round);
    assert k6 == Task(FINISHED, false, Checked, map[], 1, 0, false) by {
      assert round[..5] == [Runner, Runner, Runner, Runner, Runner];
      assert round[..5][..4] == [Runner, Runner, Runner, Runner];
      assert round[..5][..4][..3] == [Runner, Runner, Runner];
      var k3 := Exec(Initial(), [Runner, Runner, Runner]);
      assert k3 == Task(RUNNING, false, Completed, map[], 1, 0, false) by {
        assert [Runner, Runner, Runner][..2] == [Runner, Runner];
        assert [Runner, Runner][..1] == [Runner];
        assert [Runner][..0] == [];
        assert Exec(Initial(), [Runner]) == Step(Exec(Initial(), []), Runner);
        assert Exec(Initial(), [Runner, Runner]) == Step(Exec(Initial(), [Runner]), Runner);
      }
      var k4 := Exec(Initial(), [Runner, Runner, Runner, Runner]);
      assert k4 == Step(k3, Runner);
      var k5 := Exec(Initial(), [Runner, Runner, Runner, Runner, Runner]);
      assert k5 == Step(k4, Runner);
    }
    var es := [Runner, Runner, Runner, Runner, Runner, Runner, Cancel(7)];
    assert es[..6] == round;
    assert Exec(Initial(), es) == Step(k6, Cancel(7));
  }

  /** A spurious wake-up makes the canceller test again; on a task that has not stopped it is asleep as
      before. */
  lemma SpuriousWakeUpChangesNothing(k: Task, t: Thread)
    requires t in k.cancellers && k.cancellers[t] == Asleep && k.state != FINISHED && k.state != CANCELLED
    ensures var k1 := Step(k, Spurious(t));
            k1.cancellers[t] == Awake && Enabled(k1, Await(t)) && Step(k1, Await(t)) == k
  {
    var k1 := Step(k, Spurious(t));
    assert Step(k1, Await(t)).cancellers == k.cancellers;
  }
}
