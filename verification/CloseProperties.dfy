/** What every schedule of a closeable thread and its closers keeps. */
module CloseProperties {
  import opened Common
  import opened CloseSpec

  ghost predicate Inv(c: Closeable) {
    && (c.state == FINISHED <==> c.pc in {AboutToNotify, Gone})
    && c.actionRuns == (if c.pc in {ActionDone, AboutToNotify, Gone} then 1 else 0)
    && (c.holder.Some? <==> exists t :: t in c.closers && c.closers[t] == Holding)
    && (c.holder.Some? ==> c.holder.value in c.closers && c.closers[c.holder.value] == Holding)
    && (c.won != {} ==> c.requestClose)
    && c.closers.Keys + c.returned == c.won && c.closers.Keys !! c.returned
    && (forall t, u | t in c.won && u in c.won :: t == u)
    && (c.pc == Gone ==> forall t | t in c.closers :: c.closers[t] in {AtLock, Awake})
    && (c.returned != {} ==> c.state == FINISHED)
  }

  lemma StepKeepsInv(c: Closeable, e: Event)
    requires Inv(c)
    ensures Inv(Step(c, e))
  {
  }

  lemma {:induction false} ExecKeepsInv(c: Closeable, es: seq<Event>)
    requires Inv(c)
    ensures Inv(Exec(c, es))
  {
    if es != [] {
      ExecKeepsInv(c, es[..|es| - 1]);
      StepKeepsInv(Exec(c, es[..|es| - 1]), es[|es| - 1]);
    }
  }

  /** Although FINISHED is written before the mutex is taken and the broadcast depends on the request
      flag: when a closer sleeps, or is about to sleep, on a finished thread, that thread has its
      broadcast still ahead, the flag is set, and the broadcast wakes every sleeper. */
  lemma {:induction false} NoLostWakeUp(es: seq<Event>, t: Thread)
    requires var c := Exec(Initial(), es);
             t in c.closers && c.closers[t] in {Asleep, Holding} && c.state == FINISHED
    ensures var c := Exec(Initial(), es);
            && c.pc == AboutToNotify && c.requestClose
            && (c.closers[t] == Asleep ==> Enabled(c, ThreadStep) && Step(c, ThreadStep).closers[t] == Awake)
            && (c.closers[t] == Holding ==> Enabled(c, CloserStep(t)) && Step(c, CloserStep(t)).closers[t] == Asleep)
  {
    ExecKeepsInv(Initial(), es);
    var c := Exec(Initial(), es);
    assert t in c.closers.Keys && t in c.won;
  }

  /** The closer whose CAS succeeded returns only after the finish action has run, and at most one
      thread ever waits: a Close or AsyncClose that comes second finds the flag set and does nothing. */
  lemma {:induction false} CloseReturnsAfterTheAction(es: seq<Event>, t: Thread)
    ensures var c := Exec(Initial(), es);
            && (t in c.returned ==> c.actionRuns == 1 && c.pc in {AboutToNotify, Gone})
            && |c.closers| <= 1
            && (c.requestClose && Enabled(c, Close(t)) ==> Step(c, Close(t)) == c)
  {
    ExecKeepsInv(Initial(), es);
    var c := Exec(Initial(), es);
    if u :| u in c.closers.Keys {
      assert u in c.won;
      assert c.closers.Keys == {u};
    }
  }

  /** Progress: the thread's steps lead to its end, each closer blocks it for one step at most, and once
      it is gone the closer's next step returns. */
  lemma {:induction false} CloseTerminates(es: seq<Event>)
    ensures var c := Exec(Initial(), es);
            && (Enabled(c, ThreadStep) ==> StepsToGone(Step(c, ThreadStep).pc) < StepsToGone(c.pc))
            && (c.pc != Gone && !Enabled(c, ThreadStep) ==>
                  exists t :: Enabled(c, CloserStep(t)) && Enabled(Step(c, CloserStep(t)), ThreadStep))
            && (c.pc == Gone ==> forall t | t in c.closers ::
                  Enabled(c, CloserStep(t)) && t in Step(c, CloserStep(t)).returned)
  {
    ExecKeepsInv(Initial(), es);
    var c := Exec(Initial(), es);
    if c.pc != Gone && !Enabled(c, ThreadStep) {
      var t := c.holder.value;
      assert Enabled(c, CloserStep(t)) && Enabled(Step(c, CloserStep(t)), ThreadStep);
    }
  }

  ghost predicate Turned(c: Closeable, q: Closeable) {
    q.requestClose && (c.pc in {Created, FirstCheck} ==> q.pc != InWork)
  }

  lemma StepKeepsTurned(c: Closeable, q: Closeable, e: Event)
    requires Turned(c, q) && (c.pc in {Created, FirstCheck} || q.pc !in {Created, FirstCheck})
    ensures Turned(c, Step(q, e)) && (c.pc in {Created, FirstCheck} || Step(q, e).pc !in {Created, FirstCheck})
  {
  }

  /** From an AsyncClose on the flag is set for good. A thread that is not yet in its work function never
      gets there, in any continuation; one that is inside can leave it at its next check. */
  lemma {:induction false} AsyncCloseTurnsAway(c: Closeable, fs: seq<Event>)
    ensures var q := Exec(Step(c, AsyncClose), fs);
            && q.requestClose
            && (c.pc in {Created, FirstCheck} ==> q.pc != InWork)
            && (q.pc == InWork ==> Enabled(q, WorkThrows) && Step(q, WorkThrows) == q.(pc := Leaving))
            && (q.pc == FirstCheck ==> Step(q, ThreadStep) == q.(pc := Leaving))
  {
    TurnedAway(c, fs);
  }

  lemma {:induction false} TurnedAway(c: Closeable, fs: seq<Event>)
    ensures var q := Exec(Step(c, AsyncClose), fs);
            Turned(c, q) && (c.pc in {Created, FirstCheck} || q.pc !in {Created, FirstCheck})
  {
    hide Step, Turned;
    if fs != [] {
      TurnedAway(c, fs[..|fs| - 1]);
      StepKeepsTurned(c, Exec(Step(c, AsyncClose), fs[..|fs| - 1]), fs[|fs| - 1]);
    } else {
      AsyncCloseSets(c);
    }
  }

  lemma AsyncCloseSets(c: Closeable)
    ensures Step(c, AsyncClose) == c.(requestClose := true)
    ensures Turned(c, Step(c, AsyncClose))
  {
  }

  /** Without a close request nothing keeps the thread from its work function, and nothing throws there. */
  lemma NotRequestedWorks(c: Closeable)
    requires !c.requestClose
    ensures c.pc == FirstCheck ==> Step(c, ThreadStep) == c.(pc := InWork)
    ensures !Enabled(c, WorkThrows)
  {
  }

  /** A spurious wake-up makes the closer test again; short of FINISHED it is asleep as before. */
  lemma SpuriousWakeUpChangesNothing(c: Closeable, t: Thread)
    requires t in c.closers && c.closers[t] == Asleep && c.holder == None && c.state != FINISHED
    ensures var c1 := Step(c, Spurious(t));
            && c1.closers[t] == Awake && Enabled(c1, CloserStep(t))
            && Step(Step(c1, CloserStep(t)), CloserStep(t)) == c
  {
    var c1 := Step(c, Spurious(t));
    var c2 := Step(c1, CloserStep(t));
    assert c2.closers == c.closers[t := Holding] && c2.holder == Some(t);
    assert Step(c2, CloserStep(t)).closers == c.closers;
  }
}
