/** The closeable thread object. The small methods run one atomic access or one stretch with the mutex held;
    `Close` and `ThreadFunction` are the sequence of those steps with nobody in between. */
module CloseableThreadObject {
  import opened Common
  import opened CloseSpec

  class CloseableThread {
    var state: State
    var isRequestClose: bool
    var pc: ThreadPc
    var holder: Option<Thread>
    var closers: map<Thread, CloserPc>
    ghost var actionRuns: nat
    ghost var won: set<Thread>
    ghost var returned: set<Thread>

    ghost function Abs(): Closeable
      reads this
    {
      Closeable(state, isRequestClose, pc, holder, closers, actionRuns, won, returned)
    }

    constructor ()
      ensures Abs() == Initial()
      ensures state == INIT && !isRequestClose && pc == Created && holder == None && closers == map[]
      ensures actionRuns == 0 && won == {} && returned == {}
    {
      state, isRequestClose, pc, holder, closers := INIT, false, Created, None, map[];
      actionRuns, won, returned := 0, {}, {};
    }

    /** compare_exchange on the request flag. */
    method CompareExchange() returns (won: bool)
      modifies this`isRequestClose
      ensures isRequestClose
      ensures won <==> !old(isRequestClose)
    {
      won := !isRequestClose;
      isRequestClose := true;
    }

    /** The request is stored, and nothing else changes. */
    method AsyncClose()
      modifies this`isRequestClose
      ensures Abs() == Act(old(Abs()), Event.AsyncClose)
      ensures isRequestClose
    {
      var won := CompareExchange();
    }

    method BeginClose(t: Thread) returns (waits: bool)
      requires Enabled(Abs(), Event.Close(t))
      modifies this`isRequestClose, this`closers, this`won
      ensures Abs() == Act(old(Abs()), Event.Close(t))
      ensures waits <==> !old(isRequestClose)
      ensures isRequestClose && closers == (if waits then old(closers)[t := AtLock] else old(closers))
      ensures won == old(won) + if waits then {t} else {}
    {
      waits := CompareExchange();
      if waits {
        closers := closers[t := AtLock];
        won := won + {t};
      }
    }

    /** The test of the wait loop, with the mutex just taken. */
    method TestFinished(t: Thread) returns (done: bool)
      requires Enabled(Abs(), CloserStep(t)) && closers[t] != Holding
      modifies this`closers, this`returned, this`holder
      ensures Abs() == Act(old(Abs()), CloserStep(t))
      ensures done <==> state == FINISHED
      ensures closers == if done then old(closers) - {t} else old(closers)[t := Holding]
      ensures holder == (if done then None else Some(t)) && returned == old(returned) + if done then {t} else {}
    {
      done := state == FINISHED;
      if done {
        closers := closers - {t};
        returned := returned + {t};
      } else {
        closers := closers[t := Holding];
        holder := Some(t);
      }
    }

    /** pthread_cond_wait: enter the wait set and give up the mutex in one step. */
    method Wait(t: Thread)
      requires Enabled(Abs(), CloserStep(t)) && closers[t] == Holding
      modifies this`closers, this`holder
      ensures Abs() == Act(old(Abs()), CloserStep(t))
      ensures closers == old(closers)[t := Asleep] && holder == None
    {
      closers := closers[t := Asleep];
      holder := None;
    }

    /** The whole call: it returns at once if a close was requested before or the thread has finished, and
        sleeps otherwise. */
    method Close(t: Thread) returns (returned: bool)
      requires t !in closers && t !in won && holder == None
      modifies this
      ensures isRequestClose && holder == None && state == old(state) && pc == old(pc)
      ensures returned <==> old(isRequestClose) || state == FINISHED
      ensures closers == if returned then old(closers) else old(closers)[t := Asleep]
    {
      var waits := BeginClose(t);
      returned := !waits;
      if waits {
        returned := TestFinished(t);
        if !returned {
          Wait(t);
        }
        assert returned ==> closers == old(closers);
      }
    }

    /** CheckIsRequestClose before the work function; false stands for the exception. */
    method CheckIsRequestClose() returns (go: bool)
      requires pc == FirstCheck || pc == InWork
      modifies this`pc
      ensures go <==> !isRequestClose
      ensures pc == if go then InWork else Leaving
      ensures Abs() == if old(pc) == InWork && go then old(Abs())
                       else if old(pc) == InWork then Act(old(Abs()), WorkThrows)
                       else Act(old(Abs()), ThreadStep)
    {
      go := !isRequestClose;
      pc := if go then InWork else Leaving;
    }

    method SetRunning()
      requires pc == Created
      modifies this`state, this`pc
      ensures Abs() == Act(old(Abs()), ThreadStep)
      ensures state == RUNNING && pc == FirstCheck
    {
      state := RUNNING;
      pc := FirstCheck;
    }

    method FinishWork()
      requires pc == InWork
      modifies this`pc
      ensures Abs() == Act(old(Abs()), ThreadStep)
      ensures pc == Leaving
    {
      pc := Leaving;
    }

    method RunFinishAction()
      requires pc == Leaving
      modifies this`actionRuns, this`pc
      ensures Abs() == Act(old(Abs()), ThreadStep)
      ensures actionRuns == old(actionRuns) + 1 && pc == ActionDone
    {
      actionRuns := actionRuns + 1;
      pc := ActionDone;
    }

    method SetFinished()
      requires pc == ActionDone
      modifies this`state, this`pc
      ensures Abs() == Act(old(Abs()), ThreadStep)
      ensures state == FINISHED && pc == AboutToNotify
    {
      state := FINISHED;
      pc := AboutToNotify;
    }

    method NotifyFinished()
      requires pc == AboutToNotify && holder == None
      modifies this`closers, this`pc
      ensures Abs() == Act(old(Abs()), ThreadStep)
      ensures pc == Gone && closers.Keys == old(closers).Keys
      ensures forall t | t in closers ::
                closers[t] == if isRequestClose && old(closers)[t] == Asleep then Awake else old(closers)[t]
    {
      if isRequestClose {
        closers := map t | t in closers :: if closers[t] == Asleep then Awake else closers[t];
      }
      pc := Gone;
    }

    /** The thread's life: the work function is entered exactly if no close was requested before; the finish
        action runs once; in the end the thread is finished and nobody who closes it is asleep. */
    method ThreadFunction(workChecks: bool) returns (worked: bool)
      requires pc == Created && holder == None
      modifies this
      ensures worked <==> !old(isRequestClose)
      ensures state == FINISHED && pc == Gone && actionRuns == old(actionRuns) + 1
      ensures isRequestClose == old(isRequestClose) && holder == None
      ensures closers.Keys == old(closers).Keys
      ensures forall t | t in closers ::
                closers[t] == if isRequestClose && old(closers)[t] == Asleep then Awake else old(closers)[t]
    {
      SetRunning();
      worked := CheckIsRequestClose();
      if worked {
        var go := true;
        if workChecks {
          go := CheckIsRequestClose();
        }
        if go {
          FinishWork();
        }
      }
      RunFinishAction();
      SetFinished();
      NotifyFinished();
    }
  }
}
