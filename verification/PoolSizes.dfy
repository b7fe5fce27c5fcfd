/** For which sizes a pool keeps its promises: each theorem is an equivalence over all core and max. */
module PoolSizes {
  import opened Common
  import opened PoolSpec
  import opened FixedPoolInvariant
  import opened FixedPoolProperties
  import opened ScalingPoolFailures
  import Base = PoolProperties
  import Frames = PoolFrames

  // ---------- Shutdown completes ----------

  ghost predicate CanComplete(core: nat, max: nat, es: seq<Event>) {
    exists fs :: Exec(Exec(Initial(core, max), es), fs).state == SHUTDOWN
  }

  /** SHUTDOWN stays reachable after every request if and only if the pool has core workers and cannot
      grow beyond them. */
  lemma {:induction false} ShutDownCanCompleteIff(core: nat, max: nat)
    ensures (forall es :: Exec(Initial(core, max), es).request ==> CanComplete(core, max, es))
            <==> 1 <= core && max <= core
  {
    hide Step, Exec;
    if core < max {
      ShutDownCanHang(core, max);
      var es :| NeverShutDown(core, max, es);
      assert !CanComplete(core, max, es);
    } else if core == 0 {
      EmptyPoolHangs();
    } else {
      forall es | Exec(Initial(core, max), es).request ensures CanComplete(core, max, es) {
        ShutDownCanComplete(core, max, es);
        var fs :| Completes(Exec(Initial(core, max), es), fs);
        assert Exec(Exec(Initial(core, max), es), fs).state == SHUTDOWN;
      }
    }
  }

  lemma {:induction false} EmptyPoolHangs()
    ensures exists es :: Exec(Initial(0, 0), es).request && !CanComplete(0, 0, es)
  {
    var es := [ShutDown(0, true)];
    assert es[..0] == [] && Exec(Initial(0, 0), []) == Initial(0, 0);
    assert Exec(Initial(0, 0), es) == Step(Initial(0, 0), ShutDown(0, true));
    forall fs ensures Exec(Exec(Initial(0, 0), es), fs).state != SHUTDOWN {
      EmptyPoolStays(Exec(Initial(0, 0), es), fs);
    }
  }

  // ---------- Monitor and worker wait for each other ----------

  ghost predicate CanDeadlock(core: nat, max: nat) {
    exists es, w :: Deadlocked(Exec(Initial(core, max), es), w)
  }

  /** The monitor and a retiring worker can wait for each other for ever if and only if core < max. */
  lemma {:induction false} DeadlockIff(core: nat, max: nat)
    ensures CanDeadlock(core, max) <==> core < max
  {
    hide Exec;
    if core < max {
      RetiringCanDeadlock(core, max);
    } else {
      forall es, w ensures !Deadlocked(Exec(Initial(core, max), es), w) {
        if core == 0 {
          EmptyPoolNeverShutsDown(es);
        } else {
          ReachableInv(core, max, es);
          NobodyRetires(Exec(Initial(core, max), es), core, w);
        }
      }
    }
  }

  lemma NobodyRetires(p: Pool, n: nat, w: nat)
    requires Inv(p, n)
    ensures !Deadlocked(p, w)
  {
    if w < |p.workers| { assert WorkerShape(p, w); }
  }

  // ---------- SHUTDOWN is final ----------

  /** Only the winner's write of STOP can end SHUTDOWN. */
  lemma StaysShutDown(p: Pool, e: Event)
    requires Base.Inv(p) && p.state == SHUTDOWN && p.phase != ToSetStop
    ensures Step(p, e).state == SHUTDOWN && Step(p, e).phase != ToSetStop
  {
    assert p.request by { assert Base.Decided(p); }
    PhaseOnlyAdvances(p, e);
    hide Base.Inv, Next, Judge, WakeCallers, WakeWorkers, CanMonitor, CanCall;
    if Enabled(p, e) {
      match e
      case Winning(v) => Frames.WinningTouches(p, v);
      case Monitor => Frames.MonitorTouches(p);
      case _ =>
    }
  }

  lemma {:induction false} StaysShutDownForEver(p: Pool, fs: seq<Event>)
    requires Base.Inv(p) && p.state == SHUTDOWN && p.phase != ToSetStop
    ensures Exec(p, fs).state == SHUTDOWN && Exec(p, fs).phase != ToSetStop
  {
    hide Step, Base.Inv;
    if fs != [] {
      StaysShutDownForEver(p, fs[..|fs| - 1]);
      Base.ExecKeepsInv(p, fs[..|fs| - 1]);
      StaysShutDown(Exec(p, fs[..|fs| - 1]), fs[|fs| - 1]);
    }
  }

  /** In a pool of any sizes SHUTDOWN is final if and only if the winner of the shutdown race has already
      written STOP. */
  lemma {:induction false} ShutDownIsFinalIff(core: nat, max: nat, es: seq<Event>)
    requires Exec(Initial(core, max), es).state == SHUTDOWN
    ensures var p := Exec(Initial(core, max), es);
            (forall fs :: Exec(p, fs).state == SHUTDOWN) <==> p.phase != ToSetStop
  {
    Base.InitialInv(core, max);
    Base.ExecKeepsInv(Initial(core, max), es);
    var p := Exec(Initial(core, max), es);
    if p.phase == ToSetStop {
      StopOverwrites(p);
    } else {
      forall fs ensures Exec(p, fs).state == SHUTDOWN { StaysShutDownForEver(p, fs); }
    }
  }

  lemma StopOverwrites(p: Pool)
    requires p.phase == ToSetStop
    ensures exists fs :: Exec(p, fs).state == STOP
  {
    assert [Winning(0)][..0] == [] && Exec(p, []) == p;
    assert Exec(p, [Winning(0)]) == Step(p, Winning(0));
    assert Exec(p, [Winning(0)]).state == STOP;
  }

  ghost predicate AlwaysFinal(core: nat, max: nat) {
    forall es, fs :: Exec(Initial(core, max), es).state == SHUTDOWN ==>
                       Exec(Exec(Initial(core, max), es), fs).state == SHUTDOWN
  }

  /** SHUTDOWN is final in every run if and only if the pool cannot grow beyond core. */
  lemma {:induction false} ShutDownAlwaysFinalIff(core: nat, max: nat)
    ensures AlwaysFinal(core, max) <==> max <= core
  {
    hide Step, Exec;
    if core < max {
      var p := ShutDownBeforeStop(core, max);
      ByRun(p);
      StopOverwrites(p);
    } else {
      forall es, fs | Exec(Initial(core, max), es).state == SHUTDOWN
        ensures Exec(Exec(Initial(core, max), es), fs).state == SHUTDOWN
      {
        if core == 0 {
          EmptyPoolNeverShutsDown(es);
        } else {
          ReachableInv(core, max, es);
          QuietForever(Exec(Initial(core, max), es), core, fs);
        }
      }
    }
  }

  // ---------- Nothing starts after ShutDownNow ----------

  /** Who has seen SHUTDOWN has seen a pool in which somebody was counted. */
  ghost predicate Witnessed(p: Pool) {
    && (p.state == SHUTDOWN ==> p.stopped > 0)
    && forall c | c in p.callers && p.callers[c].now && p.callers[c].pc == Returned :: p.stopped > 0
  }

  lemma CountedIsCounted(p: Pool, w: nat)
    requires Base.Inv(p) && w < |p.workers| && p.workers[w].fate == Counted
    ensures p.stopped > 0
  {
    assert w in Base.CountedIn(p.workers);
  }

  lemma WorkKeepsWitness(p: Pool, w: nat)
    requires Base.Inv(p) && Witnessed(p) && CanWork(p, w)
    ensures Witnessed(DoWork(p, w)) && DoWork(p, w).stopped >= p.stopped
  {
    if p.workers[w].pc == AtSetShutDown {
      assert Base.WorkerOk(p, w);
      CountedIsCounted(p, w);
    }
    hide Base.Inv, Next, Judge, Notified, Free;
  }

  lemma CallingKeepsWitness(p: Pool, t: Thread)
    requires Witnessed(p) && CanCall(p, t)
    ensures Witnessed(DoCalling(p, t))
  {
  }

  lemma SameWitness(p: Pool, q: Pool)
    requires Witnessed(p) && q.stopped == p.stopped && (q.state == SHUTDOWN ==> p.state == SHUTDOWN)
    requires forall c | c in q.callers && q.callers[c].pc == Returned :: c in p.callers && q.callers[c] == p.callers[c]
    ensures Witnessed(q)
  {
  }

  lemma StepKeepsWitness(p: Pool, e: Event)
    requires Base.Inv(p) && Witnessed(p)
    ensures Witnessed(Step(p, e)) && Step(p, e).stopped >= p.stopped
  {
    hide Base.Inv, Witnessed, DoWork, DoWinning, DoMonitor, DoSubmitting, Judge, CanWork, CanWin, CanMonitor, Free;
    if Enabled(p, e) {
      match e
      case Work(w) => WorkKeepsWitness(p, w);
      case Calling(t) => CallingKeepsWitness(p, t);
      case Winning(v) => Frames.WinningTouches(p, v); SameWitness(p, DoWinning(p, v));
      case Monitor => Frames.MonitorTouches(p); SameWitness(p, DoMonitor(p));
      case Submitting(t) => Frames.SubmittingTouches(p, t); SameWitness(p, DoSubmitting(p, t));
      case _ => SameWitness(p, Act(p, e));
    }
  }

  lemma {:induction false} ExecKeepsWitness(p: Pool, es: seq<Event>)
    requires Base.Inv(p) && Witnessed(p)
    ensures Witnessed(Exec(p, es)) && Exec(p, es).stopped >= p.stopped
  {
    hide Base.Inv, Witnessed, Step;
    if es != [] {
      ExecKeepsWitness(p, es[..|es| - 1]);
      Base.ExecKeepsInv(p, es[..|es| - 1]);
      StepKeepsWitness(Exec(p, es[..|es| - 1]), es[|es| - 1]);
    }
  }

  /** In a pool that never has more than one entry, that entry keeps the others out once it is counted. */
  lemma OneCountedOnly(p: Pool, w: nat)
    requires Base.Inv(p) && p.core <= 1 && p.max <= 1 && p.stopped > 0 && w < |p.workers|
    ensures Ended(p.workers[w].pc)
  {
    assert Base.WorkerOk(p, w);
    var v :| v in Base.CountedIn(p.workers);
    assert Base.WorkerOk(p, v);
    if w in p.threads && w != v {
      Base.SubsetSize({v, w}, p.threads);
      assert false;
    }
  }

  lemma NothingStartsNow(p: Pool, e: Event)
    requires Base.Inv(p) && p.core <= 1 && p.max <= 1 && p.stopped > 0
    ensures Step(p, e).started == p.started
  {
    if e.Work? && Enabled(p, e) { OneCountedOnly(p, e.w); }
    hide Base.Inv, Next, Judge, DoWinning, DoMonitor, DoSubmitting, CanWin, CanMonitor, CanCall, Notified, WakeCallers;
    if Enabled(p, e) {
      match e
      case Winning(v) => Frames.WinningTouches(p, v);
      case Monitor => Frames.MonitorTouches(p);
      case Submitting(t) => Frames.SubmittingTouches(p, t);
      case _ =>
    }
  }

  lemma {:induction false} NothingStartsAgain(p: Pool, fs: seq<Event>)
    requires Base.Inv(p) && Witnessed(p) && p.core <= 1 && p.max <= 1 && p.stopped > 0
    ensures Exec(p, fs).started == p.started
  {
    hide Base.Inv, Witnessed, Step;
    if fs != [] {
      NothingStartsAgain(p, fs[..|fs| - 1]);
      Base.ExecKeepsInv(p, fs[..|fs| - 1]);
      Base.ExecKeepsSizes(p, fs[..|fs| - 1]);
      ExecKeepsWitness(p, fs[..|fs| - 1]);
      NothingStartsNow(Exec(p, fs[..|fs| - 1]), fs[|fs| - 1]);
    }
  }

  lemma {:induction false} SingleEntryIsQuiet(core: nat, max: nat, es: seq<Event>, c: Thread, fs: seq<Event>)
    requires core <= 1 && max <= 1
    ensures !StartsAfterReturn(core, max, es, c, fs)
  {
    var p := Exec(Initial(core, max), es);
    Base.InitialInv(core, max);
    Base.ExecKeepsInv(Initial(core, max), es);
    Base.ExecKeepsSizes(Initial(core, max), es);
    ExecKeepsWitness(Initial(core, max), es);
    hide Base.Inv, Exec;
    if c in p.callers && p.callers[c] == Caller(Returned, true) { NothingStartsAgain(p, fs); }
  }

  ghost predicate ShutDownNowIsLast(core: nat, max: nat) {
    forall es, c, fs :: !StartsAfterReturn(core, max, es, c, fs)
  }

  /** From the return of ShutDownNow on no task is ever started, in any run, if and only if the pool cannot
      grow beyond core or has room for one worker only. */
  lemma {:induction false} ShutDownNowIsLastIff(core: nat, max: nat)
    ensures ShutDownNowIsLast(core, max) <==> max <= core || max <= 1
  {
    hide Exec;
    if core < max && max > 1 {
      TaskAfterShutDownNow(core, max);
    } else {
      forall es, c, fs ensures !StartsAfterReturn(core, max, es, c, fs) {
        if core <= 1 && max <= 1 {
          SingleEntryIsQuiet(core, max, es, c, fs);
        } else if StartsAfterReturn(core, max, es, c, fs) {
          ShutDownNowIsFinal(core, max, es, c, fs, 0);
        }
      }
    }
  }

  // ---------- Core workers ----------

  ghost predicate KeepsCoreWorkers(core: nat, max: nat) {
    forall es :: |Exec(Initial(core, max), es).threads| >= core
  }

  /** The pool never has fewer than core workers if and only if it has none to keep or cannot grow: all
      core + 1 workers may pass the size check before one of them is reaped. */
  lemma {:induction false} CoreWorkersAreKeptIff(core: nat, max: nat)
    ensures KeepsCoreWorkers(core, max) <==> core == 0 || max <= core
  {
    hide Exec;
    if core == 0 {
    } else if core < max {
      EveryWorkerCanRetire(core, max);
    } else {
      forall es ensures |Exec(Initial(core, max), es).threads| >= core {
        MapNeverChanges(core, max, es, 0);
      }
    }
  }
}
