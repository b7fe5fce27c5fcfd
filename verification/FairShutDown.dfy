/** Shutdown under a fair scheduler, for a pool that cannot grow (max <= core == n, 1 <= n). */
module FairShutDown {
  import opened Common
  import opened PoolSpec
  import opened WorkerSums
  import opened FairSchedules
  import opened FixedPoolInvariant
  import opened FixedPoolProperties
  import Frames = PoolFrames

  lemma {:induction false} InvAt(p: Pool, s: nat -> Event, n: nat, i: nat)
    requires Inv(p, n)
    ensures Inv(At(p, s, i), n)
  {
    hide Inv, Step;
    if i > 0 {
      InvAt(p, s, n, i - 1);
      StepKeepsInv(At(p, s, i - 1), s(i - 1), n);
    }
  }

  // ---------- The monitor lets the thread map go ----------

  /** Only the monitor's own step changes anything for a monitor that holds the map. */
  lemma HoldsOn(p: Pool, e: Event)
    requires MonitorHolds(p) && e != Monitor
    ensures Step(p, e).monitor == p.monitor && Step(p, e).sub == p.sub
  {
    hide Next, Judge, WakeCallers, WakeWorkers, CanCall;
    if Enabled(p, e) {
      match e
      case Winning(w) => Frames.WinningKeepsSub(p, w); WinnerWaits(p, w);
      case _ =>
    }
  }

  lemma WinnerWaits(p: Pool, w: nat)
    requires MonitorHolds(p) && CanWin(p, w)
    ensures p.phase != ToPushZero
  {
  }

  lemma MonitorLetsGoAt(p: Pool, s: nat -> Event, n: nat, i: nat) returns (j: nat)
    requires Inv(p, n) && Fair(p, s)
    ensures j >= i && !MonitorHolds(At(p, s, j))
    decreases HoldRank(At(p, s, i)), 1, 0
  {
    var t := Turn(p, s, TheMonitor, i);
    j := MonitorLetsGoBy(p, s, n, i, t);
  }

  lemma MonitorLetsGoBy(p: Pool, s: nat -> Event, n: nat, i: nat, t: nat) returns (j: nat)
    requires Inv(p, n) && Fair(p, s)
    requires i <= t && (MovesAt(p, s, TheMonitor, t) || StuckFrom(p, s, TheMonitor, t))
    ensures j >= i && !MonitorHolds(At(p, s, j))
    decreases HoldRank(At(p, s, i)), 0, t - i
  {
    hide Inv, Step, MonitorHolds, CanMonitor, HoldRank, Fair;
    var q := At(p, s, i);
    InvAt(p, s, n, i);
    if !MonitorHolds(q) {
      return i;
    }
    MonitorCanMove(q, n);
    assert At(p, s, i + 1) == Step(q, s(i));
    if s(i) == Monitor {
      MonitorLetsGo(q, n);
      OwnMonitorStep(q);
      j := MonitorLetsGoAt(p, s, n, i + 1);
    } else {
      assert CanMove(At(p, s, i), TheMonitor);
      HoldsOn(q, s(i));
      SameHoldRank(q, Step(q, s(i)));
      j := MonitorLetsGoBy(p, s, n, i + 1, t);
    }
  }

  lemma OwnMonitorStep(p: Pool)
    requires CanMonitor(p)
    ensures Step(p, Monitor) == DoMonitor(p)
  {
  }

  lemma SameHoldRank(p: Pool, q: Pool)
    requires q.monitor == p.monitor && q.sub == p.sub
    ensures HoldRank(q) == HoldRank(p)
  {
  }

  // ---------- The winner gets to its end ----------

  lemma PhaseRankNeverRises(p: Pool, e: Event, n: nat)
    requires Inv(p, n) && p.request
    ensures PhaseRank(Step(p, e).phase, n) <= PhaseRank(p.phase, n)
    ensures e.Winning? && Enabled(p, e) ==> PhaseRank(Step(p, e).phase, n) < PhaseRank(p.phase, n)
  {
    PhaseOnlyAdvances(p, e);
    MapSize(p, n);
    hide Inv, DoWinning, PhaseRank, CanWin;
    if e.Winning? && Enabled(p, e) {
      WinningLowersRank(p, e.w, n);
      assert Step(p, e) == DoWinning(p, e.w);
    }
  }

  lemma MapSize(p: Pool, n: nat)
    requires Inv(p, n)
    ensures |p.threads| == n
  {
  }

  lemma {:induction false} PhasesAt(p: Pool, s: nat -> Event, n: nat, i: nat, j: nat)
    requires Inv(p, n) && i <= j && At(p, s, i).request
    ensures At(p, s, j).request
    ensures PhaseRank(At(p, s, j).phase, n) <= PhaseRank(At(p, s, i).phase, n)
    ensures PhaseNo(At(p, s, j).phase) >= PhaseNo(At(p, s, i).phase)
    decreases j - i
  {
    hide Inv, Step, PhaseRank, PhaseNo;
    if i < j {
      PhasesAt(p, s, n, i, j - 1);
      InvAt(p, s, n, j - 1);
      PhaseRankNeverRises(At(p, s, j - 1), s(j - 1), n);
      PhaseOnlyAdvances(At(p, s, j - 1), s(j - 1));
    }
  }

  lemma WinnerCanMove(p: Pool, n: nat)
    requires Inv(p, n) && p.request && p.phase != Finished && !MonitorHolds(p)
    ensures CanMove(p, TheWinner)
  {
    WinnerProgress(p, n);
  }

  /** The winner, which can be kept from the map only by the monitor, does its next step. */
  lemma WinnerAdvances(p: Pool, s: nat -> Event, n: nat, i: nat) returns (j: nat)
    requires Inv(p, n) && Fair(p, s) && At(p, s, i).request && At(p, s, i).phase != Finished
    ensures j >= i && PhaseRank(At(p, s, j).phase, n) < PhaseRank(At(p, s, i).phase, n)
  {
    hide Inv, Step, PhaseRank, Fair, CanWin, CanMonitor;
    var t := Turn(p, s, TheWinner, i);
    InvAt(p, s, n, i);
    PhasesAt(p, s, n, i, t);
    InvAt(p, s, n, t);
    if MovesAt(p, s, TheWinner, t) {
      PhaseRankNeverRises(At(p, s, t), s(t), n);
      j := t + 1;
    } else {
      j := MonitorLetsGoAt(p, s, n, t);
      PhasesAt(p, s, n, i, j);
      InvAt(p, s, n, j);
      if At(p, s, j).phase == Finished {
        EndHasRankZero(At(p, s, i), n);
      } else {
        WinnerCanMove(At(p, s, j), n);
        assert false;
      }
    }
  }

  lemma EndHasRankZero(p: Pool, n: nat)
    requires Inv(p, n) && p.request && p.phase != Finished
    ensures PhaseRank(p.phase, n) > 0 == PhaseRank(Finished, n)
  {
  }

  lemma WinnerFinishes(p: Pool, s: nat -> Event, n: nat, i: nat) returns (j: nat)
    requires Inv(p, n) && Fair(p, s) && At(p, s, i).request
    ensures j >= i && At(p, s, j).phase == Finished && At(p, s, j).request
    decreases PhaseRank(At(p, s, i).phase, n)
  {
    hide Inv, Step, PhaseRank, Fair;
    if At(p, s, i).phase == Finished {
      j := i;
    } else {
      var k := WinnerAdvances(p, s, n, i);
      PhasesAt(p, s, n, i, k);
      j := WinnerFinishes(p, s, n, k);
    }
  }

  // ---------- The workers get to their ends ----------

  lemma {:induction false} RanksAt(p: Pool, s: nat -> Event, n: nat, i: nat, j: nat, w: nat)
    requires Inv(p, n) && i <= j && At(p, s, i).request && At(p, s, i).phase == Finished && w < n
    ensures |At(p, s, i).workers| == n == |At(p, s, j).workers| && At(p, s, j).phase == Finished
    ensures Rank(At(p, s, j).workers[w]) <= Rank(At(p, s, i).workers[w])
    decreases j - i
  {
    hide Inv, Step, Rank;
    InvAt(p, s, n, j);
    InvSize(At(p, s, j), n);
    PhasesAt(p, s, n, i, j);
    FinishedIsLast(At(p, s, j));
    if i < j {
      RanksAt(p, s, n, i, j - 1, w);
      InvAt(p, s, n, j - 1);
      StepLowersRank(At(p, s, j - 1), s(j - 1), n, w);
    }
  }

  lemma FinishedIsLast(p: Pool)
    requires PhaseNo(p.phase) >= PhaseNo(Finished)
    ensures p.phase == Finished && AllPushed(p)
  {
  }

  lemma {:induction false} SumAt(p: Pool, s: nat -> Event, n: nat, i: nat, j: nat)
    requires Inv(p, n) && i <= j && At(p, s, i).request && At(p, s, i).phase == Finished
    ensures Sum(At(p, s, j).workers, Rank) <= Sum(At(p, s, i).workers, Rank)
  {
    hide Inv, Step, Rank;
    InvAt(p, s, n, i);
    InvAt(p, s, n, j);
    InvSize(At(p, s, i), n);
    InvSize(At(p, s, j), n);
    forall w | 0 <= w < n ensures Rank(At(p, s, j).workers[w]) <= Rank(At(p, s, i).workers[w]) {
      RanksAt(p, s, n, i, j, w);
    }
    SumAtMost(At(p, s, j).workers, At(p, s, i).workers, Rank);
  }

  lemma SumLess(ws: seq<Worker>, vs: seq<Worker>, w: nat)
    requires |ws| == |vs| && w < |ws| && Rank(ws[w]) < Rank(vs[w])
    requires forall i | 0 <= i < |ws| :: Rank(ws[i]) <= Rank(vs[i])
    ensures Sum(ws, Rank) < Sum(vs, Rank)
  {
    hide Rank;
    SumUpdate(vs, w, ws[w], Rank);
    SumAtMost(ws, vs[w := ws[w]], Rank);
  }

  /** A worker that has not ended moves, as the monitor lets the map go in the end. */
  lemma WorkersAdvance(p: Pool, s: nat -> Event, n: nat, i: nat) returns (j: nat)
    requires Inv(p, n) && Fair(p, s) && n >= 1 && At(p, s, i).request && At(p, s, i).phase == Finished
    requires At(p, s, i).state != SHUTDOWN
    ensures j >= i && Sum(At(p, s, j).workers, Rank) < Sum(At(p, s, i).workers, Rank)
  {
    hide Inv, Step, Rank, Fair, CanWork, MonitorHolds;
    InvAt(p, s, n, i);
    var w := SomeoneLeft(At(p, s, i), n);
    var t := Turn(p, s, TheWorker(w), i);
    SumAt(p, s, n, i, t);
    RanksAt(p, s, n, i, t, w);
    InvAt(p, s, n, t);
    if MovesAt(p, s, TheWorker(w), t) {
      StepLowersSum(At(p, s, t), s(t), n);
      j := t + 1;
    } else {
      j := MonitorLetsGoAt(p, s, n, t);
      forall v | 0 <= v < n
        ensures |At(p, s, j).workers| == n && Rank(At(p, s, j).workers[v]) <= Rank(At(p, s, i).workers[v])
      {
        RanksAt(p, s, n, i, j, v);
      }
      RanksAt(p, s, n, i, j, w);
      InvAt(p, s, n, j);
      StuckIsDone(At(p, s, j), n, w) by { assert !CanMove(At(p, s, j), TheWorker(w)); }
      RankOfTheLeft(At(p, s, i).workers[w]);
      SumLess(At(p, s, j).workers, At(p, s, i).workers, w);
    }
  }

  lemma StuckIsDone(p: Pool, n: nat, w: nat)
    requires Inv(p, n) && p.phase == Finished && !MonitorHolds(p) && w < n && |p.workers| == n && !CanWork(p, w)
    ensures Rank(p.workers[w]) == 0
  {
    NobodySleeps(p, n, w);
  }

  lemma RankOfTheLeft(me: Worker)
    requires me.pc != Done
    ensures Rank(me) > 0
  {
  }

  lemma WorkersFinish(p: Pool, s: nat -> Event, n: nat, i: nat) returns (j: nat)
    requires Inv(p, n) && Fair(p, s) && n >= 1 && At(p, s, i).request && At(p, s, i).phase == Finished
    ensures j >= i && At(p, s, j).state == SHUTDOWN && At(p, s, j).request && At(p, s, j).phase == Finished
    decreases Sum(At(p, s, i).workers, Rank)
  {
    hide Inv, Step, Rank, Fair;
    if At(p, s, i).state == SHUTDOWN {
      j := i;
    } else {
      var k := WorkersAdvance(p, s, n, i);
      PhasesAt(p, s, n, i, k);
      FinishedIsLast(At(p, s, k));
      j := WorkersFinish(p, s, n, k);
    }
  }

  lemma BothFinish(p: Pool, s: nat -> Event, n: nat) returns (j: nat)
    requires Inv(p, n) && Fair(p, s) && n >= 1 && p.request
    ensures At(p, s, j).state == SHUTDOWN && At(p, s, j).request && At(p, s, j).phase == Finished
  {
    hide Inv, Step, Fair;
    assert At(p, s, 0) == p;
    var i := WinnerFinishes(p, s, n, 0);
    j := WorkersFinish(p, s, n, i);
  }

  // ---------- The callers return ----------

  /** Steps a caller still has to take, and the broadcast it may wait for. */
  function CallerRank(pc: CallerPc): nat {
    match pc
    case Winner => 3
    case AsleepInWait => 2
    case AtWait | AwakeInWait => 1
    case Returned => 0
  }

  /** Nobody else moves a caller, but to wake it; and it does not move while it sleeps. */
  lemma OthersLeaveTheCaller(p: Pool, e: Event, c: Thread)
    requires c in p.callers && (e == Calling(c) ==> p.callers[c].pc == AsleepInWait)
    ensures c in Step(p, e).callers
    ensures || Step(p, e).callers[c] == p.callers[c]
            || (p.callers[c].pc == AsleepInWait && Step(p, e).callers[c] == p.callers[c].(pc := AwakeInWait))
  {
    hide Next, Judge, DoWinning, DoMonitor, DoSubmitting, CanWin, CanMonitor, Notified;
    if Enabled(p, e) {
      match e
      case Winning(v) => Frames.WinningTouches(p, v);
      case Monitor => Frames.MonitorTouches(p);
      case Submitting(t) => Frames.SubmittingTouches(p, t);
      case _ =>
    }
  }

  ghost predicate Over(p: Pool, n: nat) {
    Inv(p, n) && p.state == SHUTDOWN && p.phase == Finished && p.request
  }

  lemma OverStays(p: Pool, e: Event, n: nat)
    requires Over(p, n)
    ensures Over(Step(p, e), n)
  {
    hide Inv, Step;
    StepKeepsInv(p, e, n);
    StepStartsNothing(p, e, n);
    PhaseOnlyAdvances(p, e);
    FinishedIsLast(Step(p, e));
  }

  lemma CallingInOver(p: Pool, n: nat, c: Thread)
    requires Over(p, n) && CanCall(p, c)
    ensures c in Step(p, Calling(c)).callers && Step(p, Calling(c)).callers[c].now == p.callers[c].now
    ensures CallerRank(Step(p, Calling(c)).callers[c].pc) < CallerRank(p.callers[c].pc)
  {
  }

  /** A caller that can go on does so. */
  lemma CallerMovesBy(p: Pool, s: nat -> Event, n: nat, c: Thread, i: nat, t: nat) returns (j: nat)
    requires i <= t && (MovesAt(p, s, TheCaller(c), t) || StuckFrom(p, s, TheCaller(c), t))
    requires Over(At(p, s, i), n) && CanCall(At(p, s, i), c)
    ensures Over(At(p, s, j), n) && c in At(p, s, j).callers
    ensures CallerRank(At(p, s, j).callers[c].pc) < CallerRank(At(p, s, i).callers[c].pc)
    decreases t - i
  {
    hide Over, Step, CallerRank, CanCall;
    var q := At(p, s, i);
    assert At(p, s, i + 1) == Step(q, s(i));
    OverStays(q, s(i), n);
    if s(i) == Calling(c) {
      CallingInOver(q, n, c);
      j := i + 1;
    } else {
      assert CanMove(q, TheCaller(c));
      StillCan(q, s(i), c, n);
      j := CallerMovesBy(p, s, n, c, i + 1, t);
    }
  }

  lemma StillCan(p: Pool, e: Event, c: Thread, n: nat)
    requires Over(p, n) && CanCall(p, c) && e != Calling(c)
    ensures CanCall(Step(p, e), c) && Step(p, e).callers[c] == p.callers[c]
  {
    OverStays(p, e, n);
    OthersLeaveTheCaller(p, e, c);
    hide Step, Inv;
  }

  /** The worker at its broadcast gets there, and wakes the caller unless that has woken by itself. */
  lemma BroadcastBy(p: Pool, s: nat -> Event, n: nat, c: Thread, w: nat, i: nat, t: nat) returns (j: nat)
    requires i <= t && (MovesAt(p, s, TheWorker(w), t) || StuckFrom(p, s, TheWorker(w), t))
    requires var q := At(p, s, i);
             && Over(q, n) && w < |q.workers| && q.workers[w].pc == AtBroadcast
             && c in q.callers && q.callers[c].pc == AsleepInWait
    ensures Over(At(p, s, j), n) && c in At(p, s, j).callers && At(p, s, j).callers[c].pc == AwakeInWait
    decreases t - i
  {
    hide Step, Inv, CanWork;
    var q := At(p, s, i);
    assert At(p, s, i + 1) == Step(q, s(i));
    OverStays(q, s(i), n);
    BroadcastWakes(q, n, w, c);
    if s(i) == Work(w) {
      j := i + 1;
    } else {
      assert CanMove(q, TheWorker(w));
      OthersLeaveTheCaller(q, s(i), c);
      if At(p, s, i + 1).callers[c].pc == AwakeInWait {
        j := i + 1;
      } else {
        StillAtBroadcast(q, s(i), n, w);
        j := BroadcastBy(p, s, n, c, w, i + 1, t);
      }
    }
  }

  lemma StillAtBroadcast(p: Pool, e: Event, n: nat, w: nat)
    requires Inv(p, n) && w < |p.workers| && p.workers[w].pc == AtBroadcast && e != Work(w)
    ensures w < |Step(p, e).workers| && Step(p, e).workers[w].pc == AtBroadcast
  {
    InvSize(p, n);
    StepOnWorker(p, e, n, w);
    hide Step, Inv, Next;
  }

  lemma CallerAdvances(p: Pool, s: nat -> Event, n: nat, c: Thread, i: nat) returns (j: nat)
    requires Fair(p, s) && Over(At(p, s, i), n)
    requires c in At(p, s, i).callers && At(p, s, i).callers[c].pc != Returned
    ensures Over(At(p, s, j), n) && c in At(p, s, j).callers
    ensures CallerRank(At(p, s, j).callers[c].pc) < CallerRank(At(p, s, i).callers[c].pc)
  {
    hide Fair, Step, MovesAt, StuckFrom;
    var q := At(p, s, i);
    if q.callers[c].pc == AsleepInWait {
      var w := Broadcaster(q, n, c);
      hide Inv;
      var t := Turn(p, s, TheWorker(w), i);
      j := BroadcastBy(p, s, n, c, w, i, t);
    } else {
      hide Inv;
      var t := Turn(p, s, TheCaller(c), i);
      j := CallerMovesBy(p, s, n, c, i, t);
    }
  }

  lemma Broadcaster(p: Pool, n: nat, c: Thread) returns (w: nat)
    requires Over(p, n) && c in p.callers && p.callers[c].pc == AsleepInWait
    ensures w < |p.workers| && p.workers[w].pc == AtBroadcast
  {
    assert CallerOk(p, c);
    w :| w < |p.workers| && p.workers[w].pc == AtBroadcast;
  }

  lemma CallerReturns(p: Pool, s: nat -> Event, n: nat, c: Thread, i: nat) returns (j: nat)
    requires Fair(p, s) && Over(At(p, s, i), n) && c in At(p, s, i).callers
    ensures Over(At(p, s, j), n) && c in At(p, s, j).callers && At(p, s, j).callers[c].pc == Returned
    decreases CallerRank(At(p, s, i).callers[c].pc)
  {
    hide Fair, Over, CallerRank;
    if At(p, s, i).callers[c].pc == Returned {
      j := i;
    } else {
      var k := CallerAdvances(p, s, n, c, i);
      j := CallerReturns(p, s, n, c, k);
    }
  }

  // ---------- The main result ----------

  ghost predicate Inside(p: Pool) {
    p.callers != map[] ==> p.request
  }

  lemma StepKeepsInside(p: Pool, e: Event)
    requires Inside(p)
    ensures Inside(Step(p, e))
  {
    hide Next, Judge, DoWinning, DoMonitor, DoSubmitting, CanWin, CanMonitor, Notified;
    if Enabled(p, e) {
      match e
      case Winning(v) => Frames.WinningTouches(p, v);
      case Monitor => Frames.MonitorTouches(p);
      case Submitting(t) => Frames.SubmittingTouches(p, t);
      case _ =>
    }
  }

  lemma {:induction false} ExecKeepsInside(p: Pool, es: seq<Event>)
    requires Inside(p)
    ensures Inside(Exec(p, es))
  {
    hide Inside, Step;
    if es != [] {
      ExecKeepsInside(p, es[..|es| - 1]);
      StepKeepsInside(Exec(p, es[..|es| - 1]), es[|es| - 1]);
    }
  }

  lemma {:induction false} CallersAt(p: Pool, s: nat -> Event, c: Thread, j: nat)
    requires c in p.callers
    ensures c in At(p, s, j).callers
  {
    hide Step;
    if j > 0 {
      CallersAt(p, s, c, j - 1);
      if s(j - 1) == Calling(c) {
        CallingKeepsCaller(At(p, s, j - 1), c);
      } else {
        OthersLeaveTheCaller(At(p, s, j - 1), s(j - 1), c);
      }
    }
  }

  lemma CallingKeepsCaller(p: Pool, c: Thread)
    requires c in p.callers
    ensures c in Step(p, Calling(c)).callers
  {
  }

  /** Once shutdown is requested, every fair schedule reaches SHUTDOWN. */
  lemma {:induction false} FairScheduleShutsDown(n: nat, m: nat, es: seq<Event>, s: nat -> Event)
    requires 1 <= n && m <= n
    requires Exec(Initial(n, m), es).request && Fair(Exec(Initial(n, m), es), s)
    ensures exists i :: At(Exec(Initial(n, m), es), s, i).state == SHUTDOWN
  {
    hide Inv, Exec, Fair;
    ReachableInv(n, m, es);
    var i := BothFinish(Exec(Initial(n, m), es), s, n);
  }

  /** Every call of ShutDown and of ShutDownNow returns in every fair schedule, and in SHUTDOWN if it is
      ShutDownNow, from whatever point of it. */
  lemma {:induction false} EveryCallReturns(n: nat, m: nat, es: seq<Event>, s: nat -> Event, c: Thread)
    requires 1 <= n && m <= n
    requires c in Exec(Initial(n, m), es).callers && Fair(Exec(Initial(n, m), es), s)
    ensures exists i :: var q := At(Exec(Initial(n, m), es), s, i);
                        c in q.callers && q.callers[c].pc == Returned && q.state == SHUTDOWN
  {
    hide Inv, Fair, Step;
    var p := Exec(Initial(n, m), es);
    ReachableInv(n, m, es);
    ExecKeepsInside(Initial(n, m), es);
    var i := BothFinish(p, s, n);
    InvAt(p, s, n, i);
    CallersAt(p, s, c, i);
    var j := CallerReturns(p, s, n, c, i);
    assert At(p, s, j).callers[c].pc == Returned;
  }
}
