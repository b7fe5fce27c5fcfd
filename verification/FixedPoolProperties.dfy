/** The promises of a pool that cannot grow (max <= core == n, 1 <= n), such as the fixed pool, over every
    schedule. */
module FixedPoolProperties {
  import opened Common
  import opened PoolSpec
  import opened WorkerSums
  import opened FixedPoolInvariant
  import Base = PoolProperties
  import Frames = PoolFrames

  // ---------- Safety ----------

  /** The map keeps its n entries, nobody retires, and nobody is counted twice. */
  lemma {:induction false} MapNeverChanges(n: nat, m: nat, es: seq<Event>, i: nat)
    requires 1 <= n && m <= n
    ensures var p := Exec(Initial(n, m), es);
            && |p.workers| == n && |p.threads| == n
            && (i in p.threads <==> i < n)
            && (i < n ==> p.workers[i].fate != Reported)
            && p.stopped == |Base.CountedIn(p.workers)| <= n
  {
    ReachableInv(n, m, es);
    var p := Exec(Initial(n, m), es);
    if i < n { assert WorkerShape(p, i); }
    assert WorkerShape(p, 0);
    UncountedLeft(p, 0, n);
  }

  /** Out of the work loop for good. */
  predicate Ended(pc: WorkerPc) {
    pc in {AtSetShutDown, AtBroadcast, Done} || pc.AtCompare?
  }

  lemma AllCountedAllEnded(p: Pool, n: nat, i: nat)
    requires Inv(p, n) && p.state == SHUTDOWN && i < n
    ensures |p.workers| == n && Ended(p.workers[i].pc) && p.workers[i].close
  {
    assert WorkerShape(p, i) && Base.WorkerOk(p, i);
    UncountedLeft(p, i, n);
  }

  /** In SHUTDOWN every worker has left its loop, and it stays so: whatever is scheduled afterwards, no
      task is started and the state remains SHUTDOWN. */
  lemma {:induction false} ShutDownIsQuiet(n: nat, m: nat, es: seq<Event>, fs: seq<Event>, i: nat)
    requires 1 <= n && m <= n && i < n
    requires Exec(Initial(n, m), es).state == SHUTDOWN
    ensures var p := Exec(Initial(n, m), es);
            var p' := Exec(p, fs);
            && |p.workers| == |p'.workers| == n && Ended(p.workers[i].pc) && Ended(p'.workers[i].pc)
            && p'.started == p.started
            && p'.state == SHUTDOWN
  {
    ReachableInv(n, m, es);
    var p := Exec(Initial(n, m), es);
    QuietForever(p, n, fs);
    ExecKeepsInv(p, fs, n);
    AllCountedAllEnded(p, n, i);
    AllCountedAllEnded(Exec(p, fs), n, i);
  }

  lemma {:induction false} QuietForever(p: Pool, n: nat, fs: seq<Event>)
    requires Inv(p, n) && p.state == SHUTDOWN
    ensures Exec(p, fs).started == p.started && Exec(p, fs).state == SHUTDOWN
  {
    hide Step, Inv;
    if fs != [] {
      var q := Exec(p, fs[..|fs| - 1]);
      QuietForever(p, n, fs[..|fs| - 1]);
      ExecKeepsInv(p, fs[..|fs| - 1], n);
      StepStartsNothing(q, fs[|fs| - 1], n);
    }
  }

  lemma StepStartsNothing(p: Pool, e: Event, n: nat)
    requires Inv(p, n) && p.state == SHUTDOWN
    ensures Step(p, e).started == p.started && Step(p, e).state == SHUTDOWN
  {
    StateByPhase(p, n);
    if e.Work? && Enabled(p, e) { AllCountedAllEnded(p, n, e.w); }
    hide Inv, Next, Judge, WakeCallers, DoWinning, DoMonitor, DoSubmitting, CanWin, CanMonitor, CanCall;
    if Enabled(p, e) {
      match e
      case Winning(v) => Frames.WinningTouches(p, v);
      case Monitor => Frames.MonitorTouches(p);
      case Submitting(t) => Frames.SubmittingTouches(p, t);
      case _ =>
    }
  }

  /** ShutDownNow returns only in SHUTDOWN: from its return on, all n workers are out of their loops and
      no task body runs or will run. */
  lemma {:induction false} ShutDownNowIsFinal(n: nat, m: nat, es: seq<Event>, c: Thread, fs: seq<Event>, i: nat)
    requires 1 <= n && m <= n && i < n
    requires var p := Exec(Initial(n, m), es); c in p.callers && p.callers[c] == Caller(Returned, true)
    ensures var p := Exec(Initial(n, m), es);
            var p' := Exec(p, fs);
            && p.state == SHUTDOWN
            && |p.workers| == |p'.workers| == n && Ended(p.workers[i].pc) && Ended(p'.workers[i].pc)
            && p'.started == p.started
  {
    ReachableInv(n, m, es);
    assert CallerOk(Exec(Initial(n, m), es), c);
    ShutDownIsQuiet(n, m, es, fs, i);
  }

  // ---------- n sentinels suffice ----------

  /** All sentinels are in the queue, or were. */
  predicate AllPushed(p: Pool) {
    PhaseNo(p.phase) >= 5
  }

  /** Once the last sentinel is pushed there is an item for every worker that may still pop, so nobody
      sleeps, neither then nor ever after. */
  lemma {:induction false} SentinelsSuffice(n: nat, m: nat, es: seq<Event>, i: nat)
    requires 1 <= n && m <= n && i < n && AllPushed(Exec(Initial(n, m), es))
    ensures var p := Exec(Initial(n, m), es);
            && |p.queue| >= Sum(p.workers, PopWeight)
            && |p.workers| == n && p.workers[i].close && p.workers[i].pc != Asleep
  {
    ReachableInv(n, m, es);
    NobodySleeps(Exec(Initial(n, m), es), n, i);
  }

  lemma NobodySleeps(p: Pool, n: nat, i: nat)
    requires Inv(p, n) && AllPushed(p) && i < n
    ensures |p.queue| >= Sum(p.workers, PopWeight)
    ensures |p.workers| == n && p.workers[i].close && p.workers[i].pc != Asleep
  {
    assert WorkerShape(p, i);
    SumPositive(p.workers, PopWeight, i);
  }

  /** The pops of worker `w` during a schedule. */
  ghost function Pops(p: Pool, es: seq<Event>, w: nat): nat {
    if es == [] then 0
    else
      var q := Exec(p, es[..|es| - 1]);
      var e := es[|es| - 1];
      Pops(p, es[..|es| - 1], w)
      + if e == Work(w) && Enabled(q, e) && q.workers[w].pc in {AtPop, Awake} && q.queue != [] then 1 else 0
  }

  lemma {:induction false} PopsAfterClose(p: Pool, n: nat, es: seq<Event>, w: nat)
    requires Inv(p, n) && w < n && |p.workers| == n && p.workers[w].close
    ensures var p' := Exec(p, es);
            && |p'.workers| == n && p'.workers[w].close
            && Pops(p, es, w) + PopWeight(p'.workers[w]) <= PopWeight(p.workers[w])
  {
    hide Step, Inv, PopWeight, Enabled;
    if es != [] {
      PopsAfterClose(p, n, es[..|es| - 1], w);
      ExecKeepsInv(p, es[..|es| - 1], n);
      PopStep(Exec(p, es[..|es| - 1]), es[|es| - 1], n, w);
    }
  }

  /** After its AsyncClose a worker pops at most one more item, and none unless it was about to. */
  lemma {:induction false} AtMostOneMorePop(n: nat, m: nat, es: seq<Event>, fs: seq<Event>, w: nat)
    requires 1 <= n && m <= n && w < n
    requires var p := Exec(Initial(n, m), es); |p.workers| == n && p.workers[w].close
    ensures var p := Exec(Initial(n, m), es);
            |p.workers| == n && Pops(p, fs, w) <= if p.workers[w].pc in {AtPop, Asleep, Awake} then 1 else 0
  {
    ReachableInv(n, m, es);
    PopsAfterClose(Exec(Initial(n, m), es), n, fs, w);
  }

  lemma PopStep(p: Pool, e: Event, n: nat, w: nat)
    requires Inv(p, n) && w < n && |p.workers| == n && p.workers[w].close
    ensures var p' := Step(p, e);
            && |p'.workers| == n && p'.workers[w].close
            && PopWeight(p'.workers[w])
               + (if e == Work(w) && Enabled(p, e) && p.workers[w].pc in {AtPop, Awake} && p.queue != [] then 1 else 0)
               <= PopWeight(p.workers[w])
  {
    hide Step, Enabled, Inv, PopWeight;
    StepOnWorker(p, e, n, w);
    if Enabled(p, e) { OwnStep(p, e, w); }
    ChangePops(p, Step(p, e), e, w);
  }

  lemma ChangePops(p: Pool, p': Pool, e: Event, w: nat)
    requires w < |p.workers| == |p'.workers| && p.workers[w].close && WorkerChange(p, p', e, w)
    requires e == Work(w) && Enabled(p, e) ==> p'.workers[w] == Next(p, p.workers[w])
    ensures p'.workers[w].close
    ensures PopWeight(p'.workers[w])
            + (if e == Work(w) && Enabled(p, e) && p.workers[w].pc in {AtPop, Awake} && p.queue != [] then 1 else 0)
            <= PopWeight(p.workers[w])
  {
  }

  ghost predicate WorkerChange(p: Pool, p': Pool, e: Event, w: nat)
    requires w < |p.workers| == |p'.workers|
  {
    var me, me' := p.workers[w], p'.workers[w];
    || me' == me
    || (e == Work(w) && Enabled(p, e) && me' == Next(p, me))
    || (e == WorkTimeout(w) && Enabled(p, e) && me' == me.(pc := AtJudge))
    || (me.pc == Asleep && me' == me.(pc := Awake))
    || me' == me.(close := true)
  }

  lemma WinningOnWorker(p: Pool, v: nat, w: nat)
    requires CanWin(p, v) && w < |p.workers|
    ensures |DoWinning(p, v).workers| == |p.workers| && WorkerChange(p, DoWinning(p, v), Winning(v), w)
  {
    hide Free, Judge, Enabled, Next;
    match p.phase
    case Closing(open) => if open == {} {} else {}
    case Pushing(k) => if k == 0 {} else {}
    case _ =>
  }

  lemma UntouchedByOthers(p: Pool, e: Event, n: nat)
    requires Shape(p, n) && Enabled(p, e)
    requires !e.Work? && !e.WorkTimeout? && !e.WorkSpurious? && !e.Submitting? && !e.Winning?
    ensures Act(p, e).workers == p.workers
  {
    hide DoMonitor, CanMonitor, Judge, CanCall, Free;
    if e.Monitor? { Frames.MonitorTouches(p); }
  }

  /** What a step can do to one worker. */
  lemma StepOnWorker(p: Pool, e: Event, n: nat, w: nat)
    requires Inv(p, n) && w < n && |p.workers| == n
    ensures |Step(p, e).workers| == n && WorkerChange(p, Step(p, e), e, w)
  {
    hide Supply, StateOk, CallersOk, Base.Inv, Shape, Next, Judge, DoWinning, CanWin, DoMonitor, CanMonitor;
    if Enabled(p, e) {
      match e
      case Work(v) =>
      case WorkTimeout(v) =>
      case WorkSpurious(v) =>
      case Submitting(t) =>
      case Winning(v) => WinningOnWorker(p, v, w);
      case _ => UntouchedByOthers(p, e, n);
    }
  }

  // ---------- Shutdown completes ----------

  /** Steps a closed worker can still take. */
  function Rank(w: Worker): nat {
    match w.pc
    case Asleep => 10
    case AtPop | Awake => 9
    case Holds(_) => 8
    case AtJudge | InTask(_) | AtSelfClose => 7
    case AtCheck | Starting => 6
    case Left => 5
    case AtCount | AtReport => 4
    case AtCompare(_) => 3
    case AtSetShutDown | AtReportNotify => 2
    case AtBroadcast => 1
    case Done => 0
  }

  lemma NextLowersRank(p: Pool, me: Worker)
    requires me.close && (me.pc == AtPop || me.pc == Awake ==> p.queue != [])
    requires !(me.pc in {Asleep, Done, AtSelfClose}) && (me.pc == AtJudge ==> |p.threads| <= p.core)
    ensures Rank(Next(p, me)) < Rank(me)
  {
  }

  lemma StepLowersRank(p: Pool, e: Event, n: nat, w: nat)
    requires Inv(p, n) && AllPushed(p) && w < n && |p.workers| == n
    ensures |Step(p, e).workers| == n
    ensures Rank(Step(p, e).workers[w]) <= Rank(p.workers[w])
    ensures (e == Work(w) || e == WorkTimeout(w)) && Enabled(p, e) ==> Rank(Step(p, e).workers[w]) < Rank(p.workers[w])
  {
    hide Step;
    NobodySleeps(p, n, w);
    assert WorkerShape(p, w);
    SumPositive(p.workers, PopWeight, w);
    StepOnWorker(p, e, n, w);
    if e == Work(w) && Enabled(p, e) { NextLowersRank(p, p.workers[w]); OwnStep(p, e, w); }
    if e == WorkTimeout(w) && Enabled(p, e) { OwnStep(p, e, w); }
  }

  lemma OwnStep(p: Pool, e: Event, w: nat)
    requires w < |p.workers| && Enabled(p, e)
    ensures e == Work(w) ==> Step(p, e).workers == p.workers[w := Next(p, p.workers[w])]
    ensures e == WorkTimeout(w) ==> Step(p, e).workers == p.workers[w := p.workers[w].(pc := AtJudge)]
  {
  }

  predicate IsWorkerStep(p: Pool, e: Event) {
    (e.Work? || e.WorkTimeout?) && Enabled(p, e)
  }

  ghost function WorkerSteps(p: Pool, es: seq<Event>): nat {
    if es == [] then 0
    else WorkerSteps(p, es[..|es| - 1]) + if IsWorkerStep(Exec(p, es[..|es| - 1]), es[|es| - 1]) then 1 else 0
  }

  lemma StepLowersSum(p: Pool, e: Event, n: nat)
    requires Inv(p, n) && AllPushed(p)
    ensures Sum(Step(p, e).workers, Rank) + (if IsWorkerStep(p, e) then 1 else 0) <= Sum(p.workers, Rank)
  {
    hide Step, Inv, Rank;
    InvSize(p, n);
    StepKeepsInv(p, e, n);
    InvSize(Step(p, e), n);
    forall w | 0 <= w < n ensures Rank(Step(p, e).workers[w]) <= Rank(p.workers[w]) {
      StepLowersRank(p, e, n, w);
    }
    SumAtMost(Step(p, e).workers, p.workers, Rank);
    if IsWorkerStep(p, e) {
      var w := e.w;
      InRange(p, e);
      OwnStep(p, e, w);
      StepLowersRank(p, e, n, w);
      SumUpdate(p.workers, w, Step(p, e).workers[w], Rank);
      assert Step(p, e).workers == p.workers[w := Step(p, e).workers[w]];
    }
  }

  lemma InRange(p: Pool, e: Event)
    requires IsWorkerStep(p, e)
    ensures e.w < |p.workers|
  {
  }

  lemma InvSize(p: Pool, n: nat)
    requires Inv(p, n)
    ensures |p.workers| == n
  {
  }

  lemma {:induction false} StaysPushed(p: Pool, es: seq<Event>)
    requires p.request && AllPushed(p)
    ensures Exec(p, es).request && AllPushed(Exec(p, es))
  {
    hide Step;
    if es != [] {
      StaysPushed(p, es[..|es| - 1]);
      PhaseOnlyAdvances(Exec(p, es[..|es| - 1]), es[|es| - 1]);
    }
  }

  /** After a request only the winner moves the phase, and it moves forwards. */
  lemma PhaseOnlyAdvances(p: Pool, e: Event)
    requires p.request
    ensures Step(p, e).request && PhaseNo(Step(p, e).phase) >= PhaseNo(p.phase)
    ensures !e.Winning? ==> Step(p, e).phase == p.phase
  {
    hide Judge, DoWork, DoWinning, DoMonitor, DoSubmitting, CanWork, CanWin, CanMonitor, CanCall, PhaseNo;
    if Enabled(p, e) {
      match e
      case Work(w) => Frames.WorkTouches(p, w);
      case Winning(v) => WinningAdvances(p, v);
      case Monitor => Frames.MonitorTouches(p);
      case Submitting(t) => Frames.SubmittingTouches(p, t);
      case _ =>
    }
  }

  lemma WinningAdvances(p: Pool, v: nat)
    requires CanWin(p, v)
    ensures PhaseNo(DoWinning(p, v).phase) >= PhaseNo(p.phase) && DoWinning(p, v).request == p.request
  {
    Frames.WinningPhase(p, v);
    Frames.WinningTouches(p, v);
    hide DoWinning, CanWin;
  }

  lemma PushedMeansRequested(p: Pool, n: nat)
    requires Inv(p, n) && AllPushed(p)
    ensures p.request
  {
  }

  lemma {:induction false} StepsLeft(p: Pool, n: nat, es: seq<Event>)
    requires Inv(p, n) && AllPushed(p)
    ensures WorkerSteps(p, es) + Sum(Exec(p, es).workers, Rank) <= Sum(p.workers, Rank) <= n * 9
  {
    hide Step, Inv, Rank, IsWorkerStep, AllPushed;
    if es != [] {
      StepsLeft(p, n, es[..|es| - 1]);
      ExecKeepsInv(p, es[..|es| - 1], n);
      PushedMeansRequested(p, n);
      StaysPushed(p, es[..|es| - 1]);
      StepLowersSum(Exec(p, es[..|es| - 1]), es[|es| - 1], n);
    } else {
      InvSize(p, n);
      forall w | 0 <= w < n ensures Rank(p.workers[w]) <= 9 { RankAtMostNine(p, n, w); }
      SumBound(p.workers, Rank, 9);
    }
  }

  lemma RankAtMostNine(p: Pool, n: nat, w: nat)
    requires Inv(p, n) && AllPushed(p) && w < n && |p.workers| == n
    ensures Rank(p.workers[w]) <= 9
  {
    NobodySleeps(p, n, w);
  }

  /** From the last sentinel on the workers together take at most 9n further steps, whatever else is
      scheduled in between. */
  lemma {:induction false} WorkersRunOut(n: nat, m: nat, es: seq<Event>, fs: seq<Event>)
    requires 1 <= n && m <= n && AllPushed(Exec(Initial(n, m), es))
    ensures WorkerSteps(Exec(Initial(n, m), es), fs) <= 9 * n
  {
    ReachableInv(n, m, es);
    StepsLeft(Exec(Initial(n, m), es), n, fs);
  }

  /** Steps the winner of the shutdown race still has to take. */
  function PhaseRank(ph: Phase, n: nat): nat {
    match ph
    case Idle | Finished => 0
    case ToNotifyMonitor => 1
    case ToPushZero => 2
    case ToCloseMonitor => 3
    case Pushing(k) => 4 + k
    case Closing(open) => 5 + n + |open|
    case ToLockThreads => 6 + 2 * n
    case ToSetStop => 7 + 2 * n
  }

  /** Steps the monitor still has to take before it lets the thread map go. */
  function HoldRank(p: Pool): int {
    match p.monitor
    case MRecheck => |p.sub| + 4
    case MScale => |p.sub| + 3
    case MReap(next) => |p.sub| + 2 - next
    case _ => 0
  }

  /** The winner can take its next step, or the monitor holds the thread map and can take its own;
      either brings the shutdown nearer. */
  lemma WinnerProgress(p: Pool, n: nat)
    requires Inv(p, n) && p.request && p.phase != Finished
    ensures (exists w :: CanWin(p, w)) || (MonitorHolds(p) && CanMonitor(p))
    ensures forall w | CanWin(p, w) :: PhaseRank(DoWinning(p, w).phase, n) < PhaseRank(p.phase, n)
  {
    hide DoWinning, Judge, Supply, CallersOk, PhaseRank;
    if p.phase.Closing? && p.phase.open != {} {
      var w :| w in p.phase.open;
      assert w in p.threads;
      assert CanWin(p, w);
    } else if MonitorHolds(p) {
      MonitorCanMove(p, n);
    } else {
      assert CanWin(p, 0);
    }
    forall w | CanWin(p, w) ensures PhaseRank(DoWinning(p, w).phase, n) < PhaseRank(p.phase, n) {
      WinningLowersRank(p, w, n);
    }
  }

  lemma WinningLowersRank(p: Pool, w: nat, n: nat)
    requires CanWin(p, w) && |p.threads| == n
    ensures PhaseRank(DoWinning(p, w).phase, n) < PhaseRank(p.phase, n)
  {
    Frames.WinningPhase(p, w);
    hide DoWinning, CanWin;
    if p.phase.Closing? && p.phase.open != {} { OneLess(p.phase.open, w); }
  }

  lemma OneLess(s: set<nat>, w: nat)
    requires w in s
    ensures |s - {w}| == |s| - 1
  {
  }

  lemma MonitorCanMove(p: Pool, n: nat)
    requires Inv(p, n) && MonitorHolds(p)
    ensures CanMonitor(p)
  {
  }

  lemma MonitorLetsGo(p: Pool, n: nat)
    requires Inv(p, n) && MonitorHolds(p)
    ensures 0 <= HoldRank(DoMonitor(p)) < HoldRank(p)
    ensures DoMonitor(p).workers == p.workers && DoMonitor(p).phase == p.phase && DoMonitor(p).request == p.request
  {
    NoRoom(p, n);
    Frames.MonitorTouches(p);
    hide Inv, Crowded, Judge;
    match p.monitor
    case MReap(next) =>
    case _ =>
  }

  /** The map is full: no worker will be added. The reaping list holds nothing but wake-up entries. */
  lemma NoRoom(p: Pool, n: nat)
    requires Inv(p, n)
    ensures !Crowded(p) && Base.From(p) <= |p.sub| && forall j | 0 <= j < |p.sub| :: p.sub[j] == 0
  {
  }

  /** Unless the pool is in SHUTDOWN some worker has not ended; it can take its next step, unless it
      waits for the monitor to let the thread map go. */
  lemma WorkerProgress(p: Pool, n: nat) returns (w: nat)
    requires Inv(p, n) && n >= 1 && AllPushed(p) && p.state != SHUTDOWN
    ensures w < |p.workers| && p.workers[w].pc != Done
    ensures CanWork(p, w) || (MonitorHolds(p) && CanMonitor(p))
  {
    w := SomeoneLeft(p, n);
    NobodySleeps(p, n, w);
    assert WorkerShape(p, w);
    if MonitorHolds(p) { MonitorCanMove(p, n); }
  }

  lemma SomeoneLeft(p: Pool, n: nat) returns (w: nat)
    requires Inv(p, n) && n >= 1 && p.state != SHUTDOWN
    ensures w < n && |p.workers| == n && p.workers[w].pc != Done
  {
    if forall i: nat | i < n :: p.workers[i].pc == Done {
      forall i: nat | i < n ensures i in Base.CountedIn(p.workers) {
        assert Base.WorkerOk(p, i) && WorkerShape(p, i);
      }
      assert forall i | i in Below(n) :: i in Base.CountedIn(p.workers);
      Base.SubsetSize(Below(n), Base.CountedIn(p.workers));
      assert WorkerShape(p, 0);
      UncountedLeft(p, 0, n);
      assert false;
    }
    w :| w < n && p.workers[w].pc != Done;
  }

  lemma {:induction false} ExecFirst(p: Pool, e: Event, fs: seq<Event>)
    ensures Exec(p, [e] + fs) == Exec(Step(p, e), fs)
  {
    hide Step;
    var es := [e] + fs;
    if fs == [] {
      assert es == [e] && es[..0] == [];
      assert Exec(p, []) == p;
    } else {
      assert es[..|es| - 1] == [e] + fs[..|fs| - 1];
      ExecFirst(p, e, fs[..|fs| - 1]);
    }
  }

  /** No timeout and no spurious wake-up. */
  predicate Plain(es: seq<Event>) {
    forall e | e in es :: e.Work? || e.Winning? || e.Monitor?
  }

  /** A schedule that completes a shutdown from any point of it. */
  lemma {:induction false} Complete(p: Pool, n: nat) returns (fs: seq<Event>)
    requires Inv(p, n) && n >= 1 && p.request
    ensures Plain(fs) && Exec(p, fs).state == SHUTDOWN
    decreases PhaseRank(p.phase, n), Sum(p.workers, Rank), HoldRank(p)
  {
    hide Inv, DoWork, DoWinning, DoMonitor, CanWork, CanWin, CanMonitor, Rank;
    if p.state == SHUTDOWN {
      return [];
    }
    var e: Event;
    if p.phase != Finished {
      WinnerProgress(p, n);
      if w :| CanWin(p, w) {
        e := Winning(w);
      } else {
        e := Monitor;
        MonitorLetsGo(p, n);
      }
    } else {
      var w := WorkerProgress(p, n);
      if CanWork(p, w) {
        e := Work(w);
        StepLowersSum(p, e, n);
      } else {
        e := Monitor;
        MonitorLetsGo(p, n);
      }
    }
    StepKeepsInv(p, e, n);
    PhaseOnlyAdvances(p, e);
    var rest := Complete(Step(p, e), n);
    ExecFirst(p, e, rest);
    fs := [e] + rest;
  }

  ghost predicate Completes(p: Pool, fs: seq<Event>) {
    Plain(fs) && Exec(p, fs).state == SHUTDOWN
  }

  /** Once shutdown is requested, SHUTDOWN can be reached from wherever the pool is, by steps of the
      workers, the winner and the monitor alone: even if no timed wait ever expires. */
  lemma {:induction false} ShutDownCanComplete(n: nat, m: nat, es: seq<Event>)
    requires 1 <= n && m <= n && Exec(Initial(n, m), es).request
    ensures exists fs :: Completes(Exec(Initial(n, m), es), fs)
  {
    ReachableInv(n, m, es);
    var fs := Complete(Exec(Initial(n, m), es), n);
    assert Completes(Exec(Initial(n, m), es), fs);
  }

  /** In SHUTDOWN no caller is stuck: one that sleeps has the broadcast of a worker still to come; the winner
      of the race can go on to the wait, or it or the monitor that keeps it waiting can take a step of the
      work before that; and every other one returns at its next step. */
  lemma {:induction false} CallersGetOut(n: nat, m: nat, es: seq<Event>, c: Thread)
    requires 1 <= n && m <= n
    requires var p := Exec(Initial(n, m), es); c in p.callers && p.state == SHUTDOWN
    ensures var p := Exec(Initial(n, m), es);
            match p.callers[c].pc
            case Winner =>
              if p.phase == Finished then Enabled(p, Calling(c)) && Step(p, Calling(c)).callers[c].pc == AtWait
              else (exists w :: CanWin(p, w)) || (MonitorHolds(p) && CanMonitor(p))
            case Returned => true
            case AsleepInWait =>
              exists w :: Enabled(p, Work(w)) && Step(p, Work(w)).callers[c].pc == AwakeInWait
            case _ => Enabled(p, Calling(c)) && Step(p, Calling(c)).callers[c].pc == Returned
  {
    ReachableInv(n, m, es);
    var p := Exec(Initial(n, m), es);
    assert CallerOk(p, c);
    StateByPhase(p, n);
    if p.phase != Finished { WinnerProgress(p, n); }
    if p.callers[c].pc == AsleepInWait {
      var w: nat :| w < |p.workers| && p.workers[w].pc == AtBroadcast;
      BroadcastWakes(p, n, w, c);
    }
  }

  lemma BroadcastWakes(p: Pool, n: nat, w: nat, c: Thread)
    requires Inv(p, n) && w < |p.workers| && p.workers[w].pc == AtBroadcast
    requires c in p.callers && p.callers[c].pc == AsleepInWait
    ensures Enabled(p, Work(w)) && c in Step(p, Work(w)).callers && Step(p, Work(w)).callers[c].pc == AwakeInWait
  {
  }

  // ---------- n >= 1 is needed ----------

  ghost predicate Empty(p: Pool) {
    p.state != SHUTDOWN && p.workers == [] && p.max == 0 && p.threads == {}
  }

  /** A pool of no threads never reaches SHUTDOWN, so its ShutDownNow never returns. */
  lemma {:induction false} EmptyPoolNeverShutsDown(es: seq<Event>)
    ensures Empty(Exec(Initial(0, 0), es))
  {
    EmptyPoolStays(Initial(0, 0), es);
  }

  lemma {:induction false} EmptyPoolStays(p: Pool, es: seq<Event>)
    requires Empty(p)
    ensures Empty(Exec(p, es))
  {
    hide Step;
    if es != [] {
      EmptyPoolStays(p, es[..|es| - 1]);
      EmptyStep(Exec(p, es[..|es| - 1]), es[|es| - 1]);
    }
  }

  lemma EmptyStep(p: Pool, e: Event)
    requires Empty(p)
    ensures Empty(Step(p, e))
  {
    hide Judge, Notified, WakeCallers, CanCall, Free, DoWinning, DoMonitor;
    if Enabled(p, e) {
      match e
      case Winning(v) => Frames.WinningTouches(p, v);
      case Monitor => EmptyMonitor(p);
      case _ =>
    }
  }

  lemma EmptyMonitor(p: Pool)
    requires Empty(p)
    ensures Empty(DoMonitor(p))
  {
    hide Judge;
    Frames.MonitorTouches(p);
  }
}
