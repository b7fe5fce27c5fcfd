/** What a pool that cannot grow (max <= core == n), such as the fixed pool, keeps in every schedule, on top of
    PoolProperties.Inv. */
module FixedPoolInvariant {
  import opened Common
  import opened PoolSpec
  import opened WorkerSums
  import Base = PoolProperties
  import Frames = PoolFrames

  function PhaseNo(ph: Phase): nat {
    match ph
    case Idle => 0
    case ToSetStop => 1
    case ToLockThreads => 2
    case Closing(_) => 3
    case Pushing(_) => 4
    case ToCloseMonitor => 5
    case ToPushZero => 6
    case ToNotifyMonitor => 7
    case Finished => 8
  }

  // ---------- Shape: the map never changes and nobody retires ----------

  predicate InLoop(pc: WorkerPc) {
    pc in {Starting, AtCheck, AtPop, Asleep, Awake, AtJudge} || pc.Holds? || pc.InTask?
  }

  ghost predicate WorkerShape(p: Pool, i: nat)
    requires i < |p.workers|
  {
    var w := p.workers[i];
    && !(w.pc in {AtSelfClose, AtReport, AtReportNotify}) && w.fate != Reported
    && i in p.threads
    && (w.close ==> PhaseNo(p.phase) >= 3)
    && (!InLoop(w.pc) ==> w.close)
    && (w.pc == Holds(EndTask) ==> PhaseNo(p.phase) >= 4)
    && (PhaseNo(p.phase) >= 4 || (p.phase.Closing? && i !in p.phase.open) ==> w.close)
  }

  ghost predicate Shape(p: Pool, n: nat) {
    && p.core == n && p.max <= n && |p.workers| == n && |p.threads| == n
    && (forall j | 0 <= j < |p.sub| :: p.sub[j] == 0)
    && (p.request <==> p.phase != Idle)
    && (p.phase.Closing? ==> p.phase.open <= p.threads)
    && (EndTask in p.queue ==> PhaseNo(p.phase) >= 4)
    && (forall i: nat | i < |p.workers| :: WorkerShape(p, i))
  }

  // ---------- Supply: enough items for everyone who may still pop ----------

  /** About to pop, or asleep in the attempt. */
  function PopWeight(w: Worker): nat {
    if w.pc in {AtPop, Asleep, Awake} then 1 else 0
  }

  ghost predicate Supply(p: Pool) {
    && (p.phase.Pushing? ==> |p.queue| + p.phase.left >= Sum(p.workers, PopWeight))
    && (PhaseNo(p.phase) >= 5 ==> |p.queue| >= Sum(p.workers, PopWeight))
    && (forall i: nat | i < |p.workers| :: p.workers[i].pc == Asleep ==> p.queue == [])
  }

  // ---------- State: SHUTDOWN is reached when the last worker is counted ----------

  ghost predicate SomeAt(ws: seq<Worker>, pc: WorkerPc) {
    exists i :: 0 <= i < |ws| && ws[i].pc == pc
  }

  ghost predicate StateOk(p: Pool, n: nat) {
    && (PhaseNo(p.phase) <= 1 <==> p.state == RUNNING)
    && (p.state == SHUTDOWN || SomeAt(p.workers, AtSetShutDown) ==> p.stopped == n)
    && (SomeAt(p.workers, AtBroadcast) ==> p.state == SHUTDOWN)
    && (p.stopped == n ==>
          p.state == SHUTDOWN || SomeAt(p.workers, AtCompare(n)) || SomeAt(p.workers, AtSetShutDown))
  }

  /** A caller asleep in SHUTDOWN has a broadcast still to come; one that has returned saw SHUTDOWN. */
  ghost predicate CallerOk(p: Pool, c: Thread)
    requires c in p.callers
  {
    && (p.callers[c].pc == AsleepInWait && p.state == SHUTDOWN ==> SomeAt(p.workers, AtBroadcast))
    && (p.callers[c].pc == Returned && p.callers[c].now ==> p.state == SHUTDOWN)
  }

  ghost predicate CallersOk(p: Pool) {
    forall c | c in p.callers :: CallerOk(p, c)
  }

  // ---------- Shape is kept ----------

  lemma WorkerKeepsOwnShape(p: Pool, w: nat)
    requires CanWork(p, w) && WorkerShape(p, w) && Base.FateOk(p.workers[w])
    requires EndTask in p.queue ==> PhaseNo(p.phase) >= 4
    requires |p.threads| <= p.core
    requires p.workers[w].close ==> p.request
    ensures var w' := Next(p, p.workers[w]); WorkerShape(p.(workers := p.workers[w := w']), w)
  {
  }

  lemma WorkKeepsShape(p: Pool, w: nat, n: nat)
    requires Shape(p, n) && Base.Inv(p) && CanWork(p, w)
    ensures Shape(DoWork(p, w), n)
  {
    hide InLoop, Next;
    var p' := DoWork(p, w);
    assert WorkerShape(p, w);
    assert Base.WorkerOk(p, w);
    WorkerKeepsOwnShape(p, w);
    forall i: nat | i < |p'.workers| ensures WorkerShape(p', i) {
      assert WorkerShape(p, i);
    }
  }

  lemma WakeKeepsShape(p: Pool, p': Pool, i: nat)
    requires i < |p.workers| == |p'.workers| && WorkerShape(p, i)
    requires p'.workers[i] == p.workers[i] || p'.workers[i] == p.workers[i].(pc := p'.workers[i].pc)
    requires p'.workers[i].pc != p.workers[i].pc ==> InLoop(p.workers[i].pc) && p'.workers[i].pc in {AtJudge, Awake}
    requires p'.threads == p.threads && p'.phase == p.phase
    ensures WorkerShape(p', i)
  {
  }

  lemma PushKeepsShape(p: Pool, x: Item, n: nat)
    requires Shape(p, n) && (x == EndTask ==> p.phase.Pushing?)
    ensures Shape(PushItem(p, x), n)
  {
    var p' := PushItem(p, x);
    forall i: nat | i < |p'.workers| ensures WorkerShape(p', i) {
      WakeKeepsShape(p, p', i);
    }
  }

  lemma ClockKeepsShape(p: Pool, w: nat, pc: WorkerPc, n: nat)
    requires Shape(p, n) && w < |p.workers| && p.workers[w].pc in {Asleep, Awake} && pc in {AtJudge, Awake}
    ensures Shape(SetPc(p, w, pc), n)
  {
    var p' := SetPc(p, w, pc);
    forall i: nat | i < |p'.workers| ensures WorkerShape(p', i) {
      assert WorkerShape(p, i);
      WakeKeepsShape(p, p', i);
    }
  }

  /** The phase moves on without touching the workers. */
  lemma PhaseKeepsShape(p: Pool, p': Pool, n: nat)
    requires Shape(p, n)
    requires p'.workers == p.workers && p'.core == p.core && p'.max == p.max && p'.threads == p.threads
    requires p'.queue == p.queue && (p'.sub == p.sub || p'.sub == p.sub + [0] || p'.sub == [])
    requires PhaseNo(p'.phase) >= PhaseNo(p.phase)
    requires PhaseNo(p'.phase) == 3 ==> p'.phase == p.phase || p'.phase.open == p.threads
    requires PhaseNo(p.phase) == 3 && PhaseNo(p'.phase) > 3 ==> p.phase.open == {}
    requires PhaseNo(p.phase) < 3 ==> PhaseNo(p'.phase) <= 3
    requires p'.request <==> p'.phase != Idle
    ensures Shape(p', n)
  {
    forall i: nat | i < |p'.workers| ensures WorkerShape(p', i) {
      assert WorkerShape(p, i);
    }
  }

  lemma CloseOneKeepsShape(p: Pool, w: nat, n: nat)
    requires Shape(p, n) && p.phase.Closing? && w in p.phase.open && w < |p.workers|
    ensures Shape(CloseOne(p, p.phase.open, w), n)
  {
    var p' := CloseOne(p, p.phase.open, w);
    forall i: nat | i < |p'.workers| ensures WorkerShape(p', i) {
      assert WorkerShape(p, i);
    }
  }

  lemma WinningKeepsShape(p: Pool, w: nat, n: nat)
    requires Shape(p, n) && CanWin(p, w)
    ensures Shape(DoWinning(p, w), n)
  {
    var p' := DoWinning(p, w);
    match p.phase
    case Closing(open) =>
      if open == {} { PhaseKeepsShape(p, p', n); } else { CloseOneKeepsShape(p, w, n); }
    case Pushing(k) =>
      if k == 0 {
        PhaseKeepsShape(p, p', n);
      } else {
        PushKeepsShape(p, EndTask, n);
        PhaseKeepsShape(PushItem(p, EndTask), p', n);
      }
    case _ => PhaseKeepsShape(p, p', n);
  }

  lemma MonitorKeepsShape(p: Pool, n: nat)
    requires Shape(p, n) && CanMonitor(p)
    ensures Shape(DoMonitor(p), n)
  {
    MonitorKeepsMap(p, n);
    hide Shape, DoMonitor, CanMonitor, Judge, Crowded;
    Frames.MonitorTouches(p);
    RequestByPhase(p, n);
    PhaseKeepsShape(p, DoMonitor(p), n);
  }

  lemma RequestByPhase(p: Pool, n: nat)
    requires Shape(p, n)
    ensures p.request <==> p.phase != Idle
    ensures p.phase.Closing? ==> p.phase.open <= p.threads
  {
  }

  /** The map is full and the reaping list holds nothing but wake-up entries. */
  lemma MonitorKeepsMap(p: Pool, n: nat)
    requires Shape(p, n)
    ensures DoMonitor(p).workers == p.workers && DoMonitor(p).threads == p.threads
    ensures DoMonitor(p).sub == p.sub || DoMonitor(p).sub == []
  {
    hide Judge, WorkerShape;
    match p.monitor
    case MReap(next) =>
    case _ =>
  }

  lemma SubmittingKeepsShape(p: Pool, t: Thread, n: nat)
    requires Shape(p, n) && t in p.submitters
    ensures Shape(DoSubmitting(p, t), n)
  {
    match p.submitters[t]
    case AtPush(id) =>
      PushKeepsShape(p, UserTask(id), n);
      PhaseKeepsShape(PushItem(p, UserTask(id)), DoSubmitting(p, t), n);
    case AtNotify => PhaseKeepsShape(p, DoSubmitting(p, t), n);
  }

  lemma StepKeepsShape(p: Pool, e: Event, n: nat)
    requires Shape(p, n) && Base.Inv(p)
    ensures Shape(Step(p, e), n)
  {
    hide DoWork, DoMonitor, DoWinning, DoSubmitting, Shape, Base.Inv, CanWork, CanWin, CanMonitor;
    if Enabled(p, e) {
      match e
      case Work(w) => WorkKeepsShape(p, w, n);
      case WorkTimeout(w) => ClockKeepsShape(p, w, AtJudge, n);
      case WorkSpurious(w) => ClockKeepsShape(p, w, Awake, n);
      case Submit(t, task) => SameShape(p, Act(p, e), n);
      case Submitting(t) => SubmittingKeepsShape(p, t, n);
      case ShutDown(t, now) => SameShape(p, Act(p, e), n);
      case Winning(w) => WinningKeepsShape(p, w, n);
      case Calling(t) => SameShape(p, Act(p, e), n);
      case CallSpurious(t) => SameShape(p, Act(p, e), n);
      case Monitor => MonitorKeepsShape(p, n);
      case MonitorTimeout => SameShape(p, Act(p, e), n);
      case MonitorSpurious => SameShape(p, Act(p, e), n);
    }
  }

  lemma SameShape(p: Pool, p': Pool, n: nat)
    requires Shape(p, n)
    requires p'.workers == p.workers && p'.core == p.core && p'.max == p.max && p'.threads == p.threads
    requires p'.queue == p.queue && p'.sub == p.sub
    requires (p'.phase == p.phase && p'.request == p.request)
             || (!p.request && p'.request && p'.phase == ToSetStop)
    ensures Shape(p', n)
  {
    PhaseKeepsShape(p, p', n);
  }

  // ---------- Supply is kept ----------

  lemma WorkKeepsSupply(p: Pool, w: nat, n: nat)
    requires Supply(p) && Shape(p, n) && CanWork(p, w)
    ensures Supply(DoWork(p, w))
  {
    var p' := DoWork(p, w);
    assert WorkerShape(p, w);
    SumUpdate(p.workers, w, p'.workers[w], PopWeight);
  }

  lemma WakeKeepsSum(ws: seq<Worker>)
    ensures Sum(WakeWorkers(ws), PopWeight) == Sum(ws, PopWeight)
  {
    SumAtMost(WakeWorkers(ws), ws, PopWeight);
    SumAtMost(ws, WakeWorkers(ws), PopWeight);
  }

  /** A push adds one to the supply; the new phase may promise one sentinel less. */
  lemma PushKeepsSupply(p: Pool, x: Item, ph: Phase)
    requires Supply(p)
    requires ph == p.phase || (p.phase.Pushing? && ph.Pushing? && ph.left + 1 == p.phase.left)
    ensures Supply(PushItem(p, x).(phase := ph))
  {
    WakeKeepsSum(p.workers);
  }

  lemma ClockKeepsSupply(p: Pool, w: nat, pc: WorkerPc)
    requires Supply(p) && w < |p.workers| && p.workers[w].pc in {Asleep, Awake} && pc in {AtJudge, Awake}
    ensures Supply(SetPc(p, w, pc))
  {
    SumUpdate(p.workers, w, p.workers[w].(pc := pc), PopWeight);
  }

  lemma WinningKeepsSupply(p: Pool, w: nat, n: nat)
    requires Supply(p) && Shape(p, n) && CanWin(p, w)
    ensures Supply(DoWinning(p, w))
  {
    match p.phase
    case Closing(open) =>
      if open == {} {
        SumBound(p.workers, PopWeight, 1);
      } else {
        SumUpdate(p.workers, w, p.workers[w].(close := true), PopWeight);
      }
    case Pushing(k) => if k != 0 { PushKeepsSupply(p, EndTask, Pushing(k - 1)); }
    case _ =>
  }

  lemma SameSupply(p: Pool, p': Pool)
    requires Supply(p) && p'.workers == p.workers && p'.queue == p.queue
    requires p'.phase == p.phase || PhaseNo(p'.phase) <= 1
    ensures Supply(p')
  {
  }

  lemma MonitorKeepsSupply(p: Pool, n: nat)
    requires Supply(p) && Shape(p, n) && CanMonitor(p)
    ensures Supply(DoMonitor(p))
  {
  }

  lemma SubmittingKeepsSupply(p: Pool, t: Thread)
    requires Supply(p) && t in p.submitters
    ensures Supply(DoSubmitting(p, t))
  {
    if p.submitters[t].AtPush? {
      var x := UserTask(p.submitters[t].id);
      PushKeepsSupply(p, x, p.phase);
      SameSupply(PushItem(p, x).(phase := p.phase), DoSubmitting(p, t));
    } else {
      SameSupply(p, DoSubmitting(p, t));
    }
  }

  lemma StepKeepsSupply(p: Pool, e: Event, n: nat)
    requires Supply(p) && Shape(p, n)
    ensures Supply(Step(p, e))
  {
    hide DoWork, DoWinning, CanWork, CanWin, Shape, CanMonitor, DoMonitor, DoSubmitting, Supply;
    if Enabled(p, e) {
      match e
      case Work(w) => WorkKeepsSupply(p, w, n);
      case WorkTimeout(w) => ClockKeepsSupply(p, w, AtJudge);
      case WorkSpurious(w) => ClockKeepsSupply(p, w, Awake);
      case Submitting(t) => SubmittingKeepsSupply(p, t);
      case Winning(w) => WinningKeepsSupply(p, w, n);
      case Monitor => MonitorKeepsSupply(p, n);
      case _ => SameSupply(p, Act(p, e));
    }
  }

  // ---------- State is kept ----------

  lemma UncountedLeft(p: Pool, w: nat, n: nat)
    requires Base.Inv(p) && |p.threads| == n && w < |p.workers| && w in p.threads
    ensures p.stopped <= n
    ensures p.workers[w].fate != Counted ==> p.stopped < n
  {
    var counted := Base.CountedIn(p.workers);
    forall i | i in counted ensures i in p.threads {
      assert Base.WorkerOk(p, i);
    }
    Base.SubsetSize(counted, p.threads);
    if p.workers[w].fate != Counted { Base.SubsetSize(counted, p.threads - {w}); }
  }

  /** Moving one worker keeps what the others stand at. */
  lemma OthersStay(ws: seq<Worker>, w: nat, x: Worker, pc: WorkerPc)
    requires w < |ws|
    ensures SomeAt(ws, pc) && ws[w].pc != pc ==> SomeAt(ws[w := x], pc)
    ensures SomeAt(ws[w := x], pc) && x.pc != pc ==> SomeAt(ws, pc)
    ensures x.pc == pc ==> SomeAt(ws[w := x], pc)
  {
    var vs := ws[w := x];
    if SomeAt(ws, pc) && ws[w].pc != pc {
      var i :| 0 <= i < |ws| && ws[i].pc == pc;
      assert vs[i].pc == pc;
    }
    if SomeAt(vs, pc) && x.pc != pc {
      var i :| 0 <= i < |vs| && vs[i].pc == pc;
      assert ws[i].pc == pc;
    }
    if x.pc == pc { assert vs[w].pc == pc; }
  }

  lemma WorkKeepsState(p: Pool, w: nat, n: nat)
    requires w < |p.workers| && StateOk(p, n) && Shape(p, n) && Base.Inv(p) && CanWork(p, w)
    ensures StateOk(DoWork(p, w), n)
  {
    hide Base.Inv, Shape, SomeAt, CanWork, WakeCallers, Notified;
    var p' := DoWork(p, w);
    OneWorker(p, w, n);
    UncountedLeft(p, w, n);
    var x := p'.workers[w];
    OthersStay(p.workers, w, x, AtSetShutDown);
    OthersStay(p.workers, w, x, AtBroadcast);
    OthersStay(p.workers, w, x, AtCompare(n));
    AtMeansSome(p.workers, w);
  }

  lemma AtMeansSome(ws: seq<Worker>, w: nat)
    requires w < |ws|
    ensures SomeAt(ws, ws[w].pc)
  {
  }

  lemma OneWorker(p: Pool, w: nat, n: nat)
    requires Shape(p, n) && Base.Inv(p) && CanWork(p, w)
    ensures w < |p.workers| && Base.From(p) <= |p.sub| && |p.threads| == n
    ensures WorkerShape(p, w) && Base.WorkerOk(p, w)
  {
  }

  /** The state and the callers hear only of workers outside the loop. */
  lemma LoopKeepsRest(p: Pool, p': Pool, n: nat)
    requires StateOk(p, n) && CallersOk(p)
    requires |p.workers| == |p'.workers|
    requires forall i | 0 <= i < |p.workers| ::
               p'.workers[i].pc == p.workers[i].pc || (InLoop(p.workers[i].pc) && InLoop(p'.workers[i].pc))
    requires p'.stopped == p.stopped && p'.callers == p.callers
    requires p'.state == p.state || (p.state == RUNNING && p'.state == STOP)
    requires PhaseNo(p'.phase) <= 1 <==> p'.state == RUNNING
    ensures StateOk(p', n) && CallersOk(p')
  {
  }

  lemma WorkKeepsCallers(p: Pool, w: nat, n: nat)
    requires w < |p.workers| && CallersOk(p) && StateOk(p, n) && Shape(p, n) && Base.Inv(p) && CanWork(p, w)
    ensures CallersOk(DoWork(p, w))
  {
    hide Base.Inv, Shape, SomeAt, CanWork, Notified;
    var p' := DoWork(p, w);
    OneWorker(p, w, n);
    var x := p'.workers[w];
    OthersStay(p.workers, w, x, AtBroadcast);
    forall c | c in p'.callers ensures CallerOk(p', c) {
      assert CallerOk(p, c);
    }
  }

  /** A caller goes to sleep or returns according to the state it sees. */
  lemma CallingKeepsCallers(p: Pool, t: Thread, n: nat)
    requires CallersOk(p) && CanCall(p, t)
    ensures CallersOk(DoCalling(p, t))
  {
  }

  lemma WinningKeepsRest(p: Pool, w: nat, n: nat)
    requires StateOk(p, n) && CallersOk(p) && CanWin(p, w)
    ensures StateOk(DoWinning(p, w), n) && CallersOk(DoWinning(p, w))
  {
    hide StateOk, CallersOk, DoWinning, CanWin;
    StateByPhase(p, n);
    Frames.WinningTouches(p, w);
    Frames.WinningMoves(p, w);
    Frames.WinningPhase(p, w);
    LoopKeepsRest(p, DoWinning(p, w), n);
  }

  lemma StateByPhase(p: Pool, n: nat)
    requires StateOk(p, n)
    ensures PhaseNo(p.phase) <= 1 <==> p.state == RUNNING
  {
  }

  lemma OtherKeepsRest(p: Pool, e: Event, n: nat)
    requires StateOk(p, n) && CallersOk(p) && Enabled(p, e)
    requires e.WorkTimeout? || e.WorkSpurious? || e.Submit? || e.MonitorTimeout? || e.MonitorSpurious?
    ensures StateOk(Act(p, e), n) && CallersOk(Act(p, e))
  {
    hide StateOk, CallersOk;
    StateByPhase(p, n);
    LoopKeepsRest(p, Act(p, e), n);
  }

  lemma SubmittingKeepsRest(p: Pool, t: Thread, n: nat)
    requires StateOk(p, n) && CallersOk(p) && t in p.submitters
    ensures StateOk(DoSubmitting(p, t), n) && CallersOk(DoSubmitting(p, t))
  {
    hide StateOk, CallersOk;
    StateByPhase(p, n);
    LoopKeepsRest(p, DoSubmitting(p, t), n);
  }

  lemma MonitorKeepsRest(p: Pool, n: nat)
    requires StateOk(p, n) && CallersOk(p) && Shape(p, n) && CanMonitor(p)
    ensures StateOk(DoMonitor(p), n) && CallersOk(DoMonitor(p))
  {
    hide StateOk, CallersOk, DoMonitor, CanMonitor, Judge;
    StateByPhase(p, n);
    Frames.MonitorTouches(p);
    LoopKeepsRest(p, DoMonitor(p), n);
  }

  lemma ShutDownKeepsRest(p: Pool, t: Thread, now: bool, n: nat)
    requires StateOk(p, n) && CallersOk(p) && Shape(p, n) && t !in p.callers
    ensures StateOk(DoShutDown(p, t, now), n) && CallersOk(DoShutDown(p, t, now))
  {
  }

  lemma SpuriousKeepsCallers(p: Pool, t: Thread)
    requires CallersOk(p) && t in p.callers && p.callers[t].pc == AsleepInWait
    ensures CallersOk(SetCaller(p, t, AwakeInWait))
  {
  }

  lemma StepKeepsRest(p: Pool, e: Event, n: nat)
    requires StateOk(p, n) && CallersOk(p) && Shape(p, n) && Base.Inv(p)
    ensures StateOk(Step(p, e), n) && CallersOk(Step(p, e))
  {
    hide DoWork, DoMonitor, DoWinning, DoSubmitting, DoShutDown, Shape, Base.Inv, SomeAt, CallersOk;
    if Enabled(p, e) {
      match e
      case Work(w) =>
        WorkKeepsState(p, w, n);
        WorkKeepsCallers(p, w, n);
      case ShutDown(t, now) => ShutDownKeepsRest(p, t, now, n);
      case Submitting(t) => SubmittingKeepsRest(p, t, n);
      case Monitor => MonitorKeepsRest(p, n);
      case Winning(w) => WinningKeepsRest(p, w, n);
      case Calling(t) => CallingKeepsCallers(p, t, n);
      case CallSpurious(t) => SpuriousKeepsCallers(p, t);
      case _ => OtherKeepsRest(p, e, n);
    }
  }

  // ---------- All schedules ----------

  ghost predicate Inv(p: Pool, n: nat) {
    Base.Inv(p) && Shape(p, n) && Supply(p) && StateOk(p, n) && CallersOk(p)
  }

  lemma StepKeepsInv(p: Pool, e: Event, n: nat)
    requires Inv(p, n)
    ensures Inv(Step(p, e), n)
  {
    hide Step, Shape, Supply, StateOk, CallersOk, Base.Inv;
    Base.StepKeepsInv(p, e);
    StepKeepsShape(p, e, n);
    StepKeepsSupply(p, e, n);
    StepKeepsRest(p, e, n);
  }

  lemma {:induction false} ExecKeepsInv(p: Pool, es: seq<Event>, n: nat)
    requires Inv(p, n)
    ensures Inv(Exec(p, es), n)
  {
    hide Step, Inv;
    if es != [] {
      ExecKeepsInv(p, es[..|es| - 1], n);
      StepKeepsInv(Exec(p, es[..|es| - 1]), es[|es| - 1], n);
    }
  }

  lemma InitialInv(n: nat, m: nat)
    requires 1 <= n && m <= n
    ensures Inv(Initial(n, m), n)
  {
  }

  lemma {:induction false} ReachableInv(n: nat, m: nat, es: seq<Event>)
    requires 1 <= n && m <= n
    ensures Inv(Exec(Initial(n, m), es), n)
  {
    InitialInv(n, m);
    ExecKeepsInv(Initial(n, m), es, n);
  }
}
