/** The bookkeeping every scaling pool keeps, whatever its sizes. */
module PoolProperties {
  import opened Common
  import opened PoolSpec
  import Frames = PoolFrames

  // ---------- The invariant ----------

  /** In the work loop, or out of it and not yet accounted for. */
  ghost predicate Unaccounted(pc: WorkerPc) {
    !(pc in {AtReportNotify, AtSetShutDown, AtBroadcast, Done}) && !pc.AtCompare?
  }

  ghost predicate FateOk(w: Worker) {
    match w.fate
    case Working => Unaccounted(w.pc)
    case Reported => w.pc in {AtReportNotify, Done}
    case Counted => w.pc in {AtSetShutDown, AtBroadcast, Done} || w.pc.AtCompare?
  }

  ghost function CountedIn(ws: seq<Worker>): set<nat> {
    set i | 0 <= i < |ws| && ws[i].fate == Counted
  }

  /** The first entry of the reaping list that is still to be looked at. */
  ghost function From(p: Pool): nat {
    if p.monitor.MReap? then p.monitor.next else 0
  }

  ghost predicate Awaits(p: Pool, i: nat) {
    exists j :: From(p) <= j < |p.sub| && p.sub[j] == i + 1
  }

  /** A worker is in the map until it has been reaped, and is reaped only after it has reported and
      ended; a counted worker is never reaped; a reported worker still in the map is waiting its turn. */
  ghost predicate WorkerOk(p: Pool, i: nat)
    requires i < |p.workers| && From(p) <= |p.sub|
  {
    var w := p.workers[i];
    && FateOk(w)
    && (w.pc.AtCompare? ==> w.pc.count <= p.stopped)
    && (w.pc == AtCount || w.fate == Counted ==> p.request)
    && (w.fate == Counted ==> i in p.threads)
    && (i !in p.threads ==> w.fate == Reported && w.pc == Done)
    && (w.fate == Reported && i in p.threads ==> Awaits(p, i))
  }

  ghost predicate SubOk(p: Pool, j: nat)
    requires j < |p.sub|
  {
    p.sub[j] > 0 ==> p.sub[j] - 1 < |p.workers| && p.workers[p.sub[j] - 1].fate == Reported
  }

  /** Somebody has found all the map's entries counted. */
  ghost predicate Decided(p: Pool) {
    p.state == SHUTDOWN || exists i :: 0 <= i < |p.workers| && p.workers[i].pc in {AtSetShutDown, AtBroadcast}
  }

  ghost predicate Straggler(w: Worker) {
    w.fate == Reported || w.pc == AtReport
  }

  ghost predicate Sizes(p: Pool) {
    && From(p) <= |p.sub|
    && (forall i | i in p.threads :: i < |p.workers|)
    && |p.threads| <= (if p.core > p.max then p.core else p.max)
    && p.stopped == |CountedIn(p.workers)|
  }

  ghost predicate Inv(p: Pool) {
    && Sizes(p)
    && (forall i: nat | i < |p.workers| :: WorkerOk(p, i))
    && (forall j: nat | j < |p.sub| :: SubOk(p, j))
    && (Decided(p) ==> p.request)
    && (Decided(p) ==> forall i: nat | i < |p.workers| && i in p.threads :: !Straggler(p.workers[i]))
  }

  // ---------- Quiet steps ----------

  /** A worker moved, if at all, before being accounted for. */
  ghost predicate QuietMove(p: Pool, p': Pool, w: Worker, w': Worker) {
    && w'.fate == w.fate
    && (w'.pc == w.pc
        || (&& Unaccounted(w.pc) && Unaccounted(w'.pc)
            && (w'.pc == AtCount ==> p.request)
            && (w'.pc == AtReport ==> !p.request)))
  }

  ghost predicate Quiet(p: Pool, p': Pool) {
    && p'.core == p.core && p'.max == p.max
    && |p'.workers| == |p.workers|
    && (forall i | 0 <= i < |p.workers| :: QuietMove(p, p', p.workers[i], p'.workers[i]))
    && p'.threads == p.threads && p'.sub == p.sub && p'.stopped == p.stopped
    && (p'.state == SHUTDOWN ==> p.state == SHUTDOWN)
    && (p.request ==> p'.request)
    && From(p') == From(p)
  }

  lemma QuietKeepsInv(p: Pool, p': Pool)
    requires Inv(p) && Quiet(p, p')
    ensures Inv(p')
  {
    assert CountedIn(p'.workers) == CountedIn(p.workers) by {
      forall i | 0 <= i < |p.workers| ensures p'.workers[i].fate == p.workers[i].fate {
        assert QuietMove(p, p', p.workers[i], p'.workers[i]);
      }
    }
    forall i: nat | i < |p'.workers| ensures WorkerOk(p', i) {
      assert WorkerOk(p, i) && QuietMove(p, p', p.workers[i], p'.workers[i]);
    }
    forall j: nat | j < |p'.sub| ensures SubOk(p', j) {
      assert SubOk(p, j);
      if p.sub[j] > 0 {
        var i := p.sub[j] - 1;
        assert QuietMove(p, p', p.workers[i], p'.workers[i]);
      }
    }
    if Decided(p') {
      if p'.state != SHUTDOWN {
        var i :| 0 <= i < |p'.workers| && p'.workers[i].pc in {AtSetShutDown, AtBroadcast};
        assert QuietMove(p, p', p.workers[i], p'.workers[i]);
        assert p.workers[i].pc in {AtSetShutDown, AtBroadcast};
      }
      assert Decided(p);
      forall i: nat | i < |p'.workers| && i in p'.threads ensures !Straggler(p'.workers[i]) {
        assert QuietMove(p, p', p.workers[i], p'.workers[i]) && !Straggler(p.workers[i]);
      }
    }
  }

  ghost predicate QuietWork(pc: WorkerPc) {
    Unaccounted(pc) && pc != AtReport && pc != AtCount
  }

  lemma WorkIsQuiet(p: Pool, w: nat)
    requires CanWork(p, w) && QuietWork(p.workers[w].pc)
    ensures Quiet(p, DoWork(p, w))
  {
  }

  // ---------- Steps that account for a worker ----------

  function Reporting(p: Pool, w: nat): Pool
    requires w < |p.workers|
  {
    p.(sub := p.sub + [w + 1],
       workers := p.workers[w := p.workers[w].(pc := AtReportNotify, fate := PoolSpec.Reported)])
  }

  lemma ReportStep(p: Pool, w: nat)
    requires w < |p.workers| && p.workers[w].pc == AtReport
    ensures DoWork(p, w) == Reporting(p, w)
  {
  }

  lemma ReportKeepsWorker(p: Pool, w: nat, i: nat)
    requires Sizes(p) && w < |p.workers| && i < |p.workers| && !p.monitor.MReap?
    requires WorkerOk(p, i) && WorkerOk(p, w) && p.workers[w].pc == AtReport
    ensures WorkerOk(Reporting(p, w), i)
  {
    var p' := Reporting(p, w);
    assert p'.sub[|p.sub|] == w + 1;
    if j :| From(p) <= j < |p.sub| && p.sub[j] == i + 1 {
      assert p'.sub[j] == i + 1;
    }
  }

  lemma AtReportFacts(p: Pool, w: nat)
    requires Inv(p) && CanWork(p, w) && p.workers[w].pc == AtReport
    ensures WorkerOk(p, w) && !p.monitor.MReap? && w in p.threads && p.workers[w].fate == Working
    ensures !Decided(p)
  {
    assert Straggler(p.workers[w]);
  }

  lemma ReportKeepsInv(p: Pool, w: nat)
    requires Inv(p) && CanWork(p, w) && p.workers[w].pc == AtReport
    ensures Inv(DoWork(p, w))
  {
    AtReportFacts(p, w);
    ReportStep(p, w);
    hide WorkerOk, DoWork, CanWork, Decided, Straggler;
    var p' := Reporting(p, w);
    assert CountedIn(p'.workers) == CountedIn(p.workers);
    forall i: nat | i < |p'.workers| ensures WorkerOk(p', i) {
      assert WorkerOk(p, i);
      ReportKeepsWorker(p, w, i);
    }
    forall j: nat | j < |p'.sub| ensures SubOk(p', j) {
      if j < |p.sub| { assert SubOk(p, j); }
    }
    if Decided(p') { SameDecided(p, p', w); }
  }

  lemma CountAddsOne(ws: seq<Worker>, w: nat, x: Worker)
    requires w < |ws| && ws[w].fate != Counted && x.fate == Counted
    ensures CountedIn(ws[w := x]) == CountedIn(ws) + {w} && w !in CountedIn(ws)
  {
  }

  lemma CountStep(p: Pool, w: nat)
    requires w < |p.workers| && p.workers[w].pc == AtCount
    ensures DoWork(p, w) ==
            p.(workers := p.workers[w := p.workers[w].(pc := AtCompare(p.stopped + 1), fate := Counted)],
               stopped := p.stopped + 1)
  {
  }

  lemma CountKeepsInv(p: Pool, w: nat)
    requires Inv(p) && CanWork(p, w) && p.workers[w].pc == AtCount
    ensures Inv(DoWork(p, w))
  {
    hide DoWork, Decided;
    var p' := DoWork(p, w);
    assert WorkerOk(p, w);
    CountStep(p, w);
    CountAddsOne(p.workers, w, p'.workers[w]);
    forall i: nat | i < |p'.workers| ensures WorkerOk(p', i) {
      assert WorkerOk(p, i);
    }
    forall j: nat | j < |p'.sub| ensures SubOk(p', j) {
      assert SubOk(p, j);
    }
    if Decided(p') { SameDecided(p, p', w); }
  }

  /** A step of one worker that is not a decision leaves Decided as it was. */
  lemma SameDecided(p: Pool, p': Pool, w: nat)
    requires w < |p.workers| && |p'.workers| == |p.workers|
    requires p'.state == SHUTDOWN ==> p.state == SHUTDOWN || p.workers[w].pc == AtSetShutDown
    requires forall i | 0 <= i < |p.workers| && i != w :: p'.workers[i] == p.workers[i]
    requires p'.workers[w].pc in {AtSetShutDown, AtBroadcast} ==> p.workers[w].pc in {AtSetShutDown, AtBroadcast}
    requires Decided(p')
    ensures Decided(p)
  {
  }

  lemma SubsetOfSameSize(a: set<nat>, b: set<nat>)
    requires a <= b && |a| >= |b|
    ensures a == b
  {
    if x :| x in b && x !in a {
      assert a <= b - {x};
      SubsetSize(a, b - {x});
    }
  }

  lemma SubsetSize(a: set<nat>, b: set<nat>)
    requires a <= b
    ensures |a| <= |b|
  {
    if a != {} {
      var x :| x in a;
      SubsetSize(a - {x}, b - {x});
    }
  }

  /** SHUTDOWN is decided only when every entry of the map has been counted. */
  lemma {:induction false} DecisionMeansAllCounted(p: Pool, w: nat)
    requires Inv(p) && CanWork(p, w) && p.workers[w].pc.AtCompare?
    requires Next(p, p.workers[w]).pc == AtSetShutDown
    ensures CountedIn(p.workers) == p.threads
    ensures forall i | i in p.threads :: i < |p.workers| && p.workers[i].fate == Counted
  {
    assert WorkerOk(p, w);
    forall i | i in CountedIn(p.workers) ensures i in p.threads {
      assert WorkerOk(p, i);
    }
    SubsetOfSameSize(CountedIn(p.workers), p.threads);
    forall i | i in p.threads ensures i < |p.workers| && p.workers[i].fate == Counted {
      assert i in CountedIn(p.workers);
    }
  }

  lemma CompareStep(p: Pool, w: nat)
    requires w < |p.workers| && p.workers[w].pc.AtCompare?
    ensures DoWork(p, w) == SetPc(p, w, if p.workers[w].pc.count >= |p.threads| then AtSetShutDown else Done)
  {
  }

  lemma CompareKeepsInv(p: Pool, w: nat)
    requires Inv(p) && CanWork(p, w) && p.workers[w].pc.AtCompare?
    ensures Inv(DoWork(p, w))
  {
    hide DoWork;
    CompareStep(p, w);
    var p' := DoWork(p, w);
    assert WorkerOk(p, w);
    assert CountedIn(p'.workers) == CountedIn(p.workers);
    forall i: nat | i < |p'.workers| ensures WorkerOk(p', i) {
      assert WorkerOk(p, i);
    }
    forall j: nat | j < |p'.sub| ensures SubOk(p', j) {
      assert SubOk(p, j);
    }
    if p'.workers[w].pc == AtSetShutDown {
      DecisionMeansAllCounted(p, w);
      forall i: nat | i < |p'.workers| && i in p'.threads ensures !Straggler(p'.workers[i]) {
        assert WorkerOk(p, i);
      }
    } else if Decided(p') {
      SameDecided(p, p', w);
    }
  }

  /** An accounted worker moves on; nothing else that matters changes. */
  lemma FinishKeepsInv(p: Pool, p': Pool, w: nat, pc: WorkerPc)
    requires Inv(p) && w < |p.workers|
    requires p.workers[w].pc in {AtReportNotify, AtSetShutDown, AtBroadcast} && pc in {AtBroadcast, Done}
    requires pc == AtBroadcast <==> p.workers[w].pc == AtSetShutDown
    requires p'.workers == p.workers[w := p.workers[w].(pc := pc)]
    requires p'.state == SHUTDOWN ==> p.state == SHUTDOWN || p.workers[w].pc == AtSetShutDown
    requires p'.core == p.core && p'.max == p.max && p'.threads == p.threads && p'.sub == p.sub
    requires p'.stopped == p.stopped && p'.request == p.request && From(p') == From(p)
    ensures Inv(p')
  {
    hide Decided;
    assert CountedIn(p'.workers) == CountedIn(p.workers);
    assert WorkerOk(p, w);
    forall i: nat | i < |p'.workers| ensures WorkerOk(p', i) {
      assert WorkerOk(p, i);
    }
    forall j: nat | j < |p'.sub| ensures SubOk(p', j) {
      assert SubOk(p, j);
    }
    if Decided(p') { SameDecided(p, p', w); }
  }

  lemma WorkKeepsInv(p: Pool, w: nat)
    requires Inv(p) && CanWork(p, w)
    ensures Inv(DoWork(p, w))
  {
    hide Inv;
    var pc := p.workers[w].pc;
    if QuietWork(pc) {
      WorkIsQuiet(p, w);
      QuietKeepsInv(p, DoWork(p, w));
    } else if pc == AtReport {
      ReportKeepsInv(p, w);
    } else if pc == AtCount {
      CountKeepsInv(p, w);
    } else if pc.AtCompare? {
      CompareKeepsInv(p, w);
    } else {
      FinishKeepsInv(p, DoWork(p, w), w, if pc == AtSetShutDown then AtBroadcast else Done);
    }
  }

  // ---------- Steps of the winner and of the monitor ----------

  lemma PushZeroKeepsInv(p: Pool)
    requires Inv(p)
    ensures Inv(p.(sub := p.sub + [0], phase := ToNotifyMonitor))
  {
    var p' := p.(sub := p.sub + [0], phase := ToNotifyMonitor);
    forall i: nat | i < |p'.workers| ensures WorkerOk(p', i) {
      assert WorkerOk(p, i);
      if j :| From(p) <= j < |p.sub| && p.sub[j] == i + 1 {
        assert p'.sub[j] == i + 1;
      }
    }
    forall j: nat | j < |p'.sub| ensures SubOk(p', j) {
      if j < |p.sub| { assert SubOk(p, j); }
    }
    if Decided(p') { assert Decided(p); }
  }

  lemma WinningIsQuiet(p: Pool, w: nat)
    requires CanWin(p, w) && p.phase != ToPushZero
    ensures Quiet(p, DoWinning(p, w))
  {
    Frames.WinningTouches(p, w);
    Frames.WinningMoves(p, w);
    Frames.WinningKeepsSub(p, w);
    hide DoWinning, CanWin;
  }

  lemma WinningKeepsInv(p: Pool, w: nat)
    requires Inv(p) && CanWin(p, w)
    ensures Inv(DoWinning(p, w))
  {
    if p.phase == ToPushZero {
      PushZeroKeepsInv(p);
    } else {
      WinningIsQuiet(p, w);
      QuietKeepsInv(p, DoWinning(p, w));
    }
  }

  lemma AddKeepsWorker(p: Pool, p': Pool, i: nat)
    requires Sizes(p) && i <= |p.workers| && p.monitor == MScale
    requires p' == AddWorker(p).(monitor := MReap(0))
    requires i < |p.workers| ==> WorkerOk(p, i)
    ensures WorkerOk(p', i)
  {
    if i < |p.workers| {
      if j :| From(p) <= j < |p.sub| && p.sub[j] == i + 1 {
        assert p'.sub[j] == i + 1;
      }
    }
  }

  lemma AddKeepsSizes(p: Pool, p': Pool)
    requires Sizes(p) && p.monitor == MScale && Crowded(p)
    requires p' == AddWorker(p).(monitor := MReap(0))
    ensures Sizes(p') && CountedIn(p'.workers) == CountedIn(p.workers)
  {
    assert |p.workers| !in p.threads;
    assert CountedIn(p'.workers) == CountedIn(p.workers);
  }

  lemma AddKeepsDecided(p: Pool, p': Pool)
    requires p' == AddWorker(p).(monitor := MReap(0)) && Decided(p')
    ensures Decided(p)
  {
    if p'.state != SHUTDOWN {
      var i :| 0 <= i < |p'.workers| && p'.workers[i].pc in {AtSetShutDown, AtBroadcast};
      assert p.workers[i].pc in {AtSetShutDown, AtBroadcast};
    }
  }

  lemma AddWorkerKeepsInv(p: Pool)
    requires Inv(p) && p.monitor == MScale && Crowded(p)
    ensures Inv(DoMonitor(p))
  {
    hide Decided, Sizes, WorkerOk;
    var p' := DoMonitor(p);
    AddKeepsSizes(p, p');
    forall i: nat | i < |p'.workers| ensures WorkerOk(p', i) {
      AddKeepsWorker(p, p', i);
    }
    forall j: nat | j < |p'.sub| ensures SubOk(p', j) {
      assert SubOk(p, j);
    }
    if Decided(p') { AddKeepsDecided(p, p'); }
  }

  lemma ReapKeepsWorker(p: Pool, i: nat)
    requires Sizes(p) && i < |p.workers| && WorkerOk(p, i)
    requires p.monitor.MReap? && CanMonitor(p)
    requires p.monitor.next < |p.sub| ==> SubOk(p, p.monitor.next)
    ensures From(DoReap(p, p.monitor.next)) <= |DoReap(p, p.monitor.next).sub|
    ensures WorkerOk(DoReap(p, p.monitor.next), i)
  {
    var next := p.monitor.next;
    var p' := DoReap(p, next);
    if next < |p.sub| {
      if j :| From(p) <= j < |p.sub| && p.sub[j] == i + 1 {
        assert p'.sub[j] == i + 1;
      }
    }
  }

  lemma ReapShrinks(p: Pool, p': Pool)
    requires Sizes(p) && p.monitor.MReap? && p' == DoReap(p, p.monitor.next)
    ensures Sizes(p') && p'.threads <= p.threads && p'.workers == p.workers
    ensures p'.state == p.state && p'.request == p.request
    ensures p'.sub == p.sub || p'.sub == []
  {
    hide CountedIn;
    var next := p.monitor.next;
    if next < |p.sub| && p.sub[next] > 0 && p.sub[next] - 1 in p.threads {
      assert p'.threads == p.threads - {p.sub[next] - 1};
    } else {
      assert p'.threads == p.threads;
    }
  }

  lemma ReapKeepsInv(p: Pool)
    requires Inv(p) && p.monitor.MReap? && CanMonitor(p)
    ensures Inv(DoReap(p, p.monitor.next))
  {
    hide WorkerOk, CanMonitor, DoReap, Sizes, Straggler;
    var p' := DoReap(p, p.monitor.next);
    ReapShrinks(p, p');
    forall i: nat | i < |p'.workers| ensures From(p') <= |p'.sub| && WorkerOk(p', i) {
      ReapKeepsWorker(p, i);
    }
    forall j: nat | j < |p'.sub| ensures SubOk(p', j) {
      assert SubOk(p, j);
    }
  }

  lemma MonitorKeepsInv(p: Pool)
    requires Inv(p) && CanMonitor(p)
    ensures Inv(DoMonitor(p))
  {
    if p.monitor == MScale && Crowded(p) {
      AddWorkerKeepsInv(p);
    } else if p.monitor.MReap? {
      ReapKeepsInv(p);
    } else {
      QuietKeepsInv(p, DoMonitor(p));
    }
  }

  // ---------- All schedules ----------

  lemma ClockIsQuiet(p: Pool, w: nat, pc: WorkerPc)
    requires w < |p.workers| && p.workers[w].pc in {Asleep, Awake} && pc in {AtJudge, Awake}
    ensures Quiet(p, SetPc(p, w, pc))
  {
  }

  lemma SubmittingIsQuiet(p: Pool, t: Thread)
    requires t in p.submitters
    ensures Quiet(p, DoSubmitting(p, t))
  {
  }

  lemma CallerIsQuiet(p: Pool, e: Event)
    requires Enabled(p, e) && (e.ShutDown? || e.Calling? || e.CallSpurious? || e.Submit?)
    ensures Quiet(p, Act(p, e))
  {
  }

  lemma MonitorWakesQuietly(p: Pool, m: MonitorPc)
    requires p.monitor in {MAsleep, MAwake} && m in {MRecheck, MAwake}
    ensures Quiet(p, p.(monitor := m))
  {
  }

  lemma StepKeepsInv(p: Pool, e: Event)
    requires Inv(p)
    ensures Inv(Step(p, e))
  {
    hide Inv, DoWork, DoMonitor, DoWinning, DoSubmitting, Quiet, CanWork, CanWin, CanMonitor;
    if Enabled(p, e) {
      match e
      case Work(w) => WorkKeepsInv(p, w);
      case WorkTimeout(w) => ClockIsQuiet(p, w, AtJudge); QuietKeepsInv(p, Act(p, e));
      case WorkSpurious(w) => ClockIsQuiet(p, w, Awake); QuietKeepsInv(p, Act(p, e));
      case Submitting(t) => SubmittingIsQuiet(p, t); QuietKeepsInv(p, Act(p, e));
      case Winning(w) => WinningKeepsInv(p, w);
      case Monitor => MonitorKeepsInv(p);
      case MonitorTimeout => MonitorWakesQuietly(p, MRecheck); QuietKeepsInv(p, Act(p, e));
      case MonitorSpurious => MonitorWakesQuietly(p, MAwake); QuietKeepsInv(p, Act(p, e));
      case _ => CallerIsQuiet(p, e); QuietKeepsInv(p, Act(p, e));
    }
  }

  lemma {:induction false} ExecKeepsInv(p: Pool, es: seq<Event>)
    requires Inv(p)
    ensures Inv(Exec(p, es))
  {
    hide Inv, Step;
    if es != [] {
      ExecKeepsInv(p, es[..|es| - 1]);
      StepKeepsInv(Exec(p, es[..|es| - 1]), es[|es| - 1]);
    }
  }

  lemma InitialInv(core: nat, max: nat)
    ensures Inv(Initial(core, max))
  {
    var p := Initial(core, max);
    assert CountedIn(p.workers) == {};
    assert !Decided(p);
  }

  // ---------- The main results ----------

  /** The map never outgrows its limit; a worker leaves it only by being reaped after it reported and
      ended; every entry is at work, or reported and still on the reaping list, or counted as stopped
      and never both; and the stop counter is the number of counted entries. */
  lemma {:induction false} MapBookkeeping(core: nat, max: nat, es: seq<Event>, i: nat)
    ensures var p := Exec(Initial(core, max), es);
            && |p.threads| <= (if core > max then core else max)
            && p.stopped == |CountedIn(p.workers)| && CountedIn(p.workers) <= p.threads
            && (i in p.threads ==> i < |p.workers|)
            && (i < |p.workers| && i !in p.threads ==> p.workers[i].fate == Reported && p.workers[i].pc == Done)
            && (i in p.threads && p.workers[i].fate == Reported ==>
                  exists j :: From(p) <= j < |p.sub| && p.sub[j] == i + 1)
  {
    InitialInv(core, max);
    ExecKeepsInv(Initial(core, max), es);
    ExecKeepsSizes(Initial(core, max), es);
    var p := Exec(Initial(core, max), es);
    forall k | k in CountedIn(p.workers) ensures k in p.threads {
      assert WorkerOk(p, k);
    }
    if i < |p.workers| { assert WorkerOk(p, i); }
  }

  lemma {:induction false} ExecKeepsSizes(p: Pool, es: seq<Event>)
    ensures Exec(p, es).core == p.core && Exec(p, es).max == p.max
  {
    if es != [] {
      var q := Exec(p, es[..|es| - 1]);
      ExecKeepsSizes(p, es[..|es| - 1]);
      StepKeepsSizes(q, es[|es| - 1]);
    }
  }

  lemma StepKeepsSizes(p: Pool, e: Event)
    ensures Step(p, e).core == p.core && Step(p, e).max == p.max
  {
    hide DoWork, DoWinning, DoMonitor, DoSubmitting, Judge, CanWork, CanWin, CanMonitor, CanCall, Free;
    if Enabled(p, e) {
      match e
      case Work(w) => Frames.WorkTouches(p, w);
      case Winning(w) => Frames.WinningTouches(p, w);
      case Monitor => Frames.MonitorTouches(p);
      case Submitting(t) => Frames.SubmittingTouches(p, t);
      case _ =>
    }
  }

  /** A worker that has retired but is still in the map once the monitor is gone. */
  ghost predicate RetiredEntryLeft(p: Pool, w: nat) {
    p.monitor == MExited && w in p.threads && w < |p.workers| && p.workers[w].fate == Reported
  }

  lemma RetiredEntryStays(p: Pool, e: Event, w: nat)
    requires Inv(p) && RetiredEntryLeft(p, w)
    ensures RetiredEntryLeft(Step(p, e), w)
  {
    hide Inv, Judge, DoWork, DoWinning, WakeCallers, CanCall, Free;
    ReportedPc(p, w);
    if Enabled(p, e) {
      match e
      case Work(v) => RetiredWorkerStays(p, v, w);
      case Winning(v) => WinningLeavesRetired(p, v, w);
      case _ =>
    }
  }

  lemma RetiredWorkerStays(p: Pool, v: nat, w: nat)
    requires RetiredEntryLeft(p, w) && p.workers[w].pc in {AtReportNotify, Done} && CanWork(p, v)
    ensures RetiredEntryLeft(DoWork(p, v), w)
  {
    hide Free, Judge, WakeCallers;
    Frames.WorkTouches(p, v);
  }

  lemma WinningLeavesRetired(p: Pool, v: nat, w: nat)
    requires RetiredEntryLeft(p, w) && CanWin(p, v)
    ensures RetiredEntryLeft(DoWinning(p, v), w)
  {
    hide Free, Judge;
    Frames.WinningTouches(p, v);
  }

  lemma ReportedPc(p: Pool, w: nat)
    requires Inv(p) && w < |p.workers| && p.workers[w].fate == Reported
    ensures p.workers[w].pc in {AtReportNotify, Done}
  {
    assert WorkerOk(p, w);
  }

  /** Scaling down can make shutdown impossible: a retired worker that is still in the map when the
      monitor exits keeps the pool from ever reaching SHUTDOWN, so no ShutDownNow returns. */
  lemma {:induction false} RetiredEntryBlocksShutDown(p: Pool, w: nat, es: seq<Event>)
    requires Inv(p) && RetiredEntryLeft(p, w)
    ensures Exec(p, es).state != SHUTDOWN && RetiredEntryLeft(Exec(p, es), w)
  {
    hide Step, Inv;
    if es != [] {
      RetiredEntryBlocksShutDown(p, w, es[..|es| - 1]);
      ExecKeepsInv(p, es[..|es| - 1]);
      RetiredEntryStays(Exec(p, es[..|es| - 1]), es[|es| - 1], w);
    }
    ExecKeepsInv(p, es);
    NotDecided(Exec(p, es), w);
  }

  lemma NotDecided(p: Pool, w: nat)
    requires Inv(p) && RetiredEntryLeft(p, w)
    ensures p.state != SHUTDOWN
  {
  }

  // ---------- Spurious wake-ups ----------

  /** A worker woken for no reason tries again, and on an empty queue is asleep as before. */
  lemma SpuriousWorker(p: Pool, w: nat)
    requires w < |p.workers| && p.workers[w].pc == Asleep && p.queue == []
    ensures var p1 := Step(p, WorkSpurious(w));
            && p1 == p.(workers := p.workers[w := p.workers[w].(pc := Awake)])
            && Enabled(p1, Work(w)) && Step(p1, Work(w)) == p
  {
    hide Judge, WakeCallers, Free;
    assert p.workers[w := p.workers[w]] == p.workers;
  }

  /** So does the monitor without anything to do, and a caller of ShutDownNow short of SHUTDOWN. */
  lemma SpuriousMonitor(p: Pool)
    requires p.monitor == MAsleep && !p.phase.Closing? && !p.phase.Pushing?
    requires p.sub == [] && (|p.queue| <= 1024 || |p.threads| >= p.max)
    ensures var p1 := Step(p, MonitorSpurious);
            p1 == p.(monitor := MAwake) && Enabled(p1, Monitor) && Step(p1, Monitor) == p
  {
  }

  lemma SpuriousCaller(p: Pool, t: Thread)
    requires t in p.callers && p.callers[t] == Caller(AsleepInWait, true) && p.state != SHUTDOWN
    ensures var p1 := Step(p, CallSpurious(t));
            && p1 == p.(callers := p.callers[t := Caller(AwakeInWait, true)])
            && Enabled(p1, Calling(t)) && Step(p1, Calling(t)) == p
  {
    var p1 := Step(p, CallSpurious(t));
    assert Step(p1, Calling(t)).callers == p.callers;
  }
}
