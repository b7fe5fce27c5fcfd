/** What the thread-map mutex protects, in a pool of any sizes: while the winner of the shutdown race tells
    the workers and pushes the sentinels the map stays as it is, so that everybody in it is told and has a
    sentinel. */
module PoolLock {
  import opened Common
  import opened PoolSpec
  import Frames = PoolFrames

  predicate WinnerHolds(p: Pool) {
    p.phase.Closing? || p.phase.Pushing?
  }

  predicate BeforePushing(ph: Phase) {
    ph == Idle || ph == ToSetStop || ph == ToLockThreads || ph.Closing?
  }

  function Sentinels(p: Pool): nat {
    multiset(p.pushed)[EndTask]
  }

  ghost predicate Told(p: Pool, w: nat) {
    w < |p.workers| && p.workers[w].close
  }

  ghost predicate LockOk(p: Pool) {
    && (p.request <==> p.phase != Idle)
    && !(WinnerHolds(p) && MonitorHolds(p))
    && (p.phase.Closing? ==>
          p.phase.open <= p.threads && forall w | w in p.threads && w !in p.phase.open :: Told(p, w))
    && (p.phase.Pushing? ==>
          && p.phase.left <= |p.threads| && Sentinels(p) == |p.threads| - p.phase.left
          && forall w | w in p.threads :: Told(p, w))
    && (BeforePushing(p.phase) ==> Sentinels(p) == 0)
  }

  // ---------- Preservation ----------

  /** The map and the phase are as before, nobody's flag is taken back, and no sentinel is pushed. */
  lemma SameLock(p: Pool, q: Pool)
    requires LockOk(p) && q.request == p.request && q.phase == p.phase && q.threads == p.threads
    requires Sentinels(q) == Sentinels(p)
    requires WinnerHolds(p) ==> !MonitorHolds(q)
    requires forall w | Told(p, w) :: Told(q, w)
    ensures LockOk(q)
  {
  }

  lemma WorkKeepsLock(p: Pool, w: nat)
    requires LockOk(p) && CanWork(p, w)
    ensures LockOk(DoWork(p, w))
  {
    Frames.WorkTouches(p, w);
    NextKeepsFlag(p, p.workers[w]);
    WorkOnMonitor(p, w);
    hide DoWork, CanWork, Next, LockOk;
    SameLock(p, DoWork(p, w));
  }

  lemma NextKeepsFlag(p: Pool, me: Worker)
    ensures me.close ==> Next(p, me).close
  {
  }

  lemma WorkOnMonitor(p: Pool, w: nat)
    requires CanWork(p, w)
    ensures MonitorHolds(DoWork(p, w)) ==> MonitorHolds(p)
    ensures DoWork(p, w).workers == p.workers[w := Next(p, p.workers[w])]
  {
    hide Next, Judge, WakeCallers, Free;
  }

  lemma SubmittingKeepsLock(p: Pool, t: Thread)
    requires LockOk(p) && t in p.submitters
    ensures LockOk(DoSubmitting(p, t))
  {
    Frames.SubmittingTouches(p, t);
    SubmittingKeepsFlags(p, t);
    hide LockOk, DoSubmitting;
    SameLock(p, DoSubmitting(p, t));
  }

  lemma SubmittingKeepsFlags(p: Pool, t: Thread)
    requires t in p.submitters
    ensures forall w | Told(p, w) :: Told(DoSubmitting(p, t), w)
    ensures Sentinels(DoSubmitting(p, t)) == Sentinels(p) && (MonitorHolds(DoSubmitting(p, t)) ==> MonitorHolds(p))
  {
    hide Judge;
  }

  lemma MonitorKeepsLock(p: Pool)
    requires LockOk(p) && CanMonitor(p)
    ensures LockOk(DoMonitor(p))
  {
    Frames.MonitorTouches(p);
    if WinnerHolds(p) {
      hide Judge, Crowded;
      SameLock(p, DoMonitor(p));
    } else {
      hide DoMonitor, CanMonitor;
    }
  }

  lemma CloseOneKeepsLock(p: Pool, w: nat)
    requires LockOk(p) && p.phase.Closing? && w in p.phase.open && w < |p.workers|
    ensures LockOk(CloseOne(p, p.phase.open, w))
  {
    var q := CloseOne(p, p.phase.open, w);
    forall v | v in q.threads && v !in q.phase.open ensures Told(q, v) {
      assert v != w ==> Told(p, v);
    }
  }

  lemma PushEndKeepsLock(p: Pool)
    requires LockOk(p) && p.phase.Pushing? && p.phase.left > 0
    ensures LockOk(PushItem(p, EndTask).(phase := Pushing(p.phase.left - 1)))
  {
    var q := PushItem(p, EndTask).(phase := Pushing(p.phase.left - 1));
    assert Sentinels(q) == Sentinels(p) + 1;
    forall w | w in q.threads ensures Told(q, w) {
      assert Told(p, w);
    }
  }

  lemma WinningKeepsLock(p: Pool, w: nat)
    requires LockOk(p) && CanWin(p, w)
    ensures LockOk(DoWinning(p, w))
  {
    hide Judge, PushItem;
    match p.phase
    case Closing(open) => if open == {} {} else { CloseOneKeepsLock(p, w); }
    case Pushing(k) => if k == 0 {} else { PushEndKeepsLock(p); }
    case _ =>
  }

  lemma StepKeepsLock(p: Pool, e: Event)
    requires LockOk(p)
    ensures LockOk(Step(p, e))
  {
    hide LockOk, DoWork, DoWinning, DoMonitor, DoSubmitting, CanWork, CanWin, CanMonitor, CanCall;
    if Enabled(p, e) {
      match e
      case Work(w) => WorkKeepsLock(p, w);
      case Winning(w) => WinningKeepsLock(p, w);
      case Monitor => MonitorKeepsLock(p);
      case Submitting(t) => SubmittingKeepsLock(p, t);
      case ShutDown(t, now) => RequestKeepsLock(p, t, now);
      case _ => NotBoth(p); SameLock(p, Act(p, e));
    }
  }

  lemma NotBoth(p: Pool)
    requires LockOk(p)
    ensures !(WinnerHolds(p) && MonitorHolds(p))
  {
  }

  lemma RequestKeepsLock(p: Pool, t: Thread, now: bool)
    requires LockOk(p)
    ensures LockOk(DoShutDown(p, t, now))
  {
  }

  lemma {:induction false} ExecKeepsLock(p: Pool, es: seq<Event>)
    requires LockOk(p)
    ensures LockOk(Exec(p, es))
  {
    hide LockOk, Step;
    if es != [] {
      ExecKeepsLock(p, es[..|es| - 1]);
      StepKeepsLock(Exec(p, es[..|es| - 1]), es[|es| - 1]);
    }
  }

  // ---------- The main results ----------

  /** The winner and the monitor never hold the map at the same time. While the winner tells the workers,
      those it has done with have their close flag; and once it pushes sentinels, every worker of the map
      has been told, and the sentinels pushed and those still due are as many as the map has entries. */
  lemma {:induction false} EverybodyIsTold(core: nat, max: nat, es: seq<Event>)
    ensures var p := Exec(Initial(core, max), es);
            && !((p.phase.Closing? || p.phase.Pushing?) && (p.monitor in {MRecheck, MScale} || p.monitor.MReap?))
            && (p.phase.Closing? ==> forall w | w in p.threads && w !in p.phase.open :: Told(p, w))
            && (p.phase.Pushing? ==>
                  && multiset(p.pushed)[EndTask] + p.phase.left == |p.threads|
                  && forall w | w in p.threads :: Told(p, w))
  {
    ExecKeepsLock(Initial(core, max), es);
  }

  /** Nobody changes the map or the reaping list while the winner holds the mutex. */
  lemma MapIsLocked(p: Pool, e: Event)
    requires WinnerHolds(p) && !MonitorHolds(p)
    ensures Step(p, e).threads == p.threads && Step(p, e).sub == p.sub
  {
    hide Next, Judge, WakeCallers, WakeWorkers, CanCall;
    if Enabled(p, e) {
      match e
      case Winning(w) => Frames.WinningTouches(p, w); Frames.WinningKeepsSub(p, w);
      case _ =>
    }
  }
}
