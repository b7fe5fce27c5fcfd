/** What the steps of the scaling pool leave alone. */
module PoolFrames {
  import opened Common
  import opened PoolSpec

  /** A worker's step touches neither the map, the shutdown, the submitters nor the pushes. */
  ghost predicate WorkFrame(p: Pool, p': Pool) {
    && p'.core == p.core && p'.max == p.max && p'.request == p.request && p'.threads == p.threads
    && p'.phase == p.phase && p'.monitorClosed == p.monitorClosed && p'.submitters == p.submitters
    && p'.accepted == p.accepted && p'.pushed == p.pushed
  }

  lemma WorkTouches(p: Pool, w: nat)
    requires CanWork(p, w)
    ensures w < |p.workers| && WorkFrame(p, DoWork(p, w))
  {
  }

  /** The winner's step touches neither the map's keys, the counters, the callers nor the submitters. */
  ghost predicate WinningFrame(p: Pool, p': Pool) {
    && p'.core == p.core && p'.max == p.max && p'.request == p.request && p'.threads == p.threads
    && p'.stopped == p.stopped && p'.callers == p.callers && p'.submitters == p.submitters
    && p'.accepted == p.accepted && p'.started == p.started && |p'.workers| == |p.workers|
  }

  lemma WinningTouches(p: Pool, w: nat)
    requires CanWin(p, w)
    ensures WinningFrame(p, DoWinning(p, w))
    ensures if p.phase.Pushing? && p.phase.left != 0
            then DoWinning(p, w).queue == p.queue + [EndTask] && DoWinning(p, w).pushed == p.pushed + [EndTask]
            else DoWinning(p, w).queue == p.queue && DoWinning(p, w).pushed == p.pushed
    ensures DoWinning(p, w).state == if p.phase == ToSetStop then STOP else p.state
  {
    hide Free, Judge;
    match p.phase
    case Closing(open) =>
    case Pushing(k) => if k == 0 {} else {}
    case _ =>
  }

  lemma WinningPhase(p: Pool, w: nat)
    requires CanWin(p, w)
    ensures DoWinning(p, w).phase ==
            match p.phase
            case ToSetStop => ToLockThreads
            case ToLockThreads => Closing(p.threads)
            case Closing(open) => if open == {} then Pushing(|p.threads|) else Closing(open - {w})
            case Pushing(k) => if k == 0 then ToCloseMonitor else Pushing(k - 1)
            case ToCloseMonitor => ToPushZero
            case ToPushZero => ToNotifyMonitor
            case _ => Finished
    ensures p.phase.Closing? && p.phase.open != {} ==> w in p.phase.open
    ensures p.phase != Idle && p.phase != Finished
  {
    hide Free, Notified, PushItem;
    match p.phase
    case Closing(open) => if open == {} {} else {}
    case Pushing(k) => if k == 0 {} else {}
    case _ =>
  }

  lemma WinningKeepsSub(p: Pool, w: nat)
    requires CanWin(p, w)
    ensures DoWinning(p, w).sub == if p.phase == ToPushZero then p.sub + [0] else p.sub
    ensures DoWinning(p, w).monitor == p.monitor || (p.monitor == MAsleep && DoWinning(p, w).monitor == MAwake)
  {
    hide Free, Judge, WakeWorkers;
    match p.phase
    case Closing(open) => if open == {} {} else {}
    case Pushing(k) => if k == 0 {} else {}
    case _ =>
  }

  /** It moves no worker, but for waking those asleep on the queue. */
  lemma WinningMoves(p: Pool, w: nat)
    requires CanWin(p, w)
    ensures |DoWinning(p, w).workers| == |p.workers|
    ensures forall i | 0 <= i < |p.workers| ::
              && DoWinning(p, w).workers[i].fate == p.workers[i].fate
              && (|| DoWinning(p, w).workers[i].pc == p.workers[i].pc
                  || (p.workers[i].pc == Asleep && DoWinning(p, w).workers[i].pc == Awake))
  {
    hide Free, Notified;
    match p.phase
    case Closing(open) => if open == {} {} else {}
    case Pushing(k) => if k == 0 {} else {}
    case _ =>
  }

  /** The monitor's step touches neither the queue, the shutdown, the callers nor the submitters. */
  ghost predicate MonitorFrame(p: Pool, p': Pool) {
    && p'.core == p.core && p'.max == p.max && p'.request == p.request && p'.state == p.state
    && p'.stopped == p.stopped && p'.queue == p.queue && p'.phase == p.phase && p'.callers == p.callers
    && p'.monitorClosed == p.monitorClosed && p'.submitters == p.submitters
    && p'.accepted == p.accepted && p'.pushed == p.pushed && p'.started == p.started
  }

  lemma ReapTouches(p: Pool, next: nat)
    ensures MonitorFrame(p, DoReap(p, next)) && DoReap(p, next).workers == p.workers
  {
  }

  lemma MonitorTouches(p: Pool)
    ensures MonitorFrame(p, DoMonitor(p))
    ensures !(p.monitor == MScale && Crowded(p)) ==> DoMonitor(p).workers == p.workers
    ensures !p.monitor.MReap? && !(p.monitor == MScale && Crowded(p)) ==>
              DoMonitor(p).threads == p.threads && DoMonitor(p).sub == p.sub
  {
    hide Judge, Crowded, DoReap;
    match p.monitor
    case MScale =>
    case MReap(next) => ReapTouches(p, next);
    case _ =>
  }

  /** A submitter's step: its task or its notification. */
  ghost predicate SubmittingFrame(p: Pool, p': Pool) {
    && p'.core == p.core && p'.max == p.max && p'.request == p.request && p'.state == p.state
    && p'.stopped == p.stopped && p'.threads == p.threads && p'.sub == p.sub && p'.phase == p.phase
    && p'.callers == p.callers && p'.monitorClosed == p.monitorClosed && p'.accepted == p.accepted
    && p'.started == p.started && |p'.workers| == |p.workers|
  }

  lemma SubmittingTouches(p: Pool, t: Thread)
    requires t in p.submitters
    ensures SubmittingFrame(p, DoSubmitting(p, t))
  {
  }
}
