/** Where the submitted tasks are, in every scaling pool and every schedule. */
module PoolTasks {
  import opened Common
  import opened PoolSpec
  import opened WorkerSums
  import Frames = PoolFrames

  function Holding(id: nat): Worker -> nat {
    (w: Worker) => if w.pc == Holds(UserTask(id)) then 1 else 0
  }

  ghost predicate Kept(p: Pool, id: nat) {
    multiset(p.pushed)[UserTask(id)]
    == multiset(p.queue)[UserTask(id)] + Sum(p.workers, Holding(id)) + multiset(p.started)[id]
  }

  /** The submitters that are still to push a task `id`. */
  function Coming(p: Pool, id: nat): set<Thread> {
    set t | t in p.submitters && p.submitters[t] == AtPush(id)
  }

  ghost predicate Arriving(p: Pool, id: nat) {
    multiset(p.accepted)[id] == |Coming(p, id)| + multiset(p.pushed)[UserTask(id)]
  }

  ghost predicate InOrder(p: Pool) {
    |p.queue| <= |p.pushed| && p.queue == p.pushed[|p.pushed| - |p.queue|..]
  }

  // ---------- Conservation ----------

  lemma SameKept(p: Pool, p': Pool, id: nat)
    requires Kept(p, id)
    requires p'.pushed == p.pushed && p'.queue == p.queue && p'.started == p.started
    requires |p'.workers| == |p.workers|
    requires forall i | 0 <= i < |p.workers| :: Holding(id)(p'.workers[i]) == Holding(id)(p.workers[i])
    ensures Kept(p', id)
  {
    SumAtMost(p.workers, p'.workers, Holding(id));
    SumAtMost(p'.workers, p.workers, Holding(id));
  }

  lemma WakeHolds(ws: seq<Worker>, id: nat)
    ensures Sum(WakeWorkers(ws), Holding(id)) == Sum(ws, Holding(id))
  {
    SumAtMost(ws, WakeWorkers(ws), Holding(id));
    SumAtMost(WakeWorkers(ws), ws, Holding(id));
  }

  lemma PushKeeps(p: Pool, x: Item, id: nat)
    requires Kept(p, id)
    ensures Kept(PushItem(p, x), id)
  {
    hide WakeWorkers;
    WakeHolds(p.workers, id);
  }

  /** A worker's step as far as the tasks are concerned. */
  lemma WorkOnTasks(p: Pool, w: nat)
    requires CanWork(p, w)
    ensures w < |p.workers| && DoWork(p, w).workers == p.workers[w := Next(p, p.workers[w])]
    ensures var pc := p.workers[w].pc;
            && DoWork(p, w).pushed == p.pushed
            && DoWork(p, w).queue == (if (pc == AtPop || pc == Awake) && p.queue != [] then p.queue[1..] else p.queue)
            && DoWork(p, w).started
               == if pc.Holds? && pc.item.UserTask? then p.started + [pc.item.id] else p.started
  {
    hide Judge, Notified, WakeCallers, Next;
  }

  lemma NextHolds(p: Pool, me: Worker, id: nat)
    ensures Holding(id)(Next(p, me)) ==
            if (me.pc == AtPop || me.pc == Awake) && p.queue != [] && p.queue[0] == UserTask(id) then 1 else 0
  {
  }

  lemma HeadCounts(q: seq<Item>, x: Item)
    requires q != []
    ensures multiset(q)[x] == multiset(q[1..])[x] + if q[0] == x then 1 else 0
  {
    assert q == [q[0]] + q[1..];
  }

  lemma WorkKeeps(p: Pool, w: nat, id: nat)
    requires Kept(p, id) && CanWork(p, w)
    ensures Kept(DoWork(p, w), id)
  {
    WorkOnTasks(p, w);
    hide DoWork, CanWork, Next;
    NextHolds(p, p.workers[w], id);
    SumUpdate(p.workers, w, Next(p, p.workers[w]), Holding(id));
    if p.queue != [] { HeadCounts(p.queue, UserTask(id)); }
  }

  lemma WinningKeeps(p: Pool, w: nat, id: nat)
    requires Kept(p, id) && CanWin(p, w)
    ensures Kept(DoWinning(p, w), id)
  {
    Frames.WinningTouches(p, w);
    Frames.WinningMoves(p, w);
    hide DoWinning, CanWin;
    var p' := DoWinning(p, w);
    SumAtMost(p.workers, p'.workers, Holding(id));
    SumAtMost(p'.workers, p.workers, Holding(id));
    PushedTasks(p.pushed, EndTask, id);
    PushedTasks(p.queue, EndTask, id);
  }

  lemma PushedTasks(xs: seq<Item>, x: Item, id: nat)
    ensures multiset(xs + [x])[UserTask(id)] == multiset(xs)[UserTask(id)] + if x == UserTask(id) then 1 else 0
  {
  }

  lemma AddKeeps(p: Pool, id: nat)
    requires Kept(p, id)
    ensures Kept(AddWorker(p), id)
  {
  }

  lemma MonitorKeeps(p: Pool, id: nat)
    requires Kept(p, id) && CanMonitor(p)
    ensures Kept(DoMonitor(p), id)
  {
    hide Kept;
    if p.monitor == MScale && Crowded(p) {
      AddKeeps(p, id);
      SameKept(AddWorker(p), DoMonitor(p), id);
    } else {
      SameKept(p, DoMonitor(p), id);
    }
  }

  lemma SubmittingKeeps(p: Pool, t: Thread, id: nat)
    requires Kept(p, id) && t in p.submitters
    ensures Kept(DoSubmitting(p, t), id)
  {
    hide Kept;
    if p.submitters[t].AtPush? {
      var x := UserTask(p.submitters[t].id);
      PushKeeps(p, x, id);
      SameKept(PushItem(p, x), DoSubmitting(p, t), id);
    } else {
      SameKept(p, DoSubmitting(p, t), id);
    }
  }

  // ---------- On the way into the queue ----------

  lemma SubmitKeepsArriving(p: Pool, t: Thread, task: Option<nat>, id: nat)
    requires Arriving(p, id) && t !in p.submitters
    ensures Arriving(DoSubmit(p, t, task), id)
  {
    var p' := DoSubmit(p, t, task);
    assert Coming(p', id) == if p' != p && task == Some(id) then Coming(p, id) + {t} else Coming(p, id);
  }

  lemma SubmittingKeepsArriving(p: Pool, t: Thread, id: nat)
    requires Arriving(p, id) && t in p.submitters
    ensures Arriving(DoSubmitting(p, t), id)
  {
    hide WakeWorkers, Judge;
    var p' := DoSubmitting(p, t);
    assert Coming(p', id) == Coming(p, id) - {t};
    match p.submitters[t]
    case AtPush(k) => PushedTasks(p.pushed, UserTask(k), id);
    case AtNotify =>
  }

  lemma WinningKeepsArriving(p: Pool, w: nat, id: nat)
    requires Arriving(p, id) && CanWin(p, w)
    ensures Arriving(DoWinning(p, w), id)
  {
    Frames.WinningTouches(p, w);
    hide DoWinning;
    var p' := DoWinning(p, w);
    assert Coming(p', id) == Coming(p, id);
    PushedTasks(p.pushed, EndTask, id);
  }

  lemma SameArriving(p: Pool, p': Pool, id: nat)
    requires Arriving(p, id)
    requires p'.accepted == p.accepted && p'.pushed == p.pushed && p'.submitters == p.submitters
    ensures Arriving(p', id)
  {
  }

  lemma StepKeepsArriving(p: Pool, e: Event, id: nat)
    requires Arriving(p, id)
    ensures Arriving(Step(p, e), id)
  {
    hide Arriving, DoWinning, DoSubmitting, DoSubmit, DoWork, DoMonitor, CanWork, CanWin, CanMonitor, CanCall;
    if Enabled(p, e) {
      match e
      case Submit(t, task) => SubmitKeepsArriving(p, t, task, id);
      case Submitting(t) => SubmittingKeepsArriving(p, t, id);
      case Winning(w) => WinningKeepsArriving(p, w, id);
      case Work(w) => Frames.WorkTouches(p, w); SameArriving(p, DoWork(p, w), id);
      case Monitor => Frames.MonitorTouches(p); SameArriving(p, DoMonitor(p), id);
      case _ => SameArriving(p, Act(p, e), id);
    }
  }

  // ---------- Order ----------

  lemma StepKeepsOrder(p: Pool, e: Event)
    requires InOrder(p)
    ensures InOrder(Step(p, e))
  {
    hide InOrder, Next, Judge, WakeWorkers, WakeCallers, CanMonitor, CanCall, Free;
    if Enabled(p, e) {
      match e
      case Work(w) => if p.queue != [] { PopOrder(p, DoWork(p, w)); } else { SameOrder(p, DoWork(p, w)); }
      case Winning(w) =>
        if p.phase.Pushing? && p.phase.left != 0 {
          PushOrder(p, DoWinning(p, w), EndTask);
        } else {
          SameOrder(p, DoWinning(p, w));
        }
      case Submitting(t) =>
        if p.submitters[t].AtPush? {
          PushOrder(p, DoSubmitting(p, t), UserTask(p.submitters[t].id));
        } else {
          SameOrder(p, DoSubmitting(p, t));
        }
      case _ => OthersKeepOrder(p, e);
    }
  }

  lemma OthersKeepOrder(p: Pool, e: Event)
    requires InOrder(p) && Enabled(p, e) && !e.Work? && !e.Winning? && !e.Submitting?
    ensures InOrder(Act(p, e))
  {
    hide InOrder, Judge, CanMonitor, CanCall, Free;
    SameOrder(p, Act(p, e));
  }

  lemma SameOrder(p: Pool, p': Pool)
    requires InOrder(p) && p'.pushed == p.pushed && p'.queue == p.queue
    ensures InOrder(p')
  {
  }

  lemma PushOrder(p: Pool, p': Pool, x: Item)
    requires InOrder(p) && p'.pushed == p.pushed + [x] && p'.queue == p.queue + [x]
    ensures InOrder(p')
  {
  }

  lemma PopOrder(p: Pool, p': Pool)
    requires InOrder(p) && p.queue != [] && p'.pushed == p.pushed
    requires p'.queue == p.queue || p'.queue == p.queue[1..]
    ensures InOrder(p')
  {
  }

  lemma StepKeeps(p: Pool, e: Event, id: nat)
    requires Kept(p, id)
    ensures Kept(Step(p, e), id)
  {
    hide Kept, DoWork, DoWinning, DoMonitor, DoSubmitting, CanWork, CanWin, CanMonitor, CanCall;
    if Enabled(p, e) {
      match e
      case Work(w) => WorkKeeps(p, w, id);
      case Winning(w) => WinningKeeps(p, w, id);
      case Monitor => MonitorKeeps(p, id);
      case Submitting(t) => SubmittingKeeps(p, t, id);
      case _ => SameKept(p, Act(p, e), id);
    }
  }

  lemma {:induction false} ExecKeeps(p: Pool, es: seq<Event>, id: nat)
    requires Kept(p, id) && Arriving(p, id) && InOrder(p)
    ensures Kept(Exec(p, es), id) && Arriving(Exec(p, es), id) && InOrder(Exec(p, es))
  {
    hide Kept, Arriving, InOrder, Step;
    if es != [] {
      var q, e := Exec(p, es[..|es| - 1]), es[|es| - 1];
      ExecKeeps(p, es[..|es| - 1], id);
      StepKeeps(q, e, id);
      StepKeepsArriving(q, e, id);
      StepKeepsOrder(q, e);
    }
  }

  // ---------- What was accepted ----------

  /** The tasks that the schedule submits and the pool does not refuse, in order. */
  function Admitted(p: Pool, es: seq<Event>): seq<nat> {
    if es == [] then []
    else
      var q := Exec(p, es[..|es| - 1]);
      var e := es[|es| - 1];
      Admitted(p, es[..|es| - 1])
      + if e.Submit? && e.thread !in q.submitters && !q.request && e.task != None then [e.task.value] else []
  }

  lemma StepAccepts(p: Pool, e: Event)
    ensures Step(p, e).accepted ==
            p.accepted +
            if e.Submit? && e.thread !in p.submitters && !p.request && e.task != None then [e.task.value] else []
  {
    hide DoWork, DoWinning, DoMonitor, DoSubmitting, Judge, CanWork, CanWin, CanMonitor, CanCall, Free;
    if Enabled(p, e) {
      match e
      case Work(w) => Frames.WorkTouches(p, w);
      case Winning(w) => Frames.WinningTouches(p, w);
      case Monitor => Frames.MonitorTouches(p);
      case Submitting(t) => Frames.SubmittingTouches(p, t);
      case _ =>
    }
  }

  lemma {:induction false} AdmittedIsAccepted(p: Pool, es: seq<Event>)
    requires p.accepted == []
    ensures Exec(p, es).accepted == Admitted(p, es)
  {
    hide Step;
    if es != [] {
      AdmittedIsAccepted(p, es[..|es| - 1]);
      StepAccepts(Exec(p, es[..|es| - 1]), es[|es| - 1]);
    }
  }

  /** Of the tasks that a schedule submits before a shutdown is requested, each is still with its submitter,
      in the queue, in the hands of one worker about to run it, or was handed to Run; with its multiplicity,
      so none is lost and none runs twice. The queue is what is left of the pushes once the earliest are
      gone: tasks are taken in the order of the pushes. */
  lemma {:induction false} TasksAreConserved(core: nat, max: nat, es: seq<Event>, id: nat)
    ensures var p := Exec(Initial(core, max), es);
            && multiset(Admitted(Initial(core, max), es))[id]
               == |Coming(p, id)| + multiset(p.queue)[UserTask(id)] + Sum(p.workers, Holding(id))
                  + multiset(p.started)[id]
            && |p.queue| <= |p.pushed| && p.queue == p.pushed[|p.pushed| - |p.queue|..]
  {
    var p := Initial(core, max);
    SumBound(p.workers, Holding(id), 0);
    assert Coming(p, id) == {};
    ExecKeeps(p, es, id);
    AdmittedIsAccepted(p, es);
  }
}
