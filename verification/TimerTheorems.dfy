/** The promises of the timer task handler, over every schedule and all clock readings. */
module TimerTheorems {
  import opened TimerSpec
  import opened TimerProperties

  lemma Known(es: seq<Event>, id: TaskId)
    requires id in Exec(Initial(), es).tasks
    ensures TaskOk(Exec(Initial(), es), id)
  {
    ReachableInv(es);
  }

  // ---------- Conservation ----------

  /** An accepted task is about to be pushed, or queued, or was popped for good exactly once; it is never
      accepted a second time; and a task without an interval starts at most one body. */
  lemma {:induction false} TasksAreConserved(es: seq<Event>, id: TaskId, deadline: nat, interval: nat)
    requires id in Exec(Initial(), es).tasks && Exec(Initial(), es).tasks[id].added
    ensures var s := Exec(Initial(), es);
            var k := s.tasks[id];
            && One(id in s.pending) + One(id in s.queue) + k.removals == 1
            && (!k.isEnd ==> DoAdd(s, id, deadline, interval) == s)
            && k.bodies <= |k.readings|
            && (k.interval == 0 ==> k.bodies <= |k.readings| <= k.removals <= 1)
  {
    Known(es, id);
  }

  // ---------- Spacing of a periodic task ----------

  lemma {:induction false} Spaced(dues: seq<nat>, readings: seq<nat>, first: nat, interval: nat, i: nat)
    requires Chain(dues, readings, first, interval) && i < |readings|
    ensures readings[i] >= first + i * interval
  {
    if i > 0 {
      Spaced(dues, readings, first, interval, i - 1);
      assert i * interval == (i - 1) * interval + interval;
    }
  }

  function CountUpTo(readings: seq<nat>, t: nat): nat {
    if readings == [] then 0
    else CountUpTo(readings[..|readings| - 1], t) + if readings[|readings| - 1] <= t then 1 else 0
  }

  /** If nothing from position b on is counted, the count is at most b. */
  lemma {:induction false} CountAtMost(readings: seq<nat>, t: nat, b: nat)
    requires forall i | b <= i < |readings| :: readings[i] > t
    ensures CountUpTo(readings, t) <= b && CountUpTo(readings, t) <= |readings|
  {
    if readings != [] { CountAtMost(readings[..|readings| - 1], t, b); }
  }

  lemma CountedInTime(dues: seq<nat>, readings: seq<nat>, first: nat, interval: nat, t: nat)
    requires Chain(dues, readings, first, interval) && interval > 0
    ensures CountUpTo(readings, t) <= if t < first then 0 else 1 + (t - first) / interval
  {
    var b := if t < first then 0 else 1 + (t - first) / interval;
    forall i | b <= i < |readings| ensures readings[i] > t {
      Spaced(dues, readings, first, interval, i);
      if t < first { AtLeast(i, interval); } else { Beyond(t - first, interval, i); }
    }
    CountAtMost(readings, t, b);
  }

  /** The i-th firing by deadline (from 0) of a periodic task is at a reading not before its first
      deadline plus i intervals, even if the clock goes backwards; so at readings up to t it fires at
      most 1 + (t - first) div interval times. */
  lemma {:induction false} PeriodicSpacing(es: seq<Event>, id: TaskId, t: nat)
    requires id in Exec(Initial(), es).tasks
    ensures var k := Exec(Initial(), es).tasks[id];
            && (forall i | 0 <= i < |k.readings| :: k.readings[i] >= k.first + i * k.interval)
            && (k.interval > 0 ==>
                  CountUpTo(k.readings, t) <= if t < k.first then 0 else 1 + (t - k.first) / k.interval)
  {
    hide Exec, Chain, CountUpTo;
    Known(es, id);
    var k := Exec(Initial(), es).tasks[id];
    forall i | 0 <= i < |k.readings| ensures k.readings[i] >= k.first + i * k.interval {
      Spaced(k.dues, k.readings, k.first, k.interval, i);
    }
    if k.interval > 0 { CountedInTime(k.dues, k.readings, k.first, k.interval, t); }
  }

  lemma AtLeast(i: nat, d: nat)
    ensures i * d >= 0
  {
  }

  lemma Beyond(x: nat, d: nat, i: nat)
    requires d > 0 && i >= 1 + x / d
    ensures i * d > x
  {
    var q := x / d;
    assert x < (q + 1) * d;
    if i > q + 1 { Times(q + 1, i, d); }
  }

  lemma Times(a: nat, b: nat, d: nat)
    requires a <= b
    ensures a * d <= b * d
  {
  }

  // ---------- Neither too early nor too late ----------

  /** A step that starts a body of a task is the one behind Run's check, after a firing by deadline at a
      reading not before that deadline. */
  lemma {:induction false} NoEarlyBody(es: seq<Event>, e: Event, id: TaskId)
    requires var s := Exec(Initial(), es);
             id in s.tasks && id in Step(s, e).tasks && Step(s, e).tasks[id].bodies > s.tasks[id].bodies
    ensures var s := Exec(Initial(), es);
            var k := s.tasks[id];
            && e == Begin && s.pc == Cleared(id)
            && k.bodies < |k.readings| == |k.dues|
            && k.dues[|k.dues| - 1] <= k.readings[|k.readings| - 1]
  {
    Known(es, id);
    BodyStep(Exec(Initial(), es), e, id);
  }

  /** The history of a task is written by the timer thread's Poll and Begin alone. */
  ghost predicate SameHistory(k: Task, k': Task) {
    && k'.isEnd == k.isEnd && k'.readings == k.readings && k'.removals == k.removals && k'.bodies == k.bodies
  }

  lemma OthersWriteNoHistory(s: Timer, e: Event, id: TaskId)
    requires id in s.tasks && !e.Poll? && !e.Begin?
    ensures id in Step(s, e).tasks && SameHistory(s.tasks[id], Step(s, e).tasks[id])
  {
  }

  lemma BeginWrites(s: Timer, id: TaskId)
    requires id in s.tasks && Enabled(s, Begin)
    ensures var s' := Step(s, Begin);
            && id in s'.tasks && s'.pc == InBody(s.pc.task)
            && SameHistory(if s.pc == Cleared(id) then s.tasks[id].(bodies := s.tasks[id].bodies + 1) else s.tasks[id],
                           s'.tasks[id])
  {
  }

  lemma PollWrites(s: Timer, now: nat, head: TaskId, id: TaskId)
    requires id in s.tasks && Enabled(s, Poll(now, head))
    ensures var s' := Step(s, Poll(now, head));
            && id in s'.tasks && s'.tasks[id].bodies == s.tasks[id].bodies
            && (id != head ==> SameHistory(s.tasks[id], s'.tasks[id]))
            && !s'.pc.Cleared? && (s'.pc.InHand? ==> s'.pc.task == head)
  {
  }

  lemma BodyStep(s: Timer, e: Event, id: TaskId)
    requires id in s.tasks && id in Step(s, e).tasks
    requires Step(s, e).tasks[id].bodies > s.tasks[id].bodies
    ensures e == Begin && s.pc == Cleared(id)
  {
    hide Step;
    if !Enabled(s, e) {
      NoStep(s, e);
    } else if e.Begin? {
      BeginWrites(s, id);
    } else if e.Poll? {
      PollWrites(s, e.now, e.head, id);
    } else {
      OthersWriteNoHistory(s, e, id);
    }
  }

  lemma NoStep(s: Timer, e: Event)
    requires !Enabled(s, e)
    ensures Step(s, e) == s
  {
  }

  /** A sleeping timer thread sleeps on the least deadline in the queue, or the queue is empty: every
      push that could change this wakes it. */
  lemma {:induction false} NoOversleep(es: seq<Event>, t: TaskId)
    ensures var s := Exec(Initial(), es);
            && (s.pc == AsleepOnEmpty ==> s.queue == {})
            && (s.pc.AsleepUntil? ==>
                  && (exists m :: m in s.queue && m in s.tasks && s.tasks[m].deadline == s.pc.deadline)
                  && (t in s.queue ==> t in s.tasks && s.pc.deadline <= s.tasks[t].deadline))
  {
    ReachableInv(es);
    var s := Exec(Initial(), es);
    if s.pc.AsleepUntil? {
      var m :| IsMin(s, m) && s.tasks[m].deadline == s.pc.deadline;
      assert m in s.queue && m in s.tasks;
    }
  }

  // ---------- Cancellation ----------

  lemma RequestedStep(s: Timer, e: Event, id: TaskId)
    requires id in s.tasks && s.tasks[id].requested
    ensures var s' := Step(s, e);
            && id in s'.tasks && s'.tasks[id].requested
            && s'.tasks[id].bodies + One(s'.pc == Cleared(id)) == s.tasks[id].bodies + One(s.pc == Cleared(id))
  {
    hide IsMin;
  }

  /** After a cancel request, in any continuation, the bodies of a task can grow by one only: the body that
      was past Run's check when the request came, and that one has begun exactly when the thread is no
      longer just behind that check. */
  lemma {:induction false} AtMostTheClearedBody(s: Timer, id: TaskId, fs: seq<Event>)
    requires id in s.tasks && s.tasks[id].requested
    ensures var s' := Exec(s, fs);
            && id in s'.tasks && s'.tasks[id].requested
            && s'.tasks[id].bodies + One(s'.pc == Cleared(id)) == s.tasks[id].bodies + One(s.pc == Cleared(id))
  {
    hide Step;
    if fs != [] {
      AtMostTheClearedBody(s, id, fs[..|fs| - 1]);
      RequestedStep(Exec(s, fs[..|fs| - 1]), fs[|fs| - 1], id);
    }
  }

  ghost predicate StartsBody(s: Timer, id: TaskId, fs: seq<Event>)
    requires id in s.tasks
  {
    id in Exec(s, fs).tasks && Exec(s, fs).tasks[id].bodies > s.tasks[id].bodies
  }

  /** A body can still start after a cancel request if and only if the thread is past the check of Run. */
  lemma {:induction false} LateBodyIffCleared(s: Timer, id: TaskId)
    requires id in s.tasks && s.tasks[id].requested
    ensures (exists fs :: StartsBody(s, id, fs)) <==> s.pc == Cleared(id)
  {
    if fs :| StartsBody(s, id, fs) {
      AtMostTheClearedBody(s, id, fs);
    }
    if s.pc == Cleared(id) {
      assert [Begin][..0] == [];
      assert Exec(s, [Begin]) == Step(Exec(s, []), Begin);
      assert StartsBody(s, id, [Begin]);
    }
  }

  /** When a task with a cancel request comes up it leaves the queue for good, and if it is cancelled
      already it is not even handed to Run. */
  lemma {:induction false} CancelledIsDropped(es: seq<Event>, now: nat, id: TaskId)
    requires Enabled(Exec(Initial(), es), Poll(now, id)) && Exec(Initial(), es).tasks[id].requested
    ensures var s := Exec(Initial(), es);
            var s' := Step(s, Poll(now, id));
            && id !in s'.queue && id in s'.tasks && s'.tasks[id].removals == 1
            && s'.tasks[id].readings == s.tasks[id].readings
            && s'.pc == (if s.tasks[id].cancelled then AtTop else InHand(id, false))
  {
    Known(es, id);
    PlaceInQueue(Exec(Initial(), es), id);
  }

  /** A task that fires because of a cancel, or is cancelled between its firing and Run's check, is turned
      down by that check: no body, and CANCELLED. */
  lemma {:induction false} CheckTurnsDown(es: seq<Event>, id: TaskId, due: bool)
    requires var s := Exec(Initial(), es); s.pc == InHand(id, due) && id in s.tasks && !s.tasks[id].isEnd
    ensures var s := Exec(Initial(), es);
            var s' := Step(s, Check);
            && id in s'.tasks && s'.tasks[id].bodies == s.tasks[id].bodies
            && (!due ==> s.tasks[id].requested)
            && (if s.tasks[id].requested then s'.pc == AtTop && s'.tasks[id].cancelled else s'.pc == Cleared(id))
  {
    Known(es, id);
  }

  lemma PlaceInQueue(s: Timer, id: TaskId)
    requires id in s.tasks && id in s.queue && TaskOk(s, id)
    ensures s.tasks[id].removals == 0
  {
  }

  // ---------- Shutdown ----------

  /** Steps of the timer thread until it has ended, once the sentinel is queued. */
  function Rank(s: Timer): nat {
    match s.pc
    case InHand(t, _) => if t == s.sentinel then 1 else 6
    case Cleared(_) => 5
    case InBody(_) => 4
    case AtTop => 3
    case Checked => 2
    case Ended => 0
    case _ => 7
  }

  predicate IsThreadStep(e: Event) {
    e.Acquire? || e.Poll? || e.Wake? || e.Check? || e.Begin? || e.EndBody?
  }

  /** The thread has the task in its hands and its body still ahead. */
  predicate Ahead(pc: Pc, id: TaskId) {
    pc == InHand(id, true) || pc == Cleared(id)
  }

  /** A user task as the shutdown leaves it: nothing fired, nothing removed, and no body but that of the
      task the thread already had in hand. */
  ghost predicate Frozen(s: Timer, s': Timer, id: TaskId)
    requires id in s.tasks
  {
    && id in s'.tasks
    && s'.tasks[id].isEnd == s.tasks[id].isEnd
    && s'.tasks[id].readings == s.tasks[id].readings
    && s'.tasks[id].removals == s.tasks[id].removals
    && s'.tasks[id].bodies + One(Ahead(s'.pc, id)) <= s.tasks[id].bodies + One(Ahead(s.pc, id))
  }

  lemma OnlySentinelIsPolled(s: Timer, e: Event, id: TaskId)
    requires Inv(s) && Pushed(s) && id in s.tasks && !s.tasks[id].isEnd
    ensures Enabled(s, e) && e.Poll? ==> e.head != id
    ensures s.pc == InHand(id, false) ==> s.tasks[id].requested
  {
    assert TaskOk(s, id);
    hide SleepOk;
  }

  lemma StepFreezes(s: Timer, e: Event, id: TaskId)
    requires Inv(s) && Pushed(s) && id in s.tasks && !s.tasks[id].isEnd
    ensures Frozen(s, Step(s, e), id) && Pushed(Step(s, e))
  {
    hide Step, Inv, TaskOk, Enabled;
    StaysPushed(s, e);
    OnlySentinelIsPolled(s, e, id);
    if !Enabled(s, e) {
      NoStep(s, e);
    } else if e.Begin? {
      BeginWrites(s, id);
    } else if e.Poll? {
      PollWrites(s, e.now, e.head, id);
    } else {
      OthersWriteNoHistory(s, e, id);
      NothingPicked(s, e, id);
    }
  }

  lemma StaysPushed(s: Timer, e: Event)
    requires Pushed(s)
    ensures Pushed(Step(s, e))
  {
  }

  lemma NothingPicked(s: Timer, e: Event, id: TaskId)
    requires Enabled(s, e) && !e.Poll? && !e.Begin? && id in s.tasks
    requires s.pc == InHand(id, false) ==> s.tasks[id].requested
    ensures Ahead(Step(s, e).pc, id) ==> Ahead(s.pc, id)
  {
  }

  lemma {:induction false} Freezes(s: Timer, fs: seq<Event>, id: TaskId)
    requires Inv(s) && Pushed(s) && id in s.tasks && !s.tasks[id].isEnd
    ensures Frozen(s, Exec(s, fs), id) && Pushed(Exec(s, fs))
  {
    hide Inv, Step;
    if fs != [] {
      Freezes(s, fs[..|fs| - 1], id);
      ExecKeepsInv(s, fs[..|fs| - 1]);
      StepFreezes(Exec(s, fs[..|fs| - 1]), fs[|fs| - 1], id);
    }
  }

  /** From the push of the sentinel on, whatever is scheduled: no user task fires or leaves the queue,
      and no body starts but that of the task already in the thread's hands. */
  lemma {:induction false} NothingAfterTheSentinel(es: seq<Event>, fs: seq<Event>, id: TaskId)
    requires var s := Exec(Initial(), es); Pushed(s) && id in s.tasks && !s.tasks[id].isEnd
    ensures var s := Exec(Initial(), es);
            var s' := Exec(s, fs);
            && id in s'.tasks
            && s'.tasks[id].readings == s.tasks[id].readings
            && s'.tasks[id].removals == s.tasks[id].removals
            && s'.tasks[id].bodies <= s.tasks[id].bodies + One(Ahead(s.pc, id))
  {
    ReachableInv(es);
    Freezes(Exec(Initial(), es), fs, id);
  }

  lemma SentinelIsMin(s: Timer)
    requires Inv(s) && Pushed(s) && s.pc == Checked
    ensures IsMin(s, s.sentinel)
  {
  }

  /** With the sentinel pushed the timer thread is never asleep and never stuck; every step it takes
      brings it nearer to its end, no step of anyone else takes it away from it; so after at most six
      more steps of its own it has left its loop, by the sentinel or by the close exception. */
  lemma {:induction false} ThreadEnds(es: seq<Event>, e: Event)
    requires Pushed(Exec(Initial(), es))
    ensures var s := Exec(Initial(), es);
            && !IsAsleep(s.pc) && Rank(s) <= 6
            && (s.pc != Ended ==> exists f :: IsThreadStep(f) && Enabled(s, f))
            && Rank(Step(s, e)) + (if IsThreadStep(e) && Enabled(s, e) then 1 else 0) <= Rank(s)
  {
    ReachableInv(es);
    var s := Exec(Initial(), es);
    EndSteps(s);
    EndRank(s, e);
  }

  lemma EndSteps(s: Timer)
    requires Inv(s) && Pushed(s)
    ensures !IsAsleep(s.pc) && Rank(s) <= 6
    ensures s.pc != Ended ==> exists f :: IsThreadStep(f) && Enabled(s, f)
  {
    NeverAsleep(s);
    if s.pc != Ended {
      var f := NextThreadStep(s);
    }
  }

  lemma NeverAsleep(s: Timer)
    requires Inv(s) && Pushed(s)
    ensures !IsAsleep(s.pc)
  {
    hide TasksOk, SleepOk;
  }

  lemma HeldIsKnown(s: Timer)
    requires Inv(s) && (s.pc.InHand? || s.pc.Cleared? || s.pc.InBody?)
    ensures s.pc.task in s.tasks
  {
  }

  lemma NextThreadStep(s: Timer) returns (f: Event)
    requires Inv(s) && Pushed(s) && !IsAsleep(s.pc) && s.pc != Ended
    ensures IsThreadStep(f) && Enabled(s, f)
  {
    hide IsMin, Inv, Pushed;
    match s.pc
    case Checked => { SentinelIsMin(s); f := Poll(0, s.sentinel); }
    case InHand(_, _) => { HeldIsKnown(s); f := Check; }
    case Cleared(_) => { HeldIsKnown(s); f := Begin; }
    case InBody(_) => { HeldIsKnown(s); f := EndBody(false); }
    case AtTop => { f := Acquire; }
  }

  lemma EndRank(s: Timer, e: Event)
    requires Inv(s) && Pushed(s)
    ensures Rank(Step(s, e)) + (if IsThreadStep(e) && Enabled(s, e) then 1 else 0) <= Rank(s)
  {
    hide TasksOk, SleepOk;
    if Enabled(s, e) {
      match e
      case Poll(now, head) => HeadIsSentinel(s, head);
      case _ =>
    }
  }

  // ---------- The loop goes on until it is shut down ----------

  ghost predicate ShutOut(s: Timer) {
    Pushed(s) && (s.stage == CloseSet || s.sentinel !in s.queue)
  }

  lemma HandIsRemoved(s: Timer, id: TaskId)
    requires Inv(s) && s.pc.InHand? && s.pc.task == id && id in s.tasks && s.tasks[id].isEnd
    ensures ShutOut(s)
  {
    assert TaskOk(s, id);
  }

  lemma StaysShutOut(s: Timer, e: Event)
    requires Inv(s) && ShutOut(s)
    ensures ShutOut(Step(s, e))
  {
    hide IsMin;
    StaysPushed(s, e);
  }

  lemma StepEnds(s: Timer, e: Event)
    requires Inv(s) && s.pc != Ended && Step(s, e).pc == Ended
    ensures ShutOut(s)
  {
    match e
    case Check => HandIsRemoved(s, s.pc.task);
    case Acquire =>
    case _ => hide Inv; NoOtherEnd(s, e); assert false;
  }

  lemma NoOtherEnd(s: Timer, e: Event)
    requires s.pc != Ended && e != Check && e != Acquire
    ensures Step(s, e).pc != Ended
  {
    hide IsMin;
  }

  /** The thread leaves its loop only after a close was requested, or after it has taken the sentinel. */
  lemma {:induction false} EndsOnlyByShutDown(es: seq<Event>)
    ensures var s := Exec(Initial(), es);
            s.pc == Ended ==> s.stage == CloseSet || (s.stage == SentinelPushed && s.sentinel !in s.queue)
  {
    ShutOutIfEnded(es);
  }

  lemma {:induction false} ShutOutIfEnded(es: seq<Event>)
    ensures Exec(Initial(), es).pc == Ended ==> ShutOut(Exec(Initial(), es))
  {
    hide Step, Inv, ShutOut;
    if es != [] && Exec(Initial(), es).pc == Ended {
      var s, e := Exec(Initial(), es[..|es| - 1]), es[|es| - 1];
      ShutOutIfEnded(es[..|es| - 1]);
      ReachableInv(es[..|es| - 1]);
      if s.pc != Ended { StepEnds(s, e); }
      StaysShutOut(s, e);
    }
  }

  lemma {:induction false} SomeMin(s: Timer, q: set<TaskId>) returns (m: TaskId)
    requires q != {} && q <= s.tasks.Keys
    ensures m in q && forall t | t in q :: s.tasks[m].deadline <= s.tasks[t].deadline
    decreases |q|
  {
    var t :| t in q;
    if q == {t} {
      m := t;
    } else {
      var r := SomeMin(s, q - {t});
      m := if s.tasks[t].deadline < s.tasks[r].deadline then t else r;
    }
  }

  /** What the thread does next: awake it has a step of its own, asleep it can be woken; from its wake-up,
      from a body's end and from a task turned down it goes back to the top of the loop, and from there it
      polls if a task is queued. */
  ghost predicate GoesOn(s: Timer, now: nat, checks: bool) {
    match s.pc
    case AtTop => Step(s, Acquire) == s.(pc := if s.queue == {} then AsleepOnEmpty else Checked)
    case Checked => exists head :: Enabled(s, Poll(now, head))
    case InHand(id, _) => Enabled(s, Check) && Step(s, Check).pc in {AtTop, Cleared(id)}
    case Cleared(id) => Enabled(s, Begin) && Step(s, Begin).pc == InBody(id)
    case InBody(_) => Enabled(s, EndBody(checks)) && Step(s, EndBody(checks)).pc == AtTop
    case AsleepOnEmpty => Step(s, Wake) == s.(pc := AtTop)
    case AsleepUntil(_) => Step(s, Wake) == s.(pc := AtTop)
    case Ended => false
  }

  /** Before the sentinel's push the thread is in its loop and never stuck there. */
  lemma {:induction false} LoopGoesOn(es: seq<Event>, now: nat, checks: bool)
    requires !Pushed(Exec(Initial(), es))
    ensures GoesOn(Exec(Initial(), es), now, checks)
  {
    var s := Exec(Initial(), es);
    ReachableInv(es);
    ShutOutIfEnded(es);
    hide Exec, Inv, GoesOn;
    if s.pc == Checked {
      Polls(s, now, checks);
    } else if Occupied(s.pc) {
      Handles(s, now, checks);
    } else {
      Turns(s, now, checks);
    }
  }

  lemma Polls(s: Timer, now: nat, checks: bool)
    requires Inv(s) && s.pc == Checked
    ensures GoesOn(s, now, checks)
  {
    QueueIsKnown(s);
    var m := SomeMin(s, s.queue);
    assert IsMin(s, m) && Enabled(s, Poll(now, m));
  }

  lemma NotTheSentinel(s: Timer)
    requires Inv(s) && Occupied(s.pc) && !Pushed(s)
    ensures s.pc.task in s.tasks && !s.tasks[s.pc.task].isEnd
  {
    HeldIsKnown(s);
    assert SentinelOk(s);
  }

  lemma Handles(s: Timer, now: nat, checks: bool)
    requires Inv(s) && Occupied(s.pc) && !Pushed(s)
    ensures GoesOn(s, now, checks)
  {
    NotTheSentinel(s);
    hide Inv, GoesOn;
    GoesOnWith(s, now, checks);
  }

  lemma GoesOnWith(s: Timer, now: nat, checks: bool)
    requires Occupied(s.pc) && s.pc.task in s.tasks && !s.tasks[s.pc.task].isEnd
    ensures GoesOn(s, now, checks)
  {
  }

  lemma Turns(s: Timer, now: nat, checks: bool)
    requires !Pushed(s) && s.pc != Ended && s.pc != Checked && !Occupied(s.pc)
    ensures GoesOn(s, now, checks)
  {
    hide IsMin;
  }

  lemma QueueIsKnown(s: Timer)
    requires Inv(s)
    ensures s.queue <= s.tasks.Keys
  {
  }
}
