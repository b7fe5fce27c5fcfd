/** The order of the single-threaded pool's queue. FIFO and PRIORITY share a heap with a strict comparator,
    smallest priority first; LIFO has its own heap with the negated, hence non-strict, comparator. */
module PriorityOrder {
  import opened Common
  import opened Heap

  datatype RunMode = FIFO | LIFO | PRIORITY

  datatype Task = Task(id: nat, priority: int, isEnd: bool)

  predicate CompareFuncGreater(left: Task, right: Task) {
    left.priority > right.priority
  }

  predicate CompareFuncLesser(left: Task, right: Task) {
    !CompareFuncGreater(left, right)
  }

  function Comparator(mode: RunMode): (Task, Task) -> bool {
    if mode == LIFO then CompareFuncLesser else CompareFuncGreater
  }

  /** What the order amounts to: the task with the smallest rank goes first. */
  function Rank(mode: RunMode, t: Task): int {
    if mode == LIFO then -t.priority else t.priority
  }

  function RankOf(mode: RunMode): Task -> int {
    (t: Task) => Rank(mode, t)
  }

  /** Strict or not, each comparator is a valid order for the heap; so the root of a LIFO heap is a task
      of largest priority although its comparator also holds of equal priorities. */
  lemma ComparatorsAgree(mode: RunMode, q: seq<Task>)
    ensures Agrees(Comparator(mode), RankOf(mode), q)
  {
  }

  predicate IsFirst(mode: RunMode, heap: multiset<Task>, t: Task) {
    t in heap && forall u | u in heap :: Rank(mode, t) <= Rank(mode, u)
  }

  lemma RootIsFirst(mode: RunMode, q: seq<Task>)
    requires q != [] && IsHeap(Keys(q, RankOf(mode)))
    ensures IsFirst(mode, multiset(q), q[0])
  {
    forall u | u in multiset(q) ensures Rank(mode, q[0]) <= Rank(mode, u) {
      var i :| 0 <= i < |q| && q[i] == u;
      RootIsMin(Keys(q, RankOf(mode)), i);
    }
  }

  // ---------- Draining ----------

  ghost predicate Sorted(mode: RunMode, ts: seq<Task>) {
    forall i, j | 0 <= i < j < |ts| :: Rank(mode, ts[i]) <= Rank(mode, ts[j])
  }

  ghost predicate StrictlySorted(mode: RunMode, ts: seq<Task>) {
    forall i, j | 0 <= i < j < |ts| :: Rank(mode, ts[i]) < Rank(mode, ts[j])
  }

  /** The orders in which the tasks `ts` may come out if all go in before any comes out. */
  ghost predicate Drains(mode: RunMode, ts: seq<Task>, out: seq<Task>) {
    multiset(out) == multiset(ts) && Sorted(mode, out)
  }

  lemma SortedWithHead(mode: RunMode, head: Task, tail: seq<Task>)
    requires Sorted(mode, tail) && forall u | u in tail :: Rank(mode, head) <= Rank(mode, u)
    ensures Sorted(mode, [head] + tail)
  {
  }

  lemma SameFirst(mode: RunMode, ts: seq<Task>, out: seq<Task>)
    requires ts != [] && out != [] && StrictlySorted(mode, ts) && Drains(mode, ts, out)
    ensures out[0] == ts[0]
  {
    assert ts[0] in multiset(out) && out[0] in multiset(ts);
    var i :| 0 <= i < |ts| && ts[i] == out[0];
    var j :| 0 <= j < |out| && out[j] == ts[0];
  }

  lemma SameLength(ts: seq<Task>, out: seq<Task>)
    requires multiset(out) == multiset(ts)
    ensures |out| == |ts|
  {
    assert |multiset(out)| == |multiset(ts)|;
  }

  lemma SameTail(ts: seq<Task>, out: seq<Task>)
    requires ts != [] && out != [] && out[0] == ts[0] && multiset(out) == multiset(ts)
    ensures multiset(out[1..]) == multiset(ts[1..])
  {
    assert out == [ts[0]] + out[1..] && ts == [ts[0]] + ts[1..];
    assert multiset(out[1..]) == multiset(out) - multiset{ts[0]};
    assert multiset(ts[1..]) == multiset(ts) - multiset{ts[0]};
  }

  /** Only one order is possible when all ranks differ. */
  lemma {:induction false} DrainIsUnique(mode: RunMode, ts: seq<Task>, out: seq<Task>)
    requires StrictlySorted(mode, ts) && Drains(mode, ts, out)
    ensures out == ts
  {
    SameLength(ts, out);
    if ts != [] {
      SameFirst(mode, ts, out);
      SameTail(ts, out);
      assert out == [out[0]] + out[1..] && ts == [ts[0]] + ts[1..];
      DrainIsUnique(mode, ts[1..], out[1..]);
    }
  }

  // ---------- Reference queues ----------

  /** What happened to the queue: a task went in, or one came out. */
  datatype Entry = In(task: Task) | Out(task: Task)

  function Ins(log: seq<Entry>): seq<Task> {
    if log == [] then []
    else Ins(log[..|log| - 1]) + (var e := log[|log| - 1]; if e.In? then [e.task] else [])
  }

  function Outs(log: seq<Entry>): seq<Task> {
    if log == [] then []
    else Outs(log[..|log| - 1]) + (var e := log[|log| - 1]; if e.Out? then [e.task] else [])
  }

  function QueueStep(ts: seq<Task>, e: Entry): Option<seq<Task>> {
    match e
    case In(t) => Some(ts + [t])
    case Out(t) => if ts != [] && ts[0] == t then Some(ts[1..]) else None
  }

  function StackStep(ts: seq<Task>, e: Entry): Option<seq<Task>> {
    match e
    case In(t) => Some(ts + [t])
    case Out(t) => if ts != [] && ts[|ts| - 1] == t then Some(ts[..|ts| - 1]) else None
  }

  /** For the heap it is enough that no other task ranks before the one that comes out. */
  function HeapStep(mode: RunMode, heap: multiset<Task>, e: Entry): Option<multiset<Task>> {
    match e
    case In(t) => Some(heap + multiset{t})
    case Out(t) => if IsFirst(mode, heap, t) then Some(heap - multiset{t}) else None
  }

  /** Replay a log on a plain queue: its contents, or nothing if it would not have given those tasks. */
  function AsQueue(log: seq<Entry>): Option<seq<Task>> {
    if log == [] then Some([]) else
    match AsQueue(log[..|log| - 1])
    case None => None
    case Some(ts) => QueueStep(ts, log[|log| - 1])
  }

  function AsStack(log: seq<Entry>): Option<seq<Task>> {
    if log == [] then Some([]) else
    match AsStack(log[..|log| - 1])
    case None => None
    case Some(ts) => StackStep(ts, log[|log| - 1])
  }

  function AsHeap(mode: RunMode, log: seq<Entry>): Option<multiset<Task>> {
    if log == [] then Some(multiset{}) else
    match AsHeap(mode, log[..|log| - 1])
    case None => None
    case Some(heap) => HeapStep(mode, heap, log[|log| - 1])
  }

  ghost predicate IncreasingStamps(ts: seq<Task>) {
    forall i, j | 0 <= i < j < |ts| :: ts[i].priority < ts[j].priority
  }

  lemma PrefixIncreases(log: seq<Entry>)
    requires log != [] && IncreasingStamps(Ins(log))
    ensures IncreasingStamps(Ins(log[..|log| - 1]))
    ensures var last := log[|log| - 1];
            last.In? ==> IncreasingStamps(Ins(log[..|log| - 1]) + [last.task])
  {
    var ts := Ins(log[..|log| - 1]);
    assert ts == Ins(log)[..|ts|];
  }

  /** In a sequence with increasing stamps the first task is the only one to come out of the strict heap,
      the last task the only one to come out of the other. */
  lemma FirstOfIncreasing(mode: RunMode, ts: seq<Task>, t: Task)
    requires ts != [] && IncreasingStamps(ts)
    ensures IsFirst(mode, multiset(ts), t) <==> t == ts[if mode == LIFO then |ts| - 1 else 0]
  {
    var k := if mode == LIFO then |ts| - 1 else 0;
    forall u | u in multiset(ts) && u != ts[k] ensures Rank(mode, ts[k]) < Rank(mode, u) {
      var i :| 0 <= i < |ts| && ts[i] == u;
    }
    assert ts[k] in multiset(ts);
  }

  lemma QueueStepMatches(mode: RunMode, ts: seq<Task>, e: Entry)
    requires mode != LIFO && IncreasingStamps(ts) && (e.In? ==> IncreasingStamps(ts + [e.task]))
    ensures HeapStep(mode, multiset(ts), e).Some? <==> QueueStep(ts, e).Some?
    ensures QueueStep(ts, e).Some? ==>
              var r := QueueStep(ts, e).value;
              IncreasingStamps(r) && HeapStep(mode, multiset(ts), e).value == multiset(r)
  {
    hide IsFirst;
    if e.Out? && ts != [] {
      FirstOfIncreasing(mode, ts, e.task);
      assert ts == [ts[0]] + ts[1..];
    } else if e.Out? {
      NothingIsFirst(mode, e.task);
    }
  }

  lemma StackStepMatches(ts: seq<Task>, e: Entry)
    requires IncreasingStamps(ts) && (e.In? ==> IncreasingStamps(ts + [e.task]))
    ensures HeapStep(LIFO, multiset(ts), e).Some? <==> StackStep(ts, e).Some?
    ensures StackStep(ts, e).Some? ==>
              var r := StackStep(ts, e).value;
              IncreasingStamps(r) && HeapStep(LIFO, multiset(ts), e).value == multiset(r)
  {
    hide IsFirst;
    if e.Out? && ts != [] {
      FirstOfIncreasing(LIFO, ts, e.task);
      assert ts == ts[..|ts| - 1] + [ts[|ts| - 1]];
    } else if e.Out? {
      NothingIsFirst(LIFO, e.task);
    }
  }

  lemma NothingIsFirst(mode: RunMode, t: Task)
    ensures !IsFirst(mode, multiset([]), t)
  {
  }

  /** A stamp behind everything that went in is behind everything inside. */
  lemma BehindAllInside(mode: RunMode, log: seq<Entry>, ts: seq<Task>, t: Task)
    requires AsHeap(mode, log) == Some(multiset(ts)) && IncreasingStamps(ts)
    requires IncreasingStamps(Ins(log) + [t])
    ensures IncreasingStamps(ts + [t])
  {
    var all := Ins(log);
    WentIn(mode, log);
    SameElements(all, ts);
    forall i | 0 <= i < |ts| ensures ts[i].priority < t.priority {
      assert ts[i] in all;
      var j :| 0 <= j < |all| && all[j] == ts[i];
      assert (all + [t])[j] == ts[i] && (all + [t])[|all|] == t;
    }
  }

  lemma {:induction false} WentIn(mode: RunMode, log: seq<Entry>)
    ensures AsHeap(mode, log).Some? ==> AsHeap(mode, log).value <= multiset(Ins(log))
  {
    if log != [] {
      WentIn(mode, log[..|log| - 1]);
    }
  }

  /** With increasing stamps the heap with the strict comparator behaves exactly as a plain queue. */
  lemma {:induction false} HeapIsQueue(mode: RunMode, log: seq<Entry>)
    requires mode != LIFO && IncreasingStamps(Ins(log))
    ensures AsHeap(mode, log).Some? <==> AsQueue(log).Some?
    ensures AsQueue(log).Some? ==>
              IncreasingStamps(AsQueue(log).value) && AsHeap(mode, log).value == multiset(AsQueue(log).value)
  {
    if log != [] {
      var before, last := log[..|log| - 1], log[|log| - 1];
      PrefixIncreases(log);
      HeapIsQueue(mode, before);
      if AsQueue(before).Some? {
        if last.In? {
          BehindAllInside(mode, before, AsQueue(before).value, last.task);
        }
        QueueStepMatches(mode, AsQueue(before).value, last);
      }
    }
  }

  /** With increasing stamps the heap with the non-strict comparator behaves exactly as a stack. */
  lemma {:induction false} HeapIsStack(log: seq<Entry>)
    requires IncreasingStamps(Ins(log))
    ensures AsHeap(LIFO, log).Some? <==> AsStack(log).Some?
    ensures AsStack(log).Some? ==>
              IncreasingStamps(AsStack(log).value) && AsHeap(LIFO, log).value == multiset(AsStack(log).value)
  {
    if log != [] {
      var before, last := log[..|log| - 1], log[|log| - 1];
      PrefixIncreases(log);
      HeapIsStack(before);
      if AsStack(before).Some? {
        if last.In? {
          BehindAllInside(LIFO, before, AsStack(before).value, last.task);
        }
        StackStepMatches(AsStack(before).value, last);
      }
    }
  }

  lemma LogGrows(mode: RunMode, log: seq<Entry>, e: Entry)
    ensures Ins(log + [e]) == Ins(log) + if e.In? then [e.task] else []
    ensures Outs(log + [e]) == Outs(log) + if e.Out? then [e.task] else []
    ensures AsHeap(mode, log + [e]) ==
            match AsHeap(mode, log)
            case None => None
            case Some(heap) => HeapStep(mode, heap, e)
  {
  }

  // ---------- The array ----------

  /** Replay a log on the array heap itself. */
  function ArrayStep(mode: RunMode, q: seq<Task>, e: Entry): Option<seq<Task>> {
    match e
    case In(t) => Some(Pushed(q, t, Comparator(mode)))
    case Out(t) => if q != [] && q[0] == t then Some(Popped(q, Comparator(mode))) else None
  }

  function AsArray(mode: RunMode, log: seq<Entry>): Option<seq<Task>> {
    if log == [] then Some([]) else
    match AsArray(mode, log[..|log| - 1])
    case None => None
    case Some(q) => ArrayStep(mode, q, log[|log| - 1])
  }

  lemma ArrayStepIsHeapStep(mode: RunMode, q: seq<Task>, e: Entry)
    requires IsHeap(Keys(q, RankOf(mode))) && ArrayStep(mode, q, e).Some?
    ensures IsHeap(Keys(ArrayStep(mode, q, e).value, RankOf(mode)))
    ensures HeapStep(mode, multiset(q), e) == Some(multiset(ArrayStep(mode, q, e).value))
  {
    hide IsHeap, IsFirst, Pushed, Popped;
    match e
    case In(t) => {
      ComparatorsAgree(mode, q + [t]);
      PushedIsHeap(q, t, Comparator(mode), RankOf(mode));
    }
    case Out(t) => {
      ComparatorsAgree(mode, q);
      RootIsFirst(mode, q);
      RootMayMove(Keys(q, RankOf(mode)));
      PoppedIsHeap(q, Comparator(mode), RankOf(mode));
    }
  }

  /** Whatever the array heap gives out is a first task of what is inside. */
  lemma {:induction false} ArrayIsHeap(mode: RunMode, log: seq<Entry>)
    requires AsArray(mode, log).Some?
    ensures IsHeap(Keys(AsArray(mode, log).value, RankOf(mode)))
    ensures AsHeap(mode, log) == Some(multiset(AsArray(mode, log).value))
  {
    if log != [] {
      hide IsHeap, ArrayStep, HeapStep;
      ArrayIsHeap(mode, log[..|log| - 1]);
      ArrayStepIsHeapStep(mode, AsArray(mode, log[..|log| - 1]).value, log[|log| - 1]);
    }
  }

  /** The array after pushing the tasks one after the other, and what comes out until it is empty. */
  function Filled(mode: RunMode, ts: seq<Task>): seq<Task> {
    if ts == [] then [] else Pushed(Filled(mode, ts[..|ts| - 1]), ts[|ts| - 1], Comparator(mode))
  }

  function Drained(mode: RunMode, q: seq<Task>): seq<Task>
    decreases |q|
  {
    if q == [] then [] else [q[0]] + Drained(mode, Popped(q, Comparator(mode)))
  }

  lemma {:induction false} FilledIsHeap(mode: RunMode, ts: seq<Task>)
    ensures IsHeap(Keys(Filled(mode, ts), RankOf(mode))) && multiset(Filled(mode, ts)) == multiset(ts)
  {
    if ts != [] {
      var before, t := ts[..|ts| - 1], ts[|ts| - 1];
      FilledIsHeap(mode, before);
      ComparatorsAgree(mode, Filled(mode, before) + [t]);
      PushedIsHeap(Filled(mode, before), t, Comparator(mode), RankOf(mode));
      assert ts == before + [t];
    }
  }

  lemma {:induction false} DrainedIsSorted(mode: RunMode, q: seq<Task>)
    requires IsHeap(Keys(q, RankOf(mode)))
    ensures Drains(mode, q, Drained(mode, q))
    decreases |q|
  {
    hide IsHeap, Sorted, Popped, IsFirst;
    if q == [] {
      NothingIsSorted(mode);
    } else {
      var rest := Popped(q, Comparator(mode));
      ComparatorsAgree(mode, q);
      RootIsFirst(mode, q);
      RootMayMove(Keys(q, RankOf(mode)));
      PoppedIsHeap(q, Comparator(mode), RankOf(mode));
      DrainedIsSorted(mode, rest);
      FirstBeforeRest(mode, q, Drained(mode, rest));
    }
  }

  lemma NothingIsSorted(mode: RunMode)
    ensures Sorted(mode, [])
  {
  }

  lemma FirstBeforeRest(mode: RunMode, q: seq<Task>, tail: seq<Task>)
    requires q != [] && IsFirst(mode, multiset(q), q[0])
    requires multiset(tail) == multiset(q) - multiset{q[0]} && Sorted(mode, tail)
    ensures Drains(mode, q, [q[0]] + tail)
  {
    forall u | u in tail ensures Rank(mode, q[0]) <= Rank(mode, u) {
      assert u in multiset(tail);
    }
    SortedWithHead(mode, q[0], tail);
  }

  /** Draining the array heap gives a sorted permutation of what was pushed; and if every task ranks strictly
      behind the one before, exactly the tasks in the order of the pushes. */
  lemma {:induction false} DrainOfPushes(mode: RunMode, ts: seq<Task>)
    ensures Drains(mode, ts, Drained(mode, Filled(mode, ts)))
    ensures StrictlySorted(mode, ts) ==> Drained(mode, Filled(mode, ts)) == ts
  {
    FilledIsHeap(mode, ts);
    DrainedIsSorted(mode, Filled(mode, ts));
    if StrictlySorted(mode, ts) {
      DrainIsUnique(mode, ts, Drained(mode, Filled(mode, ts)));
    }
  }

  // ---------- Equal stamps in the array ----------

  ghost predicate StampsDoNotDecrease(ts: seq<Task>) {
    forall i, j | 0 <= i < j < |ts| :: ts[i].priority <= ts[j].priority
  }

  /** The most tasks that were ever inside at once. */
  function MostInside(mode: RunMode, log: seq<Entry>): nat {
    if log == [] then 0
    else
      var before := MostInside(mode, log[..|log| - 1]);
      match AsArray(mode, log)
      case None => before
      case Some(q) => if |q| > before then |q| else before
  }

  /** The queue or the stack that the mode stands for. */
  function AsIntended(mode: RunMode, log: seq<Entry>): Option<seq<Task>> {
    if mode == LIFO then AsStack(log) else AsQueue(log)
  }

  function IntendedStep(mode: RunMode, ts: seq<Task>, e: Entry): Option<seq<Task>> {
    if mode == LIFO then StackStep(ts, e) else QueueStep(ts, e)
  }

  /** The tasks of a queue or stack of at most three, as the array holds them. */
  function Layout(mode: RunMode, ts: seq<Task>): (q: seq<Task>)
    ensures |q| == |ts|
  {
    if mode != LIFO || |ts| < 2 then ts
    else if |ts| == 2 then [ts[1], ts[0]]
    else [ts[2], ts[0], ts[1]] + ts[3..]
  }

  lemma PushOntoTwo(mode: RunMode, ts: seq<Task>, t: Task)
    requires |ts| <= 2 && StampsDoNotDecrease(ts + [t])
    ensures Pushed(Layout(mode, ts), t, Comparator(mode)) == Layout(mode, ts + [t])
  {
    hide Pushed;
    var all := ts + [t];
    if ts == [] {
      PushedFirst(t, Comparator(mode));
    } else if |ts| == 1 {
      assert ts == [ts[0]] && all == [ts[0], t] && all[0].priority <= all[1].priority;
      PushedSecond(ts[0], t, Comparator(mode));
    } else {
      assert all == [ts[0], ts[1], t] && all[0].priority <= all[2].priority && all[1].priority <= all[2].priority;
      assert ts == [ts[0], ts[1]] && all[..2] == ts;
      var q := Layout(mode, ts);
      assert q == [q[0], q[1]];
      PushedThird(q[0], q[1], t, Comparator(mode));
    }
  }

  lemma PopFromThree(mode: RunMode, ts: seq<Task>)
    requires 1 <= |ts| <= 3 && StampsDoNotDecrease(ts)
    ensures var rest := if mode == LIFO then ts[..|ts| - 1] else ts[1..];
            Popped(Layout(mode, ts), Comparator(mode)) == Layout(mode, rest)
  {
    var q := Layout(mode, ts);
    if |ts| == 3 {
      hide Popped;
      assert q == [q[0], q[1], q[2]];
      PoppedThree(q[0], q[1], q[2], Comparator(mode));
    }
  }

  lemma ThreeKeepOrder(mode: RunMode, ts: seq<Task>, e: Entry)
    requires |ts| <= 3 && (e.In? ==> |ts| <= 2)
    requires StampsDoNotDecrease(ts) && (e.In? ==> StampsDoNotDecrease(ts + [e.task]))
    requires ArrayStep(mode, Layout(mode, ts), e).Some?
    ensures IntendedStep(mode, ts, e).Some?
    ensures var r := IntendedStep(mode, ts, e).value;
            |r| <= 3 && StampsDoNotDecrease(r) && ArrayStep(mode, Layout(mode, ts), e) == Some(Layout(mode, r))
  {
    hide Pushed, Popped;
    match e
    case In(t) => { PushOntoTwo(mode, ts, t); }
    case Out(t) => { PopFromThree(mode, ts); }
  }

  lemma IntendedGrows(mode: RunMode, log: seq<Entry>)
    requires log != []
    ensures AsIntended(mode, log) ==
            match AsIntended(mode, log[..|log| - 1])
            case None => None
            case Some(ts) => IntendedStep(mode, ts, log[|log| - 1])
  {
  }

  lemma InsideShrinks(mode: RunMode, log: seq<Entry>)
    requires log != [] && AsArray(mode, log).Some? && StampsDoNotDecrease(Ins(log))
    ensures StampsDoNotDecrease(Ins(log[..|log| - 1]))
    ensures MostInside(mode, log) >= MostInside(mode, log[..|log| - 1])
    ensures |AsArray(mode, log).value| <= MostInside(mode, log)
  {
    var before := Ins(log[..|log| - 1]);
    assert before == Ins(log)[..|before|];
  }

  lemma NotBefore(all: seq<Task>, ts: seq<Task>, t: Task)
    requires StampsDoNotDecrease(all + [t]) && StampsDoNotDecrease(ts) && forall u | u in ts :: u in all
    ensures StampsDoNotDecrease(ts + [t])
  {
    forall i | 0 <= i < |ts| ensures ts[i].priority <= t.priority {
      assert ts[i] in all;
      var j :| 0 <= j < |all| && all[j] == ts[i];
      assert (all + [t])[j] == ts[i] && (all + [t])[|all|] == t;
    }
  }

  /** The array holds at most three tasks, laid out as the queue or stack wants them. */
  ghost predicate Follows(mode: RunMode, log: seq<Entry>, ts: seq<Task>) {
    && AsIntended(mode, log) == Some(ts) && AsArray(mode, log) == Some(Layout(mode, ts))
    && |ts| <= 3 && StampsDoNotDecrease(ts) && forall u | u in ts :: u in Ins(log)
  }

  lemma FollowsOn(mode: RunMode, log: seq<Entry>, e: Entry, ts: seq<Task>)
    requires Follows(mode, log, ts) && ArrayStep(mode, Layout(mode, ts), e).Some?
    requires e.In? ==> |ts| <= 2 && StampsDoNotDecrease(Ins(log) + [e.task])
    ensures IntendedStep(mode, ts, e).Some? && Follows(mode, log + [e], IntendedStep(mode, ts, e).value)
  {
    assert (log + [e])[..|log + [e]| - 1] == log;
    LogGrows(mode, log, e);
    IntendedGrows(mode, log + [e]);
    hide AsIntended, AsArray, ArrayStep, Ins, Outs, AsHeap, HeapStep, Layout;
    if e.In? { NotBefore(Ins(log), ts, e.task); }
    ThreeKeepOrder(mode, ts, e);
    StepStaysInside(mode, ts, e);
  }

  /** As long as at most three tasks are inside at once and the stamps do not decrease, the array gives what
      the queue or stack gives, ties or no ties. */
  lemma {:induction false} ThreeInsideKeepOrder(mode: RunMode, log: seq<Entry>)
    requires StampsDoNotDecrease(Ins(log)) && AsArray(mode, log).Some? && MostInside(mode, log) <= 3
    ensures AsIntended(mode, log).Some? && Follows(mode, log, AsIntended(mode, log).value)
  {
    if log != [] {
      var before, e := log[..|log| - 1], log[|log| - 1];
      InsideShrinks(mode, log);
      ThreeInsideKeepOrder(mode, before);
      assert log == before + [e];
      LastStep(mode, before, e, AsIntended(mode, before).value);
    }
  }

  lemma LastStep(mode: RunMode, before: seq<Entry>, e: Entry, ts: seq<Task>)
    requires Follows(mode, before, ts) && AsArray(mode, before + [e]).Some?
    requires |AsArray(mode, before + [e]).value| <= 3 && StampsDoNotDecrease(Ins(before + [e]))
    ensures AsIntended(mode, before + [e]).Some?
    ensures Follows(mode, before + [e], AsIntended(mode, before + [e]).value)
  {
    hide AsIntended, ArrayStep, Outs, AsHeap, HeapStep, Layout;
    LogGrows(mode, before, e);
    if e.In? { Grows(mode, Layout(mode, ts), e); }
    FollowsOn(mode, before, e, ts);
  }

  lemma Grows(mode: RunMode, q: seq<Task>, e: Entry)
    requires e.In?
    ensures ArrayStep(mode, q, e).Some? && |ArrayStep(mode, q, e).value| == |q| + 1
  {
  }

  lemma StepStaysInside(mode: RunMode, ts: seq<Task>, e: Entry)
    requires IntendedStep(mode, ts, e).Some?
    ensures forall u | u in IntendedStep(mode, ts, e).value :: u in ts || (e.In? && u == e.task)
  {
  }

  // ---------- Four inside lose it ----------

  /** Where a replay stands: the array, the intended contents, the most tasks inside so far. */
  ghost predicate At(mode: RunMode, log: seq<Entry>, q: seq<Task>, ts: seq<Task>, most: nat) {
    AsArray(mode, log) == Some(q) && AsIntended(mode, log) == Some(ts) && MostInside(mode, log) == most
  }

  lemma PutIn(mode: RunMode, log: seq<Entry>, q: seq<Task>, ts: seq<Task>, most: nat, t: Task)
    requires At(mode, log, q, ts, most) && most <= |q| + 1
    ensures var q' := Pushed(q, t, Comparator(mode));
            At(mode, log + [In(t)], q', ts + [t], |q| + 1) && Ins(log + [In(t)]) == Ins(log) + [t]
  {
    assert (log + [In(t)])[..|log + [In(t)]| - 1] == log;
    assert |Pushed(q, t, Comparator(mode))| == |q| + 1;
    hide Pushed, Comparator;
  }

  lemma TakeOut(mode: RunMode, log: seq<Entry>, q: seq<Task>, ts: seq<Task>, most: nat)
    requires At(mode, log, q, ts, most) && 0 < |q| <= most
    ensures var e := Out(q[0]);
            && AsArray(mode, log + [e]) == Some(Popped(q, Comparator(mode))) && MostInside(mode, log + [e]) == most
            && AsIntended(mode, log + [e]) == IntendedStep(mode, ts, e) && Ins(log + [e]) == Ins(log)
  {
    assert (log + [Out(q[0])])[..|log + [Out(q[0])]| - 1] == log;
    hide Popped, Comparator;
  }

  lemma Nothing(mode: RunMode)
    ensures At(mode, [], [], [], 0) && Ins([]) == []
  {
  }

  /** Equal stamps: four tasks in the array, and what one pop leaves. */
  function FourEqual(mode: RunMode, a: Task, b: Task, c: Task, d: Task): seq<Task> {
    if mode == LIFO then [d, c, b, a] else [a, b, c, d]
  }

  lemma ThreePushes(mode: RunMode, a: Task, b: Task, c: Task)
    requires a.priority == b.priority == c.priority
    ensures Pushed([], a, Comparator(mode)) == [a]
    ensures Pushed([a], b, Comparator(mode)) == Layout(mode, [a, b])
    ensures Pushed(Layout(mode, [a, b]), c, Comparator(mode)) == Layout(mode, [a, b, c])
  {
    hide Pushed, Comparator;
    assert [] + [a] == [a] && [a] + [b] == [a, b] && [a, b] + [c] == [a, b, c];
    PushOntoTwo(mode, [], a);
    PushOntoTwo(mode, [a], b);
    PushOntoTwo(mode, [a, b], c);
  }

  lemma FourPushes(mode: RunMode, a: Task, b: Task, c: Task, d: Task)
    requires a.priority == b.priority == c.priority == d.priority
    ensures Pushed([], a, Comparator(mode)) == [a]
    ensures Pushed([a], b, Comparator(mode)) == Layout(mode, [a, b])
    ensures Pushed(Layout(mode, [a, b]), c, Comparator(mode)) == Layout(mode, [a, b, c])
    ensures Pushed(Layout(mode, [a, b, c]), d, Comparator(mode)) == FourEqual(mode, a, b, c, d)
    ensures [] + [a] == [a] && [a] + [b] == [a, b] && [a, b] + [c] == [a, b, c] && [a, b, c] + [d] == [a, b, c, d]
  {
    hide Pushed, Comparator, FourEqual;
    ThreePushes(mode, a, b, c);
    ThirdLayout(mode, a, b, c);
    Fourth(mode, a, b, c, d);
  }

  lemma Fourth(mode: RunMode, a: Task, b: Task, c: Task, d: Task)
    requires a.priority == b.priority == c.priority == d.priority
    ensures Pushed(if mode == LIFO then [c, a, b] else [a, b, c], d, Comparator(mode)) == FourEqual(mode, a, b, c, d)
  {
    hide Pushed;
    if mode == LIFO {
      PushedFourth(c, a, b, d, Comparator(mode));
    } else {
      PushedFourth(a, b, c, d, Comparator(mode));
    }
  }

  lemma ThirdLayout(mode: RunMode, a: Task, b: Task, c: Task)
    ensures Layout(mode, [a, b, c]) == if mode == LIFO then [c, a, b] else [a, b, c]
  {
    assert [c, a, b] + [a, b, c][3..] == [c, a, b];
  }

  lemma PopOfFour(mode: RunMode, a: Task, b: Task, c: Task, d: Task)
    requires a.priority == b.priority == c.priority == d.priority
    ensures Popped(FourEqual(mode, a, b, c, d), Comparator(mode)) == if mode == LIFO then [a, c, b] else [c, b, d]
  {
    hide Popped;
    if mode == LIFO { PoppedFour(d, c, b, a, Comparator(mode)); } else { PoppedFour(a, b, c, d, Comparator(mode)); }
  }

  lemma FourInside(mode: RunMode, a: Task, b: Task, c: Task, d: Task) returns (log: seq<Entry>)
    requires a.priority == b.priority == c.priority == d.priority
    ensures At(mode, log, FourEqual(mode, a, b, c, d), [a, b, c, d], 4) && Ins(log) == [a, b, c, d]
  {
    hide Pushed, Comparator, At, Layout, Ins, FourEqual;
    FourPushes(mode, a, b, c, d);
    Nothing(mode);
    var l1 := [] + [In(a)];
    var l2 := l1 + [In(b)];
    var l3 := l2 + [In(c)];
    PutIn(mode, [], [], [], 0, a);
    PutIn(mode, l1, [a], [a], 1, b);
    PutIn(mode, l2, Layout(mode, [a, b]), [a, b], 2, c);
    PutIn(mode, l3, Layout(mode, [a, b, c]), [a, b, c], 3, d);
    log := l3 + [In(d)];
  }

  /** Four tasks stamped in the same second: the first to come out is the right one, the second is not. */
  lemma {:induction false} FourEqualStampsLoseTheOrder(mode: RunMode, a: Task, b: Task, c: Task, d: Task)
    returns (log: seq<Entry>)
    requires a.priority == b.priority == c.priority == d.priority && a != c && b != c
    ensures Ins(log) == [a, b, c, d] && AsArray(mode, log).Some? && MostInside(mode, log) == 4
    ensures AsIntended(mode, log) == None
  {
    hide Popped, Comparator;
    log := FourInside(mode, a, b, c, d);
    var q := FourEqual(mode, a, b, c, d);
    TakeOut(mode, log, q, [a, b, c, d], 4);
    assert [a, b, c, d][..3] == [a, b, c] && [a, b, c, d][1..] == [b, c, d];
    PopOfFour(mode, a, b, c, d);
    log := log + [Out(q[0])];
    var rest := if mode == LIFO then [a, c, b] else [c, b, d];
    TakeOut(mode, log, rest, if mode == LIFO then [a, b, c] else [b, c, d], 4);
    log := log + [Out(rest[0])];
  }

  ghost predicate KeepsOrder(mode: RunMode, log: seq<Entry>) {
    AsArray(mode, log).Some? && StampsDoNotDecrease(Ins(log)) ==> AsIntended(mode, log).Some?
  }

  /** With stamps that do not decrease but may be equal, as timeInSeconds gives them: the array gives out the
      tasks as the queue or the stack would, in every history with at most m tasks inside at once, exactly if
      m is at most three. */
  lemma {:induction false} EqualStampsKeepOrderIffThree(mode: RunMode, m: nat)
    ensures (forall log | MostInside(mode, log) <= m :: KeepsOrder(mode, log)) <==> m <= 3
  {
    if m <= 3 {
      forall log | MostInside(mode, log) <= m ensures KeepsOrder(mode, log) {
        if AsArray(mode, log).Some? && StampsDoNotDecrease(Ins(log)) { ThreeInsideKeepOrder(mode, log); }
      }
    } else {
      var log := FourEqualStampsLoseTheOrder(mode, Task(0, 0, false), Task(1, 0, false), Task(2, 0, false),
                                             Task(3, 0, false));
      assert StampsDoNotDecrease(Ins(log)) && !KeepsOrder(mode, log);
    }
  }
}
