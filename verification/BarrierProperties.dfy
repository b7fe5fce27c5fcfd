/** What every schedule of the cyclic barrier keeps. */
module BarrierProperties {
  import opened Common
  import opened BarrierSpec

  // ---------- Counting over the history ----------

  lemma ArrivalsAppend(log: seq<Entry>, x: Entry, e: Epoch)
    ensures Arrivals(log + [x], e) == Arrivals(log, e) + if x.Arrived? && x.epoch == e then 1 else 0
    ensures AllArrivals(log + [x]) == AllArrivals(log) + if x.Arrived? then 1 else 0
    ensures Returns(log + [x], e) == Returns(log, e) + if x.Returned? && x.epoch == e then 1 else 0
  {
    assert (log + [x])[..|log + [x]| - 1] == log;
  }

  /** The three entries the thread that trips the barrier leaves behind. */
  lemma TripCounts(log: seq<Entry>, t: Thread, c: Epoch, e: Epoch)
    ensures var log' := log + [Arrived(t, c), Tripped(c), Returned(t, c, SUCCESS)];
            && Arrivals(log', e) == Arrivals(log, e) + (if e == c then 1 else 0)
            && Returns(log', e) == Returns(log, e) + (if e == c then 1 else 0)
            && AllArrivals(log') == AllArrivals(log) + 1
  {
    var log1 := log + [Arrived(t, c)];
    var log2 := log1 + [Tripped(c)];
    ArrivalsAppend(log, Arrived(t, c), e);
    ArrivalsAppend(log1, Tripped(c), e);
    ArrivalsAppend(log2, Returned(t, c, SUCCESS), e);
    assert log2 + [Returned(t, c, SUCCESS)] == log + [Arrived(t, c), Tripped(c), Returned(t, c, SUCCESS)];
  }

  lemma NoneYet(log: seq<Entry>, e: Epoch)
    requires forall x | x in log :: x.epoch != e
    ensures Arrivals(log, e) == 0 && Returns(log, e) == 0
  {
  }

  // ---------- The invariant ----------

  ghost predicate Past(e: Epoch, b: Barrier) {
    e.reset <= b.reset && e.generation <= b.generation
  }

  ghost predicate Ended(log: seq<Entry>, e: Epoch) {
    Tripped(e) in log || Abandoned(e) in log
  }

  /** Somebody called Reset while the reset index was `r`. */
  ghost predicate WasReset(log: seq<Entry>, r: nat) {
    exists g :: Abandoned(Epoch(r, g)) in log
  }

  /** A thread is asleep exactly while its epoch runs; a finished epoch tripped or was abandoned, and it
      tripped if the reset index is still the same. */
  ghost predicate WaiterOk(b: Barrier, w: Waiter) {
    && Past(w.epoch, b)
    && (w.asleep <==> w.epoch == b.Current())
    && (w.epoch != b.Current() ==> Ended(b.log, w.epoch))
    && (w.epoch.reset == b.reset && w.epoch.generation < b.generation ==> Tripped(w.epoch) in b.log)
    && (w.epoch.reset < b.reset ==> WasReset(b.log, w.epoch.reset))
  }

  ghost predicate EntryOk(b: Barrier, x: Entry) {
    && Past(x.epoch, b)
    && match x
       case Arrived(_, _) => true
       case Tripped(e) => e != b.Current() && Arrivals(b.log, e) == b.max
       case Abandoned(e) => e.reset < b.reset && Arrivals(b.log, e) < b.max
       case Returned(_, e, SUCCESS) => Tripped(e) in b.log
       case Returned(_, e, BROKEN) => WasReset(b.log, e.reset) && Ended(b.log, e)
       case Returned(_, e, TIMEOUT) => true
  }

  ghost predicate EpochsOk(b: Barrier) {
    && 1 <= b.count <= b.max
    && Arrivals(b.log, b.Current()) == b.max - b.count
    && (forall t | t in b.waiters :: WaiterOk(b, b.waiters[t]))
    && (forall x | x in b.log :: EntryOk(b, x))
  }

  ghost predicate ConservedAt(b: Barrier, e: Epoch) {
    Arrivals(b.log, e) == |Inside(b, e)| + Returns(b.log, e)
  }

  /** Of the arrivals in any epoch, each is still inside or has returned, and not both. */
  ghost predicate Conserved(b: Barrier) {
    forall e :: ConservedAt(b, e)
  }

  /** The epoch counters in closed form, as long as nobody has called Reset. */
  ghost predicate ClosedForm(b: Barrier) {
    b.reset == 0 ==> AllArrivals(b.log) == b.generation * b.max + (b.max - b.count)
  }

  ghost predicate Inv(b: Barrier) {
    EpochsOk(b) && Conserved(b) && ClosedForm(b)
  }

  // ---------- Preservation: epochs ----------

  /** The history only grew, and nothing was added to the count of a finished epoch. */
  ghost predicate Grew(b: Barrier, b': Barrier) {
    && b'.max == b.max && b.reset <= b'.reset && b.generation <= b'.generation
    && (forall x | x in b.log :: x in b'.log)
    && (forall e | e != b.Current() :: Arrivals(b'.log, e) == Arrivals(b.log, e))
  }

  lemma KeepAbandoned(b: Barrier, b': Barrier, r: nat)
    requires Grew(b, b')
    ensures WasReset(b.log, r) ==> WasReset(b'.log, r)
  {
    if g :| Abandoned(Epoch(r, g)) in b.log {
      assert Abandoned(Epoch(r, g)) in b'.log;
    }
  }

  lemma KeepEntry(b: Barrier, b': Barrier, x: Entry)
    requires Grew(b, b') && x in b.log && EntryOk(b, x)
    ensures EntryOk(b', x)
  {
    KeepAbandoned(b, b', x.epoch.reset);
  }

  lemma KeepWaiter(b: Barrier, b': Barrier, w: Waiter, w': Waiter)
    requires Grew(b, b') && WaiterOk(b, w)
    requires w' == w.(asleep := w'.asleep)
    requires w'.asleep <==> w.asleep && b'.Current() == b.Current()
    requires b.generation < b'.generation && w.epoch == b.Current() ==> Tripped(w.epoch) in b'.log
    requires b.reset < b'.reset ==> Abandoned(b.Current()) in b'.log
    requires b.reset == b'.reset || b.generation == b'.generation
    ensures WaiterOk(b', w')
  {
    KeepAbandoned(b, b', w.epoch.reset);
    if b.reset < b'.reset && w.epoch.reset == b.reset {
      assert Abandoned(Epoch(w.epoch.reset, b.generation)) in b'.log;
    }
  }

  lemma TripKeepsEpochs(b: Barrier, t: Thread, timed: bool)
    requires EpochsOk(b) && t !in b.waiters && b.count == 1
    ensures EpochsOk(DoArrive(b, t, timed))
  {
    var e := b.Current();
    var b' := DoArrive(b, t, timed);
    var xs := [Arrived(t, e), Tripped(e), Returned(t, e, SUCCESS)];
    forall e' ensures Arrivals(b'.log, e') == Arrivals(b.log, e') + if e' == e then 1 else 0 {
      TripCounts(b.log, t, e, e');
    }
    assert Tripped(e) in b'.log by { assert b'.log[|b.log| + 1] == Tripped(e); }
    forall x | x in b'.log ensures EntryOk(b', x) && x.epoch != b'.Current() {
      assert x in b.log || x in xs;
      if x in b.log { KeepEntry(b, b', x); }
    }
    NoneYet(b'.log, b'.Current());
    forall u | u in b'.waiters ensures WaiterOk(b', b'.waiters[u]) {
      KeepWaiter(b, b', b.waiters[u], b'.waiters[u]);
    }
  }

  lemma WaitKeepsEpochs(b: Barrier, t: Thread, timed: bool)
    requires EpochsOk(b) && t !in b.waiters && b.count != 1
    ensures EpochsOk(DoArrive(b, t, timed))
  {
    var e := b.Current();
    var b' := DoArrive(b, t, timed);
    forall e' ensures Arrivals(b'.log, e') == Arrivals(b.log, e') + if e' == e then 1 else 0 {
      ArrivalsAppend(b.log, Arrived(t, e), e');
    }
    forall x | x in b'.log ensures EntryOk(b', x) {
      if x in b.log { KeepEntry(b, b', x); }
    }
    forall u | u in b'.waiters ensures WaiterOk(b', b'.waiters[u]) {
      if u != t { KeepWaiter(b, b', b.waiters[u], b'.waiters[u]); }
    }
  }

  lemma LeaveKeepsEpochs(b: Barrier, t: Thread, outcome: Outcome)
    requires EpochsOk(b) && t in b.waiters
    requires outcome == SUCCESS ==> Tripped(b.waiters[t].epoch) in b.log
    requires outcome == BROKEN ==> WasReset(b.log, b.waiters[t].epoch.reset) && Ended(b.log, b.waiters[t].epoch)
    ensures EpochsOk(Leave(b, t, outcome))
  {
    var b' := Leave(b, t, outcome);
    forall e ensures Arrivals(b'.log, e) == Arrivals(b.log, e) {
      ArrivalsAppend(b.log, Returned(t, b.waiters[t].epoch, outcome), e);
    }
    forall x | x in b'.log ensures EntryOk(b', x) {
      if x in b.log {
        KeepEntry(b, b', x);
      } else {
        assert WaiterOk(b, b.waiters[t]);
        KeepAbandoned(b, b', x.epoch.reset);
      }
    }
    forall u | u in b'.waiters ensures WaiterOk(b', b'.waiters[u]) {
      KeepWaiter(b, b', b.waiters[u], b'.waiters[u]);
    }
  }

  lemma ResumeKeepsEpochs(b: Barrier, t: Thread)
    requires EpochsOk(b) && t in b.waiters
    ensures EpochsOk(DoResume(b, t))
  {
    var w := b.waiters[t];
    assert WaiterOk(b, w);
    if w.epoch == b.Current() {
      var b' := DoResume(b, t);
      forall u | u in b'.waiters ensures WaiterOk(b', b'.waiters[u]) {
        assert WaiterOk(b, b.waiters[u]);
      }
      forall x | x in b'.log ensures EntryOk(b', x) {
        KeepEntry(b, b', x);
      }
    } else {
      LeaveKeepsEpochs(b, t, if w.epoch.reset != b.reset then BROKEN else SUCCESS);
    }
  }

  lemma ResetKeepsEpochs(b: Barrier)
    requires EpochsOk(b)
    ensures EpochsOk(DoReset(b))
  {
    var b' := DoReset(b);
    forall e ensures Arrivals(b'.log, e) == Arrivals(b.log, e) {
      ArrivalsAppend(b.log, Abandoned(b.Current()), e);
    }
    forall x | x in b'.log ensures EntryOk(b', x) && x.epoch != b'.Current() {
      if x in b.log { KeepEntry(b, b', x); }
    }
    NoneYet(b'.log, b'.Current());
    assert Abandoned(b.Current()) in b'.log;
    forall u | u in b'.waiters ensures WaiterOk(b', b'.waiters[u]) {
      KeepWaiter(b, b', b.waiters[u], b'.waiters[u]);
    }
  }

  // ---------- Preservation: conservation ----------

  lemma TripConserves(b: Barrier, t: Thread, timed: bool, e: Epoch)
    requires ConservedAt(b, e) && b.count == 1
    ensures ConservedAt(DoArrive(b, t, timed), e)
  {
    var b' := DoArrive(b, t, timed);
    TripCounts(b.log, t, b.Current(), e);
    assert Inside(b', e) == Inside(b, e);
  }

  lemma WaitConserves(b: Barrier, t: Thread, timed: bool, e: Epoch)
    requires ConservedAt(b, e) && b.count != 1 && t !in b.waiters
    ensures ConservedAt(DoArrive(b, t, timed), e)
  {
    var b' := DoArrive(b, t, timed);
    ArrivalsAppend(b.log, Arrived(t, b.Current()), e);
    if e == b.Current() {
      assert Inside(b', e) == Inside(b, e) + {t};
    } else {
      assert Inside(b', e) == Inside(b, e);
    }
  }

  lemma ArriveConserves(b: Barrier, t: Thread, timed: bool)
    requires Conserved(b) && t !in b.waiters
    ensures Conserved(DoArrive(b, t, timed))
  {
    forall e ensures ConservedAt(DoArrive(b, t, timed), e) {
      assert ConservedAt(b, e);
      if b.count == 1 { TripConserves(b, t, timed, e); } else { WaitConserves(b, t, timed, e); }
    }
  }

  lemma LeaveConserves(b: Barrier, t: Thread, outcome: Outcome)
    requires Conserved(b) && t in b.waiters
    ensures Conserved(Leave(b, t, outcome))
  {
    var b' := Leave(b, t, outcome);
    var mine := b.waiters[t].epoch;
    forall e ensures ConservedAt(b', e) {
      assert ConservedAt(b, e);
      ArrivalsAppend(b.log, Returned(t, mine, outcome), e);
      assert Inside(b', e) == Inside(b, e) - {t};
    }
  }

  lemma SameInside(b: Barrier, b': Barrier)
    requires Conserved(b)
    requires forall e :: Inside(b', e) == Inside(b, e)
    requires forall e :: Arrivals(b'.log, e) == Arrivals(b.log, e) && Returns(b'.log, e) == Returns(b.log, e)
    ensures Conserved(b')
  {
    forall e ensures ConservedAt(b', e) {
      assert ConservedAt(b, e);
    }
  }

  lemma StepConserves(b: Barrier, e: Event)
    requires Conserved(b) && Enabled(b, e)
    ensures Conserved(Act(b, e))
  {
    match e
    case Arrive(t, timed) => ArriveConserves(b, t, timed);
    case Resume(t) =>
      var w := b.waiters[t];
      if w.epoch == b.Current() {
        var b' := DoResume(b, t);
        forall e' ensures Inside(b', e') == Inside(b, e') {}
        SameInside(b, b');
      } else {
        LeaveConserves(b, t, if w.epoch.reset != b.reset then BROKEN else SUCCESS);
      }
    case Expire(t) => LeaveConserves(b, t, TIMEOUT);
    case Reset =>
      var b' := DoReset(b);
      forall e' ensures Inside(b', e') == Inside(b, e') {}
      forall e' ensures Arrivals(b'.log, e') == Arrivals(b.log, e') && Returns(b'.log, e') == Returns(b.log, e') {
        ArrivalsAppend(b.log, Abandoned(b.Current()), e');
      }
      SameInside(b, b');
  }

  // ---------- Preservation: closed form ----------

  lemma StepKeepsClosedForm(b: Barrier, e: Event)
    requires ClosedForm(b) && Enabled(b, e)
    ensures ClosedForm(Act(b, e))
  {
    match e
    case Arrive(t, timed) =>
      var c := b.Current();
      if b.count == 1 {
        TripCounts(b.log, t, c, c);
        assert (b.generation + 1) * b.max == b.generation * b.max + b.max;
      } else {
        ArrivalsAppend(b.log, Arrived(t, c), c);
      }
    case Resume(t) =>
      var w := b.waiters[t];
      ArrivalsAppend(b.log, Returned(t, w.epoch, if w.epoch.reset != b.reset then BROKEN else SUCCESS), w.epoch);
    case Expire(t) => ArrivalsAppend(b.log, Returned(t, b.waiters[t].epoch, TIMEOUT), b.Current());
    case Reset =>
  }

  // ---------- All schedules ----------

  lemma StepKeepsInv(b: Barrier, e: Event)
    requires Inv(b)
    ensures Inv(Step(b, e))
  {
    if Enabled(b, e) {
      StepConserves(b, e);
      StepKeepsClosedForm(b, e);
      match e
      case Arrive(t, timed) =>
        if b.count == 1 { TripKeepsEpochs(b, t, timed); } else { WaitKeepsEpochs(b, t, timed); }
      case Resume(t) => ResumeKeepsEpochs(b, t);
      case Expire(t) => LeaveKeepsEpochs(b, t, TIMEOUT);
      case Reset => ResetKeepsEpochs(b);
    }
  }

  lemma {:induction false} ExecKeepsInv(b: Barrier, es: seq<Event>)
    requires Inv(b)
    ensures Inv(Exec(b, es))
    ensures Exec(b, es).max == b.max
  {
    if es != [] {
      ExecKeepsInv(b, es[..|es| - 1]);
      StepKeepsInv(Exec(b, es[..|es| - 1]), es[|es| - 1]);
    }
  }

  lemma {:induction false} ReachableInv(max: nat, es: seq<Event>)
    requires max > 0
    ensures Inv(Exec(Initial(max), es))
    ensures Exec(Initial(max), es).max == max
  {
    assert forall e :: Inside(Initial(max), e) == {};
    ExecKeepsInv(Initial(max), es);
  }

  // ---------- The main results ----------

  /** Between sections the counter is in 1..max; the arrivals of the running epoch, still waiting or
      gone by timeout, are max - count; and every sleeper belongs to the running epoch, so nobody who
      could proceed is left asleep. */
  lemma {:induction false} EpochInvariant(max: nat, es: seq<Event>, t: Thread)
    requires max > 0
    ensures var b := Exec(Initial(max), es);
            && 1 <= b.count <= max
            && |Inside(b, b.Current())| + Returns(b.log, b.Current()) == max - b.count
            && (t in b.waiters && b.waiters[t].asleep ==> b.waiters[t].epoch == b.Current())
  {
    ReachableInv(max, es);
    var b := Exec(Initial(max), es);
    assert ConservedAt(b, b.Current());
    if t in b.waiters { assert WaiterOk(b, b.waiters[t]); }
  }

  /** In the running epoch nobody has returned but by timeout. */
  lemma {:induction false} RunningEpochOnlyTimesOut(max: nat, es: seq<Event>, x: Entry)
    requires max > 0
    requires var b := Exec(Initial(max), es); x in b.log && x.Returned? && x.epoch == b.Current()
    ensures x.outcome == TIMEOUT
  {
    ReachableInv(max, es);
    var b := Exec(Initial(max), es);
    assert EntryOk(b, x);
  }

  /** SUCCESS: the epoch tripped, with exactly max arrivals, and no reset ended it. BROKEN: the epoch is
      over, by tripping or by a reset, and a reset came after the caller had saved the reset index. */
  lemma {:induction false} OutcomesAreSound(max: nat, es: seq<Event>, t: Thread, e: Epoch)
    requires max > 0
    ensures var log := Exec(Initial(max), es).log;
            && (Returned(t, e, SUCCESS) in log ==>
                  Tripped(e) in log && Arrivals(log, e) == max && Abandoned(e) !in log)
            && (Returned(t, e, BROKEN) in log ==>
                  && (exists g :: Abandoned(Epoch(e.reset, g)) in log)
                  && (Tripped(e) in log <==> Abandoned(e) !in log))
  {
    ReachableInv(max, es);
    var b := Exec(Initial(max), es);
    if Returned(t, e, SUCCESS) in b.log {
      assert EntryOk(b, Returned(t, e, SUCCESS));
      assert EntryOk(b, Tripped(e));
    }
    if Returned(t, e, BROKEN) in b.log { assert EntryOk(b, Returned(t, e, BROKEN)); }
    NotBoth(b, e);
  }

  lemma NotBoth(b: Barrier, e: Epoch)
    requires EpochsOk(b)
    ensures !(Tripped(e) in b.log && Abandoned(e) in b.log)
  {
    if Tripped(e) in b.log { assert EntryOk(b, Tripped(e)); }
  }

  /** What a wake-up finds. While its epoch runs the thread goes back to sleep; after that it returns,
      with SUCCESS if and only if the epoch tripped and nobody has called Reset since the thread arrived,
      and with BROKEN if and only if somebody has, even after the trip. */
  lemma {:induction false} ResumeOutcome(max: nat, es: seq<Event>, t: Thread)
    requires max > 0
    requires t in Exec(Initial(max), es).waiters
    ensures var b := Exec(Initial(max), es);
            var b' := Step(b, Resume(t));
            var e := b.waiters[t].epoch;
            if b.waiters[t].asleep then b' == b
            else
              && t !in b'.waiters
              && exists outcome ::
                   && b'.log == b.log + [Returned(t, e, outcome)]
                   && (outcome == SUCCESS <==> Tripped(e) in b.log && !WasReset(b.log, e.reset))
                   && (outcome == BROKEN <==> WasReset(b.log, e.reset))
  {
    ReachableInv(max, es);
    var b := Exec(Initial(max), es);
    var w := b.waiters[t];
    assert WaiterOk(b, w);
    if w.asleep {
      assert b.waiters[t := w] == b.waiters;
    } else {
      if WasReset(b.log, w.epoch.reset) {
        var g :| Abandoned(Epoch(w.epoch.reset, g)) in b.log;
        assert EntryOk(b, Abandoned(Epoch(w.epoch.reset, g)));
      }
      var outcome := if w.epoch.reset != b.reset then BROKEN else SUCCESS;
      assert Step(b, Resume(t)).log == b.log + [Returned(t, w.epoch, outcome)];
    }
  }

  /** Every arrival of an epoch is still inside or has returned exactly once; a tripped epoch therefore
      accounts for exactly max threads. */
  lemma {:induction false} ArrivalsAreConserved(max: nat, es: seq<Event>, e: Epoch)
    requires max > 0
    ensures var b := Exec(Initial(max), es);
            && Arrivals(b.log, e) == |Inside(b, e)| + Returns(b.log, e) <= max
            && (Tripped(e) in b.log ==> |Inside(b, e)| + Returns(b.log, e) == max)
  {
    ReachableInv(max, es);
    var b := Exec(Initial(max), es);
    assert ConservedAt(b, e);
    if Tripped(e) in b.log { assert EntryOk(b, Tripped(e)); }
    ArrivalsBounded(max, es, e);
  }

  lemma {:induction false} ArrivalsBounded(max: nat, es: seq<Event>, e: Epoch)
    requires max > 0
    ensures Arrivals(Exec(Initial(max), es).log, e) <= max
  {
    if es != [] {
      var front, last := es[..|es| - 1], es[|es| - 1];
      var b := Exec(Initial(max), front);
      ArrivalsBounded(max, front, e);
      ReachableInv(max, front);
      var c := b.Current();
      match last
      case Arrive(t, _) =>
        TripCounts(b.log, t, c, e);
        ArrivalsAppend(b.log, Arrived(t, c), e);
      case Resume(t) =>
        if t in b.waiters {
          var w := b.waiters[t];
          ArrivalsAppend(b.log, Returned(t, w.epoch, if w.epoch.reset != b.reset then BROKEN else SUCCESS), e);
        }
      case Expire(t) =>
        if t in b.waiters { ArrivalsAppend(b.log, Returned(t, b.waiters[t].epoch, TIMEOUT), e); }
      case Reset => ArrivalsAppend(b.log, Abandoned(c), e);
    }
  }

  /** After N completed arrival steps without a reset the generation is N div max and the counter is
      max - N mod max; if also nobody timed out, exactly N mod max threads still wait on the running
      epoch. */
  lemma {:induction false} GenerationsInClosedForm(max: nat, es: seq<Event>)
    requires max > 0
    requires Exec(Initial(max), es).reset == 0
    ensures var b := Exec(Initial(max), es);
            var n := AllArrivals(b.log);
            && b.generation == n / max
            && b.count == max - n % max
            && ((forall x | x in b.log :: !(x.Returned? && x.outcome == TIMEOUT)) ==>
                  |Inside(b, b.Current())| == n % max)
  {
    ReachableInv(max, es);
    var b := Exec(Initial(max), es);
    DivMod(AllArrivals(b.log), max, b.generation, max - b.count);
    if forall x | x in b.log :: !(x.Returned? && x.outcome == TIMEOUT) {
      forall x | x in b.log ensures !(x.Returned? && x.epoch == b.Current()) {
        if x.Returned? && x.epoch == b.Current() { RunningEpochOnlyTimesOut(max, es, x); }
      }
      NoReturns(b.log, b.Current());
      EpochInvariant(max, es, 0);
    }
  }

  lemma NoReturns(log: seq<Entry>, e: Epoch)
    requires forall x | x in log :: !(x.Returned? && x.epoch == e)
    ensures Returns(log, e) == 0
  {
  }

  lemma AtLeastOne(k: nat, d: nat)
    requires k >= 1
    ensures k * d >= d
  {
  }

  lemma DivMod(n: nat, d: nat, q: nat, r: nat)
    requires d > 0 && r < d && n == q * d + r
    ensures q == n / d && r == n % d
  {
    var q', r' := n / d, n % d;
    assert q' * d + r' == q * d + r;
    if q < q' {
      assert (q' - q) * d == r - r';
      AtLeastOne(q' - q, d);
    } else if q > q' {
      assert (q - q') * d == r' - r;
      AtLeastOne(q - q', d);
    }
  }

  /** A timed wait may run out after the broadcast and before the thread is back: TIMEOUT is then told to
      a thread whose epoch tripped. It is so exactly if the thread is out of the wait set and its epoch was
      not abandoned; without a Reset since its arrival, if the generation it saved has passed. */
  lemma {:induction false} TimeoutAfterTripIff(max: nat, es: seq<Event>, t: Thread)
    requires max > 0
    requires Enabled(Exec(Initial(max), es), Expire(t))
    ensures var b := Exec(Initial(max), es);
            var w := b.waiters[t];
            && Step(b, Expire(t)).log == b.log + [Returned(t, w.epoch, TIMEOUT)]
            && (Tripped(w.epoch) in b.log <==> !w.asleep && Abandoned(w.epoch) !in b.log)
            && (w.epoch.reset == b.reset ==> (Tripped(w.epoch) in b.log <==> w.epoch.generation != b.generation))
  {
    ReachableInv(max, es);
    var b := Exec(Initial(max), es);
    var e := b.waiters[t].epoch;
    assert WaiterOk(b, b.waiters[t]);
    NotBoth(b, e);
    if Tripped(e) in b.log { assert EntryOk(b, Tripped(e)); }
  }

  /** The shortest such run. */
  lemma TimeoutAfterTrip()
    ensures var b := Exec(Initial(2), [Arrive(1, true), Arrive(2, false), Expire(1)]);
            Tripped(Epoch(0, 0)) in b.log && Returned(1, Epoch(0, 0), TIMEOUT) in b.log
  {
    var es := [Arrive(1, true), Arrive(2, false), Expire(1)];
    assert es[..2] == [Arrive(1, true), Arrive(2, false)] && es[..2][..1] == [Arrive(1, true)];
    assert [Arrive(1, true)][..0] == [];
    var b0 := Initial(2);
    var b1 := DoArrive(b0, 1, true);
    var b2 := DoArrive(b1, 2, false);
    assert Exec(b0, [Arrive(1, true)]) == Step(Exec(b0, []), Arrive(1, true)) == b1;
    assert Exec(b0, es[..2]) == Step(b1, Arrive(2, false)) == b2;
    assert 1 in b2.waiters && b2.waiters[1] == Waiter(Epoch(0, 0), true, false);
    var b3 := Exec(b0, es);
    assert b3 == Leave(b2, 1, TIMEOUT);
    assert b3.log[2] == Tripped(Epoch(0, 0)) && b3.log[4] == Returned(1, Epoch(0, 0), TIMEOUT);
  }

  // ---------- Reset ----------

  /** What was added to the history since `b`: no SUCCESS for a thread that saved an older reset index. */
  ghost predicate NoOldSuccess(b: Barrier, b': Barrier) {
    && b.reset <= b'.reset
    && |b.log| <= |b'.log|
    && forall k | |b.log| <= k < |b'.log| ::
         b'.log[k].Returned? && b'.log[k].outcome == SUCCESS ==> b.reset <= b'.log[k].epoch.reset
  }

  lemma StepAddsNoOldSuccess(b: Barrier, b': Barrier, e: Event)
    requires NoOldSuccess(b, b')
    ensures NoOldSuccess(b, Step(b', e))
  {
  }

  lemma {:induction false} ExecAddsNoOldSuccess(b: Barrier, es: seq<Event>)
    ensures NoOldSuccess(b, Exec(b, es))
  {
    if es != [] {
      ExecAddsNoOldSuccess(b, es[..|es| - 1]);
      StepAddsNoOldSuccess(b, Exec(b, es[..|es| - 1]), es[|es| - 1]);
    }
  }

  /** Reset breaks the barrier for everybody inside: nobody is left asleep, the next epoch starts with no
      arrivals, and in every continuation no thread that arrived before gets SUCCESS. */
  lemma {:induction false} ResetBreaksTheWaiters(max: nat, es: seq<Event>, fs: seq<Event>)
    requires max > 0
    ensures var b := Exec(Initial(max), es);
            var b1 := Step(b, Reset);
            var b2 := Exec(b1, fs);
            && b1.waiters.Keys == b.waiters.Keys && (forall t | t in b1.waiters :: !b1.waiters[t].asleep)
            && b1.count == max && Arrivals(b1.log, b1.Current()) == 0
            && |b1.log| <= |b2.log|
            && forall k | |b1.log| <= k < |b2.log| && b2.log[k].Returned? && b2.log[k].epoch.reset <= b.reset ::
                 b2.log[k].outcome != SUCCESS
  {
    ReachableInv(max, es);
    var b := Exec(Initial(max), es);
    StepKeepsInv(b, Reset);
    ExecAddsNoOldSuccess(Step(b, Reset), fs);
  }
}
