/** How long the timer thread sleeps. It reads the clock twice: once, in milliseconds, to see how far off
    the head's deadline is, and once more to turn that delay into an absolute time for the wait. */
module SleepArithmetic {
  import opened TimerSpec
  import opened TimerProperties

  datatype Timeval = Timeval(sec: nat, usec: nat)

  datatype Timespec = Timespec(sec: nat, nsec: nat)

  const NANOS_PER_SEC: nat := 1_000_000_000
  const NANOS_PER_MS: nat := 1_000_000

  /** gettimeofday keeps the microseconds below a million. */
  predicate IsReading(t: Timeval) {
    t.usec < 1_000_000
  }

  function Nanos(t: Timeval): nat {
    t.sec * NANOS_PER_SEC + t.usec * 1000
  }

  /** The normalized form of an instant. */
  function TimespecAt(nanos: nat): Timespec {
    Timespec(nanos / NANOS_PER_SEC, nanos % NANOS_PER_SEC)
  }

  /** A reading of the clock in whole milliseconds, rounded down. */
  function Millis(t: Timeval): nat {
    Nanos(t) / NANOS_PER_MS
  }

  lemma Normalized(t: Timespec, nanos: nat)
    requires t.nsec < NANOS_PER_SEC && t.sec * NANOS_PER_SEC + t.nsec == nanos
    ensures t == TimespecAt(nanos)
  {
  }

  /** The deadline that TimeWait passes to the system: exactly the reading plus the delay, normalized by a
      single carry, and within 64 bits whenever the delay is. */
  method TimeWaitDeadline(now: Timeval, delay: nat) returns (timeout: Timespec)
    requires IsReading(now)
    ensures timeout == TimespecAt(Nanos(now) + delay * NANOS_PER_MS)
    ensures timeout.nsec < 1_000_000_000
    ensures timeout.sec * 1_000_000_000 + timeout.nsec ==
            now.sec * 1_000_000_000 + now.usec * 1000 + delay * 1_000_000
    ensures now.sec < 0x4000_0000_0000_0000 && delay < 0x1_0000_0000_0000_0000 ==> timeout.sec < 0x8000_0000_0000_0000
  {
    var sec := now.sec + delay / 1000;
    var nsec := now.usec + delay % 1000 * 1000;
    if nsec >= 1_000_000 {
      sec := sec + 1;
      nsec := nsec % 1_000_000;
    }
    nsec := nsec * 1000;
    timeout := Timespec(sec, nsec);
    assert delay == delay / 1000 * 1000 + delay % 1000;
    Normalized(timeout, Nanos(now) + delay * NANOS_PER_MS);
  }

  method GetCurrentTime(now: Timeval) returns (ms: nat)
    requires IsReading(now)
    ensures ms == Millis(now)
    ensures ms * 1000 <= now.sec * 1_000_000 + now.usec < ms * 1000 + 1000
  {
    ms := now.sec;
    ms := ms * 1000 + now.usec / 1000;
    assert now.usec == now.usec / 1000 * 1000 + now.usec % 1000;
  }

  /** When the wait for a deadline that was off by then ends, in nanoseconds: `first` is the reading that
      found it off, `second` the one inside TimeWait. */
  function WaitEnd(deadline: nat, first: Timeval, second: Timeval): nat
    requires deadline > Millis(first)
  {
    Nanos(second) + (deadline - Millis(first)) * NANOS_PER_MS
  }

  /** The wait ends before the deadline exactly when the second reading lies before the millisecond of the
      first, that is, when the clock was set back in between. If the clock moved on, the wait overshoots
      the deadline by less than a millisecond and the time between the two readings. */
  lemma WaitEndBounds(deadline: nat, first: Timeval, second: Timeval)
    requires deadline > Millis(first)
    ensures WaitEnd(deadline, first, second) >= deadline * NANOS_PER_MS <==>
            Nanos(second) >= Millis(first) * NANOS_PER_MS
    ensures Nanos(second) >= Nanos(first) ==>
              var late := WaitEnd(deadline, first, second) - deadline * NANOS_PER_MS;
              0 <= late < NANOS_PER_MS + (Nanos(second) - Nanos(first))
  {
  }

  /** A reading is at or after a deadline exactly when the instant is. */
  lemma DueIff(deadline: nat, now: Timeval)
    ensures deadline <= Millis(now) <==> deadline * NANOS_PER_MS <= Nanos(now)
  {
  }

  /** Some queued task is due by then. */
  ghost predicate HasDue(s: Timer, limit: nat) {
    exists m :: m in s.queue && m in s.tasks && s.tasks[m].deadline <= limit
  }

  lemma HasDueStays(s: Timer, e: Event, limit: nat)
    requires TasksOk(s) && HasDue(s, limit) && !e.Poll?
    ensures HasDue(Step(s, e), limit)
  {
    var m :| m in s.queue && m in s.tasks && s.tasks[m].deadline <= limit;
    assert TaskOk(s, m);
    Queued(s, e, m);
    var s' := Step(s, e);
    assert m in s'.queue && m in s'.tasks && s'.tasks[m].deadline <= limit;
  }

  /** Nobody but Poll touches a queued task's deadline or takes it out. */
  lemma Queued(s: Timer, e: Event, m: TaskId)
    requires m in s.queue && m in s.tasks && TaskOk(s, m) && !e.Poll?
    ensures var s' := Step(s, e); m in s'.queue && m in s'.tasks && s'.tasks[m].deadline == s.tasks[m].deadline
  {
  }

  lemma {:induction false} HasDueLasts(s: Timer, fs: seq<Event>, limit: nat)
    requires Inv(s) && HasDue(s, limit) && forall e | e in fs :: !e.Poll?
    ensures HasDue(Exec(s, fs), limit)
  {
    hide Inv, Step, HasDue;
    if fs != [] {
      var before := fs[..|fs| - 1];
      HasDueLasts(s, before, limit);
      ExecKeepsInv(s, before);
      InvTasks(Exec(s, before));
      HasDueStays(Exec(s, before), fs[|fs| - 1], limit);
    }
  }

  lemma InvTasks(s: Timer)
    requires Inv(s)
    ensures TasksOk(s)
  {
  }

  lemma SleepsOnADeadline(s: Timer)
    requires Inv(s) && s.pc.AsleepUntil?
    ensures HasDue(s, s.pc.deadline)
  {
    var m :| IsMin(s, m) && s.tasks[m].deadline == s.pc.deadline;
    assert m in s.queue && m in s.tasks;
  }

  /** A poll at a time when some task is due does not send the thread to sleep. */
  lemma DueKeepsItAwake(s: Timer, now: nat, head: TaskId)
    requires HasDue(s, now) && Enabled(s, Poll(now, head))
    ensures s.tasks[head].deadline <= now && !IsAsleep(Step(s, Poll(now, head)).pc)
  {
  }

  /** Arithmetic and scheduler together: in every run, let the timer thread sleep until a deadline. Whatever
      is pushed, cancelled or shut down meanwhile, the next poll, if it reads the clock after the wait's
      end and the clock was not set back before the wait, finds a head that is due; so the thread does not
      go back to sleep, neither there nor on an empty queue. */
  lemma {:induction false} ExpiredWaitFindsItsHeadDue(es: seq<Event>, fs: seq<Event>, first: Timeval, second: Timeval,
                                                      third: Timeval, head: TaskId)
    requires var s := Exec(Initial(), es); s.pc.AsleepUntil? && s.pc.deadline > Millis(first)
    requires Nanos(second) >= Nanos(first)
    requires Nanos(third) >= WaitEnd(Exec(Initial(), es).pc.deadline, first, second)
    requires forall e | e in fs :: !e.Poll?
    ensures var s := Exec(Exec(Initial(), es), fs);
            var now := Millis(third);
            && s.queue != {}
            && (Enabled(s, Poll(now, head)) ==>
                  s.tasks[head].deadline <= now && !IsAsleep(Step(s, Poll(now, head)).pc))
  {
    hide Exec, Step, WaitEnd, Millis, Nanos, Inv, HasDue, IsMin;
    ReachableInv(es);
    var s := Exec(Initial(), es);
    WaitEndBounds(s.pc.deadline, first, second);
    DueIff(s.pc.deadline, third);
    SleepsOnADeadline(s);
    HasDueLasts(s, fs, s.pc.deadline);
    DueByThen(Exec(s, fs), s.pc.deadline, Millis(third), head);
  }

  lemma DueByThen(s: Timer, limit: nat, now: nat, head: TaskId)
    requires HasDue(s, limit) && limit <= now
    ensures s.queue != {}
    ensures Enabled(s, Poll(now, head)) ==>
              s.tasks[head].deadline <= now && !IsAsleep(Step(s, Poll(now, head)).pc)
  {
    if Enabled(s, Poll(now, head)) { DueKeepsItAwake(s, now, head); }
  }
}
