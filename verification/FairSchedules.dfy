/** Infinite schedules of the scaling pool, of any sizes, in which no thread that can move again and again is
    passed over for ever; and that there are such schedules. */
module FairSchedules {
  import opened Common
  import opened PoolSpec

  // ---------- Infinite schedules ----------

  /** The pool after the first i events. */
  function At(p: Pool, s: nat -> Event, i: nat): Pool {
    if i == 0 then p else Step(At(p, s, i - 1), s(i - 1))
  }

  datatype Actor = TheWinner | TheMonitor | TheWorker(w: nat) | TheCaller(c: Thread)

  ghost predicate CanMove(p: Pool, a: Actor) {
    match a
    case TheWinner => exists w :: CanWin(p, w)
    case TheMonitor => CanMonitor(p)
    case TheWorker(w) => CanWork(p, w)
    case TheCaller(c) => CanCall(p, c)
  }

  /** The event is a step that this thread takes, not one that happens to it. */
  predicate IsStepOf(e: Event, a: Actor) {
    match a
    case TheWinner => e.Winning?
    case TheMonitor => e == Monitor
    case TheWorker(w) => e == Work(w)
    case TheCaller(c) => e == Calling(c)
  }

  ghost predicate MovesAt(p: Pool, s: nat -> Event, a: Actor, j: nat) {
    IsStepOf(s(j), a) && Enabled(At(p, s, j), s(j))
  }

  ghost predicate StuckFrom(p: Pool, s: nat -> Event, a: Actor, j: nat) {
    forall k: nat | k >= j :: !CanMove(At(p, s, k), a)
  }

  ghost predicate TurnAfter(p: Pool, s: nat -> Event, a: Actor, i: nat) {
    exists j: nat :: j >= i && (MovesAt(p, s, a, j) || StuckFrom(p, s, a, j))
  }

  /** Every thread moves again and again, unless from some time on it never can. */
  ghost predicate Fair(p: Pool, s: nat -> Event) {
    forall a: Actor, i: nat :: TurnAfter(p, s, a, i)
  }

  lemma Turn(p: Pool, s: nat -> Event, a: Actor, i: nat) returns (j: nat)
    requires Fair(p, s)
    ensures j >= i && (MovesAt(p, s, a, j) || StuckFrom(p, s, a, j))
  {
    assert TurnAfter(p, s, a, i);
    j :| j >= i && (MovesAt(p, s, a, j) || StuckFrom(p, s, a, j));
  }

  // ---------- A fair scheduler ----------

  /** The threads stand in line; the first that can move does, and goes to the end. */
  datatype Queueing = Queueing(pool: Pool, line: seq<Actor>)

  /** Every thread gets into the line some time. */
  function Nth(i: nat): Actor {
    if i % 4 == 0 then TheWinner else if i % 4 == 1 then TheMonitor
    else if i % 4 == 2 then TheWorker(i / 4) else TheCaller(i / 4)
  }

  lemma IsNth(a: Actor) returns (i: nat)
    ensures Nth(i) == a
  {
    i := match a
      case TheWinner => 0
      case TheMonitor => 1
      case TheWorker(w) => 4 * w + 2
      case TheCaller(c) => 4 * c + 3;
  }

  ghost function FirstToMove(p: Pool, line: seq<Actor>): (r: nat)
    ensures r <= |line| && (r < |line| ==> CanMove(p, line[r]))
    ensures forall q | 0 <= q < r :: !CanMove(p, line[q])
  {
    if line == [] || CanMove(p, line[0]) then 0 else 1 + FirstToMove(p, line[1..])
  }

  ghost function StepOf(p: Pool, a: Actor): (e: Event)
    requires CanMove(p, a)
    ensures IsStepOf(e, a) && Enabled(p, e)
  {
    match a
    case TheWinner => var w :| CanWin(p, w); Winning(w)
    case TheMonitor => Monitor
    case TheWorker(w) => Work(w)
    case TheCaller(c) => Calling(c)
  }

  /** The next event; with nobody able to move, one that is not enabled. */
  ghost function Chosen(q: Queueing): Event {
    var r := FirstToMove(q.pool, q.line);
    if r < |q.line| then StepOf(q.pool, q.line[r]) else Work(|q.pool.workers|)
  }

  ghost function Served(q: Queueing): seq<Actor> {
    var r := FirstToMove(q.pool, q.line);
    if r < |q.line| then q.line[..r] + q.line[r + 1..] + [q.line[r]] else q.line
  }

  /** The line at time i. */
  ghost function InLine(p: Pool, i: nat): (q: Queueing)
    ensures |q.line| > i
  {
    if i == 0 then Queueing(p, [Nth(0)])
    else
      var q := InLine(p, i - 1);
      Queueing(Step(q.pool, Chosen(q)), Served(q) + [Nth(i)])
  }

  ghost function FairSchedule(p: Pool): nat -> Event {
    (i: nat) => Chosen(InLine(p, i))
  }

  lemma NextPool(p: Pool, i: nat)
    ensures InLine(p, i + 1).pool == Step(InLine(p, i).pool, FairSchedule(p)(i))
  {
    hide Step, Served, FirstToMove;
  }

  lemma NextAt(p: Pool, s: nat -> Event, i: nat)
    ensures At(p, s, 0) == p && At(p, s, i + 1) == Step(At(p, s, i), s(i))
  {
    hide Step;
  }

  lemma {:induction false} Follows(p: Pool, i: nat)
    ensures At(p, FairSchedule(p), i) == InLine(p, i).pool
  {
    hide Step, Chosen, Served, FairSchedule, FirstToMove;
    if i == 0 {
      NextAt(p, FairSchedule(p), 0);
    } else {
      var q := At(p, FairSchedule(p), i - 1);
      Follows(p, i - 1);
      NextPool(p, i - 1);
      NextAt(p, FairSchedule(p), i - 1);
      assert q == InLine(p, i - 1).pool;
    }
  }

  /** Where somebody at place k of the line stands after the next event. */
  function PlaceAfter(r: nat, k: nat, length: nat): nat
    requires k < length
  {
    if r == k then length - 1 else if r < k then k - 1 else k
  }

  lemma ServedPlace(q: Queueing, k: nat)
    requires k < |q.line|
    ensures |Served(q)| == |q.line|
    ensures Served(q)[PlaceAfter(FirstToMove(q.pool, q.line), k, |q.line|)] == q.line[k]
  {
    hide FirstToMove;
  }

  lemma NextLine(p: Pool, i: nat)
    ensures InLine(p, i + 1).line == Served(InLine(p, i)) + [Nth(i + 1)]
  {
    hide Step, Chosen, Served;
  }

  lemma ServedMovesAt(p: Pool, a: Actor, i: nat)
    requires var q := InLine(p, i); FirstToMove(q.pool, q.line) < |q.line| && q.line[FirstToMove(q.pool, q.line)] == a
    ensures MovesAt(p, FairSchedule(p), a, i)
  {
    Follows(p, i);
    hide InLine, FirstToMove, StepOf, Enabled, CanMove;
  }

  /** A thread that is not served moves up, or stays where it is in the line. */
  lemma OneTurn(p: Pool, a: Actor, i: nat, q: nat) returns (q': nat)
    requires q < |InLine(p, i).line| && InLine(p, i).line[q] == a && !MovesAt(p, FairSchedule(p), a, i)
    ensures q' <= q < |InLine(p, i + 1).line| && InLine(p, i + 1).line[q'] == a
    ensures CanMove(InLine(p, i).pool, a) ==> q' < q
  {
    var here := InLine(p, i);
    var r := FirstToMove(here.pool, here.line);
    if r == q { ServedMovesAt(p, a, i); }
    ServedPlace(here, q);
    NextLine(p, i);
    hide InLine, Served, FirstToMove, MovesAt, CanMove;
    q' := PlaceAfter(r, q, |here.line|);
  }

  lemma {:induction false} UpTo(p: Pool, a: Actor, i: nat, q: nat, k: nat) returns (q': nat)
    requires i <= k && q < |InLine(p, i).line| && InLine(p, i).line[q] == a
    requires forall j: nat | i <= j < k :: !MovesAt(p, FairSchedule(p), a, j)
    ensures q' <= q && q' < |InLine(p, k).line| && InLine(p, k).line[q'] == a
    decreases k - i
  {
    hide InLine, MovesAt;
    if i == k {
      q' := q;
    } else {
      var q1 := OneTurn(p, a, i, q);
      q' := UpTo(p, a, i + 1, q1, k);
    }
  }

  /** Each time the thread can move and does not, it moves up by a place: it cannot go on for ever. */
  lemma {:induction false} ComesUp(p: Pool, a: Actor, i: nat, q: nat)
    requires q < |InLine(p, i).line| && InLine(p, i).line[q] == a
    ensures TurnAfter(p, FairSchedule(p), a, i)
    decreases q
  {
    hide InLine, MovesAt, CanMove, FairSchedule, At;
    var s := FairSchedule(p);
    if forall j: nat | j >= i :: !MovesAt(p, s, a, j) {
      if k: nat :| k >= i && CanMove(At(p, s, k), a) {
        var q1 := UpTo(p, a, i, q, k);
        Follows(p, k);
        var q2 := OneTurn(p, a, k, q1);
        ComesUp(p, a, k + 1, q2);
        var j: nat :| j >= k + 1 && (MovesAt(p, s, a, j) || StuckFrom(p, s, a, j));
      } else {
        assert StuckFrom(p, s, a, i);
      }
    }
  }

  lemma {:induction false} StaysInLine(p: Pool, a: Actor, i: nat, k: nat) returns (q: nat)
    requires i <= k && Nth(i) == a
    ensures q < |InLine(p, k).line| && InLine(p, k).line[q] == a
    decreases k
  {
    hide Step, Chosen, Served;
    if i == k {
      q := |InLine(p, k).line| - 1;
      LastInLine(p, k);
    } else {
      var q1 := StaysInLine(p, a, i, k - 1);
      var here := InLine(p, k - 1);
      ServedPlace(here, q1);
      NextLine(p, k - 1);
      hide FirstToMove;
      q := PlaceAfter(FirstToMove(here.pool, here.line), q1, |here.line|);
    }
  }

  lemma LastInLine(p: Pool, k: nat)
    ensures var line := InLine(p, k).line; line[|line| - 1] == Nth(k)
  {
    hide Step, Chosen, Served;
  }

  /** From every state of a pool of any sizes there is a fair schedule. */
  lemma {:induction false} FairSchedulesExist(p: Pool)
    ensures exists s :: Fair(p, s)
  {
    forall a: Actor, i: nat ensures TurnAfter(p, FairSchedule(p), a, i) {
      var m := IsNth(a);
      var k := if m > i then m else i;
      var q := StaysInLine(p, a, m, k);
      ComesUp(p, a, k, q);
      var j: nat :| j >= k && (MovesAt(p, FairSchedule(p), a, j) || StuckFrom(p, FairSchedule(p), a, j));
    }
    assert Fair(p, FairSchedule(p));
  }
}
