/** The barrier object. `Await` is cut where it gives up the mutex: `Arrive` runs up to the first wait,
    `Resume` from a wake-up to the next wait or to the return, `Expire` from a timed-out wait to the
    return. A method returns None when the caller has gone (back) to sleep. */
module CyclicBarrierObject {
  import opened Common
  import opened BarrierSpec

  class CyclicBarrier {
    const maxCount: nat
    var count: int
    var resetIndex: nat
    var barrierCond: nat
    var waiters: map<Thread, Waiter>
    ghost var log: seq<Entry>

    ghost function Abs(): Barrier
      reads this
    {
      Barrier(maxCount, count, resetIndex, barrierCond, waiters, log)
    }

    constructor (max: nat)
      requires max > 0
      ensures Abs() == Initial(max)
      ensures maxCount == count == max && resetIndex == barrierCond == 0 && waiters == map[]
    {
      maxCount, count, resetIndex, barrierCond, waiters, log := max, max, 0, 0, map[], [];
    }

    method NotifyAll()
      modifies this`waiters
      ensures waiters.Keys == old(waiters).Keys
      ensures forall t | t in waiters :: waiters[t] == old(waiters)[t].(asleep := false)
    {
      waiters := map t | t in waiters :: waiters[t].(asleep := false);
    }

    method Arrive(t: Thread, timed: bool) returns (r: Option<Outcome>)
      requires t !in waiters
      modifies this`count, this`barrierCond, this`waiters, this`log
      ensures Abs() == Act(old(Abs()), Event.Arrive(t, timed))
      ensures r == if old(count) == 1 then Some(SUCCESS) else None
      ensures r.Some? ==>
                && count == maxCount && barrierCond == old(barrierCond) + 1 && waiters.Keys == old(waiters).Keys
                && forall u | u in waiters :: waiters[u] == old(waiters)[u].(asleep := false)
      ensures r.None? ==>
                && count == old(count) - 1 && barrierCond == old(barrierCond)
                && waiters == old(waiters)[t := Waiter(Epoch(resetIndex, barrierCond), timed, true)]
    {
      ghost var e := Epoch(resetIndex, barrierCond);
      count := count - 1;
      if count == 0 {
        NotifyAll();
        count := maxCount;
        barrierCond := barrierCond + 1;
        log := log + [Arrived(t, e), Tripped(e), Returned(t, e, SUCCESS)];
        r := Some(SUCCESS);
      } else {
        waiters := waiters[t := Waiter(Epoch(resetIndex, barrierCond), timed, true)];
        log := log + [Arrived(t, e)];
        r := None;
      }
    }

    method Resume(t: Thread) returns (r: Option<Outcome>)
      requires t in waiters
      modifies this`waiters, this`log
      ensures Abs() == Act(old(Abs()), Event.Resume(t))
      ensures r == if old(waiters)[t].epoch == Epoch(resetIndex, barrierCond) then None
                   else if old(waiters)[t].epoch.reset != resetIndex then Some(BROKEN) else Some(SUCCESS)
      ensures waiters == if r.None? then old(waiters)[t := old(waiters)[t].(asleep := true)] else old(waiters) - {t}
      ensures r.None? <==> old(waiters)[t].epoch == old(Abs()).Current()
      ensures r.Some? ==> Returned(t, old(waiters)[t].epoch, r.value) == log[|log| - 1]
    {
      var saved := waiters[t].epoch;
      if saved.generation == barrierCond && saved.reset == resetIndex {
        waiters := waiters[t := waiters[t].(asleep := true)];
        r := None;
      } else {
        waiters := waiters - {t};
        var outcome := if saved.reset != resetIndex then BROKEN else SUCCESS;
        log := log + [Returned(t, saved, outcome)];
        r := Some(outcome);
      }
    }

    method Expire(t: Thread) returns (r: Outcome)
      requires t in waiters && waiters[t].timed
      modifies this`waiters, this`log
      ensures waiters == old(waiters) - {t} && log == old(log) + [Returned(t, old(waiters)[t].epoch, TIMEOUT)]
      ensures Abs() == Act(old(Abs()), Event.Expire(t))
      ensures r == TIMEOUT
    {
      log := log + [Returned(t, waiters[t].epoch, TIMEOUT)];
      waiters := waiters - {t};
      r := TIMEOUT;
    }

    method Reset()
      modifies this`count, this`resetIndex, this`waiters, this`log
      ensures Abs() == Act(old(Abs()), Event.Reset)
      ensures count == maxCount && resetIndex == old(resetIndex) + 1 && waiters.Keys == old(waiters).Keys
      ensures forall t | t in waiters :: waiters[t] == old(waiters)[t].(asleep := false)
    {
      NotifyAll();
      log := log + [Abandoned(Epoch(resetIndex, barrierCond))];
      count := maxCount;
      resetIndex := resetIndex + 1;
    }
  }
}
