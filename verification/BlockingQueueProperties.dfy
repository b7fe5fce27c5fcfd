/** What every schedule of producers and consumers keeps. */
module BlockingQueueProperties {
  import opened Common
  import opened BlockingQueueSpec

  ghost predicate Inv<T>(q: Queue<T>) {
    && q.pushed == Items(q.delivered) + q.items
    && |Items(q.delivered)| == |q.delivered|
    && (forall t | t in q.waiters :: q.waiters[t].asleep ==> q.items == [])
    && (forall g | g in q.glances :: g.popped < |q.pushed| && g.item == q.pushed[g.popped])
  }

  lemma StepKeepsInv<T>(q: Queue<T>, e: Event<T>)
    requires Inv(q)
    ensures Inv(Step(q, e))
  {
  }

  lemma {:induction false} ExecKeepsInv<T>(q: Queue<T>, es: seq<Event<T>>)
    requires Inv(q)
    ensures Inv(Exec(q, es))
  {
    if |es| != 0 {
      ExecKeepsInv(q, es[..|es| - 1]);
      StepKeepsInv(Exec(q, es[..|es| - 1]), es[|es| - 1]);
    }
  }

  lemma {:induction false} PushesArePushed<T>(items: seq<T>, es: seq<Event<T>>)
    ensures Exec(Initial(items), es).pushed == items + PushesOf(es)
  {
    if |es| != 0 {
      PushesArePushed(items, es[..|es| - 1]);
    } else {
      assert items + PushesOf(es) == items;
    }
  }

  /** Every item is delivered at most once and in the order of the pushes, whichever mixture of Pop,
      PopTimeWait and Front took part: what has been delivered, followed by what is still inside, is what
      was in the queue at first and then pushed by the schedule. Front shows the item that the next pop
      would take. */
  lemma {:induction false} FirstInFirstOut<T>(items: seq<T>, es: seq<Event<T>>)
    ensures var q := Exec(Initial(items), es);
            && Items(q.delivered) + q.items == items + PushesOf(es)
            && forall g | g in q.glances ::
                 g.popped < |items + PushesOf(es)| && g.item == (items + PushesOf(es))[g.popped]
  {
    ExecKeepsInv(Initial(items), es);
    PushesArePushed(items, es);
  }

  /** A consumer is asleep only if there is nothing to take, so no wake-up is ever lost; and a waiting
      consumer that is scheduled while there is something to take leaves with the head of the queue. */
  lemma {:induction false} NobodyOversleeps<T>(items: seq<T>, es: seq<Event<T>>, t: Thread)
    requires t in Exec(Initial(items), es).waiters
    ensures var q := Exec(Initial(items), es);
            && (q.waiters[t].asleep ==> q.items == [])
            && (q.items != [] ==>
                  var q' := Step(q, Resume(t));
                  && t !in q'.waiters
                  && (if q.waiters[t].operation == FRONT
                      then q'.items == q.items && Glance(t, q.items[0], |q.delivered|) in q'.glances
                      else q'.items == q.items[1..] && Delivery(t, q.items[0]) in q'.delivered))
  {
    ExecKeepsInv(Initial(items), es);
  }
}
