/** Runs of the scaling pool that consist of several steps. */
module PoolRuns {
  import opened PoolSpec

  /** Some schedule leads from `p` to `q`. */
  ghost predicate RunsTo(p: Pool, q: Pool) {
    exists es :: Exec(p, es) == q
  }

  ghost predicate Takes(p: Pool, e: Event, q: Pool) {
    Enabled(p, e) && q == Act(p, e)
  }

  lemma NoStep(p: Pool)
    ensures RunsTo(p, p)
  {
    assert Exec(p, []) == p;
  }

  lemma OneStep(p: Pool, q: Pool, e: Event, r: Pool)
    requires RunsTo(p, q) && Takes(q, e, r)
    ensures RunsTo(p, r)
  {
    hide Act, Enabled;
    var es :| Exec(p, es) == q;
    assert (es + [e])[..|es + [e]| - 1] == es;
    assert Exec(p, es + [e]) == Step(q, e);
  }

  lemma {:induction false} TwoRuns(p: Pool, es: seq<Event>, fs: seq<Event>)
    ensures RunsTo(p, Exec(Exec(p, es), fs))
  {
    hide Step;
    if fs != [] {
      var q := Exec(Exec(p, es), fs[..|fs| - 1]);
      TwoRuns(p, es, fs[..|fs| - 1]);
      var gs :| Exec(p, gs) == q;
      assert (gs + [fs[|fs| - 1]])[..|gs|] == gs;
      assert Exec(p, gs + [fs[|fs| - 1]]) == Step(q, fs[|fs| - 1]);
    }
  }

  lemma Joined(p: Pool, q: Pool, r: Pool)
    requires RunsTo(p, q) && RunsTo(q, r)
    ensures RunsTo(p, r)
  {
    hide Exec;
    var es :| Exec(p, es) == q;
    var fs :| Exec(q, fs) == r;
    TwoRuns(p, es, fs);
  }
}
