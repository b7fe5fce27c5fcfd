/** Sums of a weight over the workers of a pool. */
module WorkerSums {
  import opened PoolSpec

  ghost function Sum(ws: seq<Worker>, f: Worker -> nat): nat {
    if ws == [] then 0 else Sum(ws[..|ws| - 1], f) + f(ws[|ws| - 1])
  }

  lemma {:induction false} SumUpdate(ws: seq<Worker>, w: nat, x: Worker, f: Worker -> nat)
    requires w < |ws|
    ensures Sum(ws[w := x], f) + f(ws[w]) == Sum(ws, f) + f(x)
  {
    var n := |ws| - 1;
    if w == n {
      assert ws[w := x][..n] == ws[..n];
    } else {
      assert ws[w := x][..n] == ws[..n][w := x];
      SumUpdate(ws[..n], w, x, f);
    }
  }

  lemma {:induction false} SumAtMost(ws: seq<Worker>, vs: seq<Worker>, f: Worker -> nat)
    requires |ws| == |vs| && forall i | 0 <= i < |ws| :: f(ws[i]) <= f(vs[i])
    ensures Sum(ws, f) <= Sum(vs, f)
  {
    if ws != [] { SumAtMost(ws[..|ws| - 1], vs[..|vs| - 1], f); }
  }

  lemma {:induction false} SumBound(ws: seq<Worker>, f: Worker -> nat, c: nat)
    requires forall i | 0 <= i < |ws| :: f(ws[i]) <= c
    ensures Sum(ws, f) <= |ws| * c
  {
    if ws != [] { SumBound(ws[..|ws| - 1], f, c); }
  }

  lemma {:induction false} SumPositive(ws: seq<Worker>, f: Worker -> nat, w: nat)
    requires w < |ws|
    ensures Sum(ws, f) >= f(ws[w])
  {
    if w < |ws| - 1 { SumPositive(ws[..|ws| - 1], f, w); }
  }
}
