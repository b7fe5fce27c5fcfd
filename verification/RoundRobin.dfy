/** Dealing tasks out in turn. */
module RoundRobin {

  /** How often handler h was chosen. */
  function Count(dealt: seq<nat>, h: nat): nat {
    if dealt == [] then 0
    else Count(dealt[..|dealt| - 1], h) + if dealt[|dealt| - 1] == h then 1 else 0
  }

  ghost predicate InTurn(dealt: seq<nat>, handlers: nat)
    requires handlers > 0
  {
    forall i | 0 <= i < |dealt| :: dealt[i] == i % handlers
  }

  /** What handler h gets of m tasks dealt to k handlers. */
  function Share(m: nat, k: nat, h: nat): nat
    requires k > 0
  {
    m / k + if h < m % k then 1 else 0
  }

  /** After m tasks each of k handlers has had m div k or m div k + 1 of them, and the first m mod k
      handlers are the ones with the extra task. */
  lemma {:induction false} DealtEvenly(dealt: seq<nat>, handlers: nat, h: nat)
    requires handlers > 0 && h < handlers && InTurn(dealt, handlers)
    ensures Count(dealt, h) == Share(|dealt|, handlers, h)
    ensures Count(dealt, h) == |dealt| / handlers + if h < |dealt| % handlers then 1 else 0
  {
    if dealt == [] {
      assert h >= 0 % handlers;
    } else {
      hide Share;
      var m := |dealt| - 1;
      DealtEvenly(dealt[..m], handlers, h);
      NextShare(m, handlers, h);
    }
  }

  lemma NextShare(m: nat, k: nat, h: nat)
    requires k > 0 && h < k
    ensures Share(m + 1, k, h) == Share(m, k, h) + if m % k == h then 1 else 0
  {
    var q, r := m / k, m % k;
    if r == k - 1 {
      assert q * k + k == (q + 1) * k;
      Quotient(m + 1, k, q + 1, 0);
    } else {
      Quotient(m + 1, k, q, r + 1);
    }
  }

  lemma Quotient(n: nat, k: nat, q: nat, r: nat)
    requires r < k && n == q * k + r
    ensures n / k == q && n % k == r
  {
    var a := n / k;
    assert n == a * k + n % k;
    if a < q {
      Multiples(a + 1, q, k);
    } else if q < a {
      Multiples(q + 1, a, k);
    }
  }

  lemma Multiples(a: nat, b: nat, k: nat)
    requires a <= b
    ensures a * k <= b * k
  {
  }
}
