/** The binary heap behind the library's two priority queues. As in the C++ container the comparator
    `below(a, b)` says that `a` may stand below `b`; the only assumption is that it agrees with some key,
    the smallest key being wanted first. A strict comparator agrees with it, and so does a non-strict one.
    Pushing and popping are functions on the array, and the loops compute these functions. */
module Heap {

  // ---------- Keys in heap order ----------

  function Parent(i: nat): nat
    requires i > 0
  {
    (i - 1) / 2
  }

  /** The edge above position i is in order. */
  predicate EdgeOk(ks: seq<int>, i: nat) {
    0 < i < |ks| ==> ks[Parent(i)] <= ks[i]
  }

  ghost predicate IsHeap(ks: seq<int>) {
    forall i: nat :: EdgeOk(ks, i)
  }

  /** A heap but for the edges under the root: what is left when the root's key is changed in place. */
  ghost predicate HeapBelowRoot(ks: seq<int>) {
    forall i: nat | i > 2 :: EdgeOk(ks, i)
  }

  /** Keys under position i that are not smaller than the key above it. */
  ghost predicate Bridged(ks: seq<int>, i: nat) {
    forall j: nat | 0 < i < |ks| && 0 < j < |ks| && Parent(j) == i :: ks[Parent(i)] <= ks[j]
  }

  /** In order but for the edge above i. */
  ghost predicate Rising(ks: seq<int>, i: nat) {
    (forall j: nat | j != i :: EdgeOk(ks, j)) && Bridged(ks, i)
  }

  /** In order but for the edges above and under i. */
  ghost predicate Floating(ks: seq<int>, i: nat) {
    (forall j: nat | j > 0 && j != i && Parent(j) != i :: EdgeOk(ks, j)) && Bridged(ks, i)
  }

  function Swap<T>(q: seq<T>, i: nat, j: nat): (r: seq<T>)
    requires i < |q| && j < |q|
    ensures |r| == |q|
    ensures forall k | 0 <= k < |q| :: r[k] == q[if k == i then j else if k == j then i else k]
  {
    q[i := q[j]][j := q[i]]
  }

  lemma SwapKeepsElements<T>(q: seq<T>, i: nat, j: nat)
    requires i < |q| && j < |q|
    ensures multiset(Swap(q, i, j)) == multiset(q)
    ensures forall x | x in Swap(q, i, j) :: x in q
  {
  }

  lemma Rise(ks: seq<int>, i: nat)
    requires Rising(ks, i) && 0 < i < |ks| && ks[Parent(i)] >= ks[i]
    ensures Rising(Swap(ks, i, Parent(i)), Parent(i))
  {
    var p := Parent(i);
    var ks' := Swap(ks, i, p);
    forall j: nat | j != p ensures EdgeOk(ks', j) {
      assert j != i ==> EdgeOk(ks, j);
    }
    forall j: nat | 0 < p && 0 < j < |ks| && Parent(j) == p ensures ks'[Parent(p)] <= ks'[j] {
      assert EdgeOk(ks, p);
      assert j != i ==> EdgeOk(ks, j);
    }
  }

  /** The root of a heap has the smallest key. */
  lemma {:induction false} RootIsMin(ks: seq<int>, i: nat)
    requires IsHeap(ks) && i < |ks|
    ensures ks[0] <= ks[i]
  {
    if i > 0 {
      assert EdgeOk(ks, i);
      RootIsMin(ks, Parent(i));
    }
  }

  /** The smaller child takes the place of what floats at i. */
  lemma Sink(ks: seq<int>, i: nat, c: nat)
    requires Floating(ks, i) && i < c < |ks| && Parent(c) == i
    requires forall d: nat | 0 < d < |ks| && Parent(d) == i :: ks[c] <= ks[d]
    ensures Floating(Swap(ks, i, c), c)
  {
    var ks' := Swap(ks, i, c);
    forall j: nat | j > 0 && j != c && Parent(j) != c ensures EdgeOk(ks', j) {
      assert j != i && Parent(j) != i ==> EdgeOk(ks, j);
    }
    forall j: nat | 0 < j < |ks| && Parent(j) == c ensures ks'[Parent(c)] <= ks'[j] {
      assert EdgeOk(ks, j);
    }
  }

  lemma SinkToSmaller(ks: seq<int>, i: nat, c: nat)
    requires Floating(ks, i) && c < |ks| && (c == 2 * i + 1 || c == 2 * i + 2)
    requires ks[c] <= ks[2 * i + 1] && (2 * i + 2 < |ks| ==> ks[c] <= ks[2 * i + 2])
    ensures Floating(Swap(ks, i, c), c)
  {
    forall d: nat | 0 < d < |ks| && Parent(d) == i ensures ks[c] <= ks[d] {
      assert d == 2 * i + 1 || d == 2 * i + 2;
    }
    Sink(ks, i, c);
  }

  /** At a leaf there is only the edge above. */
  lemma LeafRises(ks: seq<int>, i: nat)
    requires Floating(ks, i) && 2 * i + 1 >= |ks|
    ensures Rising(ks, i)
  {
  }

  // ---------- Elements and their keys ----------

  ghost function Keys<T>(q: seq<T>, key: T -> int): (ks: seq<int>)
    ensures |ks| == |q|
    ensures forall i | 0 <= i < |q| :: ks[i] == key(q[i])
  {
    seq(|q|, i requires 0 <= i < |q| => key(q[i]))
  }

  lemma KeysOfSwap<T>(q: seq<T>, i: nat, j: nat, key: T -> int)
    requires i < |q| && j < |q|
    ensures Keys(Swap(q, i, j), key) == Swap(Keys(q, key), i, j)
  {
  }

  /** On these elements the comparator never puts a smaller key below a larger one. */
  ghost predicate Agrees<T>(below: (T, T) -> bool, key: T -> int, q: seq<T>) {
    forall a, b | a in q && b in q :: if below(a, b) then key(a) >= key(b) else key(a) <= key(b)
  }

  lemma SameElements<T>(q: seq<T>, r: seq<T>)
    requires multiset(r) <= multiset(q)
    ensures forall x | x in r :: x in q
  {
    forall x | x in r ensures x in q {
      assert x in multiset(r);
    }
  }

  // ---------- push and pop as functions on the array ----------

  /** push_heap: the element at i moves up. */
  function SiftedUp<T>(q: seq<T>, i: nat, below: (T, T) -> bool): (r: seq<T>)
    requires i < |q|
    ensures |r| == |q|
    decreases i
  {
    if i > 0 && below(q[Parent(i)], q[i]) then SiftedUp(Swap(q, i, Parent(i)), Parent(i), below) else q
  }

  /** The child that moves up when i is emptied. */
  function ChildOf<T>(q: seq<T>, i: nat, below: (T, T) -> bool): (c: nat)
    requires 2 * i + 1 < |q|
    ensures i < c < |q| && Parent(c) == i
  {
    if 2 * i + 2 < |q| && !below(q[2 * i + 2], q[2 * i + 1]) then 2 * i + 2 else 2 * i + 1
  }

  /** pop_heap's repair, as the GNU library does it: the element at i goes all the way down to a leaf, the
      smaller child moving up each time, and then rises to its place. */
  function Settled<T>(q: seq<T>, i: nat, below: (T, T) -> bool): (r: seq<T>)
    requires i < |q|
    ensures |r| == |q|
    decreases |q| - i
  {
    if 2 * i + 1 < |q| then
      Settled(Swap(q, i, ChildOf(q, i, below)), ChildOf(q, i, below), below)
    else
      SiftedUp(q, i, below)
  }

  function Pushed<T>(q: seq<T>, x: T, below: (T, T) -> bool): seq<T> {
    SiftedUp(q + [x], |q|, below)
  }

  function LastToRoot<T>(q: seq<T>): seq<T>
    requires |q| > 1
  {
    [q[|q| - 1]] + q[1..|q| - 1]
  }

  function Popped<T>(q: seq<T>, below: (T, T) -> bool): (r: seq<T>)
    requires q != []
    ensures |r| == |q| - 1
  {
    if |q| == 1 then [] else Settled(LastToRoot(q), 0, below)
  }

  // ---------- Small arrays, worked out ----------

  lemma UpStep<T>(q: seq<T>, i: nat, below: (T, T) -> bool)
    requires i < |q|
    ensures SiftedUp(q, i, below) ==
            if i > 0 && below(q[Parent(i)], q[i]) then SiftedUp(Swap(q, i, Parent(i)), Parent(i), below) else q
  {
  }

  lemma SettleStep<T>(q: seq<T>, i: nat, below: (T, T) -> bool)
    requires i < |q|
    ensures Settled(q, i, below) ==
            if 2 * i + 1 < |q| then Settled(Swap(q, i, ChildOf(q, i, below)), ChildOf(q, i, below), below)
            else SiftedUp(q, i, below)
  {
  }

  lemma Swapped<T>(q: seq<T>, i: nat, j: nat, r: seq<T>)
    requires i < |q| && j < |q| && r == q[i := q[j]][j := q[i]]
    ensures Swap(q, i, j) == r
  {
  }

  lemma PushedFirst<T>(a: T, below: (T, T) -> bool)
    ensures Pushed([], a, below) == [a]
  {
  }

  lemma PushedSecond<T>(a: T, b: T, below: (T, T) -> bool)
    ensures Pushed([a], b, below) == if below(a, b) then [b, a] else [a, b]
  {
    hide SiftedUp, Swap;
    assert [a] + [b] == [a, b];
    UpStep([a, b], 1, below);
    Swapped([a, b], 1, 0, [b, a]);
    UpStep([b, a], 0, below);
  }

  lemma PushedThird<T>(a: T, b: T, c: T, below: (T, T) -> bool)
    ensures Pushed([a, b], c, below) == if below(a, c) then [c, b, a] else [a, b, c]
  {
    hide SiftedUp, Swap;
    assert [a, b] + [c] == [a, b, c];
    UpStep([a, b, c], 2, below);
    Swapped([a, b, c], 2, 0, [c, b, a]);
    UpStep([c, b, a], 0, below);
  }

  lemma PoppedThree<T>(a: T, b: T, c: T, below: (T, T) -> bool)
    ensures Popped([a, b, c], below) == if below(b, c) then [c, b] else [b, c]
  {
    hide SiftedUp, Settled, Swap;
    assert LastToRoot([a, b, c]) == [c, b];
    SettleStep([c, b], 0, below);
    Swapped([c, b], 0, 1, [b, c]);
    SettleStep([b, c], 1, below);
    UpStep([b, c], 1, below);
    Swapped([b, c], 1, 0, [c, b]);
    UpStep([c, b], 0, below);
  }

  lemma PushedFourth<T>(a: T, b: T, c: T, d: T, below: (T, T) -> bool)
    ensures Pushed([a, b, c], d, below) ==
            if !below(b, d) then [a, b, c, d] else if below(a, d) then [d, a, c, b] else [a, d, c, b]
  {
    hide SiftedUp, Swap;
    assert [a, b, c] + [d] == [a, b, c, d];
    UpStep([a, b, c, d], 3, below);
    Swapped([a, b, c, d], 3, 1, [a, d, c, b]);
    UpStep([a, d, c, b], 1, below);
    Swapped([a, d, c, b], 1, 0, [d, a, c, b]);
    UpStep([d, a, c, b], 0, below);
  }

  lemma PoppedFour<T>(a: T, b: T, c: T, d: T, below: (T, T) -> bool)
    ensures Popped([a, b, c, d], below) ==
            if below(c, b) then (if below(b, d) then [d, b, c] else [b, d, c])
            else (if below(c, d) then [d, b, c] else [c, b, d])
  {
    hide SiftedUp, Settled, Swap;
    var r := [d, b, c];
    assert LastToRoot([a, b, c, d]) == r;
    SettleStep(r, 0, below);
    UpStep(r, 0, below);
    if below(c, b) {
      Swapped(r, 0, 1, [b, d, c]);
      SettleStep([b, d, c], 1, below);
      UpStep([b, d, c], 1, below);
      Swapped([b, d, c], 1, 0, r);
    } else {
      Swapped(r, 0, 2, [c, b, d]);
      SettleStep([c, b, d], 2, below);
      UpStep([c, b, d], 2, below);
      Swapped([c, b, d], 2, 0, r);
    }
  }

  // ---------- They keep the heap and its elements ----------

  lemma {:induction false} SiftedUpIsHeap<T>(q: seq<T>, i: nat, below: (T, T) -> bool, key: T -> int)
    requires i < |q| && Agrees(below, key, q) && Rising(Keys(q, key), i)
    ensures IsHeap(Keys(SiftedUp(q, i, below), key)) && multiset(SiftedUp(q, i, below)) == multiset(q)
    decreases i
  {
    if i > 0 && below(q[Parent(i)], q[i]) {
      var r := Swap(q, i, Parent(i));
      KeysOfSwap(q, i, Parent(i), key);
      Rise(Keys(q, key), i);
      SwapKeepsElements(q, i, Parent(i));
      SiftedUpIsHeap(r, Parent(i), below, key);
    } else {
      assert EdgeOk(Keys(q, key), i);
    }
  }

  lemma {:induction false} SettledIsHeap<T>(q: seq<T>, i: nat, below: (T, T) -> bool, key: T -> int)
    requires i < |q| && Agrees(below, key, q) && Floating(Keys(q, key), i)
    ensures IsHeap(Keys(Settled(q, i, below), key)) && multiset(Settled(q, i, below)) == multiset(q)
    decreases |q| - i
  {
    hide Floating, IsHeap, Rising;
    if 2 * i + 1 < |q| {
      var c := ChildOf(q, i, below);
      SinkToSmaller(Keys(q, key), i, c);
      KeysOfSwap(q, i, c, key);
      SwapKeepsElements(q, i, c);
      SettledIsHeap(Swap(q, i, c), c, below, key);
    } else {
      LeafRises(Keys(q, key), i);
      SiftedUpIsHeap(q, i, below, key);
    }
  }

  /** For a comparator that agrees with a key, strict or not: pushing keeps the heap and adds the element. */
  lemma PushedIsHeap<T>(q: seq<T>, x: T, below: (T, T) -> bool, key: T -> int)
    requires Agrees(below, key, q + [x]) && IsHeap(Keys(q, key))
    ensures IsHeap(Keys(Pushed(q, x, below), key))
    ensures multiset(Pushed(q, x, below)) == multiset(q) + multiset{x}
  {
    var ks := Keys(q + [x], key);
    forall j: nat | j != |q| ensures EdgeOk(ks, j) {
      assert EdgeOk(Keys(q, key), j);
    }
    SiftedUpIsHeap(q + [x], |q|, below, key);
  }

  lemma LastToRootFloats<T>(q: seq<T>, key: T -> int)
    requires |q| > 1 && HeapBelowRoot(Keys(q, key))
    ensures Floating(Keys(LastToRoot(q), key), 0) && multiset(LastToRoot(q)) == multiset(q) - multiset{q[0]}
  {
    var r := LastToRoot(q);
    forall j: nat | j > 2 ensures EdgeOk(Keys(r, key), j) {
      assert EdgeOk(Keys(q, key), j);
    }
    assert q == [q[0]] + q[1..|q| - 1] + [q[|q| - 1]];
  }

  /** The root goes, whatever its key has become meanwhile, and the others are a heap. */
  lemma PoppedIsHeap<T>(q: seq<T>, below: (T, T) -> bool, key: T -> int)
    requires q != [] && Agrees(below, key, q) && HeapBelowRoot(Keys(q, key))
    ensures IsHeap(Keys(Popped(q, below), key))
    ensures multiset(Popped(q, below)) == multiset(q) - multiset{q[0]}
  {
    if |q| == 1 {
      assert q == [q[0]];
    } else {
      LastToRootFloats(q, key);
      SameElements(q, LastToRoot(q));
      SettledIsHeap(LastToRoot(q), 0, below, key);
    }
  }

  // ---------- The loops ----------

  /** On these elements the comparator, which may read the heap, now answers as the function does. */
  ghost predicate Answers<T>(compare: (T, T) ~> bool, below: (T, T) -> bool, q: seq<T>)
    reads *
  {
    forall a, b | a in q && b in q :: compare.requires(a, b) && compare(a, b) == below(a, b)
  }

  lemma AnswersAfterSwap<T>(compare: (T, T) ~> bool, below: (T, T) -> bool, q: seq<T>, i: nat, j: nat)
    requires Answers(compare, below, q) && i < |q| && j < |q|
    ensures Answers(compare, below, Swap(q, i, j))
  {
    SwapKeepsElements(q, i, j);
  }

  method SiftUp<T(==)>(q: seq<T>, i0: nat, compare: (T, T) ~> bool, ghost below: (T, T) -> bool) returns (r: seq<T>)
    requires i0 < |q| && Answers(compare, below, q)
    ensures r == SiftedUp(q, i0, below)
  {
    r := q;
    var i := i0;
    while i > 0 && compare(r[Parent(i)], r[i])
      invariant 0 <= i < |r| && Answers(compare, below, r)
      invariant SiftedUp(r, i, below) == SiftedUp(q, i0, below)
    {
      AnswersAfterSwap(compare, below, r, i, Parent(i));
      r := Swap(r, i, Parent(i));
      i := Parent(i);
    }
  }

  method ChildToMove<T(==)>(q: seq<T>, i: nat, compare: (T, T) ~> bool, ghost below: (T, T) -> bool) returns (c: nat)
    requires Answers(compare, below, q) && 2 * i + 1 < |q|
    ensures c == ChildOf(q, i, below)
  {
    c := 2 * i + 1;
    if c + 1 < |q| && !compare(q[c + 1], q[c]) {
      c := c + 1;
    }
  }

  method Push<T(==)>(q: seq<T>, x: T, compare: (T, T) ~> bool, ghost below: (T, T) -> bool) returns (r: seq<T>)
    requires Answers(compare, below, q + [x])
    ensures r == Pushed(q, x, below)
  {
    r := SiftUp(q + [x], |q|, compare, below);
  }

  method Pop<T(==)>(q: seq<T>, compare: (T, T) ~> bool, ghost below: (T, T) -> bool) returns (r: seq<T>)
    requires q != [] && Answers(compare, below, q)
    ensures r == Popped(q, below)
  {
    if |q| == 1 {
      return [];
    }
    r := [q[|q| - 1]] + q[1..|q| - 1];
    assert Answers(compare, below, r);
    hide Answers, Swap, ChildOf, SiftedUp;
    var i := 0;
    while 2 * i + 1 < |r|
      invariant 0 <= i < |r| && Answers(compare, below, r)
      invariant Settled(r, i, below) == Popped(q, below)
      decreases |r| - i
    {
      var c := ChildToMove(r, i, compare, below);
      AnswersAfterSwap(compare, below, r, i, c);
      r := Swap(r, i, c);
      i := c;
    }
    r := SiftUp(r, i, compare, below);
  }

  // ---------- Changing a key in place ----------

  lemma RootMayMove(ks: seq<int>)
    requires IsHeap(ks)
    ensures HeapBelowRoot(ks)
  {
  }

  /** Rekeying the element at the root spoils no more than the edges under the root, provided that
      element stands nowhere else in the heap. */
  lemma {:induction false} RekeyedRoot<T>(q: seq<T>, key: T -> int, key': T -> int)
    requires |q| > 0 && IsHeap(Keys(q, key))
    requires q[0] !in q[1..]
    requires forall x | x in q && x != q[0] :: key'(x) == key(x)
    ensures HeapBelowRoot(Keys(q, key'))
  {
    forall j: nat | j > 2 ensures EdgeOk(Keys(q, key'), j) {
      assert EdgeOk(Keys(q, key), j);
      if j < |q| {
        assert q[j] in q[1..] && q[Parent(j)] in q[1..];
      }
    }
  }

  /** Why RekeyedRoot asks for an element that is in the heap once: twice, and it can spoil more. */
  lemma RekeyedTwice()
    ensures var q := ['a', 'a', 'b', 'c'];
            var key := (x: char) => if x == 'c' then 1 else 0;
            var key' := (x: char) => if x == 'a' then 5 else key(x);
            IsHeap(Keys(q, key)) && !HeapBelowRoot(Keys(q, key'))
  {
    var q := ['a', 'a', 'b', 'c'];
    var key := (x: char) => if x == 'c' then 1 else 0;
    var key' := (x: char) => if x == 'a' then 5 else key(x);
    assert Parent(3) == 1 && !EdgeOk(Keys(q, key'), 3);
  }
}
