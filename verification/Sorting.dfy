/** Sorting the positions of a list by a strict order on them. */
module Sorting {
  import opened Sets

  ghost predicate StrictOrder(before: (nat, nat) -> bool, n: nat) {
    && (forall i: nat, j: nat | i < n && j < n && before(i, j) :: !before(j, i))
    && (forall i: nat, j: nat | i < n && j < n && i != j :: before(i, j) || before(j, i))
    && (forall i: nat, j: nat, k: nat | i < n && j < n && k < n && before(i, j) && before(j, k) :: before(i, k))
  }

  ghost predicate Sorted(before: (nat, nat) -> bool, order: seq<nat>) {
    forall p, q | 0 <= p < q < |order| :: before(order[p], order[q])
  }

  /** The positions 0 to n - 1, each once, in order. */
  ghost predicate Arranges(before: (nat, nat) -> bool, n: nat, order: seq<nat>) {
    && |order| == n && Sorted(before, order)
    && (forall p | 0 <= p < n :: order[p] < n)
    && (forall p, q | 0 <= p < q < n :: order[p] != order[q])
    && (forall i: nat | i < n :: i in order)
  }

  lemma InsertedArranges(before: (nat, nat) -> bool, order: seq<nat>, n: nat, i: nat)
    requires Arranges(before, n, order) && i <= |order|
    requires forall m | 0 <= m < i :: before(order[m], n)
    requires forall m | i <= m < |order| :: before(n, order[m])
    ensures Arranges(before, n + 1, order[..i] + [n] + order[i..])
  {
    var longer := order[..i] + [n] + order[i..];
    forall x: nat | x < n + 1 ensures x in longer {
      if x < n {
        assert x in order;
        var p :| 0 <= p < |order| && order[p] == x;
        assert longer[if p < i then p else p + 1] == x;
      } else {
        assert longer[i] == n;
      }
    }
    forall p, q | 0 <= p < q < |longer| ensures before(longer[p], longer[q]) && longer[p] != longer[q] {
      assert longer[p] == if p < i then order[p] else if p == i then n else order[p - 1];
      assert longer[q] == if q < i then order[q] else if q == i then n else order[q - 1];
    }
  }

  lemma AfterFrom(before: (nat, nat) -> bool, order: seq<nat>, n: nat, i: nat)
    requires StrictOrder(before, n + 1) && Arranges(before, n, order)
    requires i < |order| && !before(order[i], n)
    ensures forall m | i <= m < |order| :: before(n, order[m])
  {
    assert before(n, order[i]);
    forall m | i < m < |order| ensures before(n, order[m]) {
      assert before(order[i], order[m]);
    }
  }

  method InsertPosition(before: (nat, nat) -> bool, order: seq<nat>, n: nat) returns (longer: seq<nat>)
    requires StrictOrder(before, n + 1) && Arranges(before, n, order)
    ensures Arranges(before, n + 1, longer)
  {
    hide StrictOrder, Sorted;
    var i := 0;
    while i < |order| && before(order[i], n)
      invariant i <= |order| && forall m | 0 <= m < i :: before(order[m], n)
    {
      i := i + 1;
    }
    if i < |order| { AfterFrom(before, order, n, i); }
    InsertedArranges(before, order, n, i);
    longer := order[..i] + [n] + order[i..];
  }

  method SortPositions(before: (nat, nat) -> bool, n: nat) returns (order: seq<nat>)
    requires StrictOrder(before, n)
    ensures Arranges(before, n, order)
  {
    order := [];
    for k := 0 to n
      invariant Arranges(before, k, order)
    {
      order := InsertPosition(before, order, k);
    }
  }
}
