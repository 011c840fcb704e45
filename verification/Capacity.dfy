// The bound k_max on the number of heads (constructClusters, the scan over w_max).

module Capacity {
  import opened Sequences

  // order lists every node once.
  ghost predicate IsOrder(order: seq<nat>, n: nat) {
    NoDup(order) && AllBelow(order, n) && |order| == n
  }

  ghost predicate Descending(w: seq<real>, order: seq<nat>) {
    AllBelow(order, |w|) && forall i, j :: 0 <= i < j < |order| ==> w[order[i]] >= w[order[j]]
  }

  // The first k capacities in the given order exceed the total, and no fewer do.
  ghost predicate FirstExceeding(w: seq<real>, order: seq<nat>, total: real, k: nat)
    requires AllBelow(order, |w|)
  {
    && 1 <= k <= |order|
    && SumSeq(w, order[..k]) > total
    && (forall j :: 1 <= j < k ==> SumSeq(w, order[..j]) <= total)
  }

  // The order the scan really uses: it reads w_max, not the sorted copy made of it.
  function ByIndex(n: nat): (order: seq<nat>)
    ensures |order| == n && forall i :: 0 <= i < n ==> order[i] == i
  {
    seq(n, i => i)
  }

  // k heads at least are needed to carry the total.
  ghost predicate NeedsAtLeast(w: seq<real>, total: real, k: nat) {
    forall S: set<nat> :: (forall x :: x in S ==> x < |w|) && WeightOf(w, S) > total ==> |S| >= k
  }

  lemma PrefixOfOrder(w: seq<real>, order: seq<nat>, k: nat)
    requires IsOrder(order, |w|) && k <= |order|
    ensures AllBelow(order[..k], |w|) && |Elems(order[..k])| == k
    ensures SumSeq(w, order[..k]) == WeightOf(w, Elems(order[..k]))
  {
    NoDupCard(order[..k]);
    SumSeqIsWeight(w, order[..k]);
  }

  lemma OrderCoversAll(order: seq<nat>, n: nat, x: nat)
    requires IsOrder(order, n) && x < n
    ensures x in order
  {
    NoDupCard(order);
    if x !in order {
      NoDupSnoc(order, x);
      NoDupBounded(order + [x], n);
    }
  }

  // Greedy choice is best: no set of nodes has more capacity than as many nodes from the
  // front of a descending order.
  lemma {:induction false} GreedyIsBest(w: seq<real>, order: seq<nat>, S: set<nat>, n: nat)
    requires IsOrder(order, |w|) && Descending(w, order)
    requires n <= |order| && forall x :: x in S ==> x in order[..n]
    ensures |S| <= n
    ensures AllBelow(order[..|S|], |w|)
    ensures WeightOf(w, S) <= SumSeq(w, order[..|S|])
  {
    if n == 0 {
      assert S == {};
      SumBelowEmpty(w, |w|);
    } else {
      var x := order[n - 1];
      var T := S - {x};
      forall y | y in T ensures y in order[..n - 1] {
        assert order[..n] == order[..n - 1] + [x];
      }
      GreedyIsBest(w, order, T, n - 1);
      if x in S {
        assert S == T + {x};
        assert |S| == |T| + 1;
        WeightAdd(w, T, x);
        NextBest(w, order, |T|, n);
      } else {
        assert S == T;
      }
    }
  }

  lemma NextBest(w: seq<real>, order: seq<nat>, k: nat, n: nat)
    requires Descending(w, order) && k < n <= |order|
    ensures AllBelow(order[..k], |w|) && AllBelow(order[..k + 1], |w|)
    ensures SumSeq(w, order[..k]) + w[order[n - 1]] <= SumSeq(w, order[..k + 1])
  {
    assert order[..k + 1] == order[..k] + [order[k]];
    SumSeqSnoc(w, order[..k], order[k]);
  }

  // Scanning a descending order gives a true lower bound on the number of heads.
  lemma DescendingScanIsLowerBound(w: seq<real>, order: seq<nat>, total: real, k: nat)
    requires IsOrder(order, |w|) && Descending(w, order) && total >= 0.0
    requires FirstExceeding(w, order, total, k)
    ensures NeedsAtLeast(w, total, k)
  {
    forall S: set<nat> | (forall x :: x in S ==> x < |w|) && WeightOf(w, S) > total
      ensures |S| >= k
    {
      forall x | x in S ensures x in order[..|w|] {
        OrderCoversAll(order, |w|, x);
        assert order[..|w|] == order;
      }
      GreedyIsBest(w, order, S, |w|);
      assert order[..0] == [];
    }
  }

  // The front of a descending order has at least the capacity of the front by index.
  lemma FrontIsBest(w: seq<real>, order: seq<nat>, k: nat)
    requires IsOrder(order, |w|) && Descending(w, order) && k <= |w|
    ensures SumSeq(w, ByIndex(|w|)[..k]) <= SumSeq(w, order[..k])
  {
    PrefixOfOrder(w, ByIndex(|w|), k);
    var S := Elems(ByIndex(|w|)[..k]);
    forall x | x in S ensures x in order[..|w|] {
      OrderCoversAll(order, |w|, x);
      assert order[..|w|] == order;
    }
    GreedyIsBest(w, order, S, |w|);
  }

  // Whenever the scan as coded stops, so does a scan of the sorted copy, and not later.
  lemma SortedScanStops(w: seq<real>, order: seq<nat>, total: real, k: nat) returns (m: nat)
    requires IsOrder(order, |w|) && Descending(w, order) && FirstExceeding(w, ByIndex(|w|), total, k)
    ensures m <= k && FirstExceeding(w, order, total, m)
  {
    FrontIsBest(w, order, k);
    m := 1;
    while SumSeq(w, order[..m]) <= total
      invariant 1 <= m <= k
      invariant forall j :: 1 <= j < m ==> SumSeq(w, order[..j]) <= total
      decreases k - m
    {
      m := m + 1;
    }
  }

  // So it never stops before a scan of the sorted copy would.
  lemma ScanNeverUndershoots(w: seq<real>, order: seq<nat>, total: real, k: nat, sorted: nat)
    requires IsOrder(order, |w|) && Descending(w, order)
    requires FirstExceeding(w, ByIndex(|w|), total, k) && FirstExceeding(w, order, total, sorted)
    ensures sorted <= k
  {
    FrontIsBest(w, order, k);
  }

  // The scan as coded, in index order, is a lower bound exactly when the first m
  // capacities by index exceed the total, m being how many of the largest it takes.
  lemma ScanIsLowerBoundIff(w: seq<real>, order: seq<nat>, total: real, k: nat, m: nat)
    requires IsOrder(order, |w|) && Descending(w, order) && total >= 0.0
    requires FirstExceeding(w, ByIndex(|w|), total, k) && FirstExceeding(w, order, total, m)
    ensures NeedsAtLeast(w, total, k) <==> SumSeq(w, ByIndex(|w|)[..m]) > total
  {
    ScanNeverUndershoots(w, order, total, k, m);
    if m == k {
      DescendingScanIsLowerBound(w, order, total, m);
    } else {
      PrefixOfOrder(w, order, m);
      var S := Elems(order[..m]);
      forall x | x in S ensures x < |w| {
        assert x in order[..m];
      }
      assert WeightOf(w, S) > total && |S| == m;
    }
  }

  // The scan finds no count exactly when no prefix of the capacities exceeds the total;
  // with capacities that are not negative, exactly when all together do not.
  lemma ScanFailsIff(w: seq<real>, total: real)
    requires total >= 0.0
    ensures (exists k :: FirstExceeding(w, ByIndex(|w|), total, k)) <==> !NoneExceeds(w, total)
    ensures NonNegative(w) ==> (NoneExceeds(w, total) <==> SumSeq(w, ByIndex(|w|)) <= total)
  {
    assert ByIndex(|w|)[..|w|] == ByIndex(|w|);
    if !NoneExceeds(w, total) {
      var k := LeastExceeding(w, total);
    }
    if NonNegative(w) {
      forall j | 0 <= j <= |w|
        ensures SumSeq(w, ByIndex(|w|)[..j]) <= SumSeq(w, ByIndex(|w|))
      {
        PrefixNotMore(w, j, |w|);
      }
      assert w == [] ==> ByIndex(0) == [] && SumSeq(w, []) == 0.0;
    }
  }

  ghost predicate NoneExceeds(w: seq<real>, total: real) {
    forall j :: 1 <= j <= |w| ==> SumSeq(w, ByIndex(|w|)[..j]) <= total
  }

  lemma WeakNeverExceeds(w: seq<real>, total: real)
    requires total >= 0.0 && forall i :: 0 <= i < |w| ==> w[i] <= 0.0
    ensures NoneExceeds(w, total)
  {
    forall j | 1 <= j <= |w|
      ensures SumSeq(w, ByIndex(|w|)[..j]) <= total
    {
      PrefixBelowShare(w, 0.0, j);
    }
  }

  lemma LeastExceeding(w: seq<real>, total: real) returns (k: nat)
    requires !NoneExceeds(w, total)
    ensures FirstExceeding(w, ByIndex(|w|), total, k)
  {
    ghost var last :| 1 <= last <= |w| && SumSeq(w, ByIndex(|w|)[..last]) > total;
    k := 1;
    while SumSeq(w, ByIndex(|w|)[..k]) <= total
      invariant 1 <= k <= last
      invariant forall j :: 1 <= j < k ==> SumSeq(w, ByIndex(|w|)[..j]) <= total
      decreases last - k
    {
      k := k + 1;
    }
  }

  lemma {:induction false} PrefixNotMore(w: seq<real>, j: nat, n: nat)
    requires NonNegative(w) && j <= n <= |w|
    ensures SumSeq(w, ByIndex(|w|)[..j]) <= SumSeq(w, ByIndex(|w|)[..n])
    decreases n
  {
    var order := ByIndex(|w|);
    if j < n {
      PrefixNotMore(w, j, n - 1);
      assert order[..n] == order[..n - 1] + [n - 1];
      SumSeqSnoc(w, order[..n - 1], n - 1);
    }
  }

  // Two nodes that can carry nothing: the scan ends without a count.
  lemma ScanCanFail(k: nat)
    ensures !FirstExceeding([0.0, 0.0], ByIndex(2), 3.0, k)
  {
    var w, order := [0.0, 0.0], ByIndex(2);
    assert order[..0] == [] && order[..1] == order[..0] + [0] && order[..2] == order[..1] + [1];
    SumSeqSnoc(w, order[..0], 0);
    SumSeqSnoc(w, order[..1], 1);
  }

  // It can overshoot: with capacities 1 and 10 and a total of 5 the scan says two heads,
  // while node 1 alone is enough.
  lemma ScanCanOvershoot()
    ensures FirstExceeding([1.0, 10.0], ByIndex(2), 5.0, 2)
    ensures !NeedsAtLeast([1.0, 10.0], 5.0, 2)
  {
    OvershootingScan();
    hide SumBelow;
    OneNodeIsEnough();
    assert WeightOf([1.0, 10.0], {1}) > 5.0 && |{1}| == 1;
  }

  lemma OvershootingScan()
    ensures FirstExceeding([1.0, 10.0], ByIndex(2), 5.0, 2)
  {
    var w, order := [1.0, 10.0], ByIndex(2);
    assert order[..0] == [] && order[..1] == order[..0] + [0] && order[..2] == order[..1] + [1];
    SumSeqSnoc(w, order[..0], 0);
    SumSeqSnoc(w, order[..1], 1);
  }

  lemma OneNodeIsEnough()
    ensures WeightOf([1.0, 10.0], {1}) == 10.0
  {
    var w, S: set<nat> := [1.0, 10.0], {1};
    assert SumBelow(w, S, 0) == 0.0;
    assert SumBelow(w, S, 1) == 0.0;
    assert SumBelow(w, S, 2) == 10.0;
  }

  // Seeding cannot run dry: one of the k nodes that the scan added up has more capacity
  // than w_min, a quarter of their average share.
  lemma SomeNodeAboveShare(w: seq<real>, total: real, k: nat) returns (i: nat)
    requires total >= 0.0 && FirstExceeding(w, ByIndex(|w|), total, k)
    ensures i < |w| && w[i] > total / (4 * k) as real
  {
    var share := total / (4 * k) as real;
    if forall j :: 0 <= j < k ==> w[j] <= share {
      PrefixBelowShare(w, share, k);
      SharesAddUp(total, k);
    }
    i :| 0 <= i < k && w[i] > share;
  }

  lemma {:induction false} PrefixBelowShare(w: seq<real>, share: real, k: nat)
    requires k <= |w| && forall j :: 0 <= j < k ==> w[j] <= share
    ensures AllBelow(ByIndex(|w|)[..k], |w|)
    ensures SumSeq(w, ByIndex(|w|)[..k]) <= k as real * share
  {
    var order := ByIndex(|w|);
    if k > 0 {
      PrefixBelowShare(w, share, k - 1);
      assert order[..k] == order[..k - 1] + [k - 1];
      SumSeqSnoc(w, order[..k - 1], k - 1);
      assert k as real * share == (k - 1) as real * share + share;
    }
  }

  lemma SharesAddUp(total: real, k: nat)
    requires total >= 0.0 && k >= 1
    ensures k as real * (total / (4 * k) as real) <= total
  {
    var x := k as real;
    assert (4 * k) as real == 4.0 * x;
    var share := total / (4.0 * x);
    assert share * (4.0 * x) == total;
    assert x * share * 4.0 == total;
  }
}
