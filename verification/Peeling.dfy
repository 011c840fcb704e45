// Taking nodes off an overloaded cell (verifyFringeSet) and heads off an oversized head
// set (the trim step of constructClusters). Both pop a queue whose keys stand still.

module Peeling {
  import opened Sequences

  // std::priority_queue with Comparebydistance on keys that do not change: least first.
  ghost predicate IsLeast(queue: multiset<nat>, key: seq<real>, u: nat) {
    && u in queue
    && (forall x :: x in queue ==> x < |key|)
    && (forall x :: x in queue ==> key[u] <= key[x])
  }

  lemma LeastExists(queue: multiset<nat>, key: seq<real>) returns (u: nat)
    requires queue != multiset{} && forall x :: x in queue ==> x < |key|
    ensures IsLeast(queue, key, u)
  {
    var w :| w in queue;
    var rest := queue - multiset{w};
    assert forall x :: x in queue ==> x == w || x in rest;
    if rest == multiset{} {
      u := w;
    } else {
      var v := LeastExists(rest, key);
      u := if key[v] < key[w] then v else w;
    }
  }

  lemma DropOneAt(w: seq<real>, t: seq<nat>, i: nat)
    requires AllBelow(t, |w|) && i < |t|
    ensures AllBelow(t[..i] + t[i + 1..], |w|)
    ensures multiset(t) == multiset(t[..i] + t[i + 1..]) + multiset{t[i]}
    ensures SumSeq(w, t) == SumSeq(w, t[..i] + t[i + 1..]) + w[t[i]]
  {
    var before, after := t[..i], t[i + 1..];
    assert t == (before + [t[i]]) + after;
    SumSeqConcat(w, before, after);
    SumSeqSnoc(w, before, t[i]);
    SumSeqConcat(w, before + [t[i]], after);
  }

  lemma {:induction false} SumSeqPermutation(w: seq<real>, s: seq<nat>, t: seq<nat>)
    requires AllBelow(s, |w|) && AllBelow(t, |w|) && multiset(s) == multiset(t)
    ensures SumSeq(w, s) == SumSeq(w, t)
  {
    if s == [] {
      assert |multiset(t)| == |t|;
    } else {
      var front, last := s[..|s| - 1], s[|s| - 1];
      assert s == front + [last];
      assert multiset(s) == multiset(front) + multiset{last};
      assert last in multiset(t);
      var i :| 0 <= i < |t| && t[i] == last;
      var others := t[..i] + t[i + 1..];
      DropOneAt(w, t, i);
      SamePermutation(multiset(front), multiset(others), last);
      SumSeqPermutation(w, front, others);
    }
  }

  lemma SamePermutation(a: multiset<nat>, b: multiset<nat>, x: nat)
    requires a + multiset{x} == b + multiset{x}
    ensures a == b
  {
    assert a == a + multiset{x} - multiset{x};
    assert b == b + multiset{x} - multiset{x};
  }

  // ---- the fringe of one cell

  // peeled lists members of the cell by increasing label, and what is left of the cell
  // is no closer.
  ghost predicate ClosestFirst(cell: seq<nat>, peeled: seq<nat>, labels: seq<real>) {
    && AllBelow(cell, |labels|) && AllBelow(peeled, |labels|)
    && multiset(peeled) <= multiset(cell)
    && (forall i, j :: 0 <= i < j < |peeled| ==> labels[peeled[i]] <= labels[peeled[j]])
    && (forall i, x :: 0 <= i < |peeled| && x in multiset(cell) - multiset(peeled) && x < |labels| ==>
          labels[peeled[i]] <= labels[x])
  }

  // Before each pop the cell was still too heavy.
  ghost predicate EachNeeded(cell: seq<nat>, peeled: seq<nat>, weights: seq<real>, capacity: real) {
    && AllBelow(cell, |weights|) && AllBelow(peeled, |weights|)
    && (forall k :: 0 <= k < |peeled| ==> SumSeq(weights, cell) - SumSeq(weights, peeled[..k]) > capacity)
  }

  // The shortest closest-first selection that brings the cell's weight down to the capacity.
  ghost predicate Peeled(cell: seq<nat>, peeled: seq<nat>, labels: seq<real>, weights: seq<real>, capacity: real) {
    && ClosestFirst(cell, peeled, labels)
    && EachNeeded(cell, peeled, weights, capacity)
    && SumSeq(weights, cell) - SumSeq(weights, peeled) <= capacity
  }

  // Written out: peeled lists members of the cell, closest first, none left behind is closer,
  // and each was needed to bring the weight down, which the whole list does.
  lemma PeeledMeans(cell: seq<nat>, peeled: seq<nat>, labels: seq<real>, weights: seq<real>, capacity: real)
    requires Peeled(cell, peeled, labels, weights, capacity)
    ensures multiset(peeled) <= multiset(cell) && AllBelow(cell, |labels|) && AllBelow(peeled, |labels|)
    ensures AllBelow(cell, |weights|) && AllBelow(peeled, |weights|)
    ensures forall i, j :: 0 <= i < j < |peeled| ==> labels[peeled[i]] <= labels[peeled[j]]
    ensures forall i, x :: 0 <= i < |peeled| && x in multiset(cell) - multiset(peeled) && x < |labels| ==>
              labels[peeled[i]] <= labels[x]
    ensures SumSeq(weights, cell) - SumSeq(weights, peeled) <= capacity
    ensures forall k :: 0 <= k < |peeled| ==> SumSeq(weights, cell) - SumSeq(weights, peeled[..k]) > capacity
  {
  }

  // While the cell is overloaded there is something left to pop, given a capacity that
  // is not negative.
  lemma QueueNotEmpty(cell: seq<nat>, peeled: seq<nat>, weights: seq<real>, capacity: real)
    requires AllBelow(cell, |weights|) && AllBelow(peeled, |weights|) && capacity >= 0.0
    requires multiset(peeled) <= multiset(cell)
    requires SumSeq(weights, cell) - SumSeq(weights, peeled) > capacity
    ensures multiset(cell) - multiset(peeled) != multiset{}
  {
    if multiset(cell) - multiset(peeled) == multiset{} {
      assert multiset(cell) == multiset(peeled) + (multiset(cell) - multiset(peeled));
      SumSeqPermutation(weights, cell, peeled);
    }
  }

  lemma PopKeepsClosestFirst(cell: seq<nat>, peeled: seq<nat>, labels: seq<real>, u: nat)
    requires ClosestFirst(cell, peeled, labels)
    requires IsLeast(multiset(cell) - multiset(peeled), labels, u)
    ensures ClosestFirst(cell, peeled + [u], labels)
    ensures multiset(cell) - multiset(peeled + [u]) == multiset(cell) - multiset(peeled) - multiset{u}
  {
    var more, rest := peeled + [u], multiset(cell) - multiset(peeled);
    assert multiset(more) == multiset(peeled) + multiset{u};
    assert multiset(cell) - multiset(more) == rest - multiset{u};
    forall i, x | 0 <= i < |more| && x in rest - multiset{u} && x < |labels|
      ensures labels[more[i]] <= labels[x]
    {
      assert x in rest;
    }
  }

  lemma PopKeepsEachNeeded(cell: seq<nat>, peeled: seq<nat>, weights: seq<real>, capacity: real, u: nat)
    requires EachNeeded(cell, peeled, weights, capacity) && u < |weights|
    requires SumSeq(weights, cell) - SumSeq(weights, peeled) > capacity
    ensures EachNeeded(cell, peeled + [u], weights, capacity)
    ensures SumSeq(weights, peeled + [u]) == SumSeq(weights, peeled) + weights[u]
  {
    var more := peeled + [u];
    SumSeqSnoc(weights, peeled, u);
    forall k | 0 <= k < |more|
      ensures SumSeq(weights, cell) - SumSeq(weights, more[..k]) > capacity
    {
      assert more[..k] == peeled[..k];
      if k == |peeled| {
        assert peeled[..k] == peeled;
      }
    }
  }

  // A selection from the cell weighs no more than the cell.
  lemma {:induction false} SelectionWeighsLess(weights: seq<real>, cell: seq<nat>, peeled: seq<nat>)
    requires NonNegative(weights) && AllBelow(cell, |weights|) && AllBelow(peeled, |weights|)
    requires multiset(peeled) <= multiset(cell)
    ensures SumSeq(weights, peeled) <= SumSeq(weights, cell)
  {
    if peeled == [] {
      SumSeqMonotone(weights, cell, 0);
      assert cell[..0] == [];
    } else {
      var front, last := peeled[..|peeled| - 1], peeled[|peeled| - 1];
      assert peeled == front + [last];
      assert multiset(peeled) == multiset(front) + multiset{last};
      assert last in multiset(cell);
      var i :| 0 <= i < |cell| && cell[i] == last;
      var others := cell[..i] + cell[i + 1..];
      DropOneAt(weights, cell, i);
      OneLessEach(multiset(front), multiset(others), last);
      SelectionWeighsLess(weights, others, front);
    }
  }

  lemma OneLessEach(a: multiset<nat>, b: multiset<nat>, x: nat)
    requires a + multiset{x} <= b + multiset{x}
    ensures a <= b
  {
    forall y ensures a[y] <= b[y] {
      assert (a + multiset{x})[y] <= (b + multiset{x})[y];
    }
  }

  // A negative capacity can never be met: the loop would empty the queue and go on.
  lemma NegativeCapacityNeverMet(cell: seq<nat>, peeled: seq<nat>, labels: seq<real>, weights: seq<real>,
                                 capacity: real)
    requires NonNegative(weights) && capacity < 0.0
    ensures !Peeled(cell, peeled, labels, weights, capacity)
  {
    if Peeled(cell, peeled, labels, weights, capacity) {
      SelectionWeighsLess(weights, cell, peeled);
    }
  }

  lemma NothingToPeel(cell: seq<nat>, labels: seq<real>, weights: seq<real>, capacity: real)
    requires AllBelow(cell, |weights|) && |labels| == |weights| && SumSeq(weights, cell) <= capacity
    ensures Peeled(cell, [], labels, weights, capacity)
  {
  }

  // Among the starts of the peeled list only the whole list relieves the cell.
  lemma PeeledIsShortest(cell: seq<nat>, peeled: seq<nat>, labels: seq<real>, weights: seq<real>, capacity: real,
                         k: nat)
    requires Peeled(cell, peeled, labels, weights, capacity) && k <= |peeled|
    ensures AllBelow(peeled[..k], |weights|)
    ensures SumSeq(weights, cell) - SumSeq(weights, peeled[..k]) <= capacity <==> k == |peeled|
  {
    assert peeled[..|peeled|] == peeled;
  }

  // ---- trimming the heads

  // kept is heads, in the old order, less some whose balls are no heavier than any kept.
  ghost predicate LightestDropped(heads: seq<nat>, kept: seq<nat>, ballWeight: seq<real>) {
    && AllBelow(heads, |ballWeight|)
    && NoDup(kept) && kept == Only(heads, Elems(kept))
    && (forall x: nat, y: nat :: x in kept && y in heads && y !in kept && x < |ballWeight| && y < |ballWeight| ==>
          ballWeight[y] <= ballWeight[x])
  }

  lemma NothingDropped(heads: seq<nat>, ballWeight: seq<real>)
    requires NoDup(heads) && AllBelow(heads, |ballWeight|)
    ensures LightestDropped(heads, heads, ballWeight)
  {
    OnlyAll(heads, Elems(heads));
  }

  lemma DropLightest(heads: seq<nat>, kept: seq<nat>, ballWeight: seq<real>, u: nat)
    requires LightestDropped(heads, kept, ballWeight)
    requires IsLeast(multiset(kept), ballWeight, u)
    ensures u in kept && LightestDropped(heads, Without(kept, {u}), ballWeight)
    ensures |Without(kept, {u})| == |kept| - 1
    ensures multiset(Without(kept, {u})) == multiset(kept) - multiset{u}
  {
    var rest := Without(kept, {u});
    WithoutNoDup(kept, {u});
    WithoutOne(kept, u);
    WithoutOneMultiset(kept, u);
    OnlyWithout(heads, Elems(kept), u);
    assert Elems(kept) - {u} == Elems(rest);
    forall x: nat, y: nat | x in rest && y in heads && y !in rest && x < |ballWeight| && y < |ballWeight|
      ensures ballWeight[y] <= ballWeight[x]
    {
      assert x in kept;
      assert x in multiset(kept);
    }
  }
}
