// The cells growBalls leaves behind and what computeBallWeight adds up over them.
// settled is the order in which growBalls settled the nodes, cent the head of each.
module Cells {
  import opened Sequences
  import opened Network

  // The nodes assigned to head l.
  function Assigned(cent: seq<int>, l: int): set<nat> {
    set v: nat | v < |cent| && cent[v] == l
  }

  // representSet[l] after the search: the settled non-heads of the cell, as pushed by line 261.
  function Represented(settled: seq<nat>, cent: seq<int>, heads: set<nat>, l: nat): seq<nat> {
    Only(settled, Assigned(cent, l) - heads)
  }

  // representSet[l] after computeBallWeight appended every non-sink node once more.
  function RepresentedTwice(g: Graph, settled: seq<nat>, cent: seq<int>, heads: set<nat>, l: nat): seq<nat> {
    Represented(settled, cent, heads, l) + Only(g.NodesExceptSink(), Assigned(cent, l))
  }

  // Settling u, which is not a head, appends it to the list of its own head only.
  lemma RepresentedSettle(settled: seq<nat>, cent: seq<int>, heads: set<nat>, u: nat, l: nat)
    requires u < |cent|
    ensures Represented(settled + [u], cent, heads, l)
         == if u !in heads && cent[u] == l then Represented(settled, cent, heads, l) + [u]
            else Represented(settled, cent, heads, l)
  {
    OnlySnoc(settled, u, Assigned(cent, l) - heads);
  }

  // Moving an unsettled node to another head changes no list.
  lemma RepresentedMove(settled: seq<nat>, cent: seq<int>, moved: seq<int>, heads: set<nat>, l: nat)
    requires |cent| == |moved| && forall v :: v in settled ==> v < |cent| && cent[v] == moved[v]
    ensures Represented(settled, cent, heads, l) == Represented(settled, moved, heads, l)
  {
    OnlyAgree(settled, Assigned(cent, l) - heads, Assigned(moved, l) - heads);
  }

  // Each list was extended by those of the nodes that are assigned to its head.
  ghost predicate Appended(before: seq<seq<nat>>, after: seq<seq<nat>>, nodes: seq<nat>, cent: seq<int>) {
    && |before| == |after|
    && (forall l :: 0 <= l < |after| ==> after[l] == before[l] + Only(nodes, Assigned(cent, l)))
  }

  lemma AppendedOne(before: seq<seq<nat>>, after: seq<seq<nat>>, nodes: seq<nat>, cent: seq<int>, u: nat)
    requires Appended(before, after, nodes, cent) && u < |cent| && 0 <= cent[u] < |after|
    ensures Appended(before, after[cent[u] := after[cent[u]] + [u]], nodes + [u], cent)
  {
    forall l | 0 <= l < |after| {
      OnlySnoc(nodes, u, Assigned(cent, l));
    }
  }

  // What every call of growBalls establishes before it weighs the balls.
  ghost predicate Partitioned(g: Graph, settled: seq<nat>, cent: seq<int>, heads: seq<nat>) {
    && |cent| == g.size
    && NoDup(heads) && AllBelow(heads, g.size)
    && NoDup(settled) && AllBelow(settled, g.size)
    && (forall v :: v in settled ==> cent[v] >= 0 && cent[v] in heads)
    && (forall l :: l in heads ==> l in settled && cent[l] == l)
    && (forall v :: 0 <= v < g.size && v != g.sink ==> v in settled)
    && (g.sink in settled ==> g.sink in heads)
  }

  // The non-head nodes of l's cell.
  ghost function Others(settled: seq<nat>, cent: seq<int>, heads: seq<nat>, l: nat): set<nat> {
    Elems(Represented(settled, cent, Elems(heads), l))
  }

  // The lists of the heads partition the settled non-heads: a node is in the list of
  // its own head, once, and in no other.
  lemma ListsPartition(g: Graph, settled: seq<nat>, cent: seq<int>, heads: seq<nat>, l: nat, v: nat)
    requires Partitioned(g, settled, cent, heads) && l in heads
    ensures NoDup(Represented(settled, cent, Elems(heads), l))
    ensures v in Represented(settled, cent, Elems(heads), l) <==> v in settled && v !in heads && cent[v] == l
  {
    OnlyNoDup(settled, Assigned(cent, l) - Elems(heads));
  }

  lemma RepresentedBelow(g: Graph, settled: seq<nat>, cent: seq<int>, heads: seq<nat>, l: nat)
    requires Partitioned(g, settled, cent, heads)
    ensures AllBelow(Represented(settled, cent, Elems(heads), l), g.size)
    ensures AllBelow(Only(g.NodesExceptSink(), Assigned(cent, l)), g.size)
    ensures AllBelow(RepresentedTwice(g, settled, cent, Elems(heads), l), g.size)
  {
    var a, b := Represented(settled, cent, Elems(heads), l), Only(g.NodesExceptSink(), Assigned(cent, l));
    forall i | 0 <= i < |a| ensures a[i] < g.size { assert a[i] in a; }
    forall i | 0 <= i < |b| ensures b[i] < g.size { assert b[i] in b; }
  }

  ghost function OwnWeight(g: Graph, weights: seq<real>, l: nat): real
    requires l < |weights|
  {
    if l == g.sink then 0.0 else weights[l]
  }

  // ballWeight[l] counts the head once and every other node of its cell twice; a sink
  // that became a head is not counted at all.
  lemma BallWeightCountsTwice(g: Graph, weights: seq<real>, settled: seq<nat>, cent: seq<int>, heads: seq<nat>, l: nat)
    requires Partitioned(g, settled, cent, heads) && |weights| == g.size && l in heads
    ensures AllBelow(RepresentedTwice(g, settled, cent, Elems(heads), l), |weights|)
    ensures SumSeq(weights, RepresentedTwice(g, settled, cent, Elems(heads), l))
         == OwnWeight(g, weights, l) + 2.0 * WeightOf(weights, Others(settled, cent, heads, l))
  {
    var once, again := Represented(settled, cent, Elems(heads), l), Only(g.NodesExceptSink(), Assigned(cent, l));
    RepresentedBelow(g, settled, cent, heads, l);
    ListsPartition(g, settled, cent, heads, l, 0);
    NodesExceptSinkNoDup(g, g.size);
    OnlyNoDup(g.NodesExceptSink(), Assigned(cent, l));
    SumSeqConcat(weights, once, again);
    SumSeqIsWeight(weights, once);
    SumSeqIsWeight(weights, again);
    var others := Others(settled, cent, heads, l);
    forall v ensures v in again <==> v in others || (v == l && l != g.sink) {
      if v in again {
        assert v in settled && cent[v] == l;
        if v in heads { assert cent[v] == v; }
      }
    }
    if l == g.sink {
      assert Elems(again) == others;
    } else {
      assert Elems(again) == others + {l};
      WeightAdd(weights, others, l);
    }
  }

  // The load a head really carries: its own weight and that of its cell.
  ghost function Load(g: Graph, weights: seq<real>, settled: seq<nat>, cent: seq<int>, heads: seq<nat>, l: nat): real
    requires l < |weights|
  {
    OwnWeight(g, weights, l) + WeightOf(weights, Others(settled, cent, heads, l))
  }

  // The double count errs on the safe side: the real load is no more than ballWeight.
  lemma LoadWithinBallWeight(g: Graph, weights: seq<real>, settled: seq<nat>, cent: seq<int>, heads: seq<nat>, l: nat)
    requires Partitioned(g, settled, cent, heads) && |weights| == g.size && l in heads && NonNegative(weights)
    ensures AllBelow(RepresentedTwice(g, settled, cent, Elems(heads), l), |weights|)
    ensures Load(g, weights, settled, cent, heads, l)
         <= SumSeq(weights, RepresentedTwice(g, settled, cent, Elems(heads), l))
  {
    BallWeightCountsTwice(g, weights, settled, cent, heads, l);
    SumBelowNonNegative(weights, Others(settled, cent, heads, l), |weights|);
  }

  // -------------------------------------------------------------------------
  // Totals over all heads

  ghost function TotalBallWeight(g: Graph, weights: seq<real>, settled: seq<nat>, cent: seq<int>, heads: seq<nat>,
                                 n: nat): real
    requires Partitioned(g, settled, cent, heads) && |weights| == g.size && n <= |heads|
  {
    if n == 0 then 0.0
    else
      RepresentedBelow(g, settled, cent, heads, heads[n - 1]);
      TotalBallWeight(g, weights, settled, cent, heads, n - 1)
        + SumSeq(weights, RepresentedTwice(g, settled, cent, Elems(heads), heads[n - 1]))
  }

  // The settled non-heads whose head is among the first n.
  ghost function Covered(settled: seq<nat>, cent: seq<int>, heads: seq<nat>, n: nat): set<nat>
    requires n <= |heads|
  {
    set v | v in settled && v !in heads && v < |cent| && cent[v] >= 0 && cent[v] in heads[..n]
  }

  ghost function NonSink(g: Graph): set<nat> {
    Elems(g.NodesExceptSink())
  }

  lemma OwnWeightsGrow(g: Graph, weights: seq<real>, heads: seq<nat>, n: nat)
    requires NoDup(heads) && AllBelow(heads, g.size) && |weights| == g.size && 0 < n <= |heads|
    ensures WeightOf(weights, Elems(heads[..n]) * NonSink(g))
         == WeightOf(weights, Elems(heads[..n - 1]) * NonSink(g)) + OwnWeight(g, weights, heads[n - 1])
  {
    var l := heads[n - 1];
    assert l !in heads[..n - 1];
    assert heads[..n] == heads[..n - 1] + [l];
    var before, after := Elems(heads[..n - 1]) * NonSink(g), Elems(heads[..n]) * NonSink(g);
    if l == g.sink {
      assert after == before;
    } else {
      assert after == before + {l};
      WeightAdd(weights, before, l);
    }
  }

  lemma {:induction false} PartialTotal(g: Graph, weights: seq<real>, settled: seq<nat>, cent: seq<int>,
                                        heads: seq<nat>, n: nat)
    requires Partitioned(g, settled, cent, heads) && |weights| == g.size && n <= |heads|
    ensures TotalBallWeight(g, weights, settled, cent, heads, n)
         == WeightOf(weights, Elems(heads[..n]) * NonSink(g))
            + 2.0 * WeightOf(weights, Covered(settled, cent, heads, n))
  {
    if n == 0 {
      assert Elems(heads[..0]) * NonSink(g) == {};
      assert Covered(settled, cent, heads, 0) == {};
      SumBelowEmpty(weights, |weights|);
    } else {
      var l := heads[n - 1];
      PartialTotal(g, weights, settled, cent, heads, n - 1);
      BallWeightCountsTwice(g, weights, settled, cent, heads, l);
      CoveredGrows(g, settled, cent, heads, n);
      SumBelowUnion(weights, Covered(settled, cent, heads, n - 1), Others(settled, cent, heads, l), |weights|);
      OwnWeightsGrow(g, weights, heads, n);
    }
  }

  lemma CoveredGrows(g: Graph, settled: seq<nat>, cent: seq<int>, heads: seq<nat>, n: nat)
    requires Partitioned(g, settled, cent, heads) && 0 < n <= |heads|
    ensures Covered(settled, cent, heads, n)
         == Covered(settled, cent, heads, n - 1) + Others(settled, cent, heads, heads[n - 1])
    ensures Covered(settled, cent, heads, n - 1) !! Others(settled, cent, heads, heads[n - 1])
  {
    var l := heads[n - 1];
    assert heads[..n] == heads[..n - 1] + [l];
    assert l !in heads[..n - 1];
    forall v: nat ensures v in Others(settled, cent, heads, l) <==> v in settled && v !in heads && cent[v] == l {
      ListsPartition(g, settled, cent, heads, l, v);
    }
  }

  // Conservation: summed over all heads, ballWeight is twice the weight of the non-sink
  // nodes less the weight of the non-sink heads.
  lemma BallWeightsConserve(g: Graph, weights: seq<real>, settled: seq<nat>, cent: seq<int>, heads: seq<nat>)
    requires Partitioned(g, settled, cent, heads) && |weights| == g.size
    ensures TotalBallWeight(g, weights, settled, cent, heads, |heads|)
         == 2.0 * WeightOf(weights, NonSink(g)) - WeightOf(weights, Elems(heads) * NonSink(g))
  {
    PartialTotal(g, weights, settled, cent, heads, |heads|);
    assert heads[..|heads|] == heads;
    var own, rest := Elems(heads) * NonSink(g), Covered(settled, cent, heads, |heads|);
    forall v ensures v in NonSink(g) <==> v in own + rest {
      if v in NonSink(g) && v !in heads {
        assert v in settled;
        assert cent[v] >= 0 && cent[v] in heads;
      }
    }
    assert NonSink(g) == own + rest;
    SumBelowUnion(weights, own, rest, |weights|);
  }

  lemma {:induction false} TotalWithin(g: Graph, weights: seq<real>, settled: seq<nat>, cent: seq<int>,
                                       heads: seq<nat>, capacity: seq<real>, n: nat)
    requires Partitioned(g, settled, cent, heads) && |weights| == g.size == |capacity| && n <= |heads|
    requires forall l :: l in heads ==>
               AllBelow(RepresentedTwice(g, settled, cent, Elems(heads), l), |weights|)
               && SumSeq(weights, RepresentedTwice(g, settled, cent, Elems(heads), l)) <= capacity[l]
    ensures AllBelow(heads[..n], |capacity|)
    ensures TotalBallWeight(g, weights, settled, cent, heads, n) <= SumSeq(capacity, heads[..n])
  {
    if n > 0 {
      TotalWithin(g, weights, settled, cent, heads, capacity, n - 1);
      assert heads[..n] == heads[..n - 1] + [heads[n - 1]];
      SumSeqSnoc(capacity, heads[..n - 1], heads[n - 1]);
      assert heads[n - 1] in heads;
    }
  }

  // When every ball fits, the heads together can carry the double-counted load.
  lemma FittingNeedsCapacity(g: Graph, weights: seq<real>, settled: seq<nat>, cent: seq<int>, heads: seq<nat>,
                             capacity: seq<real>)
    requires Partitioned(g, settled, cent, heads) && |weights| == g.size == |capacity|
    requires forall l :: l in heads ==>
               AllBelow(RepresentedTwice(g, settled, cent, Elems(heads), l), |weights|)
               && SumSeq(weights, RepresentedTwice(g, settled, cent, Elems(heads), l)) <= capacity[l]
    ensures 2.0 * WeightOf(weights, NonSink(g)) - WeightOf(weights, Elems(heads) * NonSink(g))
         <= SumSeq(capacity, heads)
  {
    BallWeightsConserve(g, weights, settled, cent, heads);
    TotalWithin(g, weights, settled, cent, heads, capacity, |heads|);
    assert heads[..|heads|] == heads;
  }
}
