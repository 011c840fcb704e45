// What a finished search knows: reachability and real paths for any pop order,
// distances when every pop is a least one.

module Distances {
  import opened Sequences
  import opened Network
  import opened Searching

  // The queue has run empty.
  ghost predicate Finished(P: Problem, S: State, extractMin: bool) {
    Inv(P, S, Degree(P, S), extractMin) && S.queue == multiset{}
  }

  // What holds for any pop order holds for least pops too.
  lemma AnyOrder(P: Problem, S: State, extractMin: bool)
    requires Finished(P, S, extractMin)
    ensures Finished(P, S, false)
  {
  }

  // No push is ever pruned.
  ghost predicate Unpruned(P: Problem) {
    forall v :: 0 <= v < |P.bound| ==> P.bound[v] == P.infinity
  }

  const EPSILON := 0.0001

  // The search of growBalls: relaxation up to the tolerance EPSILON, nothing pruned.
  ghost function Growing(g: Graph, heads: set<nat>, infinity: real): Problem {
    Problem(g, heads, EPSILON, seq(g.size, _ => infinity), infinity)
  }

  lemma Tolerance(hops: nat)
    ensures Span(hops, EPSILON) == hops as real * 0.0001
  {
    SpanIsProduct(hops, EPSILON);
  }

  // The settled nodes that carry the same root as v.
  ghost function CellOf(S: State, root: int): set<nat> {
    set x | x in S.order && x < |S.root| && S.root[x] == root
  }

  ghost predicate CellPath(P: Problem, S: State, v: nat, p: Path) {
    && v < |S.root| && v < |S.labels|
    && p.Valid(P.g) && p.node == v && p.Source() == S.root[v] && p.Source() in P.sources
    && p.Length(P.g) == S.labels[v]
    && p.Inside(CellOf(S, S.root[v]))
  }

  lemma StartState(P: Problem, S: State, extractMin: bool)
    requires P.WellPosed() && Shape(P, S) && S.order == []
    requires forall v :: v in S.queue ==> v in P.sources
    requires forall v :: 0 <= v < P.g.size && v !in P.sources && v != P.g.sink ==> S.labels[v] >= P.bound[v]
    ensures Inv(P, S, 0, extractMin) && Degree(P, S) == 0
  {
  }

  // For any pop order: each settled node has a real path to it from its root, of
  // exactly the length in its label, that never leaves the root's cell.
  lemma {:induction false} SettledHasPath(P: Problem, S: State, k: nat, extractMin: bool, i: nat) returns (p: Path)
    requires Inv(P, S, k, extractMin) && i < |S.order|
    ensures CellPath(P, S, S.order[i], p)
    decreases i
  {
    var v := S.order[i];
    if v in P.sources {
      p := At(v);
    } else {
      assert HasParent(P, S, S.order[i], i);
      var j :| 0 <= j < i && ParentAt(P, S, v, j);
      var q := SettledHasPath(P, S, k, extractMin, j);
      p := Then(q, v);
    }
  }

  // For any pop order: a settled node that is no source hangs on an earlier settled
  // neighbour in the same cell, one edge nearer to their head.
  lemma EarlierNeighbour(P: Problem, S: State, k: nat, extractMin: bool, i: nat) returns (j: nat)
    requires Inv(P, S, k, extractMin) && i < |S.order| && S.order[i] !in P.sources
    ensures j < i && P.g.Edge(S.order[j], S.order[i]) && S.order[i] < |S.root| == |S.labels| && S.order[j] < |S.root|
    ensures S.root[S.order[j]] == S.root[S.order[i]]
    ensures S.labels[S.order[i]] == S.labels[S.order[j]] + P.g.length(S.order[j], S.order[i])
  {
    assert HasParent(P, S, S.order[i], i);
    j :| 0 <= j < i && ParentAt(P, S, S.order[i], j);
  }

  lemma {:induction false} SpanMonotone(m: nat, n: nat, radius: real)
    requires m <= n && radius >= 0.0
    ensures Span(m, radius) <= Span(n, radius)
    decreases n
  {
    if m < n {
      SpanMonotone(m, n - 1, radius);
    }
  }

  // Labels of settled nodes stay far enough below infinity to be relaxed from.
  lemma SettledLabel(P: Problem, S: State, k: nat, extractMin: bool, u: nat)
    requires Inv(P, S, k, extractMin) && u in S.order
    ensures 0.0 <= S.labels[u] && S.labels[u] + P.g.radius + P.slack < P.infinity
  {
    var i :| 0 <= i < |S.order| && S.order[i] == u;
    NoDupBounded(S.order, P.g.size);
    SpanMonotone(i + 1, P.g.size, P.g.radius);
  }

  // An edge out of a settled node that stays unsettled at the end was pruned.
  lemma LeavingEdge(P: Problem, S: State, extractMin: bool, u: nat, v: nat)
    requires Finished(P, S, extractMin) && u in S.order && P.g.Edge(u, v) && v !in S.order
    ensures P.bound[v] <= S.labels[v] <= S.labels[u] + P.g.length(u, v) + P.slack
  {
    var i :| 0 <= i < |S.order| && S.order[i] == u;
    LeavingRelaxed(P, S, i, v);
    assert !Touched(S, v);
  }

  // For any pop order: what an unpruned search settles is closed under edges ...
  lemma {:induction false} ReachableIsSettled(P: Problem, S: State, extractMin: bool, p: Path)
    requires Finished(P, S, extractMin) && Unpruned(P)
    requires p.Valid(P.g) && p.Source() in P.sources
    ensures p.node in S.order
  {
    if p.At? {
      assert Touched(S, p.node);
    } else {
      ReachableIsSettled(P, S, extractMin, p.front);
      if p.node !in S.order {
        LeavingEdge(P, S, extractMin, p.front.node, p.node);
        SettledLabel(P, S, Degree(P, S), extractMin, p.front.node);
      }
    }
  }

  // ... so it settles exactly the nodes reachable from the sources.
  lemma SettlesExactlyReachable(P: Problem, S: State, extractMin: bool, v: nat)
    requires Finished(P, S, extractMin) && Unpruned(P)
    ensures v in S.order <==> Reachable(P.g, P.sources, v)
  {
    if v in S.order {
      var i :| 0 <= i < |S.order| && S.order[i] == v;
      var p := SettledHasPath(P, S, Degree(P, S), extractMin, i);
    }
    if Reachable(P.g, P.sources, v) {
      var p: Path :| p.Valid(P.g) && p.Source() in P.sources && p.node == v;
      ReachableIsSettled(P, S, extractMin, p);
    }
  }

  // What the invariant says of an edge to a node settled later ...
  lemma EarlierEdge(P: Problem, S: State, k: nat, extractMin: bool, i: nat, j: nat)
    requires Inv(P, S, k, extractMin) && i < j < |S.order| && P.g.Edge(S.order[i], S.order[j])
    ensures EdgeRelaxed(P, S, S.order[i], S.order[j])
  {
    hide Forest, RelaxedOut, Sorted;
  }

  // ... and, with least pops, of the labels of two settled nodes.
  lemma EarlierIsNearer(P: Problem, S: State, k: nat, i: nat, j: nat)
    requires Inv(P, S, k, true) && i < j < |S.order|
    ensures S.order[i] < |S.labels| && S.order[j] < |S.labels| && S.labels[S.order[i]] <= S.labels[S.order[j]]
  {
    hide Forest, RelaxedOut, RelaxedInside;
  }

  // With least pops every edge between settled nodes is relaxed, whichever end came first.
  lemma SettledEdge(P: Problem, S: State, u: nat, v: nat)
    requires Finished(P, S, true) && u in S.order && v in S.order && P.g.Edge(u, v)
    ensures S.labels[v] <= S.labels[u] + P.g.length(u, v) + P.slack
  {
    var i :| 0 <= i < |S.order| && S.order[i] == u;
    var j :| 0 <= j < |S.order| && S.order[j] == v;
    if i < j {
      EarlierEdge(P, S, Degree(P, S), true, i, j);
    } else if j < i {
      EarlierIsNearer(P, S, Degree(P, S), j, i);
    }
  }

  // Every edge from a settled node back to one settled earlier is relaxed too.
  ghost predicate BackRelaxed(P: Problem, S: State) {
    forall i, j :: 0 <= i < j < |S.order| && P.g.Edge(S.order[j], S.order[i]) ==>
      EdgeRelaxed(P, S, S.order[j], S.order[i])
  }

  lemma {:induction false} BackRelaxedLabels(P: Problem, S: State, p: Path)
    requires Finished(P, S, false) && Unpruned(P) && BackRelaxed(P, S)
    requires p.Valid(P.g) && p.Source() in P.sources
    ensures p.node in S.order && p.node < |S.labels| && S.labels[p.node] <= p.Cost(P.g, P.slack)
  {
    hide Inv, BackRelaxed;
    FinishedFacts(P, S);
    ReachableIsSettled(P, S, false, p);
    if p.Then? {
      BackRelaxedLabels(P, S, p.front);
      var i :| 0 <= i < |S.order| && S.order[i] == p.front.node;
      var j :| 0 <= j < |S.order| && S.order[j] == p.node;
      if i < j {
        EarlierEdge(P, S, Degree(P, S), false, i, j);
      } else if j < i {
        BackEdge(P, S, j, i);
      }
    }
  }

  lemma BackEdge(P: Problem, S: State, i: nat, j: nat)
    requires BackRelaxed(P, S) && i < j < |S.order| && P.g.Edge(S.order[j], S.order[i])
    ensures EdgeRelaxed(P, S, S.order[j], S.order[i])
  {
  }

  lemma FinishedFacts(P: Problem, S: State)
    requires Finished(P, S, false)
    ensures P.g.Valid() && P.slack >= 0.0 && Shape(P, S)
    ensures forall v :: v in P.sources ==> v < |S.labels| && S.labels[v] == 0.0
  {
  }

  // For any order of pops, without tolerance: the labels are the distances if and only if
  // every edge back is relaxed.
  lemma LabelsExactIff(P: Problem, S: State)
    requires Finished(P, S, false) && Unpruned(P) && P.slack == 0.0
    ensures |S.labels| == P.g.size && AllBelow(S.order, P.g.size)
    ensures BackRelaxed(P, S) <==> forall v :: v in S.order ==> IsDistance(P.g, P.sources, v, S.labels[v])
  {
    hide Inv, BackRelaxed, IsDistance;
    FinishedFacts(P, S);
    if BackRelaxed(P, S) {
      forall v | v in S.order ensures IsDistance(P.g, P.sources, v, S.labels[v]) {
        BackRelaxedIsExact(P, S, v);
      }
    }
    if forall v :: v in S.order ==> IsDistance(P.g, P.sources, v, S.labels[v]) {
      ExactIsBackRelaxed(P, S);
    }
  }

  lemma BackRelaxedIsExact(P: Problem, S: State, v: nat)
    requires Finished(P, S, false) && Unpruned(P) && P.slack == 0.0 && BackRelaxed(P, S)
    requires v in S.order && v < |S.labels|
    ensures IsDistance(P.g, P.sources, v, S.labels[v])
  {
    hide Inv, BackRelaxed;
    var i :| 0 <= i < |S.order| && S.order[i] == v;
    var p := SettledHasPath(P, S, Degree(P, S), false, i);
    forall q: Path | q.Valid(P.g) && q.Source() in P.sources && q.node == v
      ensures S.labels[v] <= q.Length(P.g)
    {
      BackRelaxedLabels(P, S, q);
    }
  }

  lemma ExactIsBackRelaxed(P: Problem, S: State)
    requires Finished(P, S, false) && P.slack == 0.0 && |S.labels| == P.g.size && AllBelow(S.order, P.g.size)
    requires forall v :: v in S.order ==> IsDistance(P.g, P.sources, v, S.labels[v])
    ensures BackRelaxed(P, S)
  {
    hide Inv;
    forall i, j | 0 <= i < j < |S.order| && P.g.Edge(S.order[j], S.order[i])
      ensures EdgeRelaxed(P, S, S.order[j], S.order[i])
    {
      var u, v := S.order[j], S.order[i];
      assert IsDistance(P.g, P.sources, u, S.labels[u]) && IsDistance(P.g, P.sources, v, S.labels[v]);
      var p: Path :| p.Valid(P.g) && p.Source() in P.sources && p.node == u && p.Length(P.g) == S.labels[u];
      var q := Then(p, v);
      assert q.Valid(P.g) && q.Source() in P.sources && q.node == v;
      assert q.Length(P.g) == S.labels[u] + P.g.length(u, v);
    }
  }

  // Away from the sink, which no edge enters, the bounds grow by at most an edge
  // length and tolerance along every edge.
  ghost predicate Smooth(P: Problem, tolerance: real) {
    forall u: nat, v: nat :: P.g.Edge(u, v) && u != P.g.sink && u < |P.bound| && v < |P.bound| ==>
      P.bound[v] <= P.bound[u] + P.g.length(u, v) + tolerance
  }

  // The core of Dijkstra's algorithm, with tolerance and pruning at once: along any
  // path that stays below the bound of its end, nothing is lost, and the label is no
  // more than the path's length plus the slack per hop.
  lemma {:induction false} PathBelowBound(P: Problem, S: State, tolerance: real, p: Path)
    requires Finished(P, S, true) && tolerance >= 0.0 && Smooth(P, tolerance)
    requires p.Valid(P.g) && p.Source() in P.sources && p.node < |P.bound|
    requires p.At? || p.Cost(P.g, P.slack + tolerance) < P.bound[p.node]
    ensures p.node in S.order && S.labels[p.node] <= p.Cost(P.g, P.slack)
  {
    if p.At? {
      assert Touched(S, p.node);
    } else {
      var w, v := p.front.node, p.node;
      PathFacts(P.g, p.front, 0.0);
      PathBelowBound(P, S, tolerance, p.front);
      if v !in S.order {
        LeavingEdge(P, S, true, w, v);
        CostGrows(P.g, p.front, P.slack, P.slack + tolerance);
      } else {
        SettledEdge(P, S, w, v);
      }
    }
  }

  lemma {:induction false} CostGrows(g: Graph, p: Path, low: real, high: real)
    requires low <= high
    ensures p.Cost(g, low) <= p.Cost(g, high)
  {
    if p.Then? {
      CostGrows(g, p.front, low, high);
    }
  }

  lemma LabelBelowCost(P: Problem, S: State, p: Path)
    requires Finished(P, S, true) && Unpruned(P)
    requires p.Valid(P.g) && p.Source() in P.sources
    ensures p.node in S.order && S.labels[p.node] <= p.Cost(P.g, P.slack)
  {
    ReachableIsSettled(P, S, true, p);
    if p.Cost(P.g, P.slack) < P.infinity {
      assert Smooth(P, 0.0);
      PathBelowBound(P, S, 0.0, p);
    } else {
      SettledLabel(P, S, Degree(P, S), true, p.node);
    }
  }

  // An unpruned search with least pops: on every path from a source, of h hops,
  // dist <= label <= length + h * slack.
  lemma LabelUpperBound(P: Problem, S: State, p: Path)
    requires Finished(P, S, true) && Unpruned(P)
    requires p.Valid(P.g) && p.Source() in P.sources
    ensures p.node in S.order
    ensures S.labels[p.node] <= p.Length(P.g) + Span(p.Hops(), P.slack)
  {
    LabelBelowCost(P, S, p);
    CostIsLengthPlusHops(P.g, p, P.slack);
  }

  // Without tolerance the labels are the distances from the set of sources.
  lemma LabelsAreDistances(P: Problem, S: State, v: nat)
    requires Finished(P, S, true) && Unpruned(P) && P.slack == 0.0 && v in S.order
    ensures IsDistance(P.g, P.sources, v, S.labels[v])
  {
    var i :| 0 <= i < |S.order| && S.order[i] == v;
    var p := SettledHasPath(P, S, Degree(P, S), true, i);
    forall q: Path | q.Valid(P.g) && q.Source() in P.sources && q.node == v
      ensures S.labels[v] <= q.Length(P.g)
    {
      LabelBelowCost(P, S, q);
    }
  }
}
