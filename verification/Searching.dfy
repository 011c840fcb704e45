// The theory shared by the three Dijkstra loops of the planner: growBalls (many
// sources, tolerance in the relaxation), computeClusterWeight (one source, pushes
// pruned by a bound per node) and the ball search of TZ_sample2 (one source,
// stopped early). A search state is what the loops keep in their vectors, queue
// and removedSet; order lists removedSet in the order the nodes were settled.

module Searching {
  import opened Sequences
  import opened Network

  // slack is the relaxation tolerance, bound[v] the key below which v may be
  // queued, infinity the initial label DBL_MAX.
  datatype Problem = Problem(g: Graph, sources: set<nat>, slack: real, bound: seq<real>, infinity: real)
  {
    ghost predicate WellPosed() {
      && g.Valid()
      && 0.0 <= slack
      && |bound| == g.size
      && (forall s :: s in sources ==> s < g.size)
      && (forall v :: 0 <= v < g.size ==> bound[v] <= infinity)
      && Span(g.size, g.radius) + slack < infinity
    }
  }

  datatype State = State(labels: seq<real>, root: seq<int>, order: seq<nat>, queue: multiset<nat>)

  ghost predicate Touched(S: State, v: nat) {
    v in S.order || v in S.queue
  }

  ghost predicate Shape(P: Problem, S: State) {
    && |S.labels| == P.g.size && |S.root| == P.g.size
    && NoDup(S.order) && AllBelow(S.order, P.g.size)
    && (forall v :: v in S.queue ==> v < P.g.size)
    && (forall s :: s in P.sources ==> Touched(S, s) && S.labels[s] == 0.0 && S.root[s] == s)
  }

  // The label and root of v come over an edge from the j-th settled node.
  ghost predicate ParentAt(P: Problem, S: State, v: nat, j: int)
    requires Shape(P, S) && v < P.g.size && 0 <= j < |S.order|
  {
    && P.g.Edge(S.order[j], v)
    && S.labels[v] == S.labels[S.order[j]] + P.g.length(S.order[j], v)
    && S.root[v] == S.root[S.order[j]]
  }

  // ... for some j below n.
  ghost predicate HasParent(P: Problem, S: State, v: nat, n: int)
    requires Shape(P, S) && v < P.g.size && n <= |S.order|
  {
    exists j :: 0 <= j < n && ParentAt(P, S, v, j)
  }

  // Every non-source that was reached hangs on a node settled before it.
  ghost predicate Rooted(P: Problem, S: State)
    requires Shape(P, S)
  {
    && (forall i {:trigger HasParent(P, S, S.order[i], i)} ::
          0 <= i < |S.order| && S.order[i] !in P.sources ==> HasParent(P, S, S.order[i], i))
    && (forall v {:trigger HasParent(P, S, v, |S.order|)} ::
          v in S.queue && v !in P.sources ==> HasParent(P, S, v, |S.order|))
  }

  // Exactly the nodes with a label below their bound were ever queued.
  ghost predicate Pruned(P: Problem, S: State)
    requires Shape(P, S) && |P.bound| == P.g.size
  {
    forall v :: 0 <= v < P.g.size && v !in P.sources && v != P.g.sink ==>
      (S.labels[v] < P.bound[v] <==> Touched(S, v))
  }

  // Labels never exceed the span of the nodes settled so far.
  ghost predicate Bounded(P: Problem, S: State)
    requires Shape(P, S)
  {
    && (forall i :: 0 <= i < |S.order| ==> 0.0 <= S.labels[S.order[i]] <= Span(i, P.g.radius))
    && (forall v :: v in S.queue ==> 0.0 <= S.labels[v] <= Span(|S.order|, P.g.radius))
  }

  // The relaxation of u -> v was done, and the label of v only fell since.
  ghost predicate EdgeRelaxed(P: Problem, S: State, u: nat, v: nat)
  {
    u < |S.labels| && v < |S.labels| && S.labels[v] <= S.labels[u] + P.g.length(u, v) + P.slack
  }

  // Every edge from a settled node to one settled later is relaxed.
  ghost predicate RelaxedInside(P: Problem, S: State)
    requires Shape(P, S)
  {
    forall i, j :: 0 <= i < j < |S.order| && P.g.Edge(S.order[i], S.order[j]) ==>
      EdgeRelaxed(P, S, S.order[i], S.order[j])
  }

  // The first k neighbours of u are settled or relaxed from u.
  ghost predicate FirstRelaxed(P: Problem, S: State, u: nat, k: nat)
    requires u < |P.g.adj|
  {
    forall m: nat :: m < k && m < |P.g.adj[u]| ==> P.g.adj[u][m] in S.order || EdgeRelaxed(P, S, u, P.g.adj[u][m])
  }

  // Every edge that leaves the settled nodes is relaxed too; of the node settled last
  // only the first k neighbours were looked at.
  ghost predicate RelaxedOut(P: Problem, S: State, k: nat)
    requires Shape(P, S) && P.g.Valid()
  {
    && (forall i: nat, v: nat :: i < |S.order| - 1 && P.g.Edge(S.order[i], v) && v !in S.order ==>
          EdgeRelaxed(P, S, S.order[i], v))
    && (S.order != [] ==> FirstRelaxed(P, S, S.order[|S.order| - 1], k))
  }

  // Nodes were settled by increasing label, and none in the queue is smaller.
  ghost predicate Sorted(P: Problem, S: State)
    requires Shape(P, S)
  {
    && (forall i, j :: 0 <= i < j < |S.order| ==> S.labels[S.order[i]] <= S.labels[S.order[j]])
    && (forall i, v :: 0 <= i < |S.order| && v in S.queue && v !in S.order ==> S.labels[S.order[i]] <= S.labels[v])
  }

  // The settled and queued nodes form trees hanging off the sources.
  ghost predicate Forest(P: Problem, S: State)
    requires Shape(P, S) && P.WellPosed()
  {
    Rooted(P, S) && Pruned(P, S) && Bounded(P, S)
  }

  ghost predicate Frontier(P: Problem, S: State, k: nat, extractMin: bool)
    requires Shape(P, S) && P.WellPosed()
  {
    RelaxedInside(P, S) && RelaxedOut(P, S, k) && (extractMin ==> Sorted(P, S))
  }

  // The loop invariant. extractMin says that every pop so far returned a least key.
  ghost predicate Inv(P: Problem, S: State, k: nat, extractMin: bool) {
    P.WellPosed() && Shape(P, S) && Forest(P, S) && Frontier(P, S, k, extractMin)
  }

  // How many neighbours of the node settled last there are.
  ghost function Degree(P: Problem, S: State): nat {
    if S.order == [] || S.order[|S.order| - 1] >= |P.g.adj| then 0 else |P.g.adj[S.order[|S.order| - 1]]|
  }

  // -------------------------------------------------------------------------
  // The steps of the loops

  // Popping a node that is settled already changes nothing else.
  ghost function DropStale(S: State, u: nat): State {
    S.(queue := S.queue - multiset{u})
  }

  ghost function Settle(S: State, u: nat): State {
    S.(queue := S.queue - multiset{u}, order := S.order + [u])
  }

  // Looking at the edge from u to v, as line 264-270 and 324-328 do.
  ghost function Relax(P: Problem, S: State, u: nat, v: nat): State
    requires u < |S.labels| && v < |S.labels| && |S.root| == |S.labels| == |P.bound|
  {
    var alt := S.labels[u] + P.g.length(u, v);
    if v in S.order || !(alt - S.labels[v] < -P.slack) then S
    else S.(labels := S.labels[v := alt], root := S.root[v := S.root[u]],
            queue := if alt < P.bound[v] then S.queue + multiset{v} else S.queue)
  }

  // A parent stays a parent while the labels involved stay as they are.
  lemma ParentKept(P: Problem, S: State, T: State, v: nat, n: int)
    requires Shape(P, S) && Shape(P, T) && v < P.g.size && n <= |S.order|
    requires HasParent(P, S, v, n)
    requires S.order <= T.order
    requires forall x :: x in S.order || x == v ==> x < P.g.size && S.labels[x] == T.labels[x] && S.root[x] == T.root[x]
    ensures HasParent(P, T, v, n)
  {
    var j :| 0 <= j < n && ParentAt(P, S, v, j);
    assert S.order[j] in S.order && T.order[j] == S.order[j];
    assert ParentAt(P, T, v, j);
  }

  // The parts of the invariant when only stale entries leave the queue.
  lemma RootedKept(P: Problem, S: State, T: State)
    requires Shape(P, S) && Shape(P, T) && Rooted(P, S)
    requires S.order == T.order && S.labels == T.labels && S.root == T.root
    requires forall v :: v in T.queue ==> v in S.queue
    ensures Rooted(P, T)
  {
    forall i | 0 <= i < |T.order| && T.order[i] !in P.sources
      ensures HasParent(P, T, T.order[i], i)
    {
      ParentKept(P, S, T, S.order[i], i);
    }
    forall v | v in T.queue && v !in P.sources
      ensures HasParent(P, T, v, |T.order|)
    {
      ParentKept(P, S, T, v, |S.order|);
    }
  }

  lemma RelaxedKept(P: Problem, S: State, T: State, k: nat)
    requires P.WellPosed() && Shape(P, S) && Shape(P, T)
    requires T.order == S.order && T.labels == S.labels
    requires RelaxedInside(P, S) && RelaxedOut(P, S, k)
    ensures RelaxedInside(P, T) && RelaxedOut(P, T, k)
  {
  }

  lemma RestKept(P: Problem, S: State, T: State, extractMin: bool)
    requires P.WellPosed() && Shape(P, S) && Shape(P, T)
    requires T.order == S.order && T.labels == S.labels
    requires Pruned(P, S) && Bounded(P, S) && (extractMin ==> Sorted(P, S))
    requires forall v :: v in T.queue ==> v in S.queue
    requires forall v :: Touched(S, v) <==> Touched(T, v)
    ensures Pruned(P, T) && Bounded(P, T) && (extractMin ==> Sorted(P, T))
  {
  }

  lemma DropStaleKeeps(P: Problem, S: State, k: nat, u: nat, extractMin: bool)
    requires Inv(P, S, k, extractMin)
    requires u in S.queue && u in S.order
    ensures Inv(P, DropStale(S, u), k, extractMin)
  {
    var T := DropStale(S, u);
    assert forall v :: v in T.queue ==> v in S.queue;
    assert forall v :: Touched(S, v) <==> Touched(T, v);
    RootedKept(P, S, T);
    RelaxedKept(P, S, T, k);
    RestKept(P, S, T, extractMin);
  }

  // ---- settling the popped node

  // With all neighbours of the last node looked at, every edge that leaves is relaxed.
  lemma LeavingRelaxed(P: Problem, S: State, i: nat, v: nat)
    requires P.WellPosed() && Shape(P, S) && RelaxedOut(P, S, Degree(P, S))
    requires i < |S.order| && P.g.Edge(S.order[i], v) && v !in S.order
    ensures EdgeRelaxed(P, S, S.order[i], v)
  {
    if i == |S.order| - 1 {
      var m :| 0 <= m < |P.g.adj[S.order[i]]| && P.g.adj[S.order[i]][m] == v;
    }
  }

  lemma SettleShape(P: Problem, S: State, u: nat)
    requires P.WellPosed() && Shape(P, S) && u in S.queue && u !in S.order
    ensures Shape(P, Settle(S, u))
    ensures forall v :: Touched(S, v) <==> Touched(Settle(S, u), v)
    ensures forall v :: v in Settle(S, u).queue ==> v in S.queue
  {
    NoDupSnoc(S.order, u);
    var T := Settle(S, u);
    forall v ensures Touched(S, v) <==> Touched(T, v) {
      assert v in T.order <==> v in S.order || v == u;
    }
  }

  lemma SettleRooted(P: Problem, S: State, u: nat)
    requires P.WellPosed() && Shape(P, S) && Rooted(P, S) && u in S.queue
    requires Shape(P, Settle(S, u))
    ensures Rooted(P, Settle(S, u))
  {
    var T := Settle(S, u);
    forall i | 0 <= i < |T.order| && T.order[i] !in P.sources
      ensures HasParent(P, T, T.order[i], i)
    {
      ParentKept(P, S, T, T.order[i], i);
    }
    forall v | v in T.queue && v !in P.sources
      ensures HasParent(P, T, v, |T.order|)
    {
      assert v in S.queue;
      ParentKept(P, S, T, v, |S.order|);
      var j :| 0 <= j < |S.order| && ParentAt(P, T, v, j);
    }
  }

  lemma SettleRelaxed(P: Problem, S: State, u: nat)
    requires P.WellPosed() && Shape(P, S) && Shape(P, Settle(S, u)) && u !in S.order
    requires RelaxedInside(P, S) && RelaxedOut(P, S, Degree(P, S))
    ensures RelaxedInside(P, Settle(S, u)) && RelaxedOut(P, Settle(S, u), 0)
  {
    var T := Settle(S, u);
    forall i, j | 0 <= i < j < |T.order| && P.g.Edge(T.order[i], T.order[j])
      ensures EdgeRelaxed(P, T, T.order[i], T.order[j])
    {
      if j == |S.order| {
        LeavingRelaxed(P, S, i, u);
      } else {
        assert EdgeRelaxed(P, S, S.order[i], S.order[j]);
      }
    }
    forall i: nat, v: nat | i < |T.order| - 1 && P.g.Edge(T.order[i], v) && v !in T.order
      ensures EdgeRelaxed(P, T, T.order[i], v)
    {
      assert v !in S.order;
      LeavingRelaxed(P, S, i, v);
    }
  }

  lemma SettleBounded(P: Problem, S: State, u: nat)
    requires P.WellPosed() && Shape(P, S) && Shape(P, Settle(S, u)) && u in S.queue
    requires Bounded(P, S)
    requires forall v :: v in Settle(S, u).queue ==> v in S.queue
    ensures Bounded(P, Settle(S, u))
  {
    assert Span(|S.order| + 1, P.g.radius) == Span(|S.order|, P.g.radius) + P.g.radius;
  }

  lemma SettleSorted(P: Problem, S: State, u: nat)
    requires Shape(P, S) && Shape(P, Settle(S, u)) && u in S.queue && u !in S.order
    requires Sorted(P, S)
    requires forall v :: v in Settle(S, u).queue ==> v in S.queue
    requires forall v :: v in S.queue ==> S.labels[u] <= S.labels[v]
    ensures Sorted(P, Settle(S, u))
  {
    var T := Settle(S, u);
    forall i, v | 0 <= i < |T.order| && v in T.queue && v !in T.order
      ensures T.labels[T.order[i]] <= T.labels[v]
    {
      assert v in S.queue && v !in S.order;
    }
  }

  lemma SettleKeeps(P: Problem, S: State, u: nat, extractMin: bool)
    requires Inv(P, S, Degree(P, S), extractMin)
    requires u in S.queue && u !in S.order
    requires extractMin ==> forall v :: v in S.queue ==> S.labels[u] <= S.labels[v]
    ensures Inv(P, Settle(S, u), 0, extractMin)
  {
    SettleShape(P, S, u);
    SettleRooted(P, S, u);
    SettleRelaxed(P, S, u);
    SettleBounded(P, S, u);
    if extractMin {
      SettleSorted(P, S, u);
    }
  }

  // ---- looking at one neighbour of the settled node

  // The test of the relaxation succeeds.
  ghost predicate Improves(P: Problem, S: State, u: nat, v: nat) {
    && u < |S.labels| && v < |S.labels| && v !in S.order
    && S.labels[u] + P.g.length(u, v) - S.labels[v] < -P.slack
  }

  // u is the node settled last and has an edge to v.
  ghost predicate LastEdge(P: Problem, S: State, u: nat, v: nat) {
    P.WellPosed() && Shape(P, S) && S.order != [] && u == S.order[|S.order| - 1] && P.g.Edge(u, v)
  }

  lemma RelaxShape(P: Problem, S: State, u: nat, v: nat)
    requires LastEdge(P, S, u, v) && Bounded(P, S) && Improves(P, S, u, v)
    ensures Shape(P, Relax(P, S, u, v)) && v !in P.sources
    ensures forall x :: x in S.queue ==> x in Relax(P, S, u, v).queue
    ensures forall x :: x in Relax(P, S, u, v).queue ==> x in S.queue || x == v
  {
  }

  // S with a new label and root for v, which is not settled.
  ghost predicate Relabelled(P: Problem, S: State, T: State, u: nat, v: nat) {
    && Shape(P, T) && LastEdge(P, S, u, v) && v !in S.order
    && T.order == S.order
    && T.labels == S.labels[v := S.labels[u] + P.g.length(u, v)] && T.root == S.root[v := S.root[u]]
    && (forall x :: x in T.queue ==> x in S.queue || x == v)
  }

  lemma RelaxRootedOrder(P: Problem, S: State, T: State, u: nat, v: nat)
    requires Relabelled(P, S, T, u, v) && Rooted(P, S)
    ensures forall i :: 0 <= i < |T.order| && T.order[i] !in P.sources ==> HasParent(P, T, T.order[i], i)
  {
    forall i | 0 <= i < |T.order| && T.order[i] !in P.sources
      ensures HasParent(P, T, T.order[i], i)
    {
      ParentKept(P, S, T, S.order[i], i);
    }
  }

  lemma RelaxRootedQueue(P: Problem, S: State, T: State, u: nat, v: nat)
    requires Relabelled(P, S, T, u, v) && Rooted(P, S)
    ensures forall x :: x in T.queue && x !in P.sources ==> HasParent(P, T, x, |T.order|)
  {
    forall x | x in T.queue && x !in P.sources
      ensures HasParent(P, T, x, |T.order|)
    {
      if x == v {
        NewParent(P, T, u, v);
      } else {
        ParentKept(P, S, T, x, |S.order|);
      }
    }
  }

  lemma NewParent(P: Problem, T: State, u: nat, v: nat)
    requires LastEdge(P, T, u, v) && v < P.g.size
    requires T.labels[v] == T.labels[u] + P.g.length(u, v) && T.root[v] == T.root[u]
    ensures HasParent(P, T, v, |T.order|)
  {
    assert ParentAt(P, T, v, |T.order| - 1);
  }

  // Labels only fall, and those of settled nodes stay.
  ghost predicate LabelsFell(P: Problem, S: State, T: State)
    requires Shape(P, S) && Shape(P, T)
  {
    && T.order == S.order
    && (forall x :: 0 <= x < P.g.size ==> T.labels[x] <= S.labels[x])
    && (forall x :: x in S.order ==> T.labels[x] == S.labels[x])
  }

  lemma RelaxInside(P: Problem, S: State, T: State)
    requires P.g.Valid() && Shape(P, S) && Shape(P, T) && LabelsFell(P, S, T)
    requires RelaxedInside(P, S)
    ensures RelaxedInside(P, T)
  {
  }

  lemma RelaxFirst(P: Problem, S: State, T: State, u: nat, k: nat)
    requires P.g.Valid() && Shape(P, S) && Shape(P, T) && LabelsFell(P, S, T)
    requires u in S.order && k < |P.g.adj[u]| && FirstRelaxed(P, S, u, k)
    requires P.g.adj[u][k] in S.order || EdgeRelaxed(P, T, u, P.g.adj[u][k])
    ensures FirstRelaxed(P, T, u, k + 1)
  {
    forall m: nat | m < k + 1 && m < |P.g.adj[u]|
      ensures P.g.adj[u][m] in T.order || EdgeRelaxed(P, T, u, P.g.adj[u][m])
    {
      if m < k {
        assert P.g.adj[u][m] in S.order || EdgeRelaxed(P, S, u, P.g.adj[u][m]);
      }
    }
  }

  lemma RelaxOut(P: Problem, S: State, T: State, u: nat, k: nat)
    requires P.g.Valid() && Shape(P, S) && Shape(P, T) && LabelsFell(P, S, T)
    requires S.order != [] && u == S.order[|S.order| - 1] && k < |P.g.adj[u]| && RelaxedOut(P, S, k)
    requires P.g.adj[u][k] in S.order || EdgeRelaxed(P, T, u, P.g.adj[u][k])
    ensures RelaxedOut(P, T, k + 1)
  {
    RelaxFirst(P, S, T, u, k);
    forall i: nat, v: nat | i < |T.order| - 1 && P.g.Edge(T.order[i], v) && v !in T.order
      ensures EdgeRelaxed(P, T, T.order[i], v)
    {
      assert EdgeRelaxed(P, S, S.order[i], v);
    }
  }

  lemma RelaxPruned(P: Problem, S: State, T: State, u: nat, v: nat)
    requires LastEdge(P, S, u, v) && Improves(P, S, u, v) && T == Relax(P, S, u, v)
    requires Pruned(P, S) && Shape(P, T)
    requires forall x :: x in S.queue ==> x in T.queue
    requires forall x :: x in T.queue ==> x in S.queue || x == v
    ensures Pruned(P, T)
  {
    forall x | 0 <= x < P.g.size && x !in P.sources && x != P.g.sink
      ensures T.labels[x] < P.bound[x] <==> Touched(T, x)
    {
      if x != v {
        assert Touched(T, x) <==> Touched(S, x);
      } else {
        assert Touched(S, x) ==> S.labels[x] < P.bound[x];
      }
    }
  }

  lemma RelaxBounded(P: Problem, S: State, T: State, u: nat, v: nat)
    requires LastEdge(P, S, u, v) && Improves(P, S, u, v) && T == Relax(P, S, u, v)
    requires Bounded(P, S) && Shape(P, T)
    requires forall x :: x in T.queue ==> x in S.queue || x == v
    ensures Bounded(P, T)
  {
    assert Span(|S.order|, P.g.radius) == Span(|S.order| - 1, P.g.radius) + P.g.radius;
  }

  lemma RelaxSorted(P: Problem, S: State, T: State, u: nat, v: nat)
    requires LastEdge(P, S, u, v) && Improves(P, S, u, v) && T == Relax(P, S, u, v)
    requires Sorted(P, S) && Shape(P, T)
    requires forall x :: x in T.queue ==> x in S.queue || x == v
    ensures Sorted(P, T)
  {
    assert forall i :: 0 <= i < |S.order| ==> S.labels[S.order[i]] <= S.labels[u];
  }

  lemma RelaxKeeps(P: Problem, S: State, u: nat, k: nat, extractMin: bool)
    requires Inv(P, S, k, extractMin)
    requires S.order != [] && u == S.order[|S.order| - 1] && k < |P.g.adj[u]|
    ensures P.g.adj[u][k] < P.g.size
    ensures Inv(P, Relax(P, S, u, P.g.adj[u][k]), k + 1, extractMin)
  {
    var v := P.g.adj[u][k];
    assert P.g.Edge(u, v);
    if Improves(P, S, u, v) {
      ImproveKeeps(P, S, Relax(P, S, u, v), u, k, extractMin);
    } else {
      assert LabelsFell(P, S, S);
      RelaxOut(P, S, S, u, k);
    }
  }

  lemma ImproveForest(P: Problem, S: State, T: State, u: nat, v: nat)
    requires LastEdge(P, S, u, v) && Improves(P, S, u, v) && T == Relax(P, S, u, v)
    requires Forest(P, S) && Shape(P, T) && Relabelled(P, S, T, u, v)
    requires forall x :: x in S.queue ==> x in T.queue
    ensures Forest(P, T)
  {
    RelaxRootedOrder(P, S, T, u, v);
    RelaxRootedQueue(P, S, T, u, v);
    RelaxPruned(P, S, T, u, v);
    RelaxBounded(P, S, T, u, v);
  }

  lemma ImproveFrontier(P: Problem, S: State, T: State, u: nat, k: nat, extractMin: bool)
    requires P.WellPosed() && Shape(P, S) && Shape(P, T) && LabelsFell(P, S, T)
    requires S.order != [] && u == S.order[|S.order| - 1] && k < |P.g.adj[u]|
    requires Frontier(P, S, k, extractMin)
    requires P.g.adj[u][k] in S.order || EdgeRelaxed(P, T, u, P.g.adj[u][k])
    requires extractMin ==> Sorted(P, T)
    ensures Frontier(P, T, k + 1, extractMin)
  {
    RelaxInside(P, S, T);
    RelaxOut(P, S, T, u, k);
  }

  lemma ImproveKeeps(P: Problem, S: State, T: State, u: nat, k: nat, extractMin: bool)
    requires Inv(P, S, k, extractMin)
    requires S.order != [] && u == S.order[|S.order| - 1] && k < |P.g.adj[u]|
    requires LastEdge(P, S, u, P.g.adj[u][k])
    requires Improves(P, S, u, P.g.adj[u][k]) && T == Relax(P, S, u, P.g.adj[u][k])
    ensures Inv(P, T, k + 1, extractMin)
  {
    var v := P.g.adj[u][k];
    RelaxShape(P, S, u, v);
    ImproveForest(P, S, T, u, v);
    if extractMin {
      RelaxSorted(P, S, T, u, v);
    }
    ImproveFrontier(P, S, T, u, k, extractMin);
  }
}
