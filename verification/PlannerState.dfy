// What the planner's methods say about their vectors, as statements about values: the
// lists of the heads, the marks, the tally of a ball search, the rounds of the balancing
// loop, and the saved configuration. Line numbers are those of Castalia/wu2019/wu2019.cc.

module PlannerState {
  import opened Sequences
  import opened Network
  import opened Searching
  import opened Distances
  import opened Cells
  import opened Peeling
  import opened ClusterSearch
  import opened BallSearch
  import opened Recruiting
  import opened Capacity
  import opened Trajectories
  import opened Bisection

  // The list of every head holds the settled non-heads of its cell.
  ghost predicate ListsOf(n: nat, settled: seq<nat>, roots: seq<int>, heads: seq<nat>, lists: seq<seq<nat>>) {
    |lists| == n &&
    forall l :: l in heads && l < n ==> lists[l] == Represented(settled, roots, Elems(heads), l)
  }

  // Line 261 keeps the lists right when u is settled, marked telling whether it is a head.
  lemma ListsSettle(n: nat, settled: seq<nat>, roots: seq<int>, heads: seq<nat>, lists: seq<seq<nat>>, u: nat,
                    marked: bool)
    requires ListsOf(n, settled, roots, heads, lists)
    requires u < |roots| && 0 <= roots[u] < n && (marked <==> u in heads)
    ensures ListsOf(n, settled + [u], roots, heads, if marked then lists else lists[roots[u] := lists[roots[u]] + [u]])
  {
    forall l | l in heads && l < n {
      RepresentedSettle(settled, roots, Elems(heads), u, l);
    }
  }

  lemma ListsLength(n: nat, settled: seq<nat>, roots: seq<int>, heads: seq<nat>, lists: seq<seq<nat>>)
    requires ListsOf(n, settled, roots, heads, lists)
    ensures |lists| == n
  {
  }

  lemma ListsStand(n: nat, settled: seq<nat>, roots: seq<int>, moved: seq<int>, heads: seq<nat>, lists: seq<seq<nat>>)
    requires ListsOf(n, settled, roots, heads, lists)
    requires |roots| == |moved| && forall v :: v in settled ==> v < |roots| && roots[v] == moved[v]
    ensures ListsOf(n, settled, moved, heads, lists)
  {
    forall l | l in heads && l < n {
      RepresentedMove(settled, roots, moved, Elems(heads), l);
    }
  }

  // How a step of the ball search went.
  datatype Verdict = Exhausted | Overflow | Fits

  // Every node but the sink has one of the heads, and a head has itself.
  ghost predicate Assigns(g: Graph, heads: seq<nat>, cent: seq<int>) {
    && |cent| == g.size && g.sink < g.size && cent[g.sink] == -1
    && (forall v :: 0 <= v < g.size && v != g.sink ==> cent[v] >= 0 && cent[v] in heads)
    && (forall l :: l in heads && l < g.size && l != g.sink ==> cent[l] == l)
  }

  datatype Configuration = Unsaved | Saved(heads: seq<nat>, cent: seq<int>, tours: seq<seq<nat>>)

  lemma ProductNotNegative(a: real, b: real)
    requires a >= 0.0 && b >= 0.0
    ensures a * b >= 0.0
  {
  }

  ghost predicate EnoughRounds(b: Bracket, limit: nat) {
    b.high - b.low <= 0.1 * (limit + 1) as real
  }

  lemma LimitFor(b: Bracket) returns (limit: nat)
    ensures EnoughRounds(b, limit)
  {
    limit := if b.high <= b.low then 0 else ((b.high - b.low) * 10.0).Floor + 1;
  }

  // While the bracket is wider than the tolerance, fewer probes than the limit were made.
  lemma BracketLimit(b: Bracket, probes: seq<Probe>, limit: nat)
    requires Search(b, probes, 0.1) && EnoughRounds(b, limit)
    requires AfterProbes(b, probes).high - AfterProbes(b, probes).low > 0.1
    ensures |probes| < limit
  {
    GapHalves(b, probes, 0.1);
    if |probes| >= limit {
      HalvedVanishes(b.high - b.low, |probes|);
    }
  }

  // Lines 549-552: ballWeight as a vector over all nodes.
  function BallVector(ballWeight: map<nat, real>, n: nat): (temp: seq<real>)
    ensures |temp| == n
  {
    seq(n, i requires 0 <= i < n => if i in ballWeight then ballWeight[i] else 0.0)
  }

  lemma MarksDrop(heads: seq<nat>, marked: seq<bool>, n: nat, u: nat)
    requires Marks(heads, marked, n) && u in heads
    ensures Marks(Without(heads, {u}), marked[u := false], n)
  {
    WithoutNoDup(heads, {u});
    AllBelowSubset(heads, Without(heads, {u}), n);
  }

  // parts holds, head by head, what must be peeled off its list.
  ghost predicate PeeledAll(heads: seq<nat>, lists: seq<seq<nat>>, parts: seq<seq<nat>>, labels: seq<real>,
                            weights: seq<real>, wMax: seq<real>) {
    && |parts| == |heads| && AllBelow(heads, |lists|) && AllBelow(heads, |wMax|)
    && (forall i :: 0 <= i < |heads| ==> Peeled(lists[heads[i]], parts[i], labels, weights, wMax[heads[i]]))
  }

  // The heads recruited by a complete run over the candidates follow the old ones.
  ghost predicate Recruited(c: Setting, before: seq<nat>, after: seq<nat>, candidates: seq<nat>, marked: seq<bool>,
                            log: seq<Round>) {
    var start := Pool(candidates, marked, 3, []);
    && PoolOk(c, start) && Run(c, start, log)
    && After(start, log).candidates == []
    && after == before + After(start, log).heads
  }

  lemma PoolStarts(c: Setting, candidates: seq<nat>, marked: seq<bool>)
    requires AllBelow(candidates, c.g.size) && |marked| == c.g.size == |c.weights| == |c.capacity|
    ensures PoolOk(c, Pool(candidates, marked, 3, []))
  {
  }

  function AtLeast(w: seq<real>, least: real): set<nat> {
    set v: nat | v < |w| && w[v] >= least
  }

  lemma ReachableFromHeads(g: Graph, heads: seq<nat>, v: nat)
    requires Connected(g) && heads != [] && AllBelow(heads, g.size) && v < g.size && v != g.sink
    ensures Reachable(g, Elems(heads), v)
  {
    assert Reachable(g, {heads[0]}, v);
    var p: Path :| p.Valid(g) && p.Source() in {heads[0]} && p.node == v;
    assert p.Source() in Elems(heads);
  }

  lemma AllReachable(g: Graph, heads: seq<nat>)
    requires Connected(g) && heads != [] && AllBelow(heads, g.size)
    ensures forall v: nat :: v < g.size && v != g.sink ==> Reachable(g, Elems(heads), v)
  {
    forall v: nat | v < g.size && v != g.sink ensures Reachable(g, Elems(heads), v) {
      ReachableFromHeads(g, heads, v);
    }
  }

  lemma ShareNotNegative(total: real, n: nat)
    requires total >= 0.0 && n > 0
    ensures total / n as real >= 0.0
  {
  }

  lemma KPositive(w: seq<real>, n: nat, total: real, k: nat)
    requires |w| == n && FirstExceeding(w, ByIndex(n), total, k)
    ensures 1 <= k <= n
  {
  }

  // heads lists the marked nodes below n, each once.
  ghost predicate Marks(heads: seq<nat>, marked: seq<bool>, n: nat) {
    && NoDup(heads) && AllBelow(heads, n) && |marked| == n
    && (forall i: nat :: i < n ==> (marked[i] <==> i in heads))
  }

  // Recruiting keeps the heads the marked nodes, and all of them strong enough.
  lemma RecruitsMarked(heads: seq<nat>, s: Pool, t: Pool, wMax: seq<real>, wMin: real, n: nat)
    requires Marks(heads, s.marked, n) && HeadsFresh(s, t) && |wMax| == n
    requires forall x :: x in s.candidates ==> x in AtLeast(wMax, wMin)
    requires forall l :: l in heads ==> l < n && wMax[l] >= wMin
    ensures Marks(heads + t.heads, t.marked, n)
    ensures forall l :: l in heads + t.heads ==> l < n && wMax[l] >= wMin
  {
    var all := heads + t.heads;
    forall i | 0 <= i < |all| ensures all[i] < n {
      assert i >= |heads| ==> all[i] in t.heads;
    }
    forall i, j | 0 <= i < j < |all| ensures all[i] != all[j] {
      if i < |heads| && j >= |heads| {
        assert all[j] in t.heads && all[i] in heads;
      }
    }
  }

  lemma {:induction false} PeeledBelow(heads: seq<nat>, lists: seq<seq<nat>>, parts: seq<seq<nat>>, labels: seq<real>,
                                       weights: seq<real>, wMax: seq<real>)
    requires |parts| <= |heads| && AllBelow(heads, |lists|) && AllBelow(heads, |wMax|)
    requires forall i :: 0 <= i < |parts| ==> Peeled(lists[heads[i]], parts[i], labels, weights, wMax[heads[i]])
    ensures AllBelow(Joined(parts), |weights|)
  {
    if parts != [] {
      PeeledBelow(heads, lists, parts[..|parts| - 1], labels, weights, wMax);
    }
  }

  lemma DiscardStep(c: Setting, s: Pool, x: nat)
    requires PoolOk(c, s) && x in s.candidates && s.marked[x]
    ensures Enabled(c, s, Discard(x))
    ensures Next(s, Discard(x)) == s.(candidates := Without(s.candidates, {x}))
  {
  }

  // What the ball search keeps of its candidate list: those outside the ball, those
  // inside in the order they were settled, and their weight.
  ghost predicate Tally(weights: seq<real>, all: seq<nat>, ball: seq<nat>, rest: seq<nat>, captured: seq<nat>,
                        size: real) {
    && rest == Without(all, Elems(ball)) && captured == Only(ball, Elems(all))
    && AllBelow(captured, |weights|) && size == SumSeq(weights, captured)
  }

  lemma TallySplits(weights: seq<real>, all: seq<nat>, ball: seq<nat>, rest: seq<nat>, captured: seq<nat>, size: real)
    requires Tally(weights, all, ball, rest, captured, size)
    ensures forall x :: x in all <==> x in rest || x in captured
    ensures AllBelow(captured, |weights|) && size == SumSeq(weights, captured)
  {
  }

  lemma TallyNext(weights: seq<real>, all: seq<nat>, ball: seq<nat>, rest: seq<nat>, captured: seq<nat>, size: real,
                  v: nat)
    requires Tally(weights, all, ball, rest, captured, size) && v < |weights| && v !in ball
    ensures v in rest ==> Tally(weights, all, ball + [v], Without(rest, {v}), captured + [v], size + weights[v])
    ensures v !in rest ==> Tally(weights, all, ball + [v], rest, captured, size)
  {
    OnlySnoc(ball, v, Elems(all));
    WithoutTwice(all, Elems(ball), {v});
    assert Elems(ball) + {v} == Elems(ball + [v]);
    if v in rest {
      SumSeqSnoc(weights, captured, v);
    } else {
      WithoutNothing(rest, {v});
    }
  }

  lemma StartTally(weights: seq<real>, all: seq<nat>)
    ensures Tally(weights, all, [], all, [], 0.0) && Weighs(weights, [], 0.0)
  {
    WithoutNothing(all, {});
    assert Elems([]) == {};
  }

  ghost predicate Weighs(weights: seq<real>, nodes: seq<nat>, total: real) {
    AllBelow(nodes, |weights|) && total == SumSeq(weights, nodes)
  }

  lemma WeighsMore(weights: seq<real>, nodes: seq<nat>, total: real, v: nat)
    requires Weighs(weights, nodes, total) && v < |weights|
    ensures Weighs(weights, nodes + [v], total + weights[v])
  {
    SumSeqSnoc(weights, nodes, v);
  }

  // The two ways a ball search ends.
  lemma WholeBall(g: Graph, b: Ball, infinity: real, weights: seq<real>, capacity: real, total: real, extractMin: bool)
    requires Finished(Around(g, b.center, infinity), b.search, extractMin)
    requires |weights| == g.size && b.size == |b.search.order| && Weighs(weights, b.search.order, total)
    requires b.size > 0 ==> total <= capacity
    ensures FoundBall(g, b, infinity, weights, capacity, extractMin) && b.Members() == b.search.order
  {
    hide Inv;
    assert b.search.order[..b.size] == b.search.order;
  }

  lemma PartialBall(g: Graph, b: Ball, before: seq<nat>, v: nat, infinity: real, weights: seq<real>, capacity: real,
                    total: real, extractMin: bool)
    requires Inv(Around(g, b.center, infinity), b.search, 0, extractMin)
    requires |weights| == g.size && b.search.order == before + [v] && b.size == |before|
    requires v < |weights| && Weighs(weights, before, total - weights[v]) && Weighs(weights, before + [v], total)
    requires before != [] ==> total - weights[v] <= capacity
    requires total > capacity
    ensures FoundBall(g, b, infinity, weights, capacity, extractMin) && b.Members() == before
  {
    hide Inv;
    assert b.search.order[..b.size] == before;
  }

  // Between two states of a search: labels and roots of settled nodes stand, and what
  // was not reached is as before.
  ghost predicate OnlyReachedMoved(labels: seq<real>, roots: seq<int>, S: State) {
    && |labels| == |roots| == |S.labels| == |S.root|
    && (forall v: nat :: v < |labels| && (v in S.order || v !in S.queue) ==>
          S.labels[v] == labels[v] && S.root[v] == roots[v])
  }

  // What was not reached so far is as at the start.
  ghost predicate UnreachedStand(labels: seq<real>, roots: seq<int>, S: State) {
    && |labels| == |roots| == |S.labels| == |S.root|
    && (forall v: nat :: v < |labels| && v !in S.order && v !in S.queue ==>
          S.labels[v] == labels[v] && S.root[v] == roots[v])
  }

  ghost predicate SameOutside(heads: seq<nat>, before: seq<seq<nat>>, after: seq<seq<nat>>) {
    |before| == |after| && forall v: nat :: v < |after| && v !in heads ==> after[v] == before[v]
  }

  lemma NothingMovedYet(labels: seq<real>, roots: seq<int>, lists: seq<seq<nat>>, S: State, heads: seq<nat>)
    requires |labels| == |roots| && S.labels == labels && S.root == roots
    ensures UnreachedStand(labels, roots, S) && SameOutside(heads, lists, lists)
  {
  }

  lemma StaleStands(labels: seq<real>, roots: seq<int>, S: State, u: nat)
    requires UnreachedStand(labels, roots, S) && u in S.order
    ensures UnreachedStand(labels, roots, DropStale(S, u))
  {
  }

  lemma UnreachedStandsOn(labels: seq<real>, roots: seq<int>, S: State, T: State, u: nat)
    requires UnreachedStand(labels, roots, S) && OnlyReachedMoved(S.labels, S.root, T)
    requires T.order == S.order + [u] && forall v :: v in S.queue ==> v in T.queue || v == u
    ensures UnreachedStand(labels, roots, T)
  {
  }

  lemma SameOutsideTwice(heads: seq<nat>, first: seq<seq<nat>>, second: seq<seq<nat>>, third: seq<seq<nat>>)
    requires SameOutside(heads, first, second) && SameOutside(heads, second, third)
    ensures SameOutside(heads, first, third)
  {
  }

  lemma AtTheEnd(labels: seq<real>, roots: seq<int>, lists: seq<seq<nat>>, S: State, heads: seq<nat>,
                 after: seq<seq<nat>>)
    requires UnreachedStand(labels, roots, S) && SameOutside(heads, lists, after) && S.queue == multiset{}
    ensures |labels| == |roots| == |S.labels| == |S.root| && |lists| == |after|
    ensures forall v: nat :: v < |labels| && v !in S.order ==> S.labels[v] == labels[v] && S.root[v] == roots[v]
    ensures forall v: nat :: v < |after| && v !in heads ==> after[v] == lists[v]
  {
  }

  lemma MovedTwice(labels: seq<real>, roots: seq<int>, S: State, T: State)
    requires OnlyReachedMoved(labels, roots, S) && OnlyReachedMoved(S.labels, S.root, T)
    requires S.order == T.order && forall v :: v in S.queue ==> v in T.queue
    ensures OnlyReachedMoved(labels, roots, T)
  {
  }

  lemma NoneAssigned(g: Graph, settled: seq<nat>, cent: seq<int>, heads: seq<nat>, v: nat)
    requires Partitioned(g, settled, cent, heads) && v !in heads
    ensures Only(g.NodesExceptSink(), Assigned(cent, v)) == []
  {
    OnlyNone(g.NodesExceptSink(), Assigned(cent, v));
  }

  // A finished growth that reaches every non-sink node assigns each of them to a head.
  lemma GrownPartition(P: Problem, S: State, extractMin: bool, heads: seq<nat>)
    requires Finished(P, S, extractMin) && Unpruned(P)
    requires NoDup(heads) && AllBelow(heads, P.g.size) && P.sources == Elems(heads)
    requires forall v: nat :: v < P.g.size && v != P.g.sink ==> Reachable(P.g, P.sources, v)
    ensures Partitioned(P.g, S.order, S.root, heads)
  {
    forall v | v in S.order ensures v < |S.root| && S.root[v] >= 0 && S.root[v] in heads {
      InvRoot(P, S, Degree(P, S), extractMin, v);
      assert S.root[v] in P.sources;
    }
    forall l | l in heads ensures l in S.order && S.root[l] == l {
      assert l in P.sources;
      assert Touched(S, l);
    }
    forall v | 0 <= v < P.g.size && v != P.g.sink ensures v in S.order {
      SettlesExactlyReachable(P, S, extractMin, v);
    }
    if P.g.sink in S.order && P.g.sink !in heads {
      var i :| 0 <= i < |S.order| && S.order[i] == P.g.sink;
      assert HasParent(P, S, S.order[i], i);
    }
  }

  ghost function Joined(parts: seq<seq<nat>>): seq<nat> {
    if parts == [] then [] else Joined(parts[..|parts| - 1]) + parts[|parts| - 1]
  }

  // Every copy in some part is a copy in the whole, and the parts follow each other.
  lemma {:induction false} JoinedMeans(parts: seq<seq<nat>>, more: seq<seq<nat>>, x: nat)
    ensures Joined(parts + more) == Joined(parts) + Joined(more)
    ensures x in Joined(parts) <==> exists i :: 0 <= i < |parts| && x in parts[i]
    ensures |parts| == 1 ==> Joined(parts) == parts[0]
    decreases |parts| + |more|
  {
    if more != [] {
      assert (parts + more)[..|parts + more| - 1] == parts + more[..|more| - 1];
      JoinedMeans(parts, more[..|more| - 1], x);
    } else {
      assert parts + more == parts;
      if parts != [] {
        var front := parts[..|parts| - 1];
        JoinedMeans(front, [], x);
        assert x in Joined(parts) <==> x in Joined(front) || x in parts[|parts| - 1];
        assert forall i :: 0 <= i < |front| ==> front[i] == parts[i];
      }
    }
  }

  // The state after lines 235-245 starts a search.
  lemma GrowthStarts(P: Problem, S: State, heads: seq<nat>, extractMin: bool)
    requires P.g.Valid() && 0.0 <= P.slack && Span(P.g.size, P.g.radius) + P.slack < P.infinity
    requires |P.bound| == P.g.size && Unpruned(P) && P.sources == Elems(heads)
    requires |S.labels| == |S.root| == P.g.size && S.order == [] && S.queue == multiset(heads)
    requires forall u :: u in heads ==> u < P.g.size && S.labels[u] == 0.0 && S.root[u] == u
    requires forall v: nat :: v < P.g.size && v != P.g.sink && v !in heads ==> S.labels[v] == P.infinity
    ensures Inv(P, S, 0, extractMin) && Degree(P, S) == 0
  {
    assert forall v :: v in S.queue <==> v in heads;
    assert Shape(P, S);
    StartState(P, S, extractMin);
  }

  lemma ListsStart(n: nat, roots: seq<int>, heads: seq<nat>, lists: seq<seq<nat>>)
    requires |lists| == n && forall u :: u in heads ==> u < n && lists[u] == []
    ensures ListsOf(n, [], roots, heads, lists)
  {
  }

  // Fragments of the invariant.
  lemma InvOrder(P: Problem, S: State, k: nat, extractMin: bool)
    requires Inv(P, S, k, extractMin)
    ensures |S.labels| == P.g.size
    ensures forall v :: v in S.order || v in S.queue ==> v < P.g.size
  {
  }

  lemma InvRoot(P: Problem, S: State, k: nat, extractMin: bool, u: nat)
    requires Inv(P, S, k, extractMin) && u in S.order
    ensures u < P.g.size && u < |S.root| && 0 <= S.root[u] < P.g.size && S.root[u] in P.sources
  {
    var i :| 0 <= i < |S.order| && S.order[i] == u;
    var p := SettledHasPath(P, S, k, extractMin, i);
  }

  lemma InvShape(P: Problem, S: State, k: nat, extractMin: bool, u: nat)
    requires Inv(P, S, k, extractMin) && u in S.order
    ensures u < P.g.size && |P.g.adj| == P.g.size == |S.labels| == |S.root| == |P.bound|
  {
  }
}
