// The clustering and trajectory planner of Castalia/wu2019/wu2019.cc: one object whose
// methods update its vectors in place. Line numbers are those of that file.

module Planner {
  import opened Sequences
  import opened Network
  import opened Searching
  import opened Distances
  import opened Cells
  import opened Peeling
  import opened ClusterSearch
  import opened BallSearch
  import opened Recruiting
  import opened Capacity
  import opened Trajectories
  import opened Bisection
  import opened PlannerState
  import opened Rounds
  import opened UnitDisk

  class GPRouting {
    // The network, the parameters, and the code outside wu2019.cc.
    const g: Graph
    const numUAVs: nat
    const weights: seq<real>
    const energy: seq<real>
    const estimateMaxWeight: real -> real
    const angle: (nat, nat) -> real
    const distance: (nat, nat) -> real
    const d2uav: real
    const lMax: real
    const maxThres: real
    const dblMax: real
    // Whether std::priority_queue returns a least key even when keys fell since the push.
    const extractMin: bool

    var A: seq<nat>
    var cent: seq<int>
    var dLandmark: seq<real>
    var isLandmark: seq<bool>
    var representSet: seq<seq<nat>>
    var ballWeight: map<nat, real>
    var wMax: seq<real>
    var wMin: real
    var wTotal: real
    var eOpt: real
    var trajectories: seq<seq<nat>>

    // The configuration saved last.
    var config: Configuration

    // The nodes the last growBalls settled, in order.
    ghost var settled: seq<nat>

    // GPinit
    constructor (g: Graph, numUAVs: nat, weights: seq<real>, energy: seq<real>, estimateMaxWeight: real -> real,
                 angle: (nat, nat) -> real, distance: (nat, nat) -> real, d2uav: real, lMax: real, maxThres: real,
                 dblMax: real, extractMin: bool)
      ensures this.g == g && this.numUAVs == numUAVs && this.weights == weights && this.energy == energy
      ensures this.estimateMaxWeight == estimateMaxWeight && this.angle == angle && this.distance == distance
      ensures this.d2uav == d2uav && this.lMax == lMax && this.maxThres == maxThres && this.dblMax == dblMax
      ensures this.extractMin == extractMin
      ensures Sized() && HeadsMarked() && A == [] && config == Unsaved && trajectories == seq(numUAVs, _ => [])
      ensures ballWeight == map[] && wMin == wTotal == eOpt == 0.0
      ensures forall i: nat :: i < g.size ==>
                dLandmark[i] == 0.0 && cent[i] == -1 && !isLandmark[i] && representSet[i] == [] && wMax[i] == 0.0
    {
      this.g, this.numUAVs, this.weights, this.energy := g, numUAVs, weights, energy;
      this.estimateMaxWeight, this.angle, this.distance := estimateMaxWeight, angle, distance;
      this.d2uav, this.lMax, this.maxThres, this.dblMax, this.extractMin := d2uav, lMax, maxThres, dblMax, extractMin;
      A, ballWeight, config, settled := [], map[], Unsaved, [];
      trajectories := seq(numUAVs, _ => []);
      dLandmark := seq(g.size, _ => 0.0);
      cent := seq(g.size, _ => -1);
      isLandmark := seq(g.size, _ => false);
      representSet := seq(g.size, _ => []);
      wMax := seq(g.size, _ => 0.0);
      wMin, wTotal, eOpt := 0.0, 0.0, 0.0;
    }

    ghost predicate Configured() {
      && g.Valid()
      && |weights| == g.size && NonNegative(weights)
      && |energy| == g.size
      && Span(g.size, g.radius) + EPSILON < dblMax
    }

    ghost predicate Sized()
      reads this`cent, this`dLandmark, this`isLandmark, this`representSet, this`wMax
    {
      && |cent| == |dLandmark| == |isLandmark| == |representSet| == |wMax| == g.size
    }

    // A lists the marked nodes, each once.
    ghost predicate HeadsMarked()
      reads this`A, this`isLandmark
    {
      Marks(A, isLandmark, g.size)
    }

    // The search growBalls runs from a set of heads.
    ghost function Growth(heads: seq<nat>): Problem {
      Growing(g, Elems(heads), dblMax)
    }

    // The vectors of the search while queue is pending.
    ghost function Progress(queue: multiset<nat>): State
      reads this`dLandmark, this`cent, this`settled
    {
      State(dLandmark, cent, settled, queue)
    }

    ghost predicate ListsHold(heads: seq<nat>, lists: seq<seq<nat>>)
      reads this`cent, this`settled
    {
      ListsOf(g.size, settled, cent, heads, lists)
    }

    // The vectors, with the parameters the theory of the loop is stated for.
    ghost function Now(): Stand
      reads this`A, this`cent, this`dLandmark, this`isLandmark, this`representSet, this`ballWeight, this`settled
    {
      Stand(A, isLandmark, representSet, dLandmark, cent, settled, ballWeight)
    }

    ghost function Settings(): Setting
      reads this`wMax
    {
      Setting(g, weights, wMax, maxThres / 2.0, dblMax, extractMin)
    }

    // What a call of growBalls leaves behind.
    ghost predicate Grown()
      reads this`A, this`cent, this`dLandmark, this`isLandmark, this`representSet, this`wMax, this`ballWeight,
            this`settled
    {
      Sized() && GrownStand(Settings(), Now())
    }

    ghost predicate BallsWeighed()
      reads this`A, this`representSet, this`ballWeight
    {
      Weighed(weights, A, representSet, ballWeight)
    }

    // Taking the top of a queue whose keys may have fallen while entries waited in it.
    method Pop(queue: multiset<nat>, key: seq<real>) returns (u: nat, rest: multiset<nat>)
      requires queue != multiset{} && forall x :: x in queue ==> x < |key|
      ensures u in queue && rest == queue - multiset{u}
      ensures extractMin ==> IsLeast(queue, key, u)
    {
      ghost var least := LeastExists(queue, key);
      u :| u in queue && (extractMin ==> forall x | x in queue :: key[u] <= key[x]);
      rest := queue - multiset{u};
    }

    // Taking the top of a queue whose keys stand still.
    static method PopLeast(queue: multiset<nat>, key: seq<real>) returns (u: nat, rest: multiset<nat>)
      requires queue != multiset{} && forall x :: x in queue ==> x < |key|
      ensures IsLeast(queue, key, u) && rest == queue - multiset{u}
    {
      ghost var least := LeastExists(queue, key);
      u :| u in queue && forall x | x in queue :: key[u] <= key[x];
      rest := queue - multiset{u};
    }

    method ClearData()
      requires Sized()
      modifies this`dLandmark, this`cent, this`representSet
      ensures Sized()
      ensures forall u: nat :: u < g.size && u != g.sink ==>
                dLandmark[u] == (if isLandmark[u] then 0.0 else dblMax) && cent[u] == -1 && representSet[u] == []
      ensures g.sink < g.size ==>
                dLandmark[g.sink] == old(dLandmark[g.sink]) && cent[g.sink] == old(cent[g.sink])
                && representSet[g.sink] == old(representSet[g.sink])
    {
      var nodes := g.NodesExceptSink();
      assert forall j :: 0 <= j < |nodes| ==> nodes[j] in nodes;
      for i := 0 to |nodes|
        invariant Sized()
        invariant forall j :: 0 <= j < i ==>
                    dLandmark[nodes[j]] == (if isLandmark[nodes[j]] then 0.0 else dblMax)
                    && cent[nodes[j]] == -1 && representSet[nodes[j]] == []
        invariant g.sink < g.size ==>
                    dLandmark[g.sink] == old(dLandmark[g.sink]) && cent[g.sink] == old(cent[g.sink])
                    && representSet[g.sink] == old(representSet[g.sink])
      {
        var u := nodes[i];
        dLandmark := dLandmark[u := if isLandmark[u] then 0.0 else dblMax];
        cent := cent[u := -1];
        representSet := representSet[u := []];
      }
      forall u: nat | u < g.size && u != g.sink
        ensures dLandmark[u] == (if isLandmark[u] then 0.0 else dblMax) && cent[u] == -1 && representSet[u] == []
      {
        assert u in nodes;
      }
    }

    // Lines 243-245 and 350: pushing a list of nodes.
    static method QueueOf(nodes: seq<nat>) returns (queue: multiset<nat>)
      ensures queue == multiset(nodes)
    {
      queue := multiset{};
      for i := 0 to |nodes|
        invariant queue == multiset(nodes[..i])
      {
        queue := queue + multiset{nodes[i]};
        assert nodes[..i + 1] == nodes[..i] + [nodes[i]];
      }
      assert nodes[..|nodes|] == nodes;
    }

    // Lines 235-239: the heads get label 0, an empty list and themselves as head.
    method ResetHeads(landmarkSet: seq<nat>)
      requires Sized() && AllBelow(landmarkSet, g.size)
      modifies this`dLandmark, this`cent, this`representSet
      ensures Sized()
      ensures forall u :: u in landmarkSet ==>
                u < g.size && dLandmark[u] == 0.0 && cent[u] == u && representSet[u] == []
      ensures forall v: nat :: v < g.size && v !in landmarkSet ==>
                dLandmark[v] == old(dLandmark[v]) && cent[v] == old(cent[v]) && representSet[v] == old(representSet[v])
    {
      for i := 0 to |landmarkSet|
        invariant Sized()
        invariant forall j :: 0 <= j < i ==>
                    dLandmark[landmarkSet[j]] == 0.0 && cent[landmarkSet[j]] == landmarkSet[j]
                    && representSet[landmarkSet[j]] == []
        invariant forall v: nat :: v < g.size && v !in landmarkSet ==>
                    dLandmark[v] == old(dLandmark[v]) && cent[v] == old(cent[v])
                    && representSet[v] == old(representSet[v])
      {
        var u := landmarkSet[i];
        dLandmark := dLandmark[u := 0.0];
        representSet := representSet[u := []];
        cent := cent[u := u];
      }
    }

    // Lines 235-246: the search of growBalls before its first pop.
    method StartBalls(landmarkSet: seq<nat>) returns (queue: multiset<nat>)
      requires Configured() && Sized() && NoDup(landmarkSet) && AllBelow(landmarkSet, g.size)
      requires forall v: nat :: v < g.size && v != g.sink && v !in landmarkSet ==> dLandmark[v] == dblMax
      modifies this`dLandmark, this`cent, this`representSet, this`settled
      ensures Sized() && settled == []
      ensures Inv(Growth(landmarkSet), Progress(queue), 0, extractMin)
      ensures Degree(Growth(landmarkSet), Progress(queue)) == 0
      ensures ListsHold(landmarkSet, representSet)
      ensures forall v: nat :: v < g.size && v !in landmarkSet ==>
                dLandmark[v] == old(dLandmark[v]) && cent[v] == old(cent[v]) && representSet[v] == old(representSet[v])
      ensures queue == multiset(landmarkSet)
    {
      hide Inv, ListsOf, Degree;
      ResetHeads(landmarkSet);
      queue := QueueOf(landmarkSet);
      settled := [];
      GrowthStarts(Growth(landmarkSet), Progress(queue), landmarkSet, extractMin);
      ListsStart(g.size, cent, landmarkSet, representSet);
    }

    // Lines 263-270: looking at the edge from u, which was settled last, to its k-th neighbour.
    method RelaxBall(u: nat, k: nat, landmarkSet: seq<nat>, queue: multiset<nat>, removedSet: set<nat>)
      returns (q: multiset<nat>)
      requires Configured() && Sized()
      requires settled != [] && u == settled[|settled| - 1] && removedSet == Elems(settled)
      requires u < |g.adj| && k < |g.adj[u]|
      requires Inv(Growth(landmarkSet), Progress(queue), k, extractMin)
      modifies this`dLandmark, this`cent
      ensures Sized()
      ensures Inv(Growth(landmarkSet), Progress(q), k + 1, extractMin)
      ensures g.adj[u][k] < g.size
      ensures var v := g.adj[u][k];
              var alt := old(dLandmark[u]) + g.length(u, v);
              if v !in removedSet && alt - old(dLandmark[v]) < -0.0001
              then
                && dLandmark == old(dLandmark)[v := alt] && cent == old(cent)[v := old(cent[u])]
                && q == queue + multiset{v}
              else dLandmark == old(dLandmark) && cent == old(cent) && q == queue
      ensures OnlyReachedMoved(old(dLandmark), old(cent), Progress(q))
      ensures forall v :: v in queue ==> v in q
    {
      hide Inv;
      ghost var P, S := Growth(landmarkSet), Progress(queue);
      q := queue;
      var v := g.adj[u][k];
      assert g.Edge(u, v);
      RelaxKeeps(P, S, u, k, extractMin);
      SettledLabel(P, S, k, extractMin, u);
      if v !in removedSet {
        var alt := dLandmark[u] + g.length(u, v);
        if alt - dLandmark[v] < -EPSILON {
          dLandmark := dLandmark[v := alt];
          cent := cent[v := cent[u]];
          q := q + multiset{v};
        }
      }
      assert Progress(q) == Relax(P, S, u, v);
    }

    // Lines 262-276: relaxing the edges out of u, which was settled last.
    method RelaxBalls(u: nat, landmarkSet: seq<nat>, queue: multiset<nat>, removedSet: set<nat>)
      returns (q: multiset<nat>)
      requires Configured() && Sized()
      requires settled != [] && u == settled[|settled| - 1] && removedSet == Elems(settled)
      requires Inv(Growth(landmarkSet), Progress(queue), 0, extractMin)
      modifies this`dLandmark, this`cent
      ensures Sized()
      ensures Inv(Growth(landmarkSet), Progress(q), Degree(Growth(landmarkSet), Progress(q)), extractMin)
      ensures OnlyReachedMoved(old(dLandmark), old(cent), Progress(q))
      ensures forall v :: v in queue ==> v in q
    {
      hide Inv;
      q := queue;
      InvShape(Growth(landmarkSet), Progress(queue), 0, extractMin, u);
      ghost var labels, roots := dLandmark, cent;
      for k := 0 to |g.adj[u]|
        invariant Sized()
        invariant Inv(Growth(landmarkSet), Progress(q), k, extractMin)
        invariant OnlyReachedMoved(labels, roots, Progress(q))
        invariant forall v :: v in queue ==> v in q
      {
        ghost var before, qBefore := Progress(q), q;
        q := RelaxBall(u, k, landmarkSet, q, removedSet);
        MovedTwice(labels, roots, before, Progress(q));
      }
    }

    // Lines 260-276: u is settled, listed with its head unless it is one, and relaxed from.
    method SettleBall(u: nat, landmarkSet: seq<nat>, queue: multiset<nat>, removedSet: set<nat>)
      returns (q: multiset<nat>)
      requires Configured() && Sized() && HeadsMarked() && landmarkSet == A
      requires Inv(Growth(landmarkSet), Progress(queue), Degree(Growth(landmarkSet), Progress(queue)), extractMin)
      requires u in queue && u !in removedSet && removedSet == Elems(settled)
      requires extractMin ==> IsLeast(queue, dLandmark, u)
      requires ListsHold(landmarkSet, representSet)
      modifies this`dLandmark, this`cent, this`representSet, this`settled
      ensures Sized() && settled == old(settled) + [u]
      ensures Inv(Growth(landmarkSet), Progress(q), Degree(Growth(landmarkSet), Progress(q)), extractMin)
      ensures ListsHold(landmarkSet, representSet)
      ensures OnlyReachedMoved(old(dLandmark), old(cent), Progress(q))
      ensures forall v :: v in queue ==> v in q || v == u
      ensures SameOutside(landmarkSet, old(representSet), representSet)
    {
      hide Inv, ListsOf;
      ghost var P, S := Growth(landmarkSet), Progress(queue);
      ListsLength(g.size, settled, cent, landmarkSet, representSet);
      SettleKeeps(P, S, u, extractMin);
      var rest := queue - multiset{u};
      settled := settled + [u];
      assert Progress(rest) == Settle(S, u);
      InvRoot(P, Progress(rest), 0, extractMin, u);
      ListsSettle(g.size, old(settled), cent, landmarkSet, representSet, u, isLandmark[u]);
      if !isLandmark[u] {
        representSet := representSet[cent[u] := representSet[cent[u]] + [u]];
      }
      q := RelaxListed(u, landmarkSet, rest, removedSet + {u});
    }

    // Relaxing leaves the lists right, since no settled node changes its head.
    method RelaxListed(u: nat, landmarkSet: seq<nat>, queue: multiset<nat>, removedSet: set<nat>)
      returns (q: multiset<nat>)
      requires Configured() && Sized()
      requires settled != [] && u == settled[|settled| - 1] && removedSet == Elems(settled)
      requires Inv(Growth(landmarkSet), Progress(queue), 0, extractMin)
      requires ListsHold(landmarkSet, representSet)
      modifies this`dLandmark, this`cent
      ensures Sized()
      ensures Inv(Growth(landmarkSet), Progress(q), Degree(Growth(landmarkSet), Progress(q)), extractMin)
      ensures ListsHold(landmarkSet, representSet)
      ensures OnlyReachedMoved(old(dLandmark), old(cent), Progress(q))
      ensures forall v :: v in queue ==> v in q
    {
      hide Inv, ListsOf;
      ghost var roots := cent;
      q := RelaxBalls(u, landmarkSet, queue, removedSet);
      InvOrder(Growth(landmarkSet), Progress(q), Degree(Growth(landmarkSet), Progress(q)), extractMin);
      ListsStand(g.size, settled, roots, cent, landmarkSet, representSet);
    }

    // Lines 248-277: the search of growBalls, popping in any order.
    method SettleBalls(landmarkSet: seq<nat>, queue: multiset<nat>)
      requires Configured() && Sized() && HeadsMarked() && landmarkSet == A
      requires settled == [] && Inv(Growth(landmarkSet), Progress(queue), 0, extractMin)
      requires Degree(Growth(landmarkSet), Progress(queue)) == 0
      requires ListsHold(landmarkSet, representSet)
      modifies this`dLandmark, this`cent, this`representSet, this`settled
      ensures Sized()
      ensures Finished(Growth(landmarkSet), Progress(multiset{}), extractMin)
      ensures ListsHold(landmarkSet, representSet)
      ensures forall v: nat :: v < g.size && v !in settled ==>
                dLandmark[v] == old(dLandmark[v]) && cent[v] == old(cent[v])
      ensures forall v: nat :: v < g.size && v !in landmarkSet ==> representSet[v] == old(representSet[v])
    {
      hide Inv, ListsHold, UnreachedStand, OnlyReachedMoved, SameOutside, Marks;
      ghost var labels, roots, lists := dLandmark, cent, representSet;
      var q := queue;
      var removedSet: set<nat> := {};
      NothingMovedYet(labels, roots, lists, Progress(q), landmarkSet);
      while q != multiset{}
        invariant Sized()
        invariant Inv(Growth(landmarkSet), Progress(q), Degree(Growth(landmarkSet), Progress(q)), extractMin)
        invariant removedSet == Elems(settled)
        invariant ListsHold(landmarkSet, representSet)
        invariant UnreachedStand(labels, roots, Progress(q))
        invariant SameOutside(landmarkSet, lists, representSet)
        decreases g.size - |removedSet|, |q|
      {
        q, removedSet := PopBall(landmarkSet, q, removedSet, labels, roots, lists);
      }
      AtTheEnd(labels, roots, lists, Progress(q), landmarkSet, representSet);
    }

    // Lines 249-276: one round of the loop. It settles a node or drops a stale entry.
    method PopBall(landmarkSet: seq<nat>, queue: multiset<nat>, removedSet: set<nat>,
                   ghost labels: seq<real>, ghost roots: seq<int>, ghost lists: seq<seq<nat>>)
      returns (q: multiset<nat>, removed: set<nat>)
      requires Configured() && Sized() && HeadsMarked() && landmarkSet == A
      requires queue != multiset{} && removedSet == Elems(settled)
      requires Inv(Growth(landmarkSet), Progress(queue), Degree(Growth(landmarkSet), Progress(queue)), extractMin)
      requires ListsHold(landmarkSet, representSet)
      requires UnreachedStand(labels, roots, Progress(queue)) && SameOutside(landmarkSet, lists, representSet)
      modifies this`dLandmark, this`cent, this`representSet, this`settled
      ensures Sized() && removed == Elems(settled)
      ensures Inv(Growth(landmarkSet), Progress(q), Degree(Growth(landmarkSet), Progress(q)), extractMin)
      ensures ListsHold(landmarkSet, representSet)
      ensures UnreachedStand(labels, roots, Progress(q)) && SameOutside(landmarkSet, lists, representSet)
      ensures |removed| <= g.size
      ensures |removed| > |removedSet| || (removed == removedSet && |q| < |queue|)
    {
      hide Inv, ListsHold, UnreachedStand, OnlyReachedMoved, SameOutside, Marks;
      ghost var P, S, listsBefore := Growth(landmarkSet), Progress(queue), representSet;
      InvOrder(P, S, Degree(P, S), extractMin);
      CardBelow(removedSet, g.size);
      var u, rest := Pop(queue, dLandmark);
      if u in removedSet {
        DropStaleKeeps(P, S, Degree(P, S), u, extractMin);
        StaleStands(labels, roots, S, u);
        q, removed := rest, removedSet;
        assert Progress(q) == DropStale(S, u);
        assert |q| == |queue| - 1;
        return;
      }
      q := SettleBall(u, landmarkSet, queue, removedSet);
      UnreachedStandsOn(labels, roots, S, Progress(q), u);
      SameOutsideTwice(landmarkSet, lists, listsBefore, representSet);
      removed := removedSet + {u};
      CardBelow(removed, g.size);
    }

    // Lines 283-286: ticking off the nodes of one list.
    static method TickOff(list: seq<nat>, check: set<nat>) returns (ticked: set<nat>, violated: bool)
      ensures ticked == check + Elems(list)
      ensures violated <==> !(NoDup(list) && Elems(list) !! check)
    {
      ticked, violated := check, false;
      for j := 0 to |list|
        invariant ticked == check + Elems(list[..j])
        invariant violated <==> !(NoDup(list[..j]) && Elems(list[..j]) !! check)
      {
        ghost var front := list[..j];
        assert list[..j + 1] == front + [list[j]];
        assert Elems(list[..j + 1]) == Elems(front) + {list[j]};
        assert NoDup(list[..j + 1]) <==> NoDup(front) && list[j] !in front by {
          SnocNoDup(front, list[j]);
        }
        if list[j] in ticked {
          violated := true;
        }
        ticked := ticked + {list[j]};
      }
      assert list[..|list|] == list;
    }

    // Lines 278-288: the diagnostic count over the lists. It finds every settled non-head
    // once and never has a violation to report.
    method CountBalls(landmarkSet: seq<nat>) returns (totalSize: nat, violated: bool)
      requires Partitioned(g, settled, cent, landmarkSet) && ListsHold(landmarkSet, representSet)
      ensures totalSize == |Covered(settled, cent, landmarkSet, |landmarkSet|)|
      ensures !violated
    {
      totalSize, violated := 0, false;
      var check: set<nat> := {};
      assert Covered(settled, cent, landmarkSet, 0) == {};
      for i := 0 to |landmarkSet|
        invariant totalSize == |Covered(settled, cent, landmarkSet, i)|
        invariant check == Covered(settled, cent, landmarkSet, i)
        invariant !violated
      {
        var l := landmarkSet[i];
        totalSize := totalSize + |representSet[l]|;
        CoveredGrows(g, settled, cent, landmarkSet, i + 1);
        ListsPartition(g, settled, cent, landmarkSet, l, 0);
        NoDupCard(representSet[l]);
        var violation;
        check, violation := TickOff(representSet[l], check);
        violated := violated || violation;
      }
    }

    // Lines 431-433: every non-sink node is appended to the list of its head once more.
    method AppendAll()
      requires Configured() && Sized()
      requires forall u: nat :: u < g.size && u != g.sink ==> 0 <= cent[u] < g.size
      modifies this`representSet
      ensures Sized()
      ensures Appended(old(representSet), representSet, g.NodesExceptSink(), cent)
    {
      var nodes := g.NodesExceptSink();
      assert forall j :: 0 <= j < |nodes| ==> nodes[j] in nodes;
      ghost var lists := representSet;
      assert nodes[..0] == [];
      for i := 0 to |nodes|
        invariant Sized()
        invariant Appended(lists, representSet, nodes[..i], cent)
      {
        var u := nodes[i];
        AppendedOne(lists, representSet, nodes[..i], cent, u);
        representSet := representSet[cent[u] := representSet[cent[u]] + [u]];
        assert nodes[..i + 1] == nodes[..i] + [u];
      }
      assert nodes[..|nodes|] == nodes;
    }

    // Line 439-442: one entry of tempBallWeight.
    method WeighList(list: seq<nat>) returns (total: real)
      requires AllBelow(list, |weights|)
      ensures total == SumSeq(weights, list)
    {
      total := 0.0;
      assert list[..0] == [];
      for i := 0 to |list|
        invariant AllBelow(list[..i], |weights|) && total == SumSeq(weights, list[..i])
      {
        total := total + weights[list[i]];
        assert list[..i + 1] == list[..i] + [list[i]];
        SumSeqSnoc(weights, list[..i], list[i]);
      }
      assert list[..|list|] == list;
    }

    // Lines 435-451: the weight of every head's list, as it stands.
    method WeighBalls()
      requires Configured() && Sized() && NoDup(A) && AllBelow(A, g.size)
      requires forall l :: l in A ==> AllBelow(representSet[l], g.size)
      modifies this`ballWeight
      ensures BallsWeighed()
    {
      hide SumSeq, NonNegative;
      var temp: seq<real> := [];
      for i := 0 to |A|
        invariant |temp| == i
        invariant forall j :: 0 <= j < i ==> A[j] in A && temp[j] == SumSeq(weights, representSet[A[j]])
      {
        assert A[i] in A;
        var total := WeighList(representSet[A[i]]);
        temp := temp + [total];
      }
      ballWeight := map[];
      for i := 0 to |A|
        invariant ballWeight.Keys == Elems(A[..i])
        invariant forall j :: 0 <= j < i ==> A[j] in ballWeight && ballWeight[A[j]] == temp[j]
      {
        assert A[i] !in A[..i];
        if A[i] !in ballWeight {
          ballWeight := ballWeight[A[i] := temp[i]];
        }
        assert A[..i + 1] == A[..i] + [A[i]];
      }
      assert A[..|A|] == A;
    }

    // computeBallWeight
    method ComputeBallWeight()
      requires Configured() && Sized() && HeadsMarked()
      requires Partitioned(g, settled, cent, A) && ListsHold(A, representSet)
      modifies this`representSet, this`ballWeight
      ensures Sized() && BallsWeighed()
      ensures forall l :: l in A ==> l < g.size && representSet[l] == RepresentedTwice(g, settled, cent, Elems(A), l)
      ensures forall v: nat :: v < g.size && v !in A ==> representSet[v] == old(representSet[v])
    {
      AppendAll();
      forall l | l in A
        ensures l < g.size && AllBelow(representSet[l], g.size)
        ensures representSet[l] == RepresentedTwice(g, settled, cent, Elems(A), l)
      {
        RepresentedBelow(g, settled, cent, A, l);
      }
      forall v: nat | v < g.size && v !in A
        ensures representSet[v] == old(representSet[v])
      {
        assert Only(g.NodesExceptSink(), Assigned(cent, v)) == [] by {
          NoneAssigned(g, settled, cent, A, v);
        }
      }
      WeighBalls();
    }

    // growBalls, for any pop order
    method GrowBalls(landmarkSet: seq<nat>)
      requires Configured() && Sized() && HeadsMarked() && landmarkSet == A
      requires forall v: nat :: v < g.size && v != g.sink && v !in A ==> dLandmark[v] == dblMax
      requires forall v: nat :: v < g.size && v != g.sink ==> Reachable(g, Elems(A), v)
      modifies this`dLandmark, this`cent, this`representSet, this`ballWeight, this`settled
      ensures Grown()
      ensures forall v: nat :: v < g.size && v !in settled ==>
                dLandmark[v] == old(dLandmark[v]) && cent[v] == old(cent[v])
      ensures forall v: nat :: v < g.size && v !in A ==> representSet[v] == old(representSet[v])
    {
      hide Inv;
      var queue := StartBalls(landmarkSet);
      SettleBalls(landmarkSet, queue);
      GrownPartition(Growth(A), Progress(multiset{}), extractMin, A);
      var totalSize, violated := CountBalls(landmarkSet);
      ComputeBallWeight();
    }

    // The start of the two searches from one node: key 0 for it, DBL_MAX for the others.
    method StartFrom(center: nat, ghost P: Problem) returns (d: seq<real>, queue: multiset<nat>, ghost S: State)
      requires Configured() && center < g.size
      requires P.WellPosed() && P.g == g && P.sources == {center} && P.infinity == dblMax
      ensures Inv(P, S, 0, extractMin) && Degree(P, S) == 0
      ensures S.labels == d && S.queue == queue == multiset{center} && S.order == []
    {
      d := seq(g.size, i requires 0 <= i < g.size => if i == center then 0.0 else dblMax);
      queue := multiset{center};
      S := State(d, seq(g.size, _ => center), [], queue);
      assert Touched(S, center);
      StartState(P, S, extractMin);
    }

    // Lines 322-328: one edge of computeClusterWeight's search.
    method RelaxClusterEdge(u: nat, k: nat, d: seq<real>, queue: multiset<nat>, removedSet: set<nat>,
                            ghost P: Problem, ghost S: State)
      returns (e: seq<real>, q: multiset<nat>, ghost T: State)
      requires Configured() && P.g == g && P.slack == 0.0 && P.bound == dLandmark
      requires S.labels == d && S.queue == queue && removedSet == Elems(S.order)
      requires S.order != [] && u == S.order[|S.order| - 1] && u < |g.adj| && k < |g.adj[u]|
      requires Inv(P, S, k, extractMin)
      ensures T.labels == e && T.queue == q && T.order == S.order
      ensures Inv(P, T, k + 1, extractMin)
      ensures u < |d| && g.adj[u][k] < |d| == |dLandmark|
      ensures var v := g.adj[u][k];
              var alt := d[u] + g.length(u, v);
              if v !in removedSet && alt < d[v]
              then e == d[v := alt] && q == if alt < dLandmark[v] then queue + multiset{v} else queue
              else e == d && q == queue
    {
      hide Inv;
      e, q := d, queue;
      var v := g.adj[u][k];
      InvShape(P, S, k, extractMin, u);
      RelaxKeeps(P, S, u, k, extractMin);
      T := Relax(P, S, u, v);
      if v !in removedSet {
        var alt := d[u] + g.length(u, v);
        if alt < d[v] {
          e := e[v := alt];
          if e[v] < dLandmark[v] {
            q := q + multiset{v};
          }
        }
      }
    }

    // Lines 311-316: the search from uNode before its first pop, then lines 317-330.
    method SearchCluster(uNode: nat) returns (removedSet: set<nat>, ghost S: State)
      requires Configured() && Sized() && uNode < g.size
      requires forall v :: 0 <= v < g.size ==> dLandmark[v] <= dblMax
      ensures Finished(Cluster(g, uNode, dLandmark, dblMax), S, extractMin)
      ensures removedSet == Elems(S.order)
      ensures forall v :: v in removedSet ==> v < g.size && (v == uNode || Nearer(g, uNode, dLandmark, 0.0, v))
      ensures extractMin ==> forall L: set<nat> | ExactLandmarks(g, L, dLandmark) ::
                removedSet == ClusterNodes(g, uNode, dLandmark)
    {
      hide Inv, Nearer;
      ghost var P := Cluster(g, uNode, dLandmark, dblMax);
      var d, queue;
      d, queue, S := StartFrom(uNode, P);
      removedSet, S := DrainCluster(d, queue, P, S);
      SettledIsCluster(g, uNode, dLandmark, dblMax, S, extractMin);
    }

    // Lines 317-330: the pruned search.
    method DrainCluster(d: seq<real>, queue: multiset<nat>, ghost P: Problem, ghost S: State)
      returns (removedSet: set<nat>, ghost T: State)
      requires Configured() && P.g == g && P.slack == 0.0 && P.bound == dLandmark
      requires S.labels == d && S.queue == queue && S.order == []
      requires Inv(P, S, Degree(P, S), extractMin)
      ensures Finished(P, T, extractMin)
      ensures removedSet == Elems(T.order)
    {
      hide Inv;
      var e, q := d, queue;
      T, removedSet := S, {};
      while q != multiset{}
        invariant Inv(P, T, Degree(P, T), extractMin)
        invariant T.labels == e && T.queue == q && removedSet == Elems(T.order)
        decreases g.size - |removedSet|, |q|
      {
        InvOrder(P, T, Degree(P, T), extractMin);
        var u, rest := Pop(q, e);
        if u in removedSet {
          DropStaleKeeps(P, T, Degree(P, T), u, extractMin);
          T, q := DropStale(T, u), rest;
          continue;
        }
        CardBelow(removedSet + {u}, g.size);
        e, q, T := SettleCluster(u, e, q, removedSet, P, T);
        removedSet := removedSet + {u};
      }
    }

    // Lines 321-329: u is settled and relaxed from.
    method SettleCluster(u: nat, d: seq<real>, queue: multiset<nat>, removedSet: set<nat>, ghost P: Problem,
                         ghost S: State)
      returns (e: seq<real>, q: multiset<nat>, ghost T: State)
      requires Configured() && P.g == g && P.slack == 0.0 && P.bound == dLandmark
      requires S.labels == d && S.queue == queue && removedSet == Elems(S.order)
      requires u in queue && u !in removedSet
      requires extractMin ==> IsLeast(queue, d, u)
      requires Inv(P, S, Degree(P, S), extractMin)
      ensures T.labels == e && T.queue == q && T.order == S.order + [u]
      ensures Inv(P, T, Degree(P, T), extractMin)
    {
      hide Inv;
      SettleKeeps(P, S, u, extractMin);
      T := Settle(S, u);
      e, q, T := RelaxCluster(u, d, queue - multiset{u}, removedSet + {u}, P, T);
    }

    method RelaxCluster(u: nat, d: seq<real>, queue: multiset<nat>, removedSet: set<nat>, ghost P: Problem,
                        ghost S: State)
      returns (e: seq<real>, q: multiset<nat>, ghost T: State)
      requires Configured() && P.g == g && P.slack == 0.0 && P.bound == dLandmark
      requires S.labels == d && S.queue == queue && removedSet == Elems(S.order)
      requires S.order != [] && u == S.order[|S.order| - 1]
      requires Inv(P, S, 0, extractMin)
      ensures T.labels == e && T.queue == q && T.order == S.order
      ensures Inv(P, T, Degree(P, T), extractMin)
    {
      hide Inv;
      InvShape(P, S, 0, extractMin, u);
      e, q, T := d, queue, S;
      for k := 0 to |g.adj[u]|
        invariant T.labels == e && T.queue == q && T.order == S.order
        invariant Inv(P, T, k, extractMin)
      {
        e, q, T := RelaxClusterEdge(u, k, e, q, removedSet, P, T);
      }
    }

    // computeClusterWeight
    method ComputeClusterWeight(uNode: nat) returns (totalWeight: real, ghost S: State)
      requires Configured() && Sized() && uNode < g.size
      requires forall v :: 0 <= v < g.size ==> dLandmark[v] <= dblMax
      ensures Finished(Cluster(g, uNode, dLandmark, dblMax), S, extractMin)
      ensures totalWeight == WeightOf(weights, Elems(S.order))
      ensures extractMin ==> forall L: set<nat> | ExactLandmarks(g, L, dLandmark) ::
                totalWeight == WeightOf(weights, ClusterNodes(g, uNode, dLandmark))
    {
      hide Inv, Nearer;
      var removedSet;
      removedSet, S := SearchCluster(uNode);
      InvOrder(Cluster(g, uNode, dLandmark, dblMax), S, Degree(Cluster(g, uNode, dLandmark, dblMax), S), extractMin);
      totalWeight := WeighSet(removedSet);
    }

    // Lines 331-334: adding up the weights of a set, in any order.
    method WeighSet(nodes: set<nat>) returns (total: real)
      requires forall u :: u in nodes ==> u < |weights|
      ensures total == WeightOf(weights, nodes)
    {
      total := 0.0;
      var rest := nodes;
      while rest != {}
        invariant rest <= nodes && total + WeightOf(weights, rest) == WeightOf(weights, nodes)
        decreases |rest|
      {
        var u :| u in rest;
        WeightAdd(weights, rest - {u}, u);
        assert rest - {u} + {u} == rest;
        total := total + weights[u];
        rest := rest - {u};
      }
      SumBelowEmpty(weights, |weights|);
    }

    // Lines 348-358: peeling one overloaded cell.
    method PeelCell(landmark: nat) returns (fringe: seq<nat>)
      requires Configured() && Sized() && landmark < g.size && wMax[landmark] >= 0.0
      requires AllBelow(representSet[landmark], g.size) && landmark in ballWeight
      requires ballWeight[landmark] == SumSeq(weights, representSet[landmark])
      ensures Peeled(representSet[landmark], fringe, dLandmark, weights, wMax[landmark])
    {
      ghost var cell := representSet[landmark];
      var weight := ballWeight[landmark];
      var queue := QueueOf(representSet[landmark]);
      fringe := [];
      assert forall x :: x in multiset(cell) ==> x in cell;
      while weight > wMax[landmark]
        invariant ClosestFirst(cell, fringe, dLandmark) && EachNeeded(cell, fringe, weights, wMax[landmark])
        invariant queue == multiset(cell) - multiset(fringe)
        invariant weight == SumSeq(weights, cell) - SumSeq(weights, fringe)
        decreases |queue|
      {
        QueueNotEmpty(cell, fringe, weights, wMax[landmark]);
        var u, rest := PopLeast(queue, dLandmark);
        PopKeepsClosestFirst(cell, fringe, dLandmark, u);
        PopKeepsEachNeeded(cell, fringe, weights, wMax[landmark], u);
        assert |rest| == |queue| - 1;
        fringe := fringe + [u];
        queue := rest;
        weight := weight - weights[u];
      }
    }

    // verifyFringeSet
    method VerifyFringeSet() returns (fringeSet: seq<nat>, ghost parts: seq<seq<nat>>)
      requires Configured() && Sized() && AllBelow(A, g.size) && BallsWeighed()
      requires forall l :: l in A ==> wMax[l] >= 0.0
      ensures PeeledAll(A, representSet, parts, dLandmark, weights, wMax) && fringeSet == Joined(parts)
      ensures exists p :: PeeledAll(A, representSet, p, dLandmark, weights, wMax) && fringeSet == Joined(p)
    {
      hide Peeled;
      fringeSet, parts := [], [];
      for i := 0 to |A|
        invariant |parts| == i && fringeSet == Joined(parts)
        invariant forall j :: 0 <= j < i ==> Peeled(representSet[A[j]], parts[j], dLandmark, weights, wMax[A[j]])
      {
        var landmark := A[i];
        assert landmark in A;
        var fringe := [];
        if ballWeight[landmark] > wMax[landmark] {
          fringe := PeelCell(landmark);
        } else {
          NothingToPeel(representSet[landmark], dLandmark, weights, wMax[landmark]);
        }
        fringeSet := fringeSet + fringe;
        parts := parts + [fringe];
        assert parts[..i] + [fringe] == parts && parts[..|parts| - 1] == parts[..i];
      }
    }

    // TZ_sample, in the round that draws at least one node: rounds that draw none change
    // nothing and are repeated.
    method TZSample(W: seq<nat>, s: real) returns (newW: seq<nat>)
      requires AllBelow(W, |isLandmark|)
      requires |W| as real >= s && W != [] ==> exists x :: x in W && !isLandmark[x]
      modifies this`isLandmark
      ensures |isLandmark| == old(|isLandmark|)
      ensures forall i: nat :: i < |isLandmark| ==> (isLandmark[i] <==> old(isLandmark[i]) || i in newW)
      ensures forall x :: x in newW ==> x in W
      ensures W != [] ==> newW != []
      ensures |W| as real < s ==> newW == W
      ensures |W| as real >= s ==> NoDup(newW) && forall x :: x in newW ==> x < old(|isLandmark|) && !old(isLandmark[x])
    {
      if |W| == 0 {
        return W;
      }
      if |W| as real < s {
        for i := 0 to |W|
          invariant |isLandmark| == old(|isLandmark|)
          invariant forall j: nat :: j < |isLandmark| ==> (isLandmark[j] <==> old(isLandmark[j]) || j in W[..i])
        {
          isLandmark := isLandmark[W[i] := true];
          assert W[..i + 1] == W[..i] + [W[i]];
        }
        assert W[..|W|] == W;
        return W;
      }
      newW := DrawUnmarked(W);
    }

    // Lines 213-227 with a draw that is not empty.
    method DrawUnmarked(W: seq<nat>) returns (newW: seq<nat>)
      requires AllBelow(W, |isLandmark|)
      requires exists x :: x in W && !isLandmark[x]
      modifies this`isLandmark
      ensures |isLandmark| == old(|isLandmark|)
      ensures forall i: nat :: i < |isLandmark| ==> (isLandmark[i] <==> old(isLandmark[i]) || i in newW)
      ensures NoDup(newW) && newW != []
      ensures forall x :: x in newW ==> x in W && x < old(|isLandmark|) && !old(isLandmark[x])
    {
      ghost var x :| x in W && !isLandmark[x];
      ghost var m :| 0 <= m < |W| && W[m] == x;
      var certain :| 0 <= certain < |W| && !isLandmark[W[certain]];
      newW := [];
      for i := 0 to |W|
        invariant |isLandmark| == old(|isLandmark|)
        invariant forall j: nat :: j < |isLandmark| ==> (isLandmark[j] <==> old(isLandmark[j]) || j in newW)
        invariant NoDup(newW)
        invariant forall x :: x in newW ==> x in W && x < old(|isLandmark|) && !old(isLandmark[x])
        invariant i > certain ==> newW != []
      {
        var node := W[i];
        if isLandmark[node] {
          assert old(isLandmark[node]) || node in newW;
          continue;
        }
        var passes: bool := *;
        if passes || i == certain {
          NoDupSnoc(newW, node);
          newW := newW + [node];
          isLandmark := isLandmark[node := true];
        }
      }
    }

    // Lines 399-405: one edge of the ball search.
    method RelaxBallEdge(u: nat, k: nat, d: seq<real>, queue: multiset<nat>, removedSet: set<nat>, ghost P: Problem,
                         ghost S: State)
      returns (e: seq<real>, q: multiset<nat>, ghost T: State)
      requires Configured() && P.g == g && P.slack == 0.0 && Unpruned(P)
      requires S.labels == d && S.queue == queue && removedSet == Elems(S.order)
      requires S.order != [] && u == S.order[|S.order| - 1] && u < |g.adj| && k < |g.adj[u]|
      requires Inv(P, S, k, extractMin)
      ensures T.labels == e && T.queue == q && T.order == S.order
      ensures Inv(P, T, k + 1, extractMin)
      ensures u < |d| && g.adj[u][k] < |d|
      ensures var w := g.adj[u][k];
              var alt := d[u] + g.length(u, w);
              if w !in removedSet && alt < d[w]
              then e == d[w := alt] && q == queue + multiset{w}
              else e == d && q == queue
    {
      hide Inv;
      e, q := d, queue;
      var w := g.adj[u][k];
      InvShape(P, S, k, extractMin, u);
      RelaxKeeps(P, S, u, k, extractMin);
      SettledLabel(P, S, k, extractMin, u);
      T := Relax(P, S, u, w);
      assert g.Edge(u, w);
      if w < g.size && w !in removedSet {
        var alt := d[u] + g.length(u, w);
        if alt < d[w] {
          e := e[w := alt];
          q := q + multiset{w};
        }
      }
    }

    // Lines 398-406: relaxing the edges out of a node of the ball.
    method RelaxInBall(u: nat, d: seq<real>, queue: multiset<nat>, removedSet: set<nat>, ghost P: Problem,
                       ghost S: State)
      returns (e: seq<real>, q: multiset<nat>, ghost T: State)
      requires Configured() && P.g == g && P.slack == 0.0 && Unpruned(P)
      requires S.labels == d && S.queue == queue && removedSet == Elems(S.order)
      requires S.order != [] && u == S.order[|S.order| - 1]
      requires Inv(P, S, 0, extractMin)
      ensures T.labels == e && T.queue == q && T.order == S.order
      ensures Inv(P, T, Degree(P, T), extractMin)
    {
      hide Inv;
      InvShape(P, S, 0, extractMin, u);
      e, q, T := d, queue, S;
      for k := 0 to |g.adj[u]|
        invariant T.labels == e && T.queue == q && T.order == S.order
        invariant Inv(P, T, k, extractMin)
      {
        e, q, T := RelaxBallEdge(u, k, e, q, removedSet, P, T);
      }
    }

    // Lines 387-392: the next node that was not settled yet, if the queue holds one.
    method NextSettled(d: seq<real>, queue: multiset<nat>, removedSet: set<nat>, ghost P: Problem, ghost S: State)
      returns (found: bool, v: nat, q: multiset<nat>, ghost T: State)
      requires P.g == g && S.labels == d && S.queue == queue && removedSet == Elems(S.order)
      requires Inv(P, S, Degree(P, S), extractMin)
      ensures T.labels == d && T.queue == q
      ensures found ==> v !in removedSet && v < g.size && T.order == S.order + [v] && Inv(P, T, 0, extractMin)
      ensures !found ==> T.order == S.order && Finished(P, T, extractMin)
    {
      hide Inv;
      q, T, found, v := queue, S, false, 0;
      while q != multiset{}
        invariant T.labels == d && T.queue == q && T.order == S.order
        invariant Inv(P, T, Degree(P, T), extractMin)
        decreases |q|
      {
        InvOrder(P, T, Degree(P, T), extractMin);
        var u, rest := Pop(q, d);
        if u !in removedSet {
          SettleKeeps(P, T, u, extractMin);
          found, v, q, T := true, u, rest, Settle(T, u);
          return;
        }
        DropStaleKeeps(P, T, Degree(P, T), u, extractMin);
        T, q := DropStale(T, u), rest;
      }
    }

    // Lines 393-397: v joins the ball; if it is a candidate it is taken out of W.
    method Capture(v: nat, W: seq<nat>, intersectBall: seq<nat>, intersectBallSize: real, ghost all: seq<nat>,
                   ghost ball: seq<nat>)
      returns (rest: seq<nat>, captured: seq<nat>, size: real)
      requires v < |weights| && v !in ball
      requires Tally(weights, all, ball, W, intersectBall, intersectBallSize)
      ensures Tally(weights, all, ball + [v], rest, captured, size)
    {
      hide Tally;
      rest, captured, size := W, intersectBall, intersectBallSize;
      TallyNext(weights, all, ball, W, intersectBall, intersectBallSize, v);
      if v in W {
        rest := Without(W, {v});
        captured := captured + [v];
        size := size + weights[v];
      }
    }

    // Lines 387-407: one more node of the ball, unless the queue is exhausted or the node
    // makes the ball too heavy.
    method GrowBall(center: nat, d: seq<real>, queue: multiset<nat>, removedSet: set<nat>, total: real,
                    ghost P: Problem, ghost S: State)
      returns (verdict: Verdict, v: nat, e: seq<real>, q: multiset<nat>, newBallSize: real, ghost T: State)
      requires Configured() && Sized() && center < g.size
      requires P == Around(g, center, dblMax) && Inv(P, S, Degree(P, S), extractMin)
      requires S.labels == d && S.queue == queue && removedSet == Elems(S.order)
      requires Weighs(weights, S.order, total) && (S.order != [] ==> total <= wMax[center])
      ensures verdict.Fits? ==>
                && v < g.size && v !in removedSet
                && Inv(P, T, Degree(P, T), extractMin) && T.order == S.order + [v] && T.labels == e && T.queue == q
                && Weighs(weights, T.order, newBallSize) && newBallSize <= wMax[center]
      ensures !verdict.Fits? ==>
                && FoundBall(g, Ball(center, T, |S.order|), dblMax, weights, wMax[center], extractMin)
                && Ball(center, T, |S.order|).Members() == S.order
    {
      hide Inv, FoundBall, Weighs;
      var found;
      e, newBallSize := d, total;
      found, v, q, T := NextSettled(d, queue, removedSet, P, S);
      if !found {
        verdict := Exhausted;
        WholeBall(g, Ball(center, T, |S.order|), dblMax, weights, wMax[center], total, extractMin);
        return;
      }
      WeighsMore(weights, S.order, total, v);
      newBallSize := newBallSize + weights[v];
      if newBallSize > wMax[center] {
        verdict := Overflow;
        PartialBall(g, Ball(center, T, |S.order|), S.order, v, dblMax, weights, wMax[center], newBallSize, extractMin);
        return;
      }
      verdict := Fits;
      e, q, T := RelaxInBall(v, e, q, removedSet + {v}, P, T);
    }

    // Lines 376-407: the ball around a candidate, taken out of W as it grows.
    method SearchBall(center: nat, W: seq<nat>)
      returns (rest: seq<nat>, intersectBall: seq<nat>, intersectBallSize: real, ghost ball: Ball)
      requires Configured() && Sized() && center < g.size
      ensures ball.center == center && FoundBall(g, ball, dblMax, weights, wMax[center], extractMin)
      ensures Tally(weights, W, ball.Members(), rest, intersectBall, intersectBallSize)
      ensures forall x :: x in W <==> x in rest || x in intersectBall
      ensures AllBelow(intersectBall, |weights|) && intersectBallSize == SumSeq(weights, intersectBall)
    {
      hide Inv, FoundBall, Tally;
      ghost var P := Around(g, center, dblMax);
      var d, queue;
      ghost var S;
      d, queue, S := StartFrom(center, P);
      var removedSet: set<nat> := {};
      var newBallSize := 0.0;
      rest, intersectBall, intersectBallSize := W, [], 0.0;
      StartTally(weights, W);
      while true
        invariant Inv(P, S, Degree(P, S), extractMin)
        invariant S.labels == d && S.queue == queue && removedSet == Elems(S.order)
        invariant Weighs(weights, S.order, newBallSize) && (S.order != [] ==> newBallSize <= wMax[center])
        invariant Tally(weights, W, S.order, rest, intersectBall, intersectBallSize)
        decreases g.size - |removedSet|
      {
        var verdict, v;
        ghost var before := S.order;
        verdict, v, d, queue, newBallSize, S := GrowBall(center, d, queue, removedSet, newBallSize, P, S);
        if !verdict.Fits? {
          ball := Ball(center, S, |before|);
          TallySplits(weights, W, before, rest, intersectBall, intersectBallSize);
          return;
        }
        InvOrder(P, S, Degree(P, S), extractMin);
        removedSet := removedSet + {v};
        CardBelow(removedSet, g.size);
        rest, intersectBall, intersectBallSize := Capture(v, rest, intersectBall, intersectBallSize, W, before);
      }
    }

    // Lines 376-420: trying a candidate that is not a head yet. With no trial left it is
    // always accepted, so the final break is never reached.
    method TryCandidate(nextLandmark: nat, candidates: seq<nat>, trials: nat, heads: seq<nat>)
      returns (W: seq<nat>, maxTrial: nat, newW: seq<nat>, ghost round: Round)
      requires Configured() && Sized() && PoolOk(Settings(), Pool(candidates, isLandmark, trials, heads))
      requires nextLandmark in candidates && !isLandmark[nextLandmark]
      modifies this`isLandmark
      ensures Sized()
      ensures !round.Discard? && round.ball.center == nextLandmark
      ensures round.Accept? <==>
                trials == 0
                || WeightOf(weights, Elems(candidates) * Elems(round.ball.Members())) > maxThres / 2.0
      ensures round.Accept? ==>
                && maxTrial == 3 && newW == heads + [nextLandmark] && nextLandmark < |old(isLandmark)|
                && isLandmark == old(isLandmark)[nextLandmark := true]
                && forall x :: x in W <==> x in candidates && x !in round.ball.Members()
      ensures round.Reject? ==>
                && maxTrial == trials - 1 && newW == heads && isLandmark == old(isLandmark)
                && forall x :: x in W <==> x in candidates
      ensures Enabled(Settings(), Pool(candidates, old(isLandmark), trials, heads), round)
      ensures Pool(W, isLandmark, maxTrial, newW) == Next(Pool(candidates, old(isLandmark), trials, heads), round)
    {
      hide FoundBall, Inv;
      W, maxTrial, newW := candidates, trials, heads;
      var rest, intersectBall, intersectBallSize;
      ghost var ball;
      rest, intersectBall, intersectBallSize, ball := SearchBall(nextLandmark, W);
      W := rest;
      CapturedWeight(Settings(), Pool(candidates, isLandmark, trials, heads), ball);
      if maxTrial == 0 || intersectBallSize > maxThres / 2.0 {
        round := Accept(ball);
        newW := newW + [nextLandmark];
        isLandmark := isLandmark[nextLandmark := true];
        maxTrial := 3;
      } else {
        round := Reject(ball);
        W := W + intersectBall;
        maxTrial := maxTrial - 1;
      }
    }

    // In a run of TZ_sample2 a ball is accepted exactly if its candidates weigh more than half
    // of maxThres, each counted once, or three were rejected since the start or the last
    // acceptance; j is that point of the run.
    lemma AcceptedAboveHalf(candidates: seq<nat>, marked: seq<bool>, log: seq<Round>, j: nat, i: nat)
      requires PoolOk(Settings(), Pool(candidates, marked, 3, []))
      requires Run(Settings(), Pool(candidates, marked, 3, []), log)
      requires j <= i < |log| && !log[i].Discard?
      requires (j == 0 || log[j - 1].Accept?) && forall m :: j <= m < i ==> !log[m].Accept?
      ensures |set m: nat | j <= m < i && m < |log| && log[m].Reject?| <= 3
      ensures log[i].Accept? <==>
                || WeightOf(weights, Elems(After(Pool(candidates, marked, 3, []), log[..i]).candidates)
                                     * Elems(log[i].ball.Members())) > maxThres / 2.0
                || |set m: nat | j <= m < i && m < |log| && log[m].Reject?| == 3
    {
      hide Run, After;
      TrialsLeft(Settings(), Pool(candidates, marked, 3, []), log, j, i);
      AcceptedIff(Settings(), Pool(candidates, marked, 3, []), log, j, i);
    }

    // TZ_sample2, for every sequence of random choices
    method TZSample2(candidates: seq<nat>) returns (newW: seq<nat>, ghost log: seq<Round>)
      requires Configured() && Sized() && AllBelow(candidates, g.size)
      modifies this`isLandmark
      ensures Sized()
      ensures Run(Settings(), Pool(candidates, old(isLandmark), 3, []), log)
      ensures After(Pool(candidates, old(isLandmark), 3, []), log).candidates == []
      ensures After(Pool(candidates, old(isLandmark), 3, []), log).marked == isLandmark
      ensures After(Pool(candidates, old(isLandmark), 3, []), log).heads == newW
    {
      hide FoundBall, Enabled, Next;
      var W, maxTrial: nat := candidates, 3;
      newW, log := [], [];
      ghost var c, start := Settings(), Pool(candidates, isLandmark, 3, []);
      ghost var s := start;
      while W != []
        invariant Sized() && c == Settings()
        invariant Run(c, start, log) && After(start, log) == s && PoolOk(c, s)
        invariant s == Pool(W, isLandmark, maxTrial, newW)
        decreases Rank(s)
      {
        var i :| 0 <= i < |W|;
        var nextLandmark := W[i];
        ghost var round;
        if isLandmark[nextLandmark] {
          round := Discard(nextLandmark);
          DiscardStep(c, s, nextLandmark);
          W := Without(W, {nextLandmark});
        } else {
          W, maxTrial, newW, round := TryCandidate(nextLandmark, W, maxTrial, newW);
        }
        RoundShrinks(c, s, round);
        RoundKeepsPool(c, s, round);
        RunSnoc(c, start, log, round);
        s, log := Next(s, round), log + [round];
      }
    }

    // Every head can carry at least w_min.
    ghost predicate HeadsStrong()
      reads this`A, this`wMin, this`wMax
    {
      0.0 <= wMin && forall l :: l in A ==> l < |wMax| && wMax[l] >= wMin
    }

    // clearData followed by growBalls(A)
    method Regrow()
      requires Configured() && Sized() && HeadsMarked() && Connected(g) && A != []
      modifies this`dLandmark, this`cent, this`representSet, this`ballWeight, this`settled
      ensures Grown() && Sized() && BallsWeighed()
    {
      ClearData();
      AllReachable(g, A);
      GrowBalls(A);
    }

    // Lines 461-463: the fringe nodes that can carry w_min, in order and with repetitions; at
    // says where in the fringe each was.
    method KeepStrong(fringeSet: seq<nat>) returns (W: seq<nat>, ghost at: seq<nat>)
      requires AllBelow(fringeSet, |wMax|)
      ensures forall x: nat ::
                multiset(W)[x] == if x < |wMax| && wMax[x] >= wMin then multiset(fringeSet)[x] else 0
      ensures forall x: nat :: x in W <==> x in fringeSet && x < |wMax| && wMax[x] >= wMin
      ensures |at| == |W| && forall m :: 0 <= m < |at| ==> at[m] < |fringeSet| && W[m] == fringeSet[at[m]]
      ensures forall m, n :: 0 <= m < n < |at| ==> at[m] < at[n]
      ensures W == Only(fringeSet, AtLeast(wMax, wMin))
    {
      hide Only;
      W, at := [], [];
      assert fringeSet[..0] == [];
      OnlyNone(fringeSet[..0], AtLeast(wMax, wMin));
      for i := 0 to |fringeSet|
        invariant W == Only(fringeSet[..i], AtLeast(wMax, wMin))
        invariant |at| == |W| && forall m :: 0 <= m < |at| ==> at[m] < i && W[m] == fringeSet[at[m]]
        invariant forall m, n :: 0 <= m < n < |at| ==> at[m] < at[n]
      {
        var w := fringeSet[i];
        OnlySnoc(fringeSet[..i], w, AtLeast(wMax, wMin));
        assert fringeSet[..i + 1] == fringeSet[..i] + [w];
        if wMax[w] >= wMin {
          W, at := W + [w], at + [i];
        }
      }
      assert fringeSet[..|fringeSet|] == fringeSet;
      KeptCounts(fringeSet);
    }

    lemma KeptCounts(fringeSet: seq<nat>)
      ensures forall x: nat ::
                multiset(Only(fringeSet, AtLeast(wMax, wMin)))[x]
                == if x < |wMax| && wMax[x] >= wMin then multiset(fringeSet)[x] else 0
    {
      OnlyCounts(fringeSet, AtLeast(wMax, wMin));
    }

    // Lines 458-468: the fringe of the overloaded cells, filtered, feeds TZ_sample2, and
    // what it returns is appended to A.
    method RecruitFromFringe() returns (ghost parts: seq<seq<nat>>, ghost log: seq<Round>)
      requires Configured() && Sized() && BallsWeighed() && HeadsMarked() && HeadsStrong()
      modifies this`A, this`isLandmark
      ensures Sized() && HeadsMarked() && HeadsStrong()
      ensures PeeledAll(old(A), representSet, parts, dLandmark, weights, wMax)
      ensures Recruited(Settings(), old(A), A, Only(Joined(parts), AtLeast(wMax, wMin)), old(isLandmark), log)
      ensures forall x: nat :: x in Joined(parts) && x < |wMax| && wMax[x] >= wMin ==>
                x < |old(isLandmark)| && (old(isLandmark)[x] || x in A || Captures(log, x))
      ensures forall x: nat :: x in A && x !in old(A) ==>
                && x in Joined(parts) && x < |wMax| && wMax[x] >= wMin
                && x < |old(isLandmark)| && !old(isLandmark)[x]
    {
      hide FoundBall, Peeled, Enabled, Next, PoolOk;
      var fringeSet;
      fringeSet, parts := VerifyFringeSet();
      PeeledBelow(A, representSet, parts, dLandmark, weights, wMax);
      var W;
      ghost var at;
      W, at := KeepStrong(fringeSet);
      AllBelowSubset(fringeSet, W, g.size);
      PoolStarts(Settings(), W, isLandmark);
      var newW;
      newW, log := TZSample2(W);
      RunKeepsHeadsFresh(Settings(), Pool(W, old(isLandmark), 3, []), log);
      forall x: nat | x in W
        ensures x < |old(isLandmark)| && (old(isLandmark)[x] || x in newW || Captures(log, x))
      {
        RunCovers(Settings(), Pool(W, old(isLandmark), 3, []), log, x);
      }
      ghost var start := Pool(W, old(isLandmark), 3, []);
      RecruitsMarked(A, start, After(start, log), wMax, wMin, g.size);
      A := A + newW;
    }

    // recruitNewCHsAlpha
    method RecruitNewCHsAlpha() returns (ghost parts: seq<seq<nat>>, ghost log: seq<Round>)
      requires Configured() && Grown() && HeadsMarked() && HeadsStrong() && Connected(g) && A != []
      modifies this`A, this`isLandmark, this`dLandmark, this`cent, this`representSet, this`ballWeight, this`settled
      ensures Grown() && Sized() && BallsWeighed() && HeadsMarked() && HeadsStrong() && A != []
      ensures PeeledAll(old(A), old(representSet), parts, old(dLandmark), weights, wMax)
      ensures Recruited(Settings(), old(A), A, Only(Joined(parts), AtLeast(wMax, wMin)), old(isLandmark), log)
      ensures forall x: nat :: x in Joined(parts) && x < |wMax| && wMax[x] >= wMin ==>
                x < |old(isLandmark)| && (old(isLandmark)[x] || x in A || Captures(log, x))
      ensures forall x: nat :: x in A && x !in old(A) ==>
                && x in Joined(parts) && x < |wMax| && wMax[x] >= wMin
                && x < |old(isLandmark)| && !old(isLandmark)[x]
    {
      hide Inv, PeeledAll, Run, After;
      parts, log := RecruitFromFringe();
      Regrow();
    }

    // Lines 557-560: dropping the head on top of the queue.
    method DropOne(Q: multiset<nat>, temp: seq<real>, ghost heads: seq<nat>) returns (rest: multiset<nat>)
      requires HeadsMarked() && A != [] && Q == multiset(A) && |temp| == g.size
      requires LightestDropped(heads, A, temp)
      modifies this`A, this`isLandmark
      ensures HeadsMarked() && |A| == old(|A|) - 1 && rest == multiset(A)
      ensures LightestDropped(heads, A, temp)
    {
      hide LightestDropped;
      assert forall x :: x in multiset(A) ==> x in A;
      assert A[0] in multiset(A);
      var u;
      u, rest := PopLeast(Q, temp);
      DropLightest(heads, A, temp, u);
      MarksDrop(A, isLandmark, g.size, u);
      A := Without(A, {u});
      isLandmark := isLandmark[u := false];
    }

    // Lines 549-561: dropping the heads with the lightest balls until kMax are left.
    method TrimHeads(kMax: nat)
      requires Sized() && HeadsMarked() && |A| >= kMax
      modifies this`A, this`isLandmark
      ensures Sized() && HeadsMarked() && |A| == kMax
      ensures LightestDropped(old(A), A, BallVector(ballWeight, g.size))
    {
      var temp := BallVector(ballWeight, g.size);
      var Q := QueueOf(A);
      ghost var heads := A;
      NothingDropped(A, temp);
      hide LightestDropped, Marks;
      while |A| > kMax
        invariant Sized() && HeadsMarked() && |A| >= kMax
        invariant LightestDropped(heads, A, temp) && Q == multiset(A)
        decreases |A|
      {
        Q := DropOne(Q, temp, heads);
      }
    }

    // Lines 566-572: is some ball heavier than its head can carry?
    method AnyOverloaded() returns (fl: bool)
      requires forall l :: l in ballWeight.Keys ==> l < |wMax|
      ensures fl <==> exists l :: l in ballWeight.Keys && wMax[l] < ballWeight[l]
    {
      fl := false;
      var rest := ballWeight.Keys;
      while rest != {}
        invariant rest <= ballWeight.Keys
        invariant !fl && forall l :: l in ballWeight.Keys - rest ==> wMax[l] >= ballWeight[l]
        decreases |rest|
      {
        var l :| l in rest;
        if wMax[l] < ballWeight[l] {
          fl := true;
          return;
        }
        rest := rest - {l};
      }
    }

    // estimateMaxWeight of what each node could spend above the energy level.
    function CapacityAt(level: real): seq<real> {
      seq(|energy|, i requires 0 <= i < |energy| => estimateMaxWeight(energy[i] - level))
    }

    ghost function SettingAt(level: real): Setting {
      Setting(g, weights, CapacityAt(level), maxThres / 2.0, dblMax, extractMin)
    }

    // Lines 491-501
    method ComputeCapacities()
      requires Configured() && Sized()
      modifies this`wTotal, this`wMax
      ensures Sized() && wMax == CapacityAt(eOpt) && wTotal == Total(weights) >= 0.0
      ensures wTotal == SumSeq(weights, ByIndex(g.size))
      ensures forall i :: 0 <= i < g.size ==> wMax[i] == estimateMaxWeight(energy[i] - eOpt)
    {
      hide Total;
      wTotal := WeighList(ByIndex(g.size));
      TotalIsSum(weights);
      for i := 0 to g.size
        invariant Sized() && wTotal == Total(weights) >= 0.0 && wTotal == SumSeq(weights, ByIndex(g.size))
        invariant forall j :: 0 <= j < i ==> wMax[j] == estimateMaxWeight(energy[j] - eOpt)
      {
        wMax := wMax[i := estimateMaxWeight(energy[i] - eOpt)];
      }
    }

    // Lines 506-513: the scan as coded, over w_max in node order. With no exceeding prefix
    // k_max stays uninitialised.
    method ScanCapacity() returns (found: bool, k: nat)
      requires Sized()
      ensures found ==> FirstExceeding(wMax, ByIndex(g.size), wTotal, k)
      ensures found ==> 1 <= k <= g.size && SumSeq(wMax, ByIndex(g.size)[..k]) > wTotal
      ensures found ==> forall j :: 1 <= j < k ==> SumSeq(wMax, ByIndex(g.size)[..j]) <= wTotal
      ensures !found ==> NoneExceeds(wMax, wTotal)
    {
      ghost var order := ByIndex(g.size);
      var wTotalTmp := wTotal;
      assert order[..0] == [];
      for i := 0 to g.size
        invariant wTotalTmp == wTotal - SumSeq(wMax, order[..i])
        invariant forall j :: 1 <= j <= i ==> SumSeq(wMax, order[..j]) <= wTotal
      {
        assert order[..i + 1] == order[..i] + [i];
        SumSeqSnoc(wMax, order[..i], i);
        wTotalTmp := wTotalTmp - wMax[i];
        if wTotalTmp < 0.0 {
          return true, i + 1;
        }
      }
      return false, 0;
    }

    // Lines 528-535: the first heads are drawn among the unmarked nodes above w_min.
    method Seed()
      requires Configured() && Sized() && HeadsMarked() && A == []
      requires exists i :: 0 <= i < g.size && wMax[i] > wMin
      requires 0.0 <= wMin
      modifies this`A, this`isLandmark
      ensures Sized() && HeadsMarked() && HeadsStrong() && A != []
      ensures forall l :: l in A ==> wMax[l] > wMin
      ensures |set x: nat | x < |wMax| && wMax[x] > wMin| < 8 ==>
                forall x: nat :: x in A <==> x < |wMax| && wMax[x] > wMin
    {
      var satisfiedNodes: seq<nat> := [];
      for i := 0 to g.size
        invariant Sized() && HeadsMarked() && A == []
        invariant NoDup(satisfiedNodes) && AllBelow(satisfiedNodes, g.size)
        invariant forall x: nat :: x in satisfiedNodes <==> x < i && wMax[x] > wMin
      {
        if wMax[i] > wMin && !isLandmark[i] {
          NoDupSnoc(satisfiedNodes, i);
          satisfiedNodes := satisfiedNodes + [i];
        }
      }
      ghost var i :| 0 <= i < g.size && wMax[i] > wMin;
      assert i in satisfiedNodes && !isLandmark[i];
      NoDupCard(satisfiedNodes);
      assert Elems(satisfiedNodes) == set x: nat | x < |wMax| && wMax[x] > wMin;
      while A == []
        invariant Sized() && HeadsMarked() && HeadsStrong()
        invariant forall l :: l in A ==> wMax[l] > wMin
        invariant A != [] && |satisfiedNodes| < 8 ==> A == satisfiedNodes
        decreases if A == [] then 1 else 0
      {
        assert forall x: nat :: x < g.size ==> !isLandmark[x];
        var drawn := TZSample(satisfiedNodes, 8.0);
        AllBelowSubset(satisfiedNodes, drawn, g.size);
        A := drawn;
      }
    }

    // Lines 538-575: recruit, trim and regrow until no ball is too heavy, 52 rounds at most.
    method Balance(kMax: nat) returns (timedOut: bool, ghost rounds: seq<BalanceRound>)
      requires Configured() && Grown() && HeadsMarked() && HeadsStrong() && Connected(g) && A != [] && kMax >= 1
      modifies this`A, this`isLandmark, this`dLandmark, this`cent, this`representSet, this`ballWeight, this`settled
      ensures Grown() && HeadsMarked() && HeadsStrong() && A != []
      ensures BalanceRun(Settings(), wMin, kMax, old(Now()), rounds, Now())
      ensures LoopEnds(Settings(), rounds, timedOut)
      ensures 1 <= |rounds| <= 52 && (timedOut <==> |rounds| == 52)
      ensures !timedOut ==> |A| <= kMax && forall l :: l in ballWeight ==> l < |wMax| && ballWeight[l] <= wMax[l]
    {
      hide Inv, FoundBall, GrownStand, RoundOf, Marks, Overloads, LoopGoes, LoopEnds;
      rounds, timedOut := [], false;
      var count, fl := 0, true;
      LoopStarts(Settings());
      while fl
        invariant Grown() && HeadsMarked() && HeadsStrong() && A != []
        invariant count == |rounds| <= 51
        invariant LoopGoes(Settings(), rounds, fl)
        invariant BalanceRun(Settings(), wMin, kMax, old(Now()), rounds, Now())
        invariant !fl ==> |A| <= kMax && LoopEnds(Settings(), rounds, false)
        decreases 52 - count, fl
      {
        ghost var round;
        fl, timedOut, round := BalanceOnce(count, kMax);
        RunsOn(Settings(), wMin, kMax, old(Now()), rounds, round);
        LoopStep(Settings(), rounds, round, fl);
        rounds := rounds + [round];
        count := count + 1;
        if timedOut {
          LoopEndsMeans(Settings(), wMin, kMax, old(Now()), rounds, Now(), true);
          return;
        }
      }
      LoopEndsMeans(Settings(), wMin, kMax, old(Now()), rounds, Now(), false);
    }

    // One round of the loop; count is the number of rounds before it.
    method BalanceOnce(count: nat, kMax: nat) returns (fl: bool, timedOut: bool, ghost round: BalanceRound)
      requires Configured() && Grown() && HeadsMarked() && HeadsStrong() && Connected(g) && A != [] && kMax >= 1
      modifies this`A, this`isLandmark, this`dLandmark, this`cent, this`representSet, this`ballWeight, this`settled
      ensures Grown() && HeadsMarked() && HeadsStrong() && A != []
      ensures round.start == old(Now()) && round.after == Now() && round.timedOut == timedOut
      ensures RoundOf(Settings(), wMin, kMax, round)
      ensures timedOut <==> count > 50
      ensures !timedOut ==> |A| <= kMax && (fl <==> Overloads(wMax, ballWeight))
    {
      hide Inv, FoundBall, PeeledAll, Recruited, GrownStand, Marks, LightestDropped;
      timedOut, fl := count > 50, true;
      ghost var parts, log := RecruitNewCHsAlpha();
      ghost var recruited := Now();
      if count > 50 {
        Regrow();
        round := BalanceRound(old(Now()), parts, log, recruited, true, Now());
        return;
      }
      TrimIfNeeded(kMax);
      Regrow();
      round := BalanceRound(old(Now()), parts, log, recruited, false, Now());
      fl := Overloaded();
    }

    method Overloaded() returns (fl: bool)
      requires Sized() && HeadsMarked() && BallsWeighed()
      ensures fl <==> Overloads(wMax, ballWeight)
    {
      fl := AnyOverloaded();
    }

    // Lines 548-562
    method TrimIfNeeded(kMax: nat)
      requires Sized() && HeadsMarked() && HeadsStrong() && A != [] && kMax >= 1
      modifies this`A, this`isLandmark
      ensures Sized() && HeadsMarked() && HeadsStrong() && A != []
      ensures if |old(A)| > kMax then |A| == kMax && LightestDropped(old(A), A, BallVector(ballWeight, g.size))
              else A == old(A)
    {
      if |A| > kMax {
        TrimHeads(kMax);
        assert forall l :: l in A ==> l in old(A);
      }
    }

    // calculatePathLength
    method CalculatePathLength(path: seq<nat>) returns (pathLength: real)
      ensures pathLength == TourLength(path, distance)
    {
      if path == [] {
        return 0.0;
      }
      pathLength := 0.0;
      for i := 0 to |path| - 1
        invariant pathLength == TourLength(path[..i + 1], distance)
      {
        pathLength := pathLength + distance(path[i], path[i + 1]);
        assert path[..i + 2][..i + 1] == path[..i + 1];
      }
      assert path[..|path|] == path;
    }

    // sortedCHVector
    method SortedCHVector() returns (CHvector: seq<nat>)
      ensures CHvector == HeadsByAngle(A, angle)
    {
      CHvector := [];
      if A == [] {
        return;
      }
      CHvector := [A[0]];
      ghost var key := AngleOf(angle, A[0]);
      assert A[1..1] == [];
      for i := 1 to |A|
        invariant CHvector == [A[0]] + ByAngle(A[1..i], key)
      {
        CHvector := InsertHead(CHvector, A[i], A[1..i]);
        assert A[1..i + 1] == A[1..i] + [A[i]];
      }
      assert A[1..|A|] == A[1..];
    }

    // Lines 642-654: x goes before the first head, past the one in front, at a larger angle.
    method InsertHead(CHvector: seq<nat>, x: nat, ghost tail: seq<nat>) returns (inserted: seq<nat>)
      requires CHvector != [] && CHvector[1..] == ByAngle(tail, AngleOf(angle, CHvector[0]))
      ensures inserted == [CHvector[0]] + ByAngle(tail + [x], AngleOf(angle, CHvector[0]))
    {
      hide ByAngle;
      ghost var sorted, key := CHvector[1..], AngleOf(angle, CHvector[0]);
      var a := angle(CHvector[0], x);
      var j := 0;
      while j + 1 < |CHvector| && !(angle(CHvector[0], CHvector[j + 1]) > a)
        invariant j < |CHvector|
        invariant forall m :: 0 <= m < j ==> key(sorted[m]) <= key(x)
      {
        assert CHvector[j + 1] == sorted[j];
        j := j + 1;
      }
      assert j < |sorted| ==> CHvector[j + 1] == sorted[j];
      ByAngleNext(tail, x, j, key);
      inserted := CHvector[..j + 1] + [x] + CHvector[j + 1..];
    }

    // mainTSP returns its zone in some order.
    method MainTSP(zone: seq<nat>) returns (tour: seq<nat>)
      ensures multiset(tour) == multiset(zone)
    {
      tour :| multiset(tour) == multiset(zone);
    }

    // Lines 605-619: the trajectory of one zone.
    method BuildTrajectory(CHvector: seq<nat>, k: nat) returns (trajectory: seq<nat>)
      requires k < numUAVs <= |CHvector|
      ensures RoundTrip(trajectory, g.sink, Wedge(CHvector, numUAVs, k))
    {
      WedgeBounds(|CHvector|, numUAVs, k);
      var start, end := |CHvector| / numUAVs * k, |CHvector| / numUAVs * (k + 1);
      var zone: seq<nat> := [];
      assert CHvector[start..start] == [];
      for i := start to end
        invariant zone == CHvector[start..i]
      {
        zone := zone + [CHvector[i]];
      }
      var tour := MainTSP(zone);
      assert |multiset(tour)| == |tour| && |multiset(zone)| == |zone|;
      trajectory := [g.sink] + tour + [g.sink];
      assert trajectory[1..|trajectory| - 1] == tour;
    }

    // buildTrajectories
    method BuildTrajectories()
      requires |trajectories| == numUAVs
      modifies this`trajectories
      ensures |trajectories| == numUAVs && ToursOf(A, trajectories, numUAVs, g.sink, angle)
    {
      for i := 0 to numUAVs
        invariant |trajectories| == numUAVs && forall j :: 0 <= j < i ==> trajectories[j] == []
      {
        trajectories := trajectories[i := []];
      }
      if |A| < numUAVs {
        for i := 0 to |A|
          invariant |trajectories| == numUAVs
          invariant forall j :: 0 <= j < numUAVs ==>
                      trajectories[j] == if j < i then [g.sink, A[j], g.sink] else []
        {
          trajectories := trajectories[i := [g.sink, A[i], g.sink]];
        }
        return;
      }
      var CHvector := SortedCHVector();
      HeadsByAngleLength(A, angle);
      for k := 0 to numUAVs
        invariant |trajectories| == numUAVs
        invariant forall j :: 0 <= j < k ==> RoundTrip(trajectories[j], g.sink, Wedge(CHvector, numUAVs, j))
      {
        var trajectory := BuildTrajectory(CHvector, k);
        trajectories := trajectories[k := trajectory];
      }
    }

    // reset
    method Reset()
      modifies this`trajectories, this`A, this`dLandmark, this`cent, this`isLandmark, this`representSet, this`wMax
      ensures Sized() && A == [] && HeadsMarked()
      ensures trajectories == seq(numUAVs, _ => [])
      ensures forall i: nat :: i < g.size ==>
                dLandmark[i] == 0.0 && cent[i] == -1 && !isLandmark[i] && representSet[i] == [] && wMax[i] == 0.0
    {
      trajectories := seq(numUAVs, _ => []);
      A := [];
      dLandmark := seq(g.size, _ => 0.0);
      cent := seq(g.size, _ => -1);
      isLandmark := seq(g.size, _ => false);
      representSet := seq(g.size, _ => []);
      wMax := seq(g.size, _ => 0.0);
    }

    // The fields hold what constructClusters built at the energy level, with the sink's own
    // entry of cent erased.
    ghost predicate Clustered(b: Clusters)
      reads this`A, this`cent, this`dLandmark, this`isLandmark, this`representSet, this`wMax, this`ballWeight,
            this`settled, this`eOpt, this`wMin, this`wTotal
    {
      && Sized() && Built(SettingAt(eOpt), b)
      && wMax == CapacityAt(eOpt) && wTotal == Total(weights) && wMin == LeastCapacity(weights, b.k)
      && Now().(roots := b.final.roots) == b.final
      && g.sink < |b.final.roots| && cent == b.final.roots[g.sink := -1]
    }

    // Some of that written out: A lists the marked nodes, each once; 4k heads with just w_min
    // each carry just the total; unless the loop timed out there are no more heads, and none
    // has a ball heavier than it can carry.
    lemma ClusteredMeans(b: Clusters)
      requires Configured() && Clustered(b)
      ensures A != [] && NoDup(A) && |isLandmark| == g.size && AllBelow(A, g.size)
      ensures forall i: nat :: i < g.size ==> (isLandmark[i] <==> i in A)
      ensures 1 <= b.k && wMin * (4 * b.k) as real == wTotal == SumSeq(weights, ByIndex(g.size))
      ensures b.k <= g.size && SumSeq(wMax, ByIndex(g.size)[..b.k]) > wTotal
      ensures 1 <= |b.rounds| <= 52 && (b.timedOut <==> |b.rounds| == 52)
      ensures !b.timedOut ==> |A| <= 4 * b.k && forall l :: l in ballWeight ==> l < |wMax| && ballWeight[l] <= wMax[l]
    {
      hide GrownStand, Seeded, RoundOf;
      LeastCapacityCarries(weights, b.k);
      SumSeqIsWeight(weights, ByIndex(g.size));
      LoopEndsMeans(SettingAt(eOpt), LeastCapacity(weights, b.k), 4 * b.k, b.seeds, b.rounds, b.final, b.timedOut);
    }

    // Lines 491-517: the capacities, the scan, and w_min.
    method PlanCapacity() returns (found: bool, k: nat)
      requires Configured() && Sized()
      modifies this`wMax, this`wMin, this`wTotal
      ensures Sized() && wMax == CapacityAt(eOpt) && wTotal == Total(weights)
      ensures found ==> FirstExceeding(wMax, ByIndex(g.size), wTotal, k) && wMin == LeastCapacity(weights, k)
      ensures found ==> wMin * (4 * k) as real == wTotal
      ensures found ==> 0.0 <= wMin && exists i :: 0 <= i < g.size && wMax[i] > wMin
      ensures !found ==> NoneExceeds(wMax, wTotal)
    {
      hide FirstExceeding, NoneExceeds, CapacityAt, Total;
      ComputeCapacities();
      found, k := ScanCapacity();
      if found {
        var kMax := k * 4;
        wMin := wTotal / kMax as real;
        ghost var i := SomeNodeAboveShare(wMax, wTotal, k);
        ShareNotNegative(wTotal, kMax);
        LeastCapacityCarries(weights, k);
      }
    }

    // constructClusters after reset. When the scan finds no k the original goes on with an
    // uninitialised k_max; the model stops there.
    method ConstructClusters() returns (found: bool, ghost built: Clusters)
      requires Configured() && Sized() && HeadsMarked() && A == [] && Connected(g)
      modifies this`A, this`isLandmark, this`dLandmark, this`cent, this`representSet, this`ballWeight, this`settled,
               this`wMax, this`wMin, this`wTotal
      ensures Sized()
      ensures found ==> Clustered(built)
      ensures !found ==> NoCapacityAt(eOpt)
    {
      hide Built, GrownStand, Marks, FirstExceeding, NoneExceeds, CapacityAt;
      built := Unbuilt();
      var k;
      found, k := PlanCapacity();
      assert Settings() == SettingAt(eOpt);
      if !found {
        return;
      }
      KPositive(wMax, g.size, wTotal, k);
      built := BuildClusters(k);
      FinalAssigns(Settings(), built);
      EraseSinkHead();
    }

    // Lines 526-575: seeding, and the balancing loop.
    method BuildClusters(k: nat) returns (ghost built: Clusters)
      requires Configured() && Sized() && HeadsMarked() && A == [] && Connected(g)
      requires FirstExceeding(wMax, ByIndex(g.size), wTotal, k) && k >= 1
      requires wTotal == Total(weights) && 0.0 <= wMin == LeastCapacity(weights, k)
      requires exists i :: 0 <= i < g.size && wMax[i] > wMin
      modifies this`A, this`isLandmark, this`dLandmark, this`cent, this`representSet, this`ballWeight, this`settled
      ensures Sized() && Built(Settings(), built) && built.k == k && built.final == Now()
    {
      hide Inv, GrownStand, BalanceRun, Marks, FirstExceeding, LoopEnds;
      SeedAndGrow();
      ghost var seeds := Now();
      var timedOut;
      ghost var rounds;
      timedOut, rounds := Balance(k * 4);
      built := Clusters(k, timedOut, seeds, rounds, Now());
    }

    // Line 577
    method EraseSinkHead()
      requires Configured() && Sized()
      modifies this`cent
      ensures Sized() && cent == old(cent)[g.sink := -1]
    {
      cent := cent[g.sink := -1];
    }

    // Lines 527-534
    method ClearAndSeed()
      requires Configured() && Sized() && HeadsMarked() && A == []
      requires exists i :: 0 <= i < g.size && wMax[i] > wMin
      requires 0.0 <= wMin
      modifies this`A, this`isLandmark, this`dLandmark, this`cent, this`representSet
      ensures Sized() && HeadsMarked() && HeadsStrong() && A != []
      ensures forall v: nat :: v < g.size && v != g.sink ==> dLandmark[v] == dblMax
      ensures forall l :: l in A ==> wMax[l] > wMin
      ensures |set x: nat | x < |wMax| && wMax[x] > wMin| < 8 ==>
                forall x: nat :: x in A <==> x < |wMax| && wMax[x] > wMin
    {
      ClearData();
      assert forall v: nat :: v < g.size && v != g.sink ==> dLandmark[v] == dblMax;
      Seed();
    }

    // Lines 527-535
    method SeedAndGrow()
      requires Configured() && Sized() && HeadsMarked() && A == [] && Connected(g)
      requires exists i :: 0 <= i < g.size && wMax[i] > wMin
      requires 0.0 <= wMin
      modifies this`A, this`isLandmark, this`dLandmark, this`cent, this`representSet, this`ballWeight, this`settled
      ensures Grown() && HeadsMarked() && HeadsStrong() && A != []
      ensures forall l :: l in A ==> wMax[l] > wMin
      ensures |set x: nat | x < |wMax| && wMax[x] > wMin| < 8 ==>
                forall x: nat :: x in A <==> x < |wMax| && wMax[x] > wMin
    {
      hide GrownStand;
      ClearAndSeed();
      AllReachable(g, A);
      GrowBalls(A);
    }

    // After growBalls, for any pop order: a node has a path from its head, inside the cell
    // and as long as its label.
    lemma LabelIsPath(v: nat) returns (p: Path)
      requires Configured() && Grown() && v < g.size && v != g.sink
      ensures v < |cent| && v < |dLandmark| && cent[v] >= 0 && cent[v] in A
      ensures p.Valid(g) && p.Source() == cent[v] && p.node == v && p.Length(g) == dLandmark[v]
      ensures p.Inside(set x | x in settled && x < |cent| && cent[x] == cent[v])
    {
      var P, S := Growth(A), Progress(multiset{});
      assert v in settled;
      var i :| 0 <= i < |settled| && settled[i] == v;
      p := SettledHasPath(P, S, Degree(P, S), extractMin, i);
      assert CellOf(S, cent[v]) == set x | x in settled && x < |cent| && cent[x] == cent[v];
    }

    // With least pops no path from any head beats the label by more than the tolerance on
    // each of its hops: the head is nearest up to that.
    lemma LabelIsNearlyLeast(p: Path)
      requires Configured() && Grown() && extractMin
      requires p.Valid(g) && p.Source() in A
      ensures p.node < |dLandmark| && dLandmark[p.node] <= p.Length(g) + p.Hops() as real * 0.0001
    {
      hide Inv, Finished;
      LabelUpperBound(Growth(A), Progress(multiset{}), p);
      Tolerance(p.Hops());
    }

    // On nodes in the plane the same holds for every tame order of pops, ...
    lemma TameLabelIsNearlyLeast(at: seq<Point>, p: Path)
      requires Configured() && Grown() && Placed(g, at)
      requires Shape(Growth(A), Progress(multiset{})) && Tame(Growth(A), Progress(multiset{}))
      requires p.Valid(g) && p.Source() in A
      ensures p.node < |dLandmark| && dLandmark[p.node] <= p.Length(g) + p.Hops() as real * 0.0001
    {
      hide Inv, Placed, Tame;
      AnyOrder(Growth(A), Progress(multiset{}), extractMin);
      TameLabelBound(Growth(A), Progress(multiset{}), at, p);
      Tolerance(p.Hops());
    }

    // ... and so for every order whatever around a single head in range of all nodes.
    lemma OneHopLabelIsNearlyLeast(at: seq<Point>, head: nat, p: Path)
      requires Configured() && Grown() && Placed(g, at) && A == [head]
      requires forall v: nat :: v < g.size && v != g.sink && v != head ==> g.Edge(head, v)
      requires p.Valid(g) && p.Source() == head
      ensures p.node < |dLandmark| && dLandmark[p.node] <= p.Length(g) + p.Hops() as real * 0.0001
    {
      hide Inv, Placed, Tame;
      AnyOrder(Growth(A), Progress(multiset{}), extractMin);
      assert Elems(A) == {head};
      OneHopIsTame(Growth(A), Progress(multiset{}), head);
      TameLabelIsNearlyLeast(at, p);
    }

    // The head counts once and the rest of its cell twice.
    lemma BallWeightMeaning(l: nat)
      requires Configured() && Grown() && l in A
      ensures l < |weights| && l in ballWeight
      ensures ballWeight[l] == OwnWeight(g, weights, l) + 2.0 * WeightOf(weights, Others(settled, cent, A, l))
    {
      BallsAreCells(Settings(), Now());
    }

    ghost predicate WithinRange(tours: seq<seq<nat>>) {
      forall t :: 0 <= t < |tours| ==> TourLength(tours[t], distance) <= lMax
    }

    // No prefix of the capacities at this level exceeds the total weight.
    ghost predicate NoCapacityAt(level: real) {
      NoneExceeds(CapacityAt(level), Total(weights))
    }

    // At levels where no node can carry anything, and with capacities that are not negative
    // exactly where all together cannot carry more than the total weight, constructClusters
    // comes to read k_max uninitialised.
    lemma NoCapacityIff(level: real)
      requires Configured()
      ensures (forall i :: 0 <= i < |energy| ==> estimateMaxWeight(energy[i] - level) <= 0.0) ==> NoCapacityAt(level)
      ensures NonNegative(CapacityAt(level)) ==>
                (NoCapacityAt(level) <==> SumSeq(CapacityAt(level), ByIndex(|energy|)) <= Total(weights))
    {
      SumBelowNonNegative(weights, Elems(ByIndex(g.size)), |weights|);
      ScanFailsIff(CapacityAt(level), Total(weights));
      if forall i :: 0 <= i < |energy| ==> estimateMaxWeight(energy[i] - level) <= 0.0 {
        WeakNeverExceeds(CapacityAt(level), Total(weights));
      }
    }

    // Lines 154-161: is some trajectory too long?
    method TooLong() returns (fl: bool)
      requires |trajectories| == numUAVs
      ensures fl <==> !WithinRange(trajectories)
      ensures fl <==> exists t :: 0 <= t < |trajectories| && TourLength(trajectories[t], distance) > lMax
    {
      fl := false;
      for t := 0 to numUAVs
        invariant forall j :: 0 <= j < t ==> TourLength(trajectories[j], distance) <= lMax
      {
        var length := CalculatePathLength(trajectories[t]);
        if length > lMax {
          fl := true;
          return;
        }
      }
    }

    // A complete try of one energy level: clusters built at its capacities, and tours of
    // their heads.
    ghost predicate Tried(o: Outcome) {
      Built(SettingAt(o.level), o.built) && ToursOf(o.built.final.heads, o.tours, numUAVs, g.sink, angle)
    }

    // Lines 144-161: clusters and trajectories at one energy level.
    method TryLevel(level: real) returns (found: bool, fl: bool, ghost o: Outcome)
      requires Configured() && Connected(g)
      modifies this
      ensures config == old(config) && eOpt == level
      ensures !found ==> NoCapacityAt(level)
      ensures found ==> Tried(o) && o.level == level && Clustered(o.built) && trajectories == o.tours
      ensures found ==> (fl <==> !WithinRange(trajectories))
    {
      hide Built, Marks, ToursOf, WithinRange, NoCapacityAt;
      Reset();
      ClearData();
      eOpt := level;
      fl, o := true, Outcome(level, Unbuilt(), []);
      ghost var built;
      found, built := ConstructClusters();
      if found {
        BuildTrajectories();
        fl := TooLong();
        o := Outcome(level, built, trajectories);
      }
    }

    // Lines 129-135
    method EnergyBounds() returns (low: real, high: real)
      requires Configured()
      ensures forall i :: 0 <= i < g.size ==> low <= energy[i] <= high
      ensures low == dblMax || low in energy
      ensures 0.0 <= high && (high == 0.0 || high in energy)
      ensures low <= high
    {
      low, high := dblMax, 0.0;
      for i := 0 to g.size
        invariant forall j :: 0 <= j < i ==> low <= energy[j] <= high
        invariant low == dblMax || low in energy
        invariant 0.0 <= high && (high == 0.0 || high in energy)
      {
        if energy[i] > high {
          high := energy[i];
        }
        if energy[i] < low {
          low := energy[i];
        }
      }
      assert low <= energy[0] <= high;
    }

    function TxEnergy(byteLength: real): real {
      50.0 / 1000000000.0 * byteLength * 8.0 + 10.0 / 1000000000000.0 * byteLength * 8.0 * d2uav * d2uav
    }

    function RxEnergy(byteLength: real): real {
      50.0 / 1000000000.0 * byteLength * 8.0
    }

    lemma EnergyNotNegative(byteLength: real)
      requires byteLength >= 0.0
      ensures TxEnergy(byteLength) >= 0.0 && RxEnergy(byteLength) >= 0.0
    {
      var a := 10.0 / 1000000000000.0 * byteLength * 8.0;
      assert d2uav * d2uav >= 0.0;
      ProductNotNegative(a, d2uav * d2uav);
      assert a * d2uav * d2uav == a * (d2uav * d2uav);
    }

    // The energies written out: so much for each byte of eight bits, and additive.
    lemma EnergyPerByte(a: real, b: real)
      ensures RxEnergy(1.0) == 0.0000004 && TxEnergy(1.0) == 0.0000004 + 0.00000000008 * (d2uav * d2uav)
      ensures RxEnergy(a + b) == RxEnergy(a) + RxEnergy(b) && TxEnergy(a + b) == TxEnergy(a) + TxEnergy(b)
      ensures RxEnergy(0.0) == 0.0 && TxEnergy(0.0) == 0.0
    {
      EnergyFactor(1.0);
      EnergyFactor(a);
      EnergyFactor(b);
      EnergyFactor(a + b);
      EnergyFactor(0.0);
      var e := 0.00000000008 * (d2uav * d2uav);
      assert (a + b) * e == a * e + b * e;
    }

    lemma EnergyFactor(a: real)
      ensures RxEnergy(a) == 0.0000004 * a
      ensures TxEnergy(a) == 0.0000004 * a + a * (0.00000000008 * (d2uav * d2uav))
    {
      var x := 10.0 / 1000000000000.0 * a * 8.0;
      assert x == 0.00000000008 * a;
      assert x * d2uav * d2uav == x * (d2uav * d2uav);
      assert x * (d2uav * d2uav) == a * (0.00000000008 * (d2uav * d2uav));
    }

    // The shares of all UAVs make the total weight.
    lemma SharesMakeTotal()
      requires Configured() && numUAVs > 0
      ensures Share() * numUAVs as real == SumSeq(weights, ByIndex(g.size))
    {
      SumSeqIsWeight(weights, ByIndex(g.size));
      QuotientTimes(Total(weights), numUAVs as real);
    }

    // The weight each UAV has to collect if it is shared evenly.
    ghost function Share(): real
      requires |weights| == g.size && numUAVs > 0
    {
      Total(weights) / numUAVs as real
    }

    // Lines 129-138: the bracket the bisection starts from.
    method StartBracket() returns (eMin: real, eMax: real, ghost least: real)
      requires Configured() && numUAVs > 0
      ensures eMin <= eMax && 0.0 <= eMax && (eMax == 0.0 || eMax in energy)
      ensures forall i :: 0 <= i < g.size ==> least <= energy[i] <= eMax
      ensures least == dblMax || least in energy
      ensures eMin == least - (TxEnergy(Share()) + RxEnergy(Share())) <= least
    {
      eMin, eMax := EnergyBounds();
      least := eMin;
      var totalWeights := WeighList(ByIndex(g.size));
      SumSeqIsWeight(weights, ByIndex(g.size));
      SumBelowNonNegative(weights, Elems(ByIndex(g.size)), |weights|);
      ShareNotNegative(totalWeights, numUAVs);
      EnergyNotNegative(totalWeights / numUAVs as real);
      eMin := eMin - (TxEnergy(totalWeights / numUAVs as real) + RxEnergy(totalWeights / numUAVs as real));
    }

    // Lines 154-170: what mainAlg concludes from the tours of one level.
    ghost function ProbeOf(o: Outcome): Probe {
      Probe(o.level, WithinRange(o.tours))
    }

    ghost function Probes(outcomes: seq<Outcome>): seq<Probe> {
      seq(|outcomes|, i requires 0 <= i < |outcomes| => ProbeOf(outcomes[i]))
    }

    ghost function ConfigurationOf(o: Outcome): Configuration {
      Saved(o.built.final.heads, SinkErased(o.built.final.roots, g.sink), o.tours)
    }

    // What is saved after the outcomes: those of the last feasible one.
    ghost function SavedBy(before: Configuration, outcomes: seq<Outcome>): Configuration {
      if outcomes == [] then before
      else if WithinRange(outcomes[|outcomes| - 1].tours) then ConfigurationOf(outcomes[|outcomes| - 1])
      else SavedBy(before, outcomes[..|outcomes| - 1])
    }

    // Lines 143-170: one round of the bisection.
    method BisectOnce(eMin: real, eMax: real) returns (found: bool, low: real, high: real, ghost o: Outcome)
      requires Configured() && Connected(g)
      modifies this
      ensures !found ==> NoCapacityAt((eMax + eMin) / 2.0) && config == old(config)
      ensures found ==> Tried(o) && o.level == (eMax + eMin) / 2.0 && Clustered(o.built) && trajectories == o.tours
      ensures found ==> Bracket(low, high) == Bracket(eMin, eMax).Narrow(ProbeOf(o))
      ensures found && WithinRange(o.tours) ==> low == (eMax + eMin) / 2.0 && high == eMax
      ensures found && !WithinRange(o.tours) ==> low == eMin && high == (eMax + eMin) / 2.0
      ensures found ==> config == if WithinRange(o.tours) then ConfigurationOf(o) else old(config)
    {
      hide Built, WithinRange, ToursOf, NoCapacityAt;
      low, high := eMin, eMax;
      var fl;
      found, fl, o := TryLevel((eMax + eMin) / 2.0);
      if found {
        if fl {
          high := eOpt;
        } else {
          config := Saved(A, cent, trajectories);
          low := eOpt;
        }
      }
    }

    // mainAlg. done is false when the original would go on with an uninitialised k_max.
    method MainAlg() returns (done: bool, ghost b: Bracket, ghost outcomes: seq<Outcome>, ghost least: real)
      requires Configured() && Connected(g) && numUAVs > 0
      modifies this
      ensures b.low <= b.high && 0.0 <= b.high && (b.high == 0.0 || b.high in energy)
      ensures forall i :: 0 <= i < g.size ==> least <= energy[i] <= b.high
      ensures (least == dblMax || least in energy) && b.low == least - (TxEnergy(Share()) + RxEnergy(Share()))
      ensures forall i :: 0 <= i < |outcomes| ==> Tried(outcomes[i]) && !NoCapacityAt(outcomes[i].level)
      ensures Search(b, Probes(outcomes), 0.1) && config == SavedBy(old(config), outcomes)
      ensures done ==> outcomes != []
      ensures done ==> AfterProbes(b, Probes(outcomes)).high - AfterProbes(b, Probes(outcomes)).low <= 0.1
      ensures !done ==>
                outcomes == [] || AfterProbes(b, Probes(outcomes)).high - AfterProbes(b, Probes(outcomes)).low > 0.1
      ensures !done ==> NoCapacityAt(AfterProbes(b, Probes(outcomes)).Middle())
    {
      hide Connected, Search, SavedBy, NoCapacityAt, EnoughRounds, Tried, Probes, Clustered, AfterProbes, WithinRange;
      hide TxEnergy, RxEnergy, Share, Total, Configured;
      var eMin, eMax;
      eMin, eMax, least := StartBracket();
      b, outcomes := Bracket(eMin, eMax), [];
      ghost var limit := LimitFor(b);
      NothingTriedYet(b, config);
      done := false;
      var again := true;
      while again
        invariant forall i :: 0 <= i < |outcomes| ==> Tried(outcomes[i]) && !NoCapacityAt(outcomes[i].level)
        invariant Search(b, Probes(outcomes), 0.1) && config == SavedBy(old(config), outcomes)
        invariant AfterProbes(b, Probes(outcomes)) == Bracket(eMin, eMax)
        invariant again <==> outcomes == [] || eMax - eMin > 0.1
        decreases limit + 1 - |outcomes|, again
      {
        OutcomesLimited(b, outcomes, limit);
        var found;
        ghost var o;
        found, eMin, eMax, o := BisectOnce(eMin, eMax);
        if !found {
          return;
        }
        TriedHasCapacity(o);
        OutcomeAdded(b, outcomes, old(config), o);
        outcomes := outcomes + [o];
        again := eMax - eMin > 0.1;
      }
      done := true;
    }

    lemma NothingTriedYet(b: Bracket, before: Configuration)
      ensures SavedBy(before, []) == before && Search(b, Probes([]), 0.1) && AfterProbes(b, Probes([])) == b
    {
    }

    // While the bracket is wide there are fewer outcomes than the limit.
    lemma OutcomesLimited(b: Bracket, outcomes: seq<Outcome>, limit: nat)
      requires Search(b, Probes(outcomes), 0.1) && EnoughRounds(b, limit)
      requires outcomes != [] ==>
                 AfterProbes(b, Probes(outcomes)).high - AfterProbes(b, Probes(outcomes)).low > 0.1
      ensures |outcomes| <= limit && (outcomes != [] ==> |outcomes| < limit)
    {
      if outcomes != [] {
        BracketLimit(b, Probes(outcomes), limit);
      }
    }

    lemma OutcomeAdded(b: Bracket, outcomes: seq<Outcome>, before: Configuration, o: Outcome)
      requires Search(b, Probes(outcomes), 0.1) && o.level == AfterProbes(b, Probes(outcomes)).Middle()
      requires outcomes != [] ==>
                 AfterProbes(b, Probes(outcomes)).high - AfterProbes(b, Probes(outcomes)).low > 0.1
      ensures Search(b, Probes(outcomes + [o]), 0.1)
      ensures AfterProbes(b, Probes(outcomes + [o])) == AfterProbes(b, Probes(outcomes)).Narrow(ProbeOf(o))
      ensures SavedBy(before, outcomes + [o])
           == if WithinRange(o.tours) then ConfigurationOf(o) else SavedBy(before, outcomes)
    {
      hide WithinRange;
      assert (outcomes + [o])[..|outcomes|] == outcomes;
      assert Probes(outcomes + [o]) == Probes(outcomes) + [ProbeOf(o)];
      SearchSnoc(b, Probes(outcomes), ProbeOf(o), 0.1);
    }

    lemma {:induction false} NothingSaved(before: Configuration, outcomes: seq<Outcome>)
      requires forall i :: 0 <= i < |outcomes| ==> !WithinRange(outcomes[i].tours)
      ensures SavedBy(before, outcomes) == before
    {
      if outcomes != [] {
        NothingSaved(before, outcomes[..|outcomes| - 1]);
      }
    }

    // Once some level was feasible, the saved configuration is that of the largest feasible
    // level tried, and that level is the final E_min.
    lemma {:induction false} SavedIsBest(before: Configuration, b: Bracket, outcomes: seq<Outcome>, j: nat)
      returns (i: nat)
      requires Search(b, Probes(outcomes), 0.1) && b.low <= b.high
      requires j < |outcomes| && WithinRange(outcomes[j].tours)
      ensures i < |outcomes| && WithinRange(outcomes[i].tours)
      ensures SavedBy(before, outcomes) == ConfigurationOf(outcomes[i])
      ensures outcomes[j].level <= outcomes[i].level == AfterProbes(b, Probes(outcomes)).low
    {
      hide WithinRange;
      BracketSeparates(b, Probes(outcomes), 0.1, j);
      var front := outcomes[..|outcomes| - 1];
      assert Probes(outcomes)[..|front|] == Probes(front);
      if WithinRange(outcomes[|front|].tours) {
        i := |front|;
      } else {
        i := SavedIsBest(before, b, front, j);
      }
    }

    // A final E_max other than the initial one is a level whose tours were too long.
    lemma TopFailed(b: Bracket, outcomes: seq<Outcome>) returns (i: nat)
      requires Search(b, Probes(outcomes), 0.1) && b.low <= b.high
      requires AfterProbes(b, Probes(outcomes)).high != b.high
      ensures i < |outcomes| && exists t ::
                0 <= t < |outcomes[i].tours| && TourLength(outcomes[i].tours[t], distance) > lMax
      ensures outcomes[i].level == AfterProbes(b, Probes(outcomes)).high
    {
      BracketSeparates(b, Probes(outcomes), 0.1, 0);
      i :| 0 <= i < |outcomes| && Probes(outcomes)[i] == Probe(AfterProbes(b, Probes(outcomes)).high, false);
    }

    // What a saved configuration is worth: a head for every node, tours of these heads
    // within range, and, unless the balancing loop timed out at its level, no head with
    // more weight assigned to it than it can carry there.
    lemma SavedIsGood(o: Outcome)
      requires Configured() && Tried(o) && WithinRange(o.tours)
      ensures var c := ConfigurationOf(o);
              && |c.cent| == g.size && c.cent[g.sink] == -1
              && (forall v :: 0 <= v < g.size && v != g.sink ==> 0 <= c.cent[v] && c.cent[v] in c.heads)
              && (forall l :: l in c.heads && l < g.size && l != g.sink ==> c.cent[l] == l)
              && ToursOf(c.heads, c.tours, numUAVs, g.sink, angle)
              && (forall t :: 0 <= t < |c.tours| ==> TourLength(c.tours[t], distance) <= lMax)
              && (!o.built.timedOut ==> forall l :: l in c.heads ==>
                    l < |energy| && WeightOf(weights, Assigned(c.cent, l)) <= estimateMaxWeight(energy[l] - o.level))
    {
      hide ToursOf, Built;
      FinalAssigns(SettingAt(o.level), o.built);
      var c := ConfigurationOf(o);
      if !o.built.timedOut {
        forall l | l in c.heads
          ensures l < |energy| && WeightOf(weights, Assigned(c.cent, l)) <= estimateMaxWeight(energy[l] - o.level)
        {
          LoadsFit(SettingAt(o.level), o.built, l);
          AssignedIsLoad(SettingAt(o.level), o.built, l);
        }
      }
    }

    // The timeout matters: with a node that is too heavy for every head at the last level,
    // tours within range save a configuration in which some head has more to carry than it
    // can, and than mainAlg was looking for.
    lemma TimeoutSavesOverload(before: Configuration, outcomes: seq<Outcome>, v: nat) returns (l: nat)
      requires Configured() && outcomes != [] && Tried(outcomes[|outcomes| - 1])
      requires WithinRange(outcomes[|outcomes| - 1].tours)
      requires v != g.sink && TooHeavy(SettingAt(outcomes[|outcomes| - 1].level), v)
      ensures outcomes[|outcomes| - 1].built.timedOut
      ensures var c := SavedBy(before, outcomes);
              && c == ConfigurationOf(outcomes[|outcomes| - 1]) && l in c.heads && l < |energy|
              && WeightOf(weights, Assigned(c.cent, l)) > estimateMaxWeight(energy[l] - outcomes[|outcomes| - 1].level)
    {
      hide ToursOf, Load, Built, WithinRange, TooHeavy;
      var o := outcomes[|outcomes| - 1];
      l := HeavyNodeBreaksHead(SettingAt(o.level), o.built, v);
      AssignedIsLoad(SettingAt(o.level), o.built, l);
    }

    // Whatever the rounds do at a level with these capacities, all that can be saved is such
    // an overload, although the scan finds a count there.
    lemma TimeoutInput(before: Configuration, outcomes: seq<Outcome>) returns (l: nat)
      requires Configured() && outcomes != [] && Tried(outcomes[|outcomes| - 1])
      requires WithinRange(outcomes[|outcomes| - 1].tours)
      requires g.size == 4 && g.sink == 0 && weights == [2000.0, 2000.0, 2000.0, 2000.0]
      requires CapacityAt(outcomes[|outcomes| - 1].level) == [0.0, 1000.0, 3900.0, 3900.0]
      ensures !NoCapacityAt(outcomes[|outcomes| - 1].level) && outcomes[|outcomes| - 1].built.timedOut
      ensures var c := SavedBy(before, outcomes);
              && c.Saved? && l in c.heads && l < |energy|
              && WeightOf(weights, Assigned(c.cent, l)) > estimateMaxWeight(energy[l] - outcomes[|outcomes| - 1].level)
    {
      hide ToursOf, Built, WithinRange, TooHeavy, Tried;
      EqualWeightsTooHeavy(SettingAt(outcomes[|outcomes| - 1].level));
      TriedHasCapacity(outcomes[|outcomes| - 1]);
      l := TimeoutSavesOverload(before, outcomes, 1);
    }

    // No level was tried at which the original would have read k_max uninitialised.
    lemma TriedHasCapacity(o: Outcome)
      requires Configured() && Tried(o)
      ensures !NoCapacityAt(o.level)
    {
    }
  }
}
