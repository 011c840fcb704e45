// Runs of the search of growBalls, pop by pop: with a queue that may return any entry,
// and with the heap that std::priority_queue keeps.

module QueueRuns {
  import opened Sequences
  import opened Network
  import opened Searching
  import opened Distances
  import opened Peeling
  import opened PriorityQueue

  ghost predicate Sized(P: Problem, S: State) {
    P.g.Valid() && |S.labels| == |S.root| == |P.bound| == P.g.size
  }

  // Looking at the first k neighbours of u.
  ghost function Looked(P: Problem, S: State, u: nat, k: nat): (T: State)
    requires Sized(P, S) && u < P.g.size && k <= |P.g.adj[u]|
    ensures Sized(P, T) && T.order == S.order
  {
    if k == 0 then S
    else
      assert P.g.Edge(u, P.g.adj[u][k - 1]);
      Relax(P, Looked(P, S, u, k - 1), u, P.g.adj[u][k - 1])
  }

  // One round of the loop: the popped entry is stale, or it is settled and relaxed from.
  ghost function Popped(P: Problem, S: State, u: nat): (T: State)
    requires Sized(P, S) && u < P.g.size
    ensures Sized(P, T)
  {
    if u in S.order then DropStale(S, u) else Looked(P, Settle(S, u), u, |P.g.adj[u]|)
  }

  ghost function AfterPops(P: Problem, S: State, pops: seq<nat>): (T: State)
    requires Sized(P, S) && AllBelow(pops, P.g.size)
    ensures Sized(P, T)
    decreases |pops|
  {
    if pops == [] then S else AfterPops(P, Popped(P, S, pops[0]), pops[1..])
  }

  // Each pop returns an entry of the queue, with extractMin one with a least key.
  ghost predicate LegalPops(P: Problem, S: State, pops: seq<nat>, extractMin: bool)
    requires Sized(P, S) && AllBelow(pops, P.g.size)
    decreases |pops|
  {
    pops != [] ==>
      && pops[0] in S.queue
      && (extractMin ==> IsLeast(S.queue, S.labels, pops[0]))
      && LegalPops(P, Popped(P, S, pops[0]), pops[1..], extractMin)
  }

  // The pops lead from one state to the other.
  ghost predicate Leads(P: Problem, S: State, pops: seq<nat>, T: State, extractMin: bool) {
    Sized(P, S) && AllBelow(pops, P.g.size) && LegalPops(P, S, pops, extractMin) && AfterPops(P, S, pops) == T
  }

  lemma {:induction false} LookedKeeps(P: Problem, S: State, u: nat, k: nat, extractMin: bool)
    requires Inv(P, S, 0, extractMin) && S.order != [] && u == S.order[|S.order| - 1]
    requires Sized(P, S) && u < P.g.size && k <= |P.g.adj[u]|
    ensures Inv(P, Looked(P, S, u, k), k, extractMin)
  {
    hide Inv;
    if k > 0 {
      LookedKeeps(P, S, u, k - 1, extractMin);
      RelaxKeeps(P, Looked(P, S, u, k - 1), u, k - 1, extractMin);
    }
  }

  lemma PoppedKeeps(P: Problem, S: State, u: nat, extractMin: bool)
    requires Inv(P, S, Degree(P, S), extractMin) && Sized(P, S) && u < P.g.size
    requires u in S.queue && (extractMin ==> IsLeast(S.queue, S.labels, u))
    ensures var T := Popped(P, S, u); Inv(P, T, Degree(P, T), extractMin)
  {
    hide Inv;
    if u in S.order {
      DropStaleKeeps(P, S, Degree(P, S), u, extractMin);
    } else {
      SettleKeeps(P, S, u, extractMin);
      LookedKeeps(P, Settle(S, u), u, |P.g.adj[u]|, extractMin);
    }
  }

  // Every legal sequence of pops keeps the invariant of the search.
  lemma {:induction false} PopsKeep(P: Problem, S: State, pops: seq<nat>, extractMin: bool)
    requires Inv(P, S, Degree(P, S), extractMin) && Sized(P, S) && AllBelow(pops, P.g.size)
    requires LegalPops(P, S, pops, extractMin)
    ensures var T := AfterPops(P, S, pops); Inv(P, T, Degree(P, T), extractMin)
    decreases |pops|
  {
    hide Inv;
    if pops != [] {
      PoppedKeeps(P, S, pops[0], extractMin);
      PopsKeep(P, Popped(P, S, pops[0]), pops[1..], extractMin);
    }
  }

  // A run with least pops that empties the queue ends with labels that exceed no path
  // from a source by more than the slack on each of its hops.
  lemma LeastPopsAreExact(P: Problem, S: State, pops: seq<nat>, T: State, p: Path)
    requires Inv(P, S, Degree(P, S), true) && Unpruned(P)
    requires Leads(P, S, pops, T, true) && T.queue == multiset{}
    requires p.Valid(P.g) && p.Source() in P.sources
    ensures p.node in T.order && p.node < |T.labels|
    ensures T.labels[p.node] <= p.Length(P.g) + Span(p.Hops(), P.slack)
  {
    PopsKeep(P, S, pops, true);
    LabelUpperBound(P, T, p);
  }

  // -------------------------------------------------------------------------
  // The search with the heap

  // heap is the vector inside the queue.
  datatype Machine = Machine(labels: seq<real>, root: seq<int>, order: seq<nat>, heap: seq<nat>)
  {
    function Shadow(): State {
      State(labels, root, order, multiset(heap))
    }
  }

  ghost predicate Ready(P: Problem, m: Machine) {
    P.g.Valid() && |m.labels| == |m.root| == |P.bound| == P.g.size && AllBelow(m.heap, P.g.size)
  }

  // Lines 263-270 with the push into the heap.
  ghost function HeapRelax(P: Problem, m: Machine, u: nat, v: nat): (t: Machine)
    requires Ready(P, m) && u < P.g.size && v < P.g.size
    ensures Ready(P, t) && t.order == m.order
  {
    var alt := m.labels[u] + P.g.length(u, v);
    if v in m.order || !(alt - m.labels[v] < -P.slack) then m
    else
      var labels := m.labels[v := alt];
      Machine(labels, m.root[v := m.root[u]], m.order, if alt < P.bound[v] then Push(labels, m.heap, v) else m.heap)
  }

  ghost function HeapLooked(P: Problem, m: Machine, u: nat, k: nat): (t: Machine)
    requires Ready(P, m) && u < P.g.size && k <= |P.g.adj[u]|
    ensures Ready(P, t) && t.order == m.order
  {
    if k == 0 then m
    else
      assert P.g.Edge(u, P.g.adj[u][k - 1]);
      HeapRelax(P, HeapLooked(P, m, u, k - 1), u, P.g.adj[u][k - 1])
  }

  // Taking the top out of the heap.
  ghost function Taken(P: Problem, m: Machine): (t: Machine)
    requires Ready(P, m) && m.heap != []
    ensures Ready(P, t) && t.labels == m.labels && t.order == m.order
  {
    m.(heap := Pop(m.labels, m.heap))
  }

  // Lines 249-276: one round of the loop.
  ghost function HeapRound(P: Problem, m: Machine): (t: Machine)
    requires Ready(P, m) && m.heap != []
    ensures Ready(P, t)
  {
    var u, t := m.heap[0], Taken(P, m);
    if u in m.order then t else HeapLooked(P, t.(order := t.order + [u]), u, |P.g.adj[u]|)
  }

  // At most n rounds, until the queue is empty.
  ghost function HeapRun(P: Problem, m: Machine, n: nat): (t: Machine)
    requires Ready(P, m)
    ensures Ready(P, t)
    decreases n
  {
    if n == 0 || m.heap == [] then m else HeapRun(P, HeapRound(P, m), n - 1)
  }

  ghost function Tops(P: Problem, m: Machine, n: nat): (pops: seq<nat>)
    requires Ready(P, m)
    ensures AllBelow(pops, P.g.size)
    decreases n
  {
    if n == 0 || m.heap == [] then [] else [m.heap[0]] + Tops(P, HeapRound(P, m), n - 1)
  }

  lemma RelaxShadow(P: Problem, m: Machine, u: nat, v: nat)
    requires Ready(P, m) && u < P.g.size && v < P.g.size
    ensures HeapRelax(P, m, u, v).Shadow() == Relax(P, m.Shadow(), u, v)
  {
    hide Push;
    var alt := m.labels[u] + P.g.length(u, v);
    if v !in m.order && alt - m.labels[v] < -P.slack && alt < P.bound[v] {
      PushKeeps(m.labels[v := alt], m.heap, v);
    }
  }

  lemma {:induction false} LookedShadow(P: Problem, m: Machine, u: nat, k: nat)
    requires Ready(P, m) && u < P.g.size && k <= |P.g.adj[u]|
    ensures HeapLooked(P, m, u, k).Shadow() == Looked(P, m.Shadow(), u, k)
  {
    hide Relax, HeapRelax;
    if k > 0 {
      LookedShadow(P, m, u, k - 1);
      assert P.g.Edge(u, P.g.adj[u][k - 1]);
      RelaxShadow(P, HeapLooked(P, m, u, k - 1), u, P.g.adj[u][k - 1]);
    }
  }

  // A round with the heap is a round of the search that pops the heap's top.
  lemma RoundShadow(P: Problem, m: Machine)
    requires Ready(P, m) && m.heap != []
    ensures HeapRound(P, m).Shadow() == Popped(P, m.Shadow(), m.heap[0])
    ensures m.heap[0] in m.Shadow().queue
  {
    hide Looked, HeapLooked;
    var u, t := m.heap[0], Taken(P, m);
    PopKeeps(m.labels, m.heap);
    if u !in m.order {
      LookedShadow(P, t.(order := t.order + [u]), u, |P.g.adj[u]|);
    }
  }

  // So a run with the heap is a legal run, if not one with least pops.
  lemma {:induction false} HeapRunIsLegal(P: Problem, m: Machine, n: nat)
    requires Ready(P, m)
    ensures Leads(P, m.Shadow(), Tops(P, m, n), HeapRun(P, m, n).Shadow(), false)
    decreases n
  {
    hide Popped, HeapRound;
    if n > 0 && m.heap != [] {
      RoundShadow(P, m);
      HeapRunIsLegal(P, HeapRound(P, m), n - 1);
      assert Tops(P, m, n)[1..] == Tops(P, HeapRound(P, m), n - 1);
    }
  }

  // The loop ends.
  lemma {:induction false} HeapRunEnds(P: Problem, m: Machine) returns (n: nat)
    requires Ready(P, m) && Inv(P, m.Shadow(), Degree(P, m.Shadow()), false)
    ensures HeapRun(P, m, n).heap == []
    decreases if |m.order| <= P.g.size then P.g.size - |m.order| else 0, |m.heap|
  {
    hide Inv;
    n := 0;
    if m.heap != [] {
      var t := HeapRound(P, m);
      RoundShadow(P, m);
      PoppedKeeps(P, m.Shadow(), m.heap[0], false);
      OrderBounded(P, t);
      OrderBounded(P, m);
      n := HeapRunEnds(P, t);
      n := n + 1;
    }
  }

  lemma OrderBounded(P: Problem, m: Machine)
    requires Inv(P, m.Shadow(), Degree(P, m.Shadow()), false)
    ensures |m.order| <= P.g.size
  {
    NoDupBounded(m.order, P.g.size);
  }

  lemma {:induction false} LookedStands(P: Problem, m: Machine, u: nat, k: nat, v: nat)
    requires Ready(P, m) && u < P.g.size && k <= |P.g.adj[u]| && v in m.order && v < P.g.size
    ensures HeapLooked(P, m, u, k).labels[v] == m.labels[v]
  {
    hide Push;
    if k > 0 {
      LookedStands(P, m, u, k - 1, v);
    }
  }

  // What is settled keeps its label to the end.
  lemma {:induction false} SettledStands(P: Problem, m: Machine, n: nat, v: nat)
    requires Ready(P, m) && v in m.order && v < P.g.size
    ensures v in HeapRun(P, m, n).order && HeapRun(P, m, n).labels[v] == m.labels[v]
    decreases n
  {
    hide HeapLooked, Pop;
    if n > 0 && m.heap != [] {
      var u, t := m.heap[0], Taken(P, m);
      if u !in m.order {
        LookedStands(P, t.(order := t.order + [u]), u, |P.g.adj[u]|, v);
      }
      SettledStands(P, HeapRound(P, m), n - 1, v);
    }
  }

  lemma {:induction false} RunsJoin(P: Problem, m: Machine, k: nat, n: nat)
    requires Ready(P, m)
    ensures HeapRun(P, m, k + n) == HeapRun(P, HeapRun(P, m, k), n)
    decreases k
  {
    hide HeapRound;
    if k > 0 && m.heap != [] {
      RunsJoin(P, HeapRound(P, m), k - 1, n);
    }
  }

  // More rounds do not fill an empty queue again.
  lemma {:induction false} RunStops(P: Problem, m: Machine, n: nat, k: nat)
    requires Ready(P, m) && HeapRun(P, m, n).heap == []
    ensures HeapRun(P, m, k + n) == HeapRun(P, m, n)
    decreases n
  {
    hide HeapRound;
    if n > 0 && m.heap != [] {
      RunStops(P, HeapRound(P, m), n - 1, k);
    }
  }

  // Every run ends in a finished search, and there v has the label it was settled with.
  lemma RunFinishes(P: Problem, m: Machine, k: nat, v: nat) returns (n: nat)
    requires Ready(P, m) && Inv(P, m.Shadow(), Degree(P, m.Shadow()), false)
    requires v in HeapRun(P, m, k).order && v < P.g.size
    ensures HeapRun(P, m, n).heap == [] && Finished(P, HeapRun(P, m, n).Shadow(), false)
    ensures HeapRun(P, m, n).labels[v] == HeapRun(P, m, k).labels[v]
  {
    hide Inv, HeapRun, LegalPops, AfterPops;
    n := HeapRunEnds(P, m);
    RunStops(P, m, n, k);
    RunsJoin(P, m, k, n);
    SettledStands(P, HeapRun(P, m, k), n, v);
    n := k + n;
    HeapRunIsLegal(P, m, n);
    PopsKeep(P, m.Shadow(), Tops(P, m, n), false);
    EmptyIsFinished(P, HeapRun(P, m, n));
  }

  lemma EmptyIsFinished(P: Problem, m: Machine)
    requires m.heap == [] && Inv(P, m.Shadow(), Degree(P, m.Shadow()), false)
    ensures Finished(P, m.Shadow(), false)
  {
    hide Inv;
  }

  // -------------------------------------------------------------------------
  // While no key falls in the queue

  // None of the first k neighbours of u is given a smaller key while it waits.
  ghost predicate NoKeyFalls(P: Problem, m: Machine, u: nat, k: nat)
    requires Ready(P, m) && u < P.g.size && k <= |P.g.adj[u]|
  {
    k > 0 ==>
      var t := HeapLooked(P, m, u, k - 1);
      && NoKeyFalls(P, m, u, k - 1)
      && (Improves(P, t.Shadow(), u, P.g.adj[u][k - 1]) ==> P.g.adj[u][k - 1] !in t.heap)
  }

  ghost predicate SteadyRound(P: Problem, m: Machine)
    requires Ready(P, m) && m.heap != []
  {
    var u, t := m.heap[0], Taken(P, m);
    u !in m.order ==> NoKeyFalls(P, t.(order := t.order + [u]), u, |P.g.adj[u]|)
  }

  ghost predicate Steady(P: Problem, m: Machine, n: nat)
    requires Ready(P, m)
    decreases n
  {
    n > 0 && m.heap != [] ==> SteadyRound(P, m) && Steady(P, HeapRound(P, m), n - 1)
  }

  lemma OtherKeyFalls(key: seq<real>, h: seq<nat>, v: nat, x: real)
    requires Ordered(key, h) && v < |key| && v !in h
    ensures Ordered(key[v := x], h)
  {
    forall i: nat | i < |h| ensures After(key[v := x], h, Up(i), i) {
      assert After(key, h, Up(i), i);
    }
  }

  lemma {:induction false} LookedOrdered(P: Problem, m: Machine, u: nat, k: nat)
    requires Ready(P, m) && u < P.g.size && k <= |P.g.adj[u]|
    requires Ordered(m.labels, m.heap) && NoKeyFalls(P, m, u, k)
    ensures Ordered(HeapLooked(P, m, u, k).labels, HeapLooked(P, m, u, k).heap)
  {
    hide Ordered, Push;
    if k > 0 {
      LookedOrdered(P, m, u, k - 1);
      var t, v := HeapLooked(P, m, u, k - 1), P.g.adj[u][k - 1];
      assert P.g.Edge(u, v);
      if Improves(P, t.Shadow(), u, v) {
        var alt := t.labels[u] + P.g.length(u, v);
        OtherKeyFalls(t.labels, t.heap, v, alt);
        PushOrders(t.labels[v := alt], t.heap, v);
      }
    }
  }

  lemma SteadyRoundOrders(P: Problem, m: Machine)
    requires Ready(P, m) && m.heap != [] && Ordered(m.labels, m.heap) && SteadyRound(P, m)
    ensures IsLeast(m.Shadow().queue, m.labels, m.heap[0])
    ensures Ordered(HeapRound(P, m).labels, HeapRound(P, m).heap)
  {
    hide Ordered, NoKeyFalls, HeapLooked, IsLeast;
    var u, t := m.heap[0], Taken(P, m);
    TopIsLeast(m.labels, m.heap);
    PopOrders(m.labels, m.heap);
    if u !in m.order {
      LookedOrdered(P, t.(order := t.order + [u]), u, |P.g.adj[u]|);
    }
  }

  // As long as no key falls in the queue, the heap stays ordered and every pop is least.
  lemma {:induction false} SteadyRunIsLeast(P: Problem, m: Machine, n: nat)
    requires Ready(P, m) && Ordered(m.labels, m.heap) && Steady(P, m, n)
    ensures Leads(P, m.Shadow(), Tops(P, m, n), HeapRun(P, m, n).Shadow(), true)
    decreases n
  {
    hide Popped, Ordered, SteadyRound, HeapRound, IsLeast;
    if n > 0 && m.heap != [] {
      SteadyRoundOrders(P, m);
      RoundShadow(P, m);
      SteadyRunIsLeast(P, HeapRound(P, m), n - 1);
      assert Tops(P, m, n)[1..] == Tops(P, HeapRound(P, m), n - 1);
    }
  }
}
