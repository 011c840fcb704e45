// The balancing loop of constructClusters (lines 527-579 of wu2019.cc) as a run of
// rounds over the planner's vectors, and what one energy level comes to.

module Rounds {
  import opened Sequences
  import opened Network
  import opened Searching
  import opened Distances
  import opened Cells
  import opened Peeling
  import opened BallSearch
  import opened Recruiting
  import opened Capacity
  import opened PlannerState

  // The planner's vectors between two steps of the loop; roots is cent, with the sink's
  // own entry not yet erased.
  datatype Stand = Stand(heads: seq<nat>, marked: seq<bool>, lists: seq<seq<nat>>, labels: seq<real>,
                         roots: seq<int>, settled: seq<nat>, ballWeight: map<nat, real>)

  // ballWeight holds the weight of the list of every head, and nothing else.
  ghost predicate Weighed(weights: seq<real>, heads: seq<nat>, lists: seq<seq<nat>>, ballWeight: map<nat, real>) {
    && |weights| <= |lists|
    && ballWeight.Keys == Elems(heads)
    && (forall l :: l in heads ==>
          l < |lists| && AllBelow(lists[l], |weights|) && ballWeight[l] == SumSeq(weights, lists[l]))
  }

  // What a call of growBalls leaves behind.
  ghost predicate GrownStand(c: Setting, s: Stand) {
    && |s.lists| == c.g.size
    && Finished(Growing(c.g, Elems(s.heads), c.infinity), State(s.labels, s.roots, s.settled, multiset{}), c.extractMin)
    && Partitioned(c.g, s.settled, s.roots, s.heads)
    && (forall l :: l in s.heads ==> s.lists[l] == RepresentedTwice(c.g, s.settled, s.roots, Elems(s.heads), l))
    && Weighed(c.weights, s.heads, s.lists, s.ballWeight)
  }

  ghost predicate StandOk(c: Setting, s: Stand) {
    GrownStand(c, s) && Marks(s.heads, s.marked, c.g.size)
  }

  // The ball of head l: the head once and the rest of its cell twice.
  ghost function BallOf(c: Setting, s: Stand, l: nat): real
    requires l < |c.weights|
  {
    OwnWeight(c.g, c.weights, l) + 2.0 * WeightOf(c.weights, Others(s.settled, s.roots, s.heads, l))
  }

  // ballWeight is what the cells say.
  lemma BallsAreCells(c: Setting, s: Stand)
    requires GrownStand(c, s) && |c.weights| == c.g.size
    ensures s.ballWeight.Keys == Elems(s.heads) && AllBelow(s.heads, |c.weights|)
    ensures forall l :: l in s.heads ==> s.ballWeight[l] == BallOf(c, s, l)
  {
    hide Finished;
    forall l | l in s.heads ensures s.ballWeight[l] == BallOf(c, s, l) {
      BallWeightCountsTwice(c.g, c.weights, s.settled, s.roots, s.heads, l);
    }
  }

  // Some ball is heavier than its head can carry.
  ghost predicate Overloads(capacity: seq<real>, ballWeight: map<nat, real>) {
    exists l :: l in ballWeight && (l >= |capacity| || ballWeight[l] > capacity[l])
  }

  // ... that is, some head cannot carry its own weight and twice that of its cell.
  lemma OverloadMeans(c: Setting, s: Stand)
    requires GrownStand(c, s) && |c.weights| == c.g.size == |c.capacity|
    ensures AllBelow(s.heads, c.g.size)
    ensures Overloads(c.capacity, s.ballWeight) <==> exists l :: l in s.heads && BallOf(c, s, l) > c.capacity[l]
  {
    hide GrownStand, Weighed, BallOf;
    BallsAreCells(c, s);
    assert forall l :: l in s.ballWeight <==> l in s.heads;
  }

  // One round: the fringe it peeled, the recruiting run over it, and the vectors before,
  // after recruiting, and after trimming and regrowing.
  datatype BalanceRound = BalanceRound(start: Stand, parts: seq<seq<nat>>, log: seq<Round>, recruited: Stand,
                                       timedOut: bool, after: Stand)

  ghost predicate Trimmed(n: nat, kMax: nat, r: BalanceRound) {
    if r.timedOut || |r.recruited.heads| <= kMax then r.after.heads == r.recruited.heads
    else
      && |r.after.heads| == kMax
      && LightestDropped(r.recruited.heads, r.after.heads, BallVector(r.recruited.ballWeight, n))
  }

  ghost predicate RoundOf(c: Setting, wMin: real, kMax: nat, r: BalanceRound) {
    && StandOk(c, r.start) && StandOk(c, r.recruited) && StandOk(c, r.after)
    && PeeledAll(r.start.heads, r.start.lists, r.parts, r.start.labels, c.weights, c.capacity)
    && Recruited(c, r.start.heads, r.recruited.heads, Only(Joined(r.parts), AtLeast(c.capacity, wMin)),
                 r.start.marked, r.log)
    && Trimmed(c.g.size, kMax, r)
  }

  // Every node a round considers for recruiting was a head already, is recruited, or lies
  // in the ball of a recruited head.
  lemma FringeIsServed(c: Setting, wMin: real, kMax: nat, r: BalanceRound, x: nat)
    requires RoundOf(c, wMin, kMax, r)
    requires x in Joined(r.parts) && x < |c.capacity| && c.capacity[x] >= wMin
    ensures x < |r.start.marked| && (r.start.marked[x] || x in r.recruited.heads || Captures(r.log, x))
  {
    hide PeeledAll, LightestDropped, GrownStand;
    var start := Pool(Only(Joined(r.parts), AtLeast(c.capacity, wMin)), r.start.marked, 3, []);
    RunCovers(c, start, r.log, x);
  }

  // And whoever a round recruits was peeled in it, is strong enough, and was no head.
  lemma RecruitsArePeeled(c: Setting, wMin: real, kMax: nat, r: BalanceRound, x: nat)
    requires RoundOf(c, wMin, kMax, r) && x in r.recruited.heads && x !in r.start.heads
    ensures x in Joined(r.parts) && x < |c.capacity| && c.capacity[x] >= wMin
    ensures x < |r.start.marked| && !r.start.marked[x]
  {
    hide PeeledAll, LightestDropped, GrownStand;
    var start := Pool(Only(Joined(r.parts), AtLeast(c.capacity, wMin)), r.start.marked, 3, []);
    RunKeepsHeadsFresh(c, start, r.log);
  }

  // A round that does not trim keeps all its heads.
  lemma NoTrimKeepsAll(c: Setting, wMin: real, kMax: nat, r: BalanceRound)
    requires RoundOf(c, wMin, kMax, r)
    ensures r.timedOut || |r.recruited.heads| <= kMax ==> r.after.heads == r.recruited.heads
    ensures !r.timedOut && |r.recruited.heads| > kMax ==> |r.after.heads| == kMax
    ensures forall x :: x in r.start.heads ==> x in r.recruited.heads
    ensures forall x :: x in r.after.heads ==> x in r.recruited.heads
  {
    hide PeeledAll, GrownStand;
  }

  // A trim keeps the heaviest balls, as the cells grown after recruiting weigh them, and
  // keeps no more than kMax of them.
  lemma TrimKeepsHeaviest(c: Setting, wMin: real, kMax: nat, r: BalanceRound, x: nat, y: nat)
    requires RoundOf(c, wMin, kMax, r) && !r.timedOut && |c.weights| == c.g.size
    requires x in r.after.heads && y in r.recruited.heads && y !in r.after.heads
    ensures x in r.recruited.heads && x < c.g.size && y < c.g.size
    ensures BallOf(c, r.recruited, y) <= BallOf(c, r.recruited, x)
    ensures |r.after.heads| == kMax < |r.recruited.heads|
  {
    hide PeeledAll, Recruited, GrownStand, BallOf;
    BallsAreCells(c, r.recruited);
    assert r.recruited.heads != r.after.heads;
    assert x in Only(r.recruited.heads, Elems(r.after.heads));
  }

  // Rounds that follow one another from the vectors before to the vectors after.
  ghost predicate BalanceRun(c: Setting, wMin: real, kMax: nat, before: Stand, rounds: seq<BalanceRound>,
                             after: Stand) {
    if rounds == [] then before == after
    else
      var last := rounds[|rounds| - 1];
      && BalanceRun(c, wMin, kMax, before, rounds[..|rounds| - 1], last.start)
      && RoundOf(c, wMin, kMax, last) && last.after == after
  }

  lemma RunsOn(c: Setting, wMin: real, kMax: nat, before: Stand, rounds: seq<BalanceRound>, r: BalanceRound)
    requires BalanceRun(c, wMin, kMax, before, rounds, r.start) && RoundOf(c, wMin, kMax, r)
    ensures BalanceRun(c, wMin, kMax, before, rounds + [r], r.after)
  {
    assert (rounds + [r])[..|rounds|] == rounds;
  }

  // Each round of a run starts from everything the one before left.
  lemma {:induction false} RoundsChain(c: Setting, wMin: real, kMax: nat, before: Stand, rounds: seq<BalanceRound>,
                                       after: Stand, i: nat)
    requires BalanceRun(c, wMin, kMax, before, rounds, after) && i < |rounds|
    ensures RoundOf(c, wMin, kMax, rounds[i])
    ensures rounds[i].start == if i == 0 then before else rounds[i - 1].after
    ensures i == |rounds| - 1 ==> rounds[i].after == after
  {
    hide RoundOf;
    var front, last := rounds[..|rounds| - 1], rounds[|rounds| - 1];
    if i < |front| {
      RoundsChain(c, wMin, kMax, before, front, last.start, i);
    } else if i > 0 {
      RoundsChain(c, wMin, kMax, before, front, last.start, i - 1);
    }
  }

  // The loop ends with the first round that leaves no overload, or else with the 52nd.
  ghost predicate LoopEnds(c: Setting, rounds: seq<BalanceRound>, timedOut: bool) {
    && 1 <= |rounds| <= 52 && (timedOut <==> |rounds| == 52)
    && (forall i :: 0 <= i < |rounds| ==> (rounds[i].timedOut <==> i == 51))
    && (forall i :: 0 <= i < |rounds| - 1 ==> Overloads(c.capacity, rounds[i].after.ballWeight))
    && (!timedOut ==> !Overloads(c.capacity, rounds[|rounds| - 1].after.ballWeight))
  }

  // The rounds so far, fl telling whether the last one left an overload.
  ghost predicate LoopGoes(c: Setting, rounds: seq<BalanceRound>, fl: bool) {
    && |rounds| <= 51
    && (forall i :: 0 <= i < |rounds| ==> !rounds[i].timedOut)
    && (forall i :: 0 <= i < |rounds| - 1 ==> Overloads(c.capacity, rounds[i].after.ballWeight))
    && (rounds == [] ==> fl)
    && (rounds != [] ==> (fl <==> Overloads(c.capacity, rounds[|rounds| - 1].after.ballWeight)))
  }

  lemma LoopStarts(c: Setting)
    ensures LoopGoes(c, [], true)
  {
  }

  lemma LoopStep(c: Setting, rounds: seq<BalanceRound>, r: BalanceRound, fl: bool)
    requires LoopGoes(c, rounds, true) && (r.timedOut <==> |rounds| > 50)
    requires !r.timedOut ==> (fl <==> Overloads(c.capacity, r.after.ballWeight))
    ensures r.timedOut ==> LoopEnds(c, rounds + [r], true)
    ensures !r.timedOut ==> LoopGoes(c, rounds + [r], fl) && (!fl ==> LoopEnds(c, rounds + [r], false))
  {
    hide Overloads;
  }

  lemma LoopEndsMeans(c: Setting, wMin: real, kMax: nat, before: Stand, rounds: seq<BalanceRound>, after: Stand,
                      timedOut: bool)
    requires BalanceRun(c, wMin, kMax, before, rounds, after) && LoopEnds(c, rounds, timedOut)
    ensures 1 <= |rounds| <= 52 && (timedOut <==> |rounds| == 52)
    ensures !timedOut ==> forall l :: l in after.ballWeight ==> l < |c.capacity| && after.ballWeight[l] <= c.capacity[l]
  {
    hide RoundOf;
  }

  // -------------------------------------------------------------------------
  // One energy level

  // The scan's count, the heads seeded and grown first, the rounds, and the vectors at
  // the end.
  datatype Clusters = Clusters(k: nat, timedOut: bool, seeds: Stand, rounds: seq<BalanceRound>, final: Stand)

  ghost function Unbuilt(): Clusters {
    var s := Stand([], [], [], [], [], [], map[]);
    Clusters(0, false, s, [], s)
  }

  ghost function Total(weights: seq<real>): real {
    WeightOf(weights, Elems(ByIndex(|weights|)))
  }

  lemma TotalIsSum(weights: seq<real>)
    ensures Total(weights) == SumSeq(weights, ByIndex(|weights|))
    ensures NonNegative(weights) ==> Total(weights) >= 0.0
  {
    SumSeqIsWeight(weights, ByIndex(|weights|));
    if NonNegative(weights) {
      SumBelowNonNegative(weights, Elems(ByIndex(|weights|)), |weights|);
    }
  }

  // w_min when the scan stops at k.
  ghost function LeastCapacity(weights: seq<real>, k: nat): real
    requires k > 0
  {
    Total(weights) / (4 * k) as real
  }

  // 4k heads with just w_min each carry just the total.
  lemma LeastCapacityCarries(weights: seq<real>, k: nat)
    requires k > 0
    ensures LeastCapacity(weights, k) * (4 * k) as real == Total(weights)
  {
    QuotientTimes(Total(weights), (4 * k) as real);
  }

  lemma QuotientTimes(a: real, b: real)
    requires b != 0.0
    ensures a / b * b == a
  {
  }

  // The heads drawn first: distinct marked nodes above wMin, all of them if fewer than 8.
  ghost predicate Seeded(c: Setting, wMin: real, s: Stand) {
    && StandOk(c, s) && s.heads != []
    && (forall l :: l in s.heads ==> l < |c.capacity| && c.capacity[l] > wMin)
    && (|set x: nat | x < |c.capacity| && c.capacity[x] > wMin| < 8 ==>
          forall x: nat :: x in s.heads <==> x < |c.capacity| && c.capacity[x] > wMin)
  }

  // What constructClusters does at the capacities of c.
  ghost predicate Built(c: Setting, b: Clusters) {
    && |c.weights| == |c.capacity| == c.g.size
    && FirstExceeding(c.capacity, ByIndex(c.g.size), Total(c.weights), b.k)
    && Seeded(c, LeastCapacity(c.weights, b.k), b.seeds)
    && BalanceRun(c, LeastCapacity(c.weights, b.k), 4 * b.k, b.seeds, b.rounds, b.final)
    && LoopEnds(c, b.rounds, b.timedOut)
    && StandOk(c, b.final) && b.final.heads != []
    && (!b.timedOut ==> |b.final.heads| <= 4 * b.k)
  }

  // What mainAlg gets at one energy level.
  datatype Outcome = Outcome(level: real, built: Clusters, tours: seq<seq<nat>>)

  // Unless the loop timed out, the load every head really carries is within its capacity.
  lemma LoadsFit(c: Setting, b: Clusters, l: nat)
    requires Built(c, b) && NonNegative(c.weights) && !b.timedOut && l in b.final.heads
    ensures l < c.g.size && Load(c.g, c.weights, b.final.settled, b.final.roots, b.final.heads, l) <= c.capacity[l]
  {
    hide Seeded, RoundOf, FirstExceeding, GrownStand, Weighed;
    FinalFits(c, b);
    BallsAreCells(c, b.final);
    FinalPartitioned(c, b.final);
    LoadWithinBallWeight(c.g, c.weights, b.final.settled, b.final.roots, b.final.heads, l);
    BallWeightCountsTwice(c.g, c.weights, b.final.settled, b.final.roots, b.final.heads, l);
  }

  lemma FinalGrown(c: Setting, b: Clusters)
    requires Built(c, b)
    ensures GrownStand(c, b.final) && |c.weights| == |c.capacity| == c.g.size
  {
    hide GrownStand, Seeded, BalanceRun, LoopEnds, FirstExceeding;
  }

  lemma FinalPartitioned(c: Setting, s: Stand)
    requires GrownStand(c, s)
    ensures Partitioned(c.g, s.settled, s.roots, s.heads)
  {
  }

  lemma FinalFits(c: Setting, b: Clusters)
    requires Built(c, b) && !b.timedOut
    ensures !Overloads(c.capacity, b.final.ballWeight)
  {
    hide Seeded, FirstExceeding, GrownStand, Overloads;
    RoundsChain(c, LeastCapacity(c.weights, b.k), 4 * b.k, b.seeds, b.rounds, b.final, |b.rounds| - 1);
  }

  function SinkErased(roots: seq<int>, sink: nat): (cent: seq<int>)
    ensures sink < |roots| ==> cent == roots[sink := -1]
  {
    if sink < |roots| then roots[sink := -1] else roots
  }

  lemma FinalAssigns(c: Setting, b: Clusters)
    requires Built(c, b)
    ensures Assigns(c.g, b.final.heads, SinkErased(b.final.roots, c.g.sink))
    ensures |b.final.roots| == c.g.size
  {
    hide Seeded, BalanceRun, LoopEnds, FirstExceeding, Weighed;
  }

  // The nodes a saved configuration assigns to a head are the load it really carries.
  lemma AssignedIsLoad(c: Setting, b: Clusters, l: nat)
    requires Built(c, b) && l in b.final.heads
    ensures l < |c.weights|
    ensures WeightOf(c.weights, Assigned(SinkErased(b.final.roots, c.g.sink), l))
         == Load(c.g, c.weights, b.final.settled, b.final.roots, b.final.heads, l)
  {
    hide Seeded, BalanceRun, LoopEnds, FirstExceeding, Weighed, Finished;
    var s := b.final;
    var others, all := Others(s.settled, s.roots, s.heads, l), Assigned(SinkErased(s.roots, c.g.sink), l);
    forall v ensures v in all <==> v in others || (v == l && l != c.g.sink) {
      ListsPartition(c.g, s.settled, s.roots, s.heads, l, v);
      if v in all {
        assert v in s.settled;
      }
    }
    if l == c.g.sink {
      assert all == others;
    } else {
      assert all == others + {l};
      WeightAdd(c.weights, others, l);
    }
  }

  // A node too heavy for its own capacity, and twice too heavy for any other, lies in an
  // overloaded ball whatever the rounds do: the loop runs until it times out.
  lemma HeavyNodeTimesOut(c: Setting, b: Clusters, v: nat)
    requires Built(c, b) && NonNegative(c.weights) && v < c.g.size && v != c.g.sink
    requires c.capacity[v] < c.weights[v]
    requires forall l: nat :: l < c.g.size && l != v ==> c.capacity[l] < 2.0 * c.weights[v]
    ensures b.timedOut
  {
    hide Built, Finished, BallOf;
    HeavyNodeOverloads(c, b, v);
    if !b.timedOut {
      FinalFits(c, b);
    }
  }

  lemma HeavyNodeOverloads(c: Setting, b: Clusters, v: nat)
    requires Built(c, b) && NonNegative(c.weights) && v < c.g.size && v != c.g.sink
    requires c.capacity[v] < c.weights[v]
    requires forall l: nat :: l < c.g.size && l != v ==> c.capacity[l] < 2.0 * c.weights[v]
    ensures Overloads(c.capacity, b.final.ballWeight)
  {
    hide Seeded, BalanceRun, LoopEnds, FirstExceeding, Weighed, Finished;
    var s := b.final;
    assert v in s.settled;
    var l := s.roots[v];
    BallsAreCells(c, s);
    HeadOfNode(c, s, v);
    assert l in s.ballWeight;
  }

  // A node weighs once in its own ball, or twice in that of its head.
  lemma HeadOfNode(c: Setting, s: Stand, v: nat)
    requires GrownStand(c, s) && |c.weights| == c.g.size && NonNegative(c.weights) && v < c.g.size && v != c.g.sink
    ensures v < |s.roots| && 0 <= s.roots[v] < c.g.size && s.roots[v] in s.heads
    ensures BallOf(c, s, s.roots[v]) >= if s.roots[v] == v then c.weights[v] else 2.0 * c.weights[v]
    ensures Load(c.g, c.weights, s.settled, s.roots, s.heads, s.roots[v])
         >= c.weights[v] + if s.roots[v] == v then 0.0 else OwnWeight(c.g, c.weights, s.roots[v])
  {
    hide Weighed, Finished;
    assert v in s.settled;
    var l := s.roots[v];
    var others := Others(s.settled, s.roots, s.heads, l);
    SumBelowNonNegative(c.weights, others, |c.weights|);
    if l != v {
      ListsPartition(c.g, s.settled, s.roots, s.heads, l, v);
      MemberWeighsLess(c.weights, others, v);
    }
  }

  lemma MemberWeighsLess(w: seq<real>, S: set<nat>, v: nat)
    requires NonNegative(w) && v in S && v < |w|
    ensures w[v] <= WeightOf(w, S)
  {
    assert S == S - {v} + {v};
    WeightAdd(w, S - {v}, v);
    SumBelowNonNegative(w, S - {v}, |w|);
  }

  // If it is also too heavy for any other head together with that head's own weight, some
  // head really is overloaded at the end.
  lemma HeavyNodeBreaksHead(c: Setting, b: Clusters, v: nat) returns (l: nat)
    requires Built(c, b) && NonNegative(c.weights) && TooHeavy(c, v) && v != c.g.sink
    ensures b.timedOut && l in b.final.heads && l < c.g.size
    ensures Load(c.g, c.weights, b.final.settled, b.final.roots, b.final.heads, l) > c.capacity[l]
  {
    hide Built, Finished, BallOf, Load;
    FinalGrown(c, b);
    HeavyNodeTimesOut(c, b, v);
    HeadOfNode(c, b.final, v);
    l := b.final.roots[v];
  }

  ghost predicate TooHeavy(c: Setting, v: nat) {
    && v < |c.weights| == |c.capacity| == c.g.size
    && c.capacity[v] < c.weights[v]
    && (forall l: nat :: l < c.g.size && l != v ==>
          c.capacity[l] < 2.0 * c.weights[v] && c.capacity[l] < c.weights[v] + OwnWeight(c.g, c.weights, l))
  }

  // Such an input with the equal weights of the planner: the scan finds a count for it, and
  // node 1 is too heavy.
  lemma EqualWeightsTooHeavy(c: Setting)
    requires c.g.size == 4 && c.g.sink == 0 && c.weights == [2000.0, 2000.0, 2000.0, 2000.0]
    requires c.capacity == [0.0, 1000.0, 3900.0, 3900.0]
    ensures Total(c.weights) == 8000.0 && FirstExceeding(c.capacity, ByIndex(4), Total(c.weights), 4)
    ensures NonNegative(c.weights) && TooHeavy(c, 1) && LeastCapacity(c.weights, 4) == 500.0
  {
    FourPrefixes(c.weights);
    FourPrefixes(c.capacity);
    SumSeqIsWeight(c.weights, ByIndex(4));
  }

  lemma FourPrefixes(w: seq<real>)
    requires |w| == 4
    ensures forall j :: 0 <= j <= 4 ==> AllBelow(ByIndex(4)[..j], 4)
    ensures SumSeq(w, ByIndex(4)[..1]) == w[0] && SumSeq(w, ByIndex(4)[..2]) == w[0] + w[1]
    ensures SumSeq(w, ByIndex(4)[..3]) == w[0] + w[1] + w[2]
    ensures SumSeq(w, ByIndex(4)) == SumSeq(w, ByIndex(4)[..4]) == w[0] + w[1] + w[2] + w[3]
  {
    var order := ByIndex(4);
    assert order[..0] == [] && order[..1] == order[..0] + [0] && order[..2] == order[..1] + [1];
    assert order[..3] == order[..2] + [2] && order[..4] == order[..3] + [3] && order[..4] == order;
    SumSeqSnoc(w, order[..0], 0);
    SumSeqSnoc(w, order[..1], 1);
    SumSeqSnoc(w, order[..2], 2);
    SumSeqSnoc(w, order[..3], 3);
  }

  // A normal exit takes heads whose capacities add up to the double-counted load.
  lemma ExitNeedsCapacity(c: Setting, b: Clusters)
    requires Built(c, b) && !b.timedOut
    ensures AllBelow(b.final.heads, |c.capacity|)
    ensures 2.0 * WeightOf(c.weights, NonSink(c.g)) - WeightOf(c.weights, Elems(b.final.heads) * NonSink(c.g))
         <= SumSeq(c.capacity, b.final.heads)
  {
    hide Seeded, RoundOf, FirstExceeding, Finished, BalanceRun, LoopEnds, Marks;
    FinalFits(c, b);
    assert forall l :: l in b.final.heads ==> l in b.final.ballWeight;
    FinalPartitioned(c, b.final);
    FittingNeedsCapacity(c.g, c.weights, b.final.settled, b.final.roots, b.final.heads, c.capacity);
  }

  // Every round of the loop, whatever it did, is between vectors that growBalls left for
  // the marked heads, and moves the same double-counted load.
  lemma EveryRoundConserves(c: Setting, b: Clusters, i: nat)
    requires Built(c, b) && i < |b.rounds|
    ensures RoundOf(c, LeastCapacity(c.weights, b.k), 4 * b.k, b.rounds[i])
    ensures Conserves(c, b.rounds[i].start) && Conserves(c, b.rounds[i].recruited) && Conserves(c, b.rounds[i].after)
  {
    hide Seeded, GrownStand, Conserves, PeeledAll, Recruited, Trimmed;
    RoundsChain(c, LeastCapacity(c.weights, b.k), 4 * b.k, b.seeds, b.rounds, b.final, i);
    StandConserves(c, b.rounds[i].start);
    StandConserves(c, b.rounds[i].recruited);
    StandConserves(c, b.rounds[i].after);
  }

  // The balls add up to twice the non-sink weight less that of the non-sink heads.
  ghost predicate Conserves(c: Setting, s: Stand) {
    && Partitioned(c.g, s.settled, s.roots, s.heads) && |c.weights| == c.g.size
    && TotalBallWeight(c.g, c.weights, s.settled, s.roots, s.heads, |s.heads|)
    == 2.0 * WeightOf(c.weights, NonSink(c.g)) - WeightOf(c.weights, Elems(s.heads) * NonSink(c.g))
  }

  lemma StandConserves(c: Setting, s: Stand)
    requires GrownStand(c, s) && |c.weights| == c.g.size
    ensures Conserves(c, s)
  {
    hide Finished;
    BallWeightsConserve(c.g, c.weights, s.settled, s.roots, s.heads);
  }
}
