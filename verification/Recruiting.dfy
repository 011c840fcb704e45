// The ball search inside TZ_sample2: Dijkstra from a candidate, stopped by the first
// node that makes the settled weight exceed the candidate's capacity.

module BallSearch {
  import opened Sequences
  import opened Network
  import opened Searching
  import opened Distances

  ghost function Around(g: Graph, center: nat, infinity: real): Problem {
    Problem(g, {center}, 0.0, seq(g.size, _ => infinity), infinity)
  }

  // The search and how many of the nodes it settled belong to the ball: all of them,
  // or all but the last, which did not fit.
  datatype Ball = Ball(center: nat, search: State, size: nat)
  {
    ghost function Members(): seq<nat> {
      if size <= |search.order| then search.order[..size] else []
    }
  }

  ghost predicate FoundBall(g: Graph, b: Ball, infinity: real, weights: seq<real>, capacity: real, extractMin: bool) {
    var P, S := Around(g, b.center, infinity), b.search;
    && Inv(P, S, if b.size == |S.order| then Degree(P, S) else 0, extractMin)
    && |weights| == g.size
    && b.size <= |S.order| <= b.size + 1
    && (b.size > 0 ==> SumSeq(weights, b.Members()) <= capacity)
    && (b.size == |S.order| ==> S.queue == multiset{})
    && (b.size < |S.order| ==> SumSeq(weights, S.order) > capacity)
  }

  lemma MembersFacts(g: Graph, b: Ball, infinity: real, weights: seq<real>, capacity: real, extractMin: bool)
    requires FoundBall(g, b, infinity, weights, capacity, extractMin)
    ensures NoDup(b.Members()) && AllBelow(b.Members(), g.size)
    ensures b.size > 0 ==> b.Members()[0] == b.center
  {
    var P, S := Around(g, b.center, infinity), b.search;
    if b.size > 0 {
      assert !HasParent(P, S, S.order[0], 0);
    }
  }

  // Every edge out of the ball leads to a node reached at a label no smaller than any
  // label in the ball.
  lemma BallFrontier(g: Graph, b: Ball, infinity: real, weights: seq<real>, capacity: real, i: nat, v: nat)
    requires FoundBall(g, b, infinity, weights, capacity, true)
    requires i < b.size && g.Edge(b.search.order[i], v) && v !in b.Members()
    requires v < g.size
    ensures b.search.labels[v] <= b.search.labels[b.search.order[i]] + g.length(b.search.order[i], v)
    ensures forall y :: y in b.Members() ==> b.search.labels[y] <= b.search.labels[v]
  {
    var P, S := Around(g, b.center, infinity), b.search;
    var u := S.order[i];
    if v in S.order {
      var j :| 0 <= j < |S.order| && S.order[j] == v;
      assert forall m :: 0 <= m < b.size ==> b.Members()[m] == S.order[m];
      assert EdgeRelaxed(P, S, S.order[i], S.order[j]);
      forall y | y in b.Members()
        ensures S.labels[y] <= S.labels[v]
      {
        var m :| 0 <= m < b.size && S.order[m] == y;
      }
    } else {
      if b.size == |S.order| {
        LeavingRelaxed(P, S, i, v);
      }
      assert EdgeRelaxed(P, S, u, v);
      SettledLabel(P, S, if b.size == |S.order| then Degree(P, S) else 0, true, u);
      assert Touched(S, v);
      forall y | y in b.Members()
        ensures S.labels[y] <= S.labels[v]
      {
        var m :| 0 <= m < b.size && S.order[m] == y;
      }
    }
  }

  // A path from the center ends inside the ball, at a node labelled no more than its
  // length, or is at least as long as every label in the ball.
  lemma {:induction false} PathLeavesLate(g: Graph, b: Ball, infinity: real, weights: seq<real>, capacity: real,
                                          p: Path)
    requires FoundBall(g, b, infinity, weights, capacity, true)
    requires p.Valid(g) && p.Source() == b.center
    ensures p.node in b.Members() ==> b.search.labels[p.node] <= p.Length(g)
    ensures p.node !in b.Members() ==> forall y :: y in b.Members() ==> b.search.labels[y] <= p.Length(g)
  {
    MembersFacts(g, b, infinity, weights, capacity, true);
    var P, S := Around(g, b.center, infinity), b.search;
    if p.Then? {
      var w, v := p.front.node, p.node;
      PathLeavesLate(g, b, infinity, weights, capacity, p.front);
      if w in b.Members() {
        var i :| 0 <= i < b.size && S.order[i] == w;
        if v !in b.Members() {
          BallFrontier(g, b, infinity, weights, capacity, i, v);
        } else {
          InsideEdge(g, b, infinity, weights, capacity, w, v);
        }
      }
    }
  }

  lemma InsideEdge(g: Graph, b: Ball, infinity: real, weights: seq<real>, capacity: real, w: nat, v: nat)
    requires FoundBall(g, b, infinity, weights, capacity, true)
    requires w in b.Members() && v in b.Members() && g.Edge(w, v)
    ensures w < g.size && v < g.size && |b.search.labels| == g.size
    ensures b.search.labels[v] <= b.search.labels[w] + g.length(w, v)
  {
    hide Inv;
    var P, S := Around(g, b.center, infinity), b.search;
    var k := if b.size == |S.order| then Degree(P, S) else 0;
    var i :| 0 <= i < b.size && S.order[i] == w;
    var j :| 0 <= j < b.size && S.order[j] == v;
    SettledShape(P, S, k, true);
    if i < j {
      EarlierEdge(P, S, k, true, i, j);
    } else if j < i {
      EarlierIsNearer(P, S, k, j, i);
    }
  }

  lemma SettledShape(P: Problem, S: State, k: nat, extractMin: bool)
    requires Inv(P, S, k, extractMin)
    ensures P.g.Valid() && P.slack >= 0.0 && |S.labels| == P.g.size && AllBelow(S.order, P.g.size)
  {
    hide Forest, Frontier;
  }

  // With least pops a ball holds the nodes closest to its center: its labels are
  // distances, and no node outside is nearer than one inside.
  lemma BallIsClosestFirst(g: Graph, b: Ball, infinity: real, weights: seq<real>, capacity: real, y: nat, p: Path)
    requires FoundBall(g, b, infinity, weights, capacity, true)
    requires y in b.Members() && y < g.size
    requires p.Valid(g) && p.Source() == b.center
    ensures IsDistance(g, {b.center}, y, b.search.labels[y])
    ensures p.node !in b.Members() ==> b.search.labels[y] <= p.Length(g)
  {
    var P, S := Around(g, b.center, infinity), b.search;
    var i :| 0 <= i < b.size && S.order[i] == y;
    var q := SettledHasPath(P, S, if b.size == |S.order| then Degree(P, S) else 0, true, i);
    forall r: Path | r.Valid(g) && r.Source() in {b.center} && r.node == y
      ensures S.labels[y] <= r.Length(g)
    {
      PathLeavesLate(g, b, infinity, weights, capacity, r);
    }
    PathLeavesLate(g, b, infinity, weights, capacity, p);
  }

  // A ball stops only where the search does or at a node that would exceed the capacity.
  lemma FoundBallEnds(g: Graph, b: Ball, infinity: real, weights: seq<real>, capacity: real, extractMin: bool)
    requires FoundBall(g, b, infinity, weights, capacity, extractMin)
    ensures AllBelow(b.Members(), |weights|)
    ensures b.Members() != [] ==> SumSeq(weights, b.Members()) <= capacity
    ensures (forall v: nat :: v in b.Members() <==> Reachable(g, {b.center}, v))
         || (exists v: nat :: v < |weights| && v !in b.Members() && Reachable(g, {b.center}, v)
               && SumSeq(weights, b.Members() + [v]) > capacity)
  {
    var P, S := Around(g, b.center, infinity), b.search;
    MembersFacts(g, b, infinity, weights, capacity, extractMin);
    hide Inv, Reachable;
    if b.size == |S.order| {
      assert S.order[..b.size] == S.order;
      forall v: nat ensures v in b.Members() <==> Reachable(g, {b.center}, v) {
        SettlesExactlyReachable(P, S, extractMin, v);
      }
    } else {
      var v := S.order[b.size];
      assert S.order == b.Members() + [v];
      LastOfBall(P, S, extractMin);
      assert Reachable(g, {b.center}, v);
    }
  }

  lemma LastOfBall(P: Problem, S: State, extractMin: bool)
    requires Inv(P, S, 0, extractMin) && S.order != []
    ensures Reachable(P.g, P.sources, S.order[|S.order| - 1])
    ensures S.order[|S.order| - 1] < P.g.size && S.order[|S.order| - 1] !in S.order[..|S.order| - 1]
  {
    var p := SettledHasPath(P, S, 0, extractMin, |S.order| - 1);
  }
}

// TZ_sample2 as a transition system over its candidate list W, the marks, the trials
// left and the heads recruited so far. Which candidate a round looks at is arbitrary.
module Recruiting {
  import opened Sequences
  import opened Network
  import opened Searching
  import opened BallSearch

  datatype Setting = Setting(g: Graph, weights: seq<real>, capacity: seq<real>, threshold: real,
                             infinity: real, extractMin: bool)

  datatype Pool = Pool(candidates: seq<nat>, marked: seq<bool>, trials: nat, heads: seq<nat>)

  datatype Round =
    | Discard(node: nat)
    | Accept(ball: Ball)
    | Reject(ball: Ball)

  ghost predicate PoolOk(c: Setting, s: Pool) {
    && AllBelow(s.candidates, c.g.size)
    && |s.marked| == c.g.size == |c.weights| == |c.capacity|
    && s.trials <= 3
  }

  ghost predicate IsCandidateBall(c: Setting, s: Pool, b: Ball)
    requires PoolOk(c, s)
  {
    && b.center in s.candidates && !s.marked[b.center]
    && FoundBall(c.g, b, c.infinity, c.weights, c.capacity[b.center], c.extractMin)
  }

  // The candidates a ball captures, in the order they were settled.
  ghost function Captured(s: Pool, b: Ball): seq<nat> {
    Only(b.Members(), Elems(s.candidates))
  }

  // The captured weight exceeds the threshold maxThres / 2.
  ghost predicate Gains(c: Setting, s: Pool, b: Ball) {
    AllBelow(Captured(s, b), |c.weights|) && SumSeq(c.weights, Captured(s, b)) > c.threshold
  }

  ghost predicate Enabled(c: Setting, s: Pool, r: Round)
    requires PoolOk(c, s)
  {
    match r
    case Discard(x) => x in s.candidates && s.marked[x]
    case Accept(b) => IsCandidateBall(c, s, b) && (s.trials == 0 || Gains(c, s, b))
    case Reject(b) => IsCandidateBall(c, s, b) && !(s.trials == 0 || Gains(c, s, b))
  }

  ghost function Next(s: Pool, r: Round): Pool {
    match r
    case Discard(x) => s.(candidates := Without(s.candidates, {x}))
    case Accept(b) =>
      Pool(Without(s.candidates, Elems(b.Members())),
           if b.center < |s.marked| then s.marked[b.center := true] else s.marked, 3, s.heads + [b.center])
    case Reject(b) =>
      Pool(Without(s.candidates, Elems(b.Members())) + Captured(s, b), s.marked,
           if s.trials > 0 then s.trials - 1 else 0, s.heads)
  }

  // -------------------------------------------------------------------------
  // Termination

  ghost function Unmarked(s: Pool): set<nat> {
    set x | x in s.candidates && x < |s.marked| && !s.marked[x]
  }

  // Four times the distinct candidates and the distinct unmarked candidates, plus the
  // trials left: the lexicographic measure in one number.
  ghost function Rank(s: Pool): nat {
    4 * (|Elems(s.candidates)| + |Unmarked(s)|) + s.trials
  }

  lemma RoundKeepsPool(c: Setting, s: Pool, r: Round)
    requires PoolOk(c, s) && Enabled(c, s, r)
    ensures PoolOk(c, Next(s, r))
    ensures forall x :: x in Next(s, r).candidates ==> x in s.candidates
  {
    hide FoundBall, Gains;
    var t := Next(s, r);
    match r {
      case Discard(x) =>
      case Accept(b) =>
      case Reject(b) =>
        RejectKeepsCandidates(s, b);
        assert forall x :: x in t.candidates ==> x in Elems(t.candidates);
    }
    AllBelowSubset(s.candidates, t.candidates, c.g.size);
  }

  // A rejected round only reorders the candidates and drops repetitions.
  lemma RejectKeepsCandidates(s: Pool, b: Ball)
    ensures Elems(Next(s, Reject(b)).candidates) == Elems(s.candidates)
  {
    var t := Next(s, Reject(b));
    forall x ensures x in t.candidates <==> x in s.candidates {
      assert x in Captured(s, b) <==> x in b.Members() && x in s.candidates;
    }
  }

  // Every round of every run lowers the rank.
  lemma RoundShrinks(c: Setting, s: Pool, r: Round)
    requires PoolOk(c, s) && Enabled(c, s, r)
    ensures Rank(Next(s, r)) < Rank(s)
  {
    hide FoundBall;
    var t := Next(s, r);
    match r
    case Discard(x) =>
      assert x in Elems(s.candidates) && x !in Elems(t.candidates);
      CardSubset(Elems(t.candidates), Elems(s.candidates));
      CardSubset(Unmarked(t), Unmarked(s));
    case Accept(b) =>
      assert b.center in Unmarked(s) && b.center !in Unmarked(t);
      CardSubset(Elems(t.candidates), Elems(s.candidates));
      CardSubset(Unmarked(t), Unmarked(s));
    case Reject(b) =>
      RejectKeepsCandidates(s, b);
      assert Unmarked(t) == Unmarked(s) by {
        forall x ensures x in Unmarked(t) <==> x in Unmarked(s) {
          assert x in t.candidates <==> x in Elems(t.candidates);
        }
      }
  }

  // -------------------------------------------------------------------------
  // Runs

  ghost function After(s: Pool, log: seq<Round>): Pool {
    if log == [] then s else Next(After(s, log[..|log| - 1]), log[|log| - 1])
  }

  ghost predicate Run(c: Setting, s: Pool, log: seq<Round>) {
    log == [] ||
    (var before := After(s, log[..|log| - 1]);
     Run(c, s, log[..|log| - 1]) && PoolOk(c, before) && Enabled(c, before, log[|log| - 1]))
  }

  lemma {:induction false} RunSnoc(c: Setting, s: Pool, log: seq<Round>, r: Round)
    requires Run(c, s, log) && PoolOk(c, After(s, log)) && Enabled(c, After(s, log), r)
    ensures Run(c, s, log + [r]) && After(s, log + [r]) == Next(After(s, log), r)
  {
    assert (log + [r])[..|log|] == log;
  }

  // Termination for every sequence of random choices: no run is longer than the rank
  // of the pool it starts from.
  lemma {:induction false} RunsEnd(c: Setting, s: Pool, log: seq<Round>)
    requires PoolOk(c, s) && Run(c, s, log)
    ensures PoolOk(c, After(s, log))
    ensures |log| + Rank(After(s, log)) <= Rank(s)
  {
    hide FoundBall;
    if log != [] {
      var front, r := log[..|log| - 1], log[|log| - 1];
      RunsEnd(c, s, front);
      RoundShrinks(c, After(s, front), r);
      RoundKeepsPool(c, After(s, front), r);
    }
  }

  // Some ball accepted in the run contains x.
  ghost predicate Captures(log: seq<Round>, x: nat) {
    exists i :: 0 <= i < |log| && log[i].Accept? && x in log[i].ball.Members()
  }

  // The marks are those of the start plus the recruited heads, which are distinct,
  // were unmarked, and were candidates.
  ghost predicate HeadsFresh(s: Pool, t: Pool) {
    && NoDup(t.heads)
    && |t.marked| == |s.marked|
    && (forall h :: h in t.heads ==> h in s.candidates && h < |s.marked| && !s.marked[h])
    && (forall x: nat :: x < |s.marked| ==> (t.marked[x] <==> s.marked[x] || x in t.heads))
  }

  ghost predicate Accounted(s: Pool, t: Pool, log: seq<Round>, x: nat) {
    || x in t.candidates
    || (x < |s.marked| && s.marked[x])
    || x in t.heads
    || Captures(log, x)
  }

  lemma RoundKeepsHeadsFresh(c: Setting, s: Pool, t: Pool, r: Round)
    requires PoolOk(c, s) && PoolOk(c, t) && Enabled(c, t, r) && HeadsFresh(s, t)
    requires forall x :: x in t.candidates ==> x in s.candidates
    ensures HeadsFresh(s, Next(t, r))
  {
    hide FoundBall, Gains;
    if r.Accept? {
      NoDupSnoc(t.heads, r.ball.center);
    }
  }

  lemma {:induction false} RunKeepsHeadsFresh(c: Setting, s: Pool, log: seq<Round>)
    requires PoolOk(c, s) && Run(c, s, log) && s.heads == []
    ensures PoolOk(c, After(s, log)) && HeadsFresh(s, After(s, log))
    ensures forall x :: x in After(s, log).candidates ==> x in s.candidates
    ensures var t := After(s, log);
            && NoDup(t.heads) && |t.marked| == |s.marked|
            && (forall h :: h in t.heads ==> h in s.candidates && h < |s.marked| && !s.marked[h])
            && (forall x: nat :: x < |s.marked| ==> (t.marked[x] <==> s.marked[x] || x in t.heads))
  {
    hide FoundBall, Gains, Next, Enabled;
    if log != [] {
      var front, r := log[..|log| - 1], log[|log| - 1];
      RunKeepsHeadsFresh(c, s, front);
      RoundKeepsPool(c, After(s, front), r);
      RoundKeepsHeadsFresh(c, s, After(s, front), r);
    }
  }

  // No candidate is dropped for free.
  lemma {:induction false} RunAccountsFor(c: Setting, s: Pool, log: seq<Round>, x: nat)
    requires PoolOk(c, s) && Run(c, s, log) && s.heads == [] && x in s.candidates
    ensures Accounted(s, After(s, log), log, x)
  {
    hide FoundBall;
    if log != [] {
      var front, r := log[..|log| - 1], log[|log| - 1];
      RunAccountsFor(c, s, front, x);
      RunKeepsHeadsFresh(c, s, front);
      var t := After(s, front);
      if Captures(front, x) {
        var i :| 0 <= i < |front| && front[i].Accept? && x in front[i].ball.Members();
        assert log[i] == front[i];
      } else if x in t.candidates {
        match r
        case Discard(y) =>
        case Accept(b) =>
          if x in b.Members() {
            assert log[|log| - 1].Accept? && x in log[|log| - 1].ball.Members();
          }
        case Reject(b) =>
          RejectKeepsCandidates(t, b);
          assert x in Elems(Next(t, r).candidates);
      }
    }
  }

  // Every accepted ball belongs to a recruited head, and if it captured anything it
  // fits that head's capacity.
  ghost predicate FitsItsHead(c: Setting, t: Pool, b: Ball) {
    && b.center in t.heads && b.center < |c.capacity|
    && FoundBall(c.g, b, c.infinity, c.weights, c.capacity[b.center], c.extractMin)
  }

  lemma AcceptFits(c: Setting, t: Pool, b: Ball)
    requires PoolOk(c, t) && Enabled(c, t, Accept(b))
    ensures FitsItsHead(c, Next(t, Accept(b)), b)
  {
    hide FoundBall, Gains;
  }

  lemma NextKeepsHeads(t: Pool, r: Round, h: nat)
    requires h in t.heads
    ensures h in Next(t, r).heads
  {
  }

  lemma {:induction false} AcceptedBallsFit(c: Setting, s: Pool, log: seq<Round>, i: nat)
    requires PoolOk(c, s) && Run(c, s, log) && i < |log| && log[i].Accept?
    ensures FitsItsHead(c, After(s, log), log[i].ball)
  {
    hide FoundBall, Gains, Next, Enabled;
    var front := log[..|log| - 1];
    if i < |front| {
      AcceptedBallsFit(c, s, front, i);
      assert front[i] == log[i];
      NextKeepsHeads(After(s, front), log[|log| - 1], log[i].ball.center);
    } else {
      AcceptFits(c, After(s, front), log[i].ball);
    }
  }

  // When the candidates are used up: each was a head already, became one, or lies in
  // the ball of an accepted head; and an unmarked candidate forces a recruit.
  lemma RunCovers(c: Setting, s: Pool, log: seq<Round>, x: nat)
    requires PoolOk(c, s) && Run(c, s, log) && s.heads == [] && x in s.candidates
    requires After(s, log).candidates == []
    ensures x < |s.marked| && (s.marked[x] || x in After(s, log).heads || Captures(log, x))
    ensures s.marked[x] || x in After(s, log).heads
         || exists i :: 0 <= i < |log| && log[i].Accept? && x in log[i].ball.Members()
    ensures !s.marked[x] ==> After(s, log).heads != []
  {
    hide FoundBall;
    RunAccountsFor(c, s, log, x);
    if Captures(log, x) {
      var i :| 0 <= i < |log| && log[i].Accept? && x in log[i].ball.Members();
      AcceptedBallsFit(c, s, log, i);
    }
  }

  // -------------------------------------------------------------------------
  // What the rounds of a run do, and when a ball is accepted

  // The weight of the candidates a ball captures, each counted once.
  lemma CapturedWeight(c: Setting, s: Pool, b: Ball)
    requires PoolOk(c, s) && IsCandidateBall(c, s, b)
    ensures forall x :: x in Captured(s, b) <==> x in s.candidates && x in b.Members()
    ensures NoDup(Captured(s, b)) && AllBelow(Captured(s, b), |c.weights|)
    ensures SumSeq(c.weights, Captured(s, b)) == WeightOf(c.weights, Elems(s.candidates) * Elems(b.Members()))
    ensures Gains(c, s, b) <==> WeightOf(c.weights, Elems(s.candidates) * Elems(b.Members())) > c.threshold
  {
    MembersFacts(c.g, b, c.infinity, c.weights, c.capacity[b.center], c.extractMin);
    hide FoundBall;
    var captured := Captured(s, b);
    OnlyNoDup(b.Members(), Elems(s.candidates));
    AllBelowSubset(b.Members(), captured, c.g.size);
    SumSeqIsWeight(c.weights, captured);
    assert Elems(captured) == Elems(s.candidates) * Elems(b.Members());
  }

  // One round of a run, as a change of candidates (with their copies), marks and heads.
  lemma RunStep(c: Setting, s: Pool, log: seq<Round>, i: nat)
    requires PoolOk(c, s) && Run(c, s, log) && i < |log|
    ensures var a, t := After(s, log[..i]), After(s, log[..i + 1]);
            match log[i]
            case Discard(x) =>
              && x in a.candidates && x < |a.marked| && a.marked[x]
              && (forall y: nat :: multiset(t.candidates)[y] == if y == x then 0 else multiset(a.candidates)[y])
              && t.marked == a.marked && t.heads == a.heads
            case Accept(b) =>
              && b.center in a.candidates && b.center < |a.marked| && !a.marked[b.center]
              && (forall y: nat ::
                    multiset(t.candidates)[y] == if y in b.Members() then 0 else multiset(a.candidates)[y])
              && t.marked == a.marked[b.center := true] && t.heads == a.heads + [b.center]
            case Reject(b) =>
              && b.center in a.candidates && b.center < |a.marked| && !a.marked[b.center]
              && (forall y: nat :: multiset(t.candidates)[y] ==
                    if y in b.Members() && y in a.candidates then 1 else multiset(a.candidates)[y])
              && t.marked == a.marked && t.heads == a.heads
  {
    hide FoundBall, Gains;
    RunPrefix(c, s, log, i + 1);
    assert log[..i + 1][..i] == log[..i];
    RunPrefix(c, s, log, i);
    var a := After(s, log[..i]);
    match log[i] {
      case Discard(x) =>
        WithoutCounts(a.candidates, {x});
      case Accept(b) =>
        WithoutCounts(a.candidates, Elems(b.Members()));
      case Reject(b) =>
        WithoutCounts(a.candidates, Elems(b.Members()));
        CapturedWeight(c, a, b);
        NoDupCounts(Captured(a, b));
    }
  }

  lemma {:induction false} RunPrefix(c: Setting, s: Pool, log: seq<Round>, i: nat)
    requires PoolOk(c, s) && Run(c, s, log) && i <= |log|
    ensures Run(c, s, log[..i]) && PoolOk(c, After(s, log[..i]))
  {
    hide FoundBall;
    if i == |log| {
      assert log[..i] == log;
      RunsEnd(c, s, log);
    } else {
      assert log[..|log| - 1][..i] == log[..i];
      RunPrefix(c, s, log[..|log| - 1], i);
    }
  }

  // The rejected rounds from j up to i.
  ghost function Rejected(log: seq<Round>, j: nat, i: nat): set<nat> {
    set m: nat | j <= m < i && m < |log| && log[m].Reject?
  }

  // No round from j up to i was accepted, and j is the start or comes after an acceptance.
  ghost predicate SinceAcceptance(log: seq<Round>, j: nat, i: nat) {
    && j <= i <= |log|
    && (j == 0 || log[j - 1].Accept?)
    && (forall m :: j <= m < i ==> !log[m].Accept?)
  }

  // The trials left are three less the rejected rounds since the start or the last
  // acceptance, whatever was discarded in between.
  lemma {:induction false} TrialsLeft(c: Setting, s: Pool, log: seq<Round>, j: nat, i: nat)
    requires PoolOk(c, s) && Run(c, s, log) && s.trials == 3 && SinceAcceptance(log, j, i)
    ensures |set m: nat | j <= m < i && m < |log| && log[m].Reject?| <= 3
    ensures After(s, log[..i]).trials == 3 - |set m: nat | j <= m < i && m < |log| && log[m].Reject?|
    decreases i
  {
    hide Run, After, PoolOk;
    if i > j || j > 0 {
      TrialsStep(c, s, log, i - 1);
    }
    if i == j {
      assert Rejected(log, j, i) == {};
      assert j == 0 ==> After(s, log[..0]) == s by { AfterNothing(s, log); }
    } else {
      TrialsLeft(c, s, log, j, i - 1);
      if log[i - 1].Reject? {
        assert Rejected(log, j, i) == Rejected(log, j, i - 1) + {i - 1};
      } else {
        assert Rejected(log, j, i) == Rejected(log, j, i - 1);
      }
    }
  }

  lemma AfterNothing(s: Pool, log: seq<Round>)
    ensures After(s, log[..0]) == s
  {
  }

  lemma TrialsStep(c: Setting, s: Pool, log: seq<Round>, i: nat)
    requires PoolOk(c, s) && Run(c, s, log) && i < |log|
    ensures var a, t := After(s, log[..i]).trials, After(s, log[..i + 1]).trials;
            && (log[i].Accept? ==> t == 3)
            && (log[i].Reject? ==> a > 0 && t == a - 1)
            && (log[i].Discard? ==> t == a)
  {
    hide FoundBall, Gains;
    RunPrefix(c, s, log, i + 1);
    assert log[..i + 1][..i] == log[..i];
  }

  // A ball is accepted exactly if its candidates weigh more than the threshold or three
  // rounds were rejected since the start or the last acceptance.
  lemma AcceptedIff(c: Setting, s: Pool, log: seq<Round>, j: nat, i: nat)
    requires PoolOk(c, s) && Run(c, s, log) && s.trials == 3 && SinceAcceptance(log, j, i)
    requires i < |log| && !log[i].Discard?
    ensures log[i].Accept? <==>
              || WeightOf(c.weights, Elems(After(s, log[..i]).candidates) * Elems(log[i].ball.Members())) > c.threshold
              || |set m: nat | j <= m < i && m < |log| && log[m].Reject?| == 3
  {
    hide FoundBall, Gains;
    TrialsLeft(c, s, log, j, i);
    RunPrefix(c, s, log, i + 1);
    RunPrefix(c, s, log, i);
    assert log[..i + 1][..i] == log[..i];
    CapturedWeight(c, After(s, log[..i]), log[i].ball);
  }

  // The ball around a recruited head is within its capacity, and it stops only where the
  // search does or at a node that would exceed the capacity.
  lemma BallIsMaximal(c: Setting, s: Pool, log: seq<Round>, i: nat)
    requires PoolOk(c, s) && Run(c, s, log) && i < |log| && log[i].Accept?
    ensures var b := log[i].ball;
            && b.center in After(s, log).heads && b.center < |c.capacity|
            && AllBelow(b.Members(), |c.weights|)
            && (b.Members() != [] ==> SumSeq(c.weights, b.Members()) <= c.capacity[b.center])
            && ((forall v: nat :: v in b.Members() <==> Reachable(c.g, {b.center}, v))
                || (exists v: nat :: v < |c.weights| && v !in b.Members() && Reachable(c.g, {b.center}, v)
                      && SumSeq(c.weights, b.Members() + [v]) > c.capacity[b.center]))
  {
    AcceptedBallsFit(c, s, log, i);
    RunsEnd(c, s, log);
    FoundBallEnds(c.g, log[i].ball, c.infinity, c.weights, c.capacity[log[i].ball.center], c.extractMin);
  }
}
