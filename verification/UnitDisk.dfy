// The graphs UDG::init builds: nodes at points of the plane, joined when they are closer
// than the range d0, with Euclidean edge lengths. On these a search stays near the
// distances for many orders of pops besides the least first.

module UnitDisk {
  import opened Sequences
  import opened Network
  import opened Searching
  import opened Distances

  datatype Point = Point(x: real, y: real)

  function Squared(p: Point, q: Point): real {
    (p.x - q.x) * (p.x - q.x) + (p.y - q.y) * (p.y - q.y)
  }

  // G::distance
  ghost predicate IsDistanceOf(length: real, p: Point, q: Point) {
    0.0 <= length && length * length == Squared(p, q)
  }

  predicate Closer(p: Point, q: Point, range: real) {
    Squared(p, q) < range * range
  }

  // What UDG::init and getAdjExceptSink make of nodes at these points.
  ghost predicate Placed(g: Graph, at: seq<Point>) {
    && |at| == g.size == |g.adj| && g.sink < g.size && 0.0 <= g.radius
    && (forall u: nat, v: nat :: u < g.size && v < g.size ==>
          (g.Edge(u, v) <==> u != v && v != g.sink && Closer(at[u], at[v], g.radius)))
    && (forall u: nat, v: nat :: g.Edge(u, v) ==> v < g.size && IsDistanceOf(g.length(u, v), at[u], at[v]))
    && (forall u: nat :: u < g.size ==> Increasing(g.adj[u]))
  }

  ghost predicate Increasing(s: seq<nat>) {
    forall i: nat {:trigger s[i]} :: i + 1 < |s| ==> s[i] < s[i + 1]
  }

  // ---- the triangle inequality

  lemma Binomial(x: real, y: real)
    ensures (x + y) * (x + y) == x * x + 2.0 * (x * y) + y * y
  {
  }

  lemma LargerSquare(a: real, b: real)
    requires 0.0 <= b < a
    ensures b * b < a * a
  {
    var d := a - b;
    Binomial(b, d);
    assert b * d >= 0.0 && d * d > 0.0;
  }

  lemma ProductSquared(a: real, b: real)
    ensures (a * b) * (a * b) == (a * a) * (b * b)
  {
    var p := a * b;
    assert p * p == (p * a) * b;
    assert p * a == (a * a) * b;
  }

  lemma Lagrange(ux: real, uy: real, vx: real, vy: real)
    ensures (ux * vx + uy * vy) * (ux * vx + uy * vy) <= (ux * ux + uy * uy) * (vx * vx + vy * vy)
  {
    var cross := ux * vy - uy * vx;
    assert cross * cross >= 0.0;
    assert (ux * vx + uy * vy) * (ux * vx + uy * vy) + cross * cross == (ux * ux + uy * uy) * (vx * vx + vy * vy);
  }

  // The Cauchy-Schwarz inequality in the plane.
  lemma DotAtMost(ux: real, uy: real, vx: real, vy: real, a: real, b: real)
    requires 0.0 <= a && 0.0 <= b && a * a == ux * ux + uy * uy && b * b == vx * vx + vy * vy
    ensures ux * vx + uy * vy <= a * b
  {
    Lagrange(ux, uy, vx, vy);
    ProductSquared(a, b);
    assert 0.0 <= a * b;
    if ux * vx + uy * vy > a * b {
      LargerSquare(ux * vx + uy * vy, a * b);
    }
  }

  // The square over two sides in a row.
  lemma SidesSquared(ux: real, uy: real, vx: real, vy: real, a: real, b: real)
    requires 0.0 <= a && 0.0 <= b && a * a == ux * ux + uy * uy && b * b == vx * vx + vy * vy
    ensures (ux + vx) * (ux + vx) + (uy + vy) * (uy + vy) <= (a + b) * (a + b)
  {
    DotAtMost(ux, uy, vx, vy, a, b);
    Binomial(ux, vx);
    Binomial(uy, vy);
    Binomial(a, b);
  }

  lemma SquaredAtMost(p: Point, q: Point, r: Point, a: real, b: real)
    requires IsDistanceOf(a, p, q) && IsDistanceOf(b, q, r)
    ensures Squared(p, r) <= (a + b) * (a + b)
  {
    var ux, uy, vx, vy := p.x - q.x, p.y - q.y, q.x - r.x, q.y - r.y;
    SidesSquared(ux, uy, vx, vy, a, b);
    assert ux + vx == p.x - r.x && uy + vy == p.y - r.y;
  }

  lemma Triangle(p: Point, q: Point, r: Point, a: real, b: real, c: real)
    requires IsDistanceOf(a, p, q) && IsDistanceOf(b, q, r) && IsDistanceOf(c, p, r)
    ensures c <= a + b
  {
    hide Squared;
    SquaredAtMost(p, q, r, a, b);
    if c > a + b {
      LargerSquare(c, a + b);
    }
  }

  lemma NearBySides(p: Point, q: Point, r: Point, a: real, b: real, range: real)
    requires IsDistanceOf(a, p, q) && IsDistanceOf(b, q, r) && a + b < range
    ensures Closer(p, r, range)
  {
    hide Squared;
    SquaredAtMost(p, q, r, a, b);
    LargerSquare(range, a + b);
  }

  lemma CloserIsShorter(length: real, p: Point, q: Point, range: real)
    requires IsDistanceOf(length, p, q) && Closer(p, q, range) && 0.0 <= range
    ensures 0.0 <= length < range
  {
    hide Squared;
    if length > range {
      LargerSquare(length, range);
    }
  }

  // Two edges in a row: a direct edge is not longer, and without one both together are at
  // least as long as the range.
  lemma DirectIsShorter(g: Graph, at: seq<Point>, u: nat, v: nat, w: nat)
    requires Placed(g, at) && g.Edge(u, v) && g.Edge(v, w) && u != w
    ensures g.Edge(u, w) ==> g.length(u, w) <= g.length(u, v) + g.length(v, w)
    ensures !g.Edge(u, w) ==> g.radius <= g.length(u, v) + g.length(v, w)
  {
    hide IsDistanceOf, Closer;
    var a, b := g.length(u, v), g.length(v, w);
    if g.Edge(u, w) {
      Triangle(at[u], at[v], at[w], a, b, g.length(u, w));
    } else if a + b < g.radius {
      NearBySides(at[u], at[v], at[w], a, b, g.radius);
    }
  }

  // Written out: two nodes are joined exactly if they are closer than the range, by an edge as
  // long as their distance.
  lemma PlacedMeans(g: Graph, at: seq<Point>, u: nat, v: nat)
    requires Placed(g, at) && u < g.size && v < g.size
    ensures g.Edge(u, v) <==>
              u != v && v != g.sink
              && (at[u].x - at[v].x) * (at[u].x - at[v].x) + (at[u].y - at[v].y) * (at[u].y - at[v].y)
                 < g.radius * g.radius
    ensures g.Edge(u, v) ==>
              0.0 <= g.length(u, v)
              && g.length(u, v) * g.length(u, v)
                 == (at[u].x - at[v].x) * (at[u].x - at[v].x) + (at[u].y - at[v].y) * (at[u].y - at[v].y)
  {
    EdgeIfCloser(g, at, u, v);
  }

  lemma EdgeIfCloser(g: Graph, at: seq<Point>, u: nat, v: nat)
    requires Placed(g, at) && u < g.size && v < g.size
    ensures g.Edge(u, v) <==> u != v && v != g.sink && Closer(at[u], at[v], g.radius)
    ensures g.Edge(u, v) ==> IsDistanceOf(g.length(u, v), at[u], at[v])
  {
    hide Closer, IsDistanceOf;
  }

  lemma PlacedIsValid(g: Graph, at: seq<Point>)
    requires Placed(g, at)
    ensures g.Valid()
  {
    hide IsDistanceOf, Closer;
    forall u: nat, v: nat | g.Edge(u, v)
      ensures v < g.size && v != g.sink && 0.0 <= g.length(u, v) <= g.radius
    {
      CloserIsShorter(g.length(u, v), at[u], at[v], g.radius);
    }
  }

  // -------------------------------------------------------------------------
  // Orders of pops that do no harm

  // No node is settled with a label beyond that of a source still waiting, nor more than
  // the range beyond the parent of a node that already had its last label.
  ghost predicate Tame(P: Problem, S: State)
    requires Shape(P, S)
  {
    && (forall i, j :: 0 <= i < j < |S.order| && S.order[j] in P.sources ==> S.labels[S.order[i]] <= P.slack)
    && (forall m, i, j :: 0 <= m < i < j < |S.order| && ParentAt(P, S, S.order[j], m) ==>
          S.labels[S.order[i]] <= S.labels[S.order[m]] + P.g.radius + P.slack)
  }

  // With least pops the order is tame.
  lemma LeastIsTame(P: Problem, S: State)
    requires Finished(P, S, true)
    ensures Shape(P, S) && Tame(P, S)
  {
    forall m, i, j | 0 <= m < i < j < |S.order| && ParentAt(P, S, S.order[j], m)
      ensures S.labels[S.order[i]] <= S.labels[S.order[m]] + P.g.radius + P.slack
    {
      EarlierIsNearer(P, S, Degree(P, S), i, j);
    }
    forall i, j | 0 <= i < j < |S.order| && S.order[j] in P.sources
      ensures S.labels[S.order[i]] <= P.slack
    {
      EarlierIsNearer(P, S, Degree(P, S), i, j);
    }
  }

  lemma LaterParent(P: Problem, S: State, j: nat) returns (m: nat)
    requires Finished(P, S, false) && j < |S.order| && S.order[j] !in P.sources
    ensures m < j && Shape(P, S) && ParentAt(P, S, S.order[j], m)
    ensures S.labels[S.order[m]] <= S.labels[S.order[j]]
  {
    assert HasParent(P, S, S.order[j], j);
    m :| 0 <= m < j && ParentAt(P, S, S.order[j], m);
  }

  // In a tame order no node is settled more than the range beyond one settled later.
  lemma {:induction false} TameReaches(P: Problem, S: State, i: nat, j: nat)
    requires Finished(P, S, false) && Shape(P, S) && Tame(P, S) && i < j < |S.order|
    ensures S.labels[S.order[i]] <= S.labels[S.order[j]] + P.g.radius + P.slack
    decreases j
  {
    hide Inv;
    FinishedFacts(P, S);
    if S.order[j] !in P.sources {
      var m := LaterParent(P, S, j);
      if m > i {
        TameReaches(P, S, i, m);
      }
    }
  }

  // In a tame order on points of the plane every edge between settled nodes is relaxed,
  // whichever end was settled first.
  lemma {:induction false} TameEdge(P: Problem, S: State, at: seq<Point>, i: nat, j: nat)
    requires Finished(P, S, false) && Shape(P, S) && Tame(P, S) && Placed(P.g, at)
    requires i < j < |S.order| && P.g.Edge(S.order[j], S.order[i])
    ensures S.labels[S.order[i]] <= S.labels[S.order[j]] + P.g.length(S.order[j], S.order[i]) + P.slack
    decreases j
  {
    hide Inv, Placed;
    FinishedFacts(P, S);
    var y, x := S.order[i], S.order[j];
    if x !in P.sources {
      var m := LaterParent(P, S, j);
      var p := S.order[m];
      if m != i {
        SettledOnce(P, S, i, m);
        DirectIsShorter(P.g, at, p, x, y);
        if P.g.Edge(p, y) {
          if m > i {
            TameEdge(P, S, at, i, m);
          } else {
            EarlierEdge(P, S, Degree(P, S), false, m, i);
          }
        } else if m > i {
          TameReaches(P, S, i, m);
        }
      }
    }
  }

  lemma SettledOnce(P: Problem, S: State, i: nat, m: nat)
    requires Shape(P, S) && i < |S.order| && m < |S.order| && i != m
    ensures S.order[i] != S.order[m]
  {
  }

  lemma TameIsBackRelaxed(P: Problem, S: State, at: seq<Point>)
    requires Finished(P, S, false) && Shape(P, S) && Tame(P, S) && Placed(P.g, at)
    ensures BackRelaxed(P, S)
  {
    hide Inv, Placed, Tame;
    forall i, j | 0 <= i < j < |S.order| && P.g.Edge(S.order[j], S.order[i])
      ensures EdgeRelaxed(P, S, S.order[j], S.order[i])
    {
      TameEdge(P, S, at, i, j);
    }
  }

  // Growing on points of the plane, for any tame order of pops: no path from a source is
  // shorter than the label of its end by more than the slack on each of its hops.
  lemma TameLabelBound(P: Problem, S: State, at: seq<Point>, p: Path)
    requires Finished(P, S, false) && Shape(P, S) && Tame(P, S) && Unpruned(P) && Placed(P.g, at)
    requires p.Valid(P.g) && p.Source() in P.sources
    ensures p.node in S.order && S.labels[p.node] <= p.Length(P.g) + Span(p.Hops(), P.slack)
  {
    hide Inv, Placed, Tame, BackRelaxed;
    TameIsBackRelaxed(P, S, at);
    BackRelaxedLabels(P, S, p);
    CostIsLengthPlusHops(P.g, p, P.slack);
  }

  // A condition on the input alone: around one head that every other node is in range of,
  // every order of pops is tame.
  lemma OneHopIsTame(P: Problem, S: State, head: nat)
    requires Finished(P, S, false) && Unpruned(P) && P.sources == {head}
    requires forall v: nat :: v < P.g.size && v != P.g.sink && v != head ==> P.g.Edge(head, v)
    ensures Shape(P, S) && Tame(P, S)
  {
    FinishedFacts(P, S);
    if S.order != [] {
      FirstIsSource(P, S);
      forall i | 0 < i < |S.order|
        ensures S.labels[S.order[i]] <= P.g.radius + P.slack
        ensures 0.0 <= S.labels[S.order[i]] && S.order[i] != head
      {
        var m := LaterParent(P, S, i);
        assert P.g.Edge(S.order[m], S.order[i]);
        EarlierEdge(P, S, Degree(P, S), false, 0, i);
      }
    }
  }

  lemma FirstIsSource(P: Problem, S: State)
    requires Finished(P, S, false) && S.order != []
    ensures S.order[0] in P.sources
  {
    assert !HasParent(P, S, S.order[0], 0);
  }
}
