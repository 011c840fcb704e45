// The unit-disk graph the planner works on (UDG.h) and paths in it.

module Network {
  import opened Sequences

  // adj[u] is the neighbour list of u without the sink (getAdjExceptSink);
  // length is getLength; radius is the communication range d0.
  datatype Graph = Graph(size: nat, sink: nat, adj: seq<seq<nat>>, length: (nat, nat) -> real, radius: real)
  {
    predicate Edge(u: nat, v: nat) {
      u < |adj| && v in adj[u]
    }

    // What UDG::init builds: edges join nodes closer than d0, and no list names the sink.
    ghost predicate Valid() {
      && sink < size
      && |adj| == size
      && 0.0 <= radius
      && (forall u: nat, v: nat :: Edge(u, v) ==> v < size && v != sink && 0.0 <= length(u, v) <= radius)
    }

    // getNodesExceptSink: every node but the sink, in increasing order.
    function NodesExceptSink(n: nat := size): (r: seq<nat>)
      ensures forall x: nat :: x in r <==> x < n && x != sink
    {
      if n == 0 then []
      else if n - 1 == sink then NodesExceptSink(n - 1)
      else NodesExceptSink(n - 1) + [n - 1]
    }
  }

  // A path, read from its end: a start node followed by edges.
  datatype Path = At(node: nat) | Then(front: Path, node: nat)
  {
    function Source(): nat {
      if At? then node else front.Source()
    }

    ghost predicate Valid(g: Graph) {
      match this
      case At(s) => s < g.size
      case Then(front, v) => front.Valid(g) && g.Edge(front.node, v)
    }

    // The length of the path when every edge is charged an extra surcharge.
    ghost function Cost(g: Graph, surcharge: real): real {
      match this
      case At(_) => 0.0
      case Then(front, v) => front.Cost(g, surcharge) + g.length(front.node, v) + surcharge
    }

    ghost function Length(g: Graph): real {
      Cost(g, 0.0)
    }

    ghost function Hops(): nat {
      if At? then 0 else front.Hops() + 1
    }

    ghost predicate Inside(S: set<nat>) {
      node in S && (Then? ==> front.Inside(S))
    }
  }

  ghost predicate Reachable(g: Graph, S: set<nat>, v: nat) {
    exists p: Path :: p.Valid(g) && p.Source() in S && p.node == v
  }

  // From every node, the sink included since it can become a head, every other node but
  // the sink can be reached.
  ghost predicate Connected(g: Graph) {
    forall u: nat, v: nat :: u < g.size && v < g.size && v != g.sink ==> Reachable(g, {u}, v)
  }

  // x is the distance from the set S to v.
  ghost predicate IsDistance(g: Graph, S: set<nat>, v: nat, x: real) {
    && (exists p: Path :: p.Valid(g) && p.Source() in S && p.node == v && p.Length(g) == x)
    && (forall p: Path :: p.Valid(g) && p.Source() in S && p.node == v ==> x <= p.Length(g))
  }

  // n times x, unrolled.
  ghost function Span(n: nat, x: real): real {
    if n == 0 then 0.0 else Span(n - 1, x) + x
  }

  lemma {:induction false} SpanIsProduct(n: nat, x: real)
    ensures Span(n, x) == n as real * x
  {
    if n > 0 {
      SpanIsProduct(n - 1, x);
      assert n as real * x == (n - 1) as real * x + x;
    }
  }

  // A surcharge on every edge adds up to hops times the surcharge.
  lemma {:induction false} CostIsLengthPlusHops(g: Graph, p: Path, surcharge: real)
    ensures p.Cost(g, surcharge) == p.Length(g) + Span(p.Hops(), surcharge)
  {
    if p.Then? {
      CostIsLengthPlusHops(g, p.front, surcharge);
    }
  }

  lemma {:induction false} PathFacts(g: Graph, p: Path, surcharge: real)
    requires g.Valid() && p.Valid(g) && surcharge >= 0.0
    ensures p.Source() < g.size && p.node < g.size
    ensures 0.0 <= p.Length(g) <= p.Cost(g, surcharge)
  {
    if p.Then? {
      PathFacts(g, p.front, surcharge);
    }
  }

  lemma {:induction false} NodesExceptSinkNoDup(g: Graph, n: nat)
    ensures NoDup(g.NodesExceptSink(n))
  {
    if n > 0 {
      NodesExceptSinkNoDup(g, n - 1);
      assert n - 1 !in g.NodesExceptSink(n - 1);
    }
  }
}
