// The unit-disk neighbour lists of the client (processNeighbors in client/app/Network.js).

module Neighbors {

  class Node {
    const x: real
    const y: real
    var neighbors: seq<Node>
    var neighborIds: seq<nat>

    constructor (x: real, y: real)
      ensures this.x == x && this.y == y
    {
      this.x, this.y := x, y;
      neighbors, neighborIds := [], [];
    }
  }

  predicate Close(a: Node, b: Node, range: real) {
    (a.x - b.x) * (a.x - b.x) + (a.y - b.y) * (a.y - b.y) <= range * range
  }

  lemma CloseIsSymmetric(a: Node, b: Node, range: real)
    ensures Close(a, b, range) <==> Close(b, a, range)
  {
    SquareOfDifference(a.x, b.x);
    SquareOfDifference(a.y, b.y);
  }

  lemma SquareOfDifference(a: real, b: real)
    ensures (a - b) * (a - b) == (b - a) * (b - a)
  {
  }

  // The ids below n of the other nodes within range of node m, in increasing order.
  function Near(nodes: seq<Node>, range: real, m: nat, n: nat): seq<nat>
    requires m < |nodes| && n <= |nodes|
  {
    if n == 0 then []
    else if n - 1 != m && Close(nodes[m], nodes[n - 1], range) then Near(nodes, range, m, n - 1) + [n - 1]
    else Near(nodes, range, m, n - 1)
  }

  function NodesAt(nodes: seq<Node>, ids: seq<nat>): seq<Node>
    requires forall k :: 0 <= k < |ids| ==> ids[k] < |nodes|
  {
    seq(|ids|, k requires 0 <= k < |ids| => nodes[ids[k]])
  }

  lemma {:induction false} NearIsExact(nodes: seq<Node>, range: real, m: nat, n: nat)
    requires m < |nodes| && n <= |nodes|
    ensures forall j: nat :: j in Near(nodes, range, m, n) <==> j < n && j != m && Close(nodes[m], nodes[j], range)
    ensures forall j: nat :: j in Near(nodes, range, m, n) <==>
              j < n && j != m
              && (nodes[m].x - nodes[j].x) * (nodes[m].x - nodes[j].x)
                 + (nodes[m].y - nodes[j].y) * (nodes[m].y - nodes[j].y) <= range * range
    ensures forall i, j :: 0 <= i < j < |Near(nodes, range, m, n)| ==>
              Near(nodes, range, m, n)[i] < Near(nodes, range, m, n)[j]
    ensures forall i :: 0 <= i < |Near(nodes, range, m, n)| ==> Near(nodes, range, m, n)[i] < n
  {
    if n > 0 {
      NearIsExact(nodes, range, m, n - 1);
    }
  }

  // j is in the list of i exactly when i is in the list of j.
  lemma NearIsSymmetric(nodes: seq<Node>, range: real, i: nat, j: nat)
    requires i < |nodes| && j < |nodes|
    ensures j in Near(nodes, range, i, |nodes|) <==> i in Near(nodes, range, j, |nodes|)
  {
    NearIsExact(nodes, range, i, |nodes|);
    NearIsExact(nodes, range, j, |nodes|);
    CloseIsSymmetric(nodes[i], nodes[j], range);
  }

  ghost predicate Distinct(nodes: seq<Node>) {
    forall i, j :: 0 <= i < j < |nodes| ==> nodes[i] != nodes[j]
  }

  // Node m lists its neighbours among the ids below n.
  ghost predicate Lists(nodes: seq<Node>, range: real, m: nat, n: nat)
    requires m < |nodes| && n <= |nodes|
    reads nodes[m]
  {
    NearIsExact(nodes, range, m, n);
    nodes[m].neighborIds == Near(nodes, range, m, n) && nodes[m].neighbors == NodesAt(nodes, Near(nodes, range, m, n))
  }

  // How far the list of node m has come when the loops stand at (i, j).
  function Known(size: nat, m: nat, i: nat, j: nat): nat
    requires i <= size && j <= size
  {
    if m < i then size
    else if m == i then j
    else if m < j then (if i < size then i + 1 else size)
    else i
  }

  // The list of node m when the loops stand at (i, j).
  ghost predicate Reached(nodes: seq<Node>, range: real, m: nat, i: nat, j: nat)
    requires m < |nodes| && i <= |nodes| && j <= |nodes|
    reads nodes[m]
  {
    Lists(nodes, range, m, Known(|nodes|, m, i, j))
  }

  // The two nodes of one close pair list each other.
  method Link(nodes: seq<Node>, range: real, i: nat, j: nat)
    requires Distinct(nodes) && i < j < |nodes|
    requires Lists(nodes, range, i, j) && Lists(nodes, range, j, i)
    modifies nodes[i], nodes[j]
    ensures Lists(nodes, range, i, j + 1) && Lists(nodes, range, j, i + 1)
  {
    NearIsExact(nodes, range, i, j);
    NearIsExact(nodes, range, j, i);
    NearIsExact(nodes, range, i, j + 1);
    NearIsExact(nodes, range, j, i + 1);
    CloseIsSymmetric(nodes[i], nodes[j], range);
    if Close(nodes[i], nodes[j], range) {
      nodes[i].neighbors := nodes[i].neighbors + [nodes[j]];
      nodes[i].neighborIds := nodes[i].neighborIds + [j];
      nodes[j].neighbors := nodes[j].neighbors + [nodes[i]];
      nodes[j].neighborIds := nodes[j].neighborIds + [i];
    }
  }

  // processNeighbors: afterwards every node lists exactly the other nodes within range, by
  // increasing id, and the nodes themselves at the same positions.
  method ProcessNeighbors(nodes: seq<Node>, range: real)
    requires Distinct(nodes)
    modifies nodes
    ensures forall m: nat :: m < |nodes| ==> Lists(nodes, range, m, |nodes|)
    ensures forall m: nat :: m < |nodes| ==>
              && (forall j: nat :: j < |nodes| ==>
                    (j in nodes[m].neighborIds <==>
                       j != m
                       && (nodes[m].x - nodes[j].x) * (nodes[m].x - nodes[j].x)
                          + (nodes[m].y - nodes[j].y) * (nodes[m].y - nodes[j].y) <= range * range))
              && |nodes[m].neighbors| == |nodes[m].neighborIds|
              && (forall k :: 0 <= k < |nodes[m].neighborIds| ==>
                    nodes[m].neighborIds[k] < |nodes| && nodes[m].neighbors[k] == nodes[nodes[m].neighborIds[k]])
  {
    hide Lists;
    LinkAll(nodes, range);
    forall m: nat | m < |nodes|
      ensures forall j: nat :: j < |nodes| ==>
                (j in nodes[m].neighborIds <==>
                   j != m
                   && (nodes[m].x - nodes[j].x) * (nodes[m].x - nodes[j].x)
                      + (nodes[m].y - nodes[j].y) * (nodes[m].y - nodes[j].y) <= range * range)
      ensures |nodes[m].neighbors| == |nodes[m].neighborIds|
      ensures forall k :: 0 <= k < |nodes[m].neighborIds| ==>
                nodes[m].neighborIds[k] < |nodes| && nodes[m].neighbors[k] == nodes[nodes[m].neighborIds[k]]
    {
      ListsAreExact(nodes, range, m);
    }
  }

  // Clearing the lists, and the two loops over the pairs.
  method LinkAll(nodes: seq<Node>, range: real)
    requires Distinct(nodes)
    modifies nodes
    ensures forall m: nat :: m < |nodes| ==> Lists(nodes, range, m, |nodes|)
  {
    var V := |nodes|;
    for k := 0 to V
      invariant forall m: nat :: m < k ==> Reached(nodes, range, m, 0, 0)
    {
      nodes[k].neighbors := [];
      nodes[k].neighborIds := [];
      assert Lists(nodes, range, k, 0);
    }
    for i := 0 to V
      invariant forall m: nat :: m < V ==> Reached(nodes, range, m, i, i)
    {
      var first := i + 1;
      SkipSelf(nodes, range, i, first);
      for j := first to V
        invariant forall m: nat :: m < V ==> Reached(nodes, range, m, i, j)
      {
        assert Reached(nodes, range, i, i, j) && Reached(nodes, range, j, i, j);
        label Before:
        Link(nodes, range, i, j);
        var next := j + 1;
        forall m: nat | m < V
          ensures Reached(nodes, range, m, i, next)
        {
          assert m != i && m != j ==> old@Before(Reached(nodes, range, m, i, j));
        }
      }
      assert forall m: nat :: m < V ==> Reached(nodes, range, m, i, V) ==> Reached(nodes, range, m, first, first);
    }
    forall m: nat | m < V
      ensures Lists(nodes, range, m, V)
    {
      assert Reached(nodes, range, m, V, V);
    }
  }

  // Node m lists exactly the others within range, and the nodes at the same positions.
  ghost predicate Exact(nodes: seq<Node>, range: real, m: nat)
    requires m < |nodes|
    reads nodes[m]
  {
    && (forall j: nat :: j < |nodes| ==>
          (j in nodes[m].neighborIds <==>
             j != m
             && (nodes[m].x - nodes[j].x) * (nodes[m].x - nodes[j].x)
                + (nodes[m].y - nodes[j].y) * (nodes[m].y - nodes[j].y) <= range * range))
    && |nodes[m].neighbors| == |nodes[m].neighborIds|
    && (forall k :: 0 <= k < |nodes[m].neighborIds| ==>
          nodes[m].neighborIds[k] < |nodes| && nodes[m].neighbors[k] == nodes[nodes[m].neighborIds[k]])
  }

  lemma ListsAreExact(nodes: seq<Node>, range: real, m: nat)
    requires m < |nodes| && Lists(nodes, range, m, |nodes|)
    ensures Exact(nodes, range, m)
  {
    NearIsExact(nodes, range, m, |nodes|);
  }

  // A node is not its own neighbour: moving past it changes no list.
  lemma SkipSelf(nodes: seq<Node>, range: real, i: nat, next: nat)
    requires i < |nodes| && next == i + 1 && forall m: nat :: m < |nodes| ==> Reached(nodes, range, m, i, i)
    ensures forall m: nat :: m < |nodes| ==> Reached(nodes, range, m, i, next)
  {
    forall m: nat | m < |nodes|
      ensures Reached(nodes, range, m, i, next)
    {
      assert Reached(nodes, range, m, i, i);
    }
  }
}
