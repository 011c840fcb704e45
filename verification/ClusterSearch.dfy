// computeClusterWeight: the search from one node, pruned by the landmark distances.

module ClusterSearch {
  import opened Sequences
  import opened Network
  import opened Searching
  import opened Distances

  // d[uNode] = 0, strict relaxation, and v is pushed only when d[v] < dLandmark[v].
  ghost function Cluster(g: Graph, u: nat, landmarkDistance: seq<real>, infinity: real): Problem {
    Problem(g, {u}, 0.0, landmarkDistance, infinity)
  }

  // There is a path from u to v that costs less than v's landmark distance.
  ghost predicate Nearer(g: Graph, u: nat, landmarkDistance: seq<real>, surcharge: real, v: nat) {
    v < |landmarkDistance| &&
    exists p: Path :: p.Valid(g) && p.Source() == u && p.node == v && p.Cost(g, surcharge) < landmarkDistance[v]
  }

  // Every non-sink node carries its distance from the landmarks.
  ghost predicate ExactLandmarks(g: Graph, landmarks: set<nat>, landmarkDistance: seq<real>) {
    && |landmarkDistance| == g.size
    && (forall v :: 0 <= v < g.size && v != g.sink ==> IsDistance(g, landmarks, v, landmarkDistance[v]))
  }

  // For any pop order the search settles only u and nodes nearer to u than to any landmark.
  lemma SettledIsNearer(g: Graph, u: nat, landmarkDistance: seq<real>, infinity: real, S: State, extractMin: bool,
                        v: nat)
    requires Finished(Cluster(g, u, landmarkDistance, infinity), S, extractMin)
    requires v in S.order && v != u
    ensures Nearer(g, u, landmarkDistance, 0.0, v)
  {
    var P := Cluster(g, u, landmarkDistance, infinity);
    var i :| 0 <= i < |S.order| && S.order[i] == v;
    var p := SettledHasPath(P, S, Degree(P, S), extractMin, i);
    assert p.Then?;
    assert Touched(S, v);
  }

  // With least pops, a node is lost only if the landmark distances are off by more
  // than the tolerance charged on each hop.
  lemma NearerIsSettled(g: Graph, u: nat, landmarkDistance: seq<real>, infinity: real, S: State, tolerance: real,
                        v: nat)
    requires Finished(Cluster(g, u, landmarkDistance, infinity), S, true)
    requires tolerance >= 0.0 && Smooth(Cluster(g, u, landmarkDistance, infinity), tolerance)
    requires v == u || Nearer(g, u, landmarkDistance, tolerance, v)
    ensures v in S.order
  {
    var P := Cluster(g, u, landmarkDistance, infinity);
    if v == u {
      assert Touched(S, u);
    } else {
      var p: Path :| p.Valid(g) && p.Source() == u && p.node == v && p.Cost(g, tolerance) < landmarkDistance[v];
      PathBelowBound(P, S, tolerance, p);
    }
  }

  lemma ExactLandmarksAreSmooth(g: Graph, u: nat, landmarks: set<nat>, landmarkDistance: seq<real>, infinity: real)
    requires ExactLandmarks(g, landmarks, landmarkDistance) && g.Valid()
    ensures Smooth(Cluster(g, u, landmarkDistance, infinity), 0.0)
  {
    var P := Cluster(g, u, landmarkDistance, infinity);
    forall x: nat, y: nat | g.Edge(x, y) && x != g.sink && x < g.size && y < g.size
      ensures landmarkDistance[y] <= landmarkDistance[x] + g.length(x, y)
    {
      assert IsDistance(g, landmarks, x, landmarkDistance[x]);
      assert IsDistance(g, landmarks, y, landmarkDistance[y]);
      var p: Path :| p.Valid(g) && p.Source() in landmarks && p.node == x && p.Length(g) == landmarkDistance[x];
      var q := Then(p, y);
      assert q.Valid(g) && q.Source() in landmarks && q.node == y;
    }
  }

  // Thorup and Zwick's cluster: given exact landmark distances and least pops, the
  // pruned search settles exactly u and the nodes nearer to u than to any landmark.
  lemma SettlesExactlyTheCluster(g: Graph, u: nat, landmarks: set<nat>, landmarkDistance: seq<real>, infinity: real,
                                 S: State, v: nat)
    requires Finished(Cluster(g, u, landmarkDistance, infinity), S, true)
    requires ExactLandmarks(g, landmarks, landmarkDistance)
    ensures v in S.order <==> v == u || Nearer(g, u, landmarkDistance, 0.0, v)
  {
    if v in S.order && v != u {
      SettledIsNearer(g, u, landmarkDistance, infinity, S, true, v);
    }
    if v == u || Nearer(g, u, landmarkDistance, 0.0, v) {
      ExactLandmarksAreSmooth(g, u, landmarks, landmarkDistance, infinity);
      NearerIsSettled(g, u, landmarkDistance, infinity, S, 0.0, v);
    }
  }

  // The cluster of u: itself and the nodes nearer to it than to any landmark.
  ghost function ClusterNodes(g: Graph, u: nat, landmarkDistance: seq<real>): set<nat> {
    set v: nat | v < |landmarkDistance| && (v == u || Nearer(g, u, landmarkDistance, 0.0, v))
  }

  // The whole settled set, for any pop order and for least pops.
  lemma SettledIsCluster(g: Graph, u: nat, landmarkDistance: seq<real>, infinity: real, S: State, extractMin: bool)
    requires Finished(Cluster(g, u, landmarkDistance, infinity), S, extractMin)
    ensures forall v :: v in S.order ==> v < g.size && (v == u || Nearer(g, u, landmarkDistance, 0.0, v))
    ensures extractMin ==> forall L: set<nat> | ExactLandmarks(g, L, landmarkDistance) ::
              Elems(S.order) == ClusterNodes(g, u, landmarkDistance)
  {
    forall v | v in S.order
      ensures v < g.size && (v == u || Nearer(g, u, landmarkDistance, 0.0, v))
    {
      if v != u {
        SettledIsNearer(g, u, landmarkDistance, infinity, S, extractMin, v);
      }
    }
    if extractMin {
      hide Finished, Nearer;
      forall L: set<nat> | ExactLandmarks(g, L, landmarkDistance)
        ensures Elems(S.order) == ClusterNodes(g, u, landmarkDistance)
      {
        forall v: nat ensures v in S.order <==> v in ClusterNodes(g, u, landmarkDistance) {
          SettlesExactlyTheCluster(g, u, L, landmarkDistance, infinity, S, v);
        }
      }
    }
  }

  // The labels growBalls leaves behind are not exact but smooth up to its tolerance,
  // so a cluster search that uses them loses only nodes within that tolerance per hop.
  lemma GrownLandmarksLoseLittle(G: Problem, grown: State, u: nat, S: State, v: nat)
    requires Finished(G, grown, true) && Unpruned(G)
    requires forall x :: 0 <= x < G.g.size && x != G.g.sink ==> x in grown.order
    requires Finished(Cluster(G.g, u, grown.labels, G.infinity), S, true)
    requires v == u || Nearer(G.g, u, grown.labels, G.slack, v)
    ensures v in S.order
  {
    var P := Cluster(G.g, u, grown.labels, G.infinity);
    forall x: nat, y: nat | G.g.Edge(x, y) && x != G.g.sink && x < G.g.size && y < G.g.size
      ensures grown.labels[y] <= grown.labels[x] + G.g.length(x, y) + G.slack
    {
      SettledEdge(G, grown, x, y);
    }
    NearerIsSettled(G.g, u, grown.labels, G.infinity, S, G.slack, v);
  }
}
