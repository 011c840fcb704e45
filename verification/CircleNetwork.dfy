// A network that UDG::init builds from twelve points on a circle.

module CircleNetwork {
  import opened Sequences
  import opened Network
  import opened UnitDisk

  // A node stands at the square of the number a + bi, halved. With a + bi on a circle all
  // distances are whole numbers.
  datatype Direction = Direction(a: int, b: int)

  const RADIUS := 5525
  const RANGE := 27600000.0

  const DIRECTIONS: seq<Direction> := [Direction(2125, 5100), Direction(2125, -5100), Direction(5084, -2163),
    Direction(5133, -2044), Direction(3861, -3952), Direction(5100, -2125), Direction(5100, -2125),
    Direction(235, -5520), Direction(5427, -1036), Direction(5133, 2044), Direction(5427, -1036),
    Direction(2125, 5100)]

  const NEIGHBOURS: seq<seq<nat>> := [
    [1, 7, 9],
    [0, 2, 3, 4, 5, 6, 7, 8, 10],
    [1, 3, 4, 5, 6, 7, 8, 9, 10],
    [1, 2, 4, 5, 6, 8, 9, 10],
    [1, 2, 3, 5, 6, 7, 8, 10],
    [1, 2, 3, 4, 6, 8, 9, 10],
    [1, 2, 3, 4, 5, 8, 9, 10],
    [0, 1, 2, 4],
    [1, 2, 3, 4, 5, 6, 9, 10],
    [0, 2, 3, 5, 6, 8, 10],
    [1, 2, 3, 4, 5, 6, 8, 9],
    [0, 1, 7, 9]
  ]

  // (a + bi) squared, halved.
  function Place(d: Direction): Point {
    Point((d.a * d.a - d.b * d.b) as real / 2.0, (d.a * d.b) as real)
  }

  function Cross(d: Direction, e: Direction): int {
    d.a * e.b - e.a * d.b
  }

  // The length of a chord.
  function Chord(u: nat, v: nat): int {
    if u >= 12 || v >= 12 then 0
    else if Cross(DIRECTIONS[u], DIRECTIONS[v]) < 0 then -Cross(DIRECTIONS[u], DIRECTIONS[v])
    else Cross(DIRECTIONS[u], DIRECTIONS[v])
  }

  function Places(): seq<Point> {
    seq(12, i requires 0 <= i < 12 => Place(DIRECTIONS[i]))
  }

  // Node 0 is the head; the sink is node 11, at the same place.
  function Disk(): Graph {
    Graph(12, 11, NEIGHBOURS, (u: nat, v: nat) => Chord(u, v) as real, RANGE)
  }

  ghost predicate OnCircle(d: Direction) {
    d.a * d.a + d.b * d.b == RADIUS * RADIUS
  }

  lemma ChordSquared(a: real, b: real, c: real, d: real, n: real)
    requires a * a + b * b == n && c * c + d * d == n
    ensures var x := (a * a - b * b) / 2.0 - (c * c - d * d) / 2.0;
            var y := a * b - c * d;
            x * x + y * y == (a * d - c * b) * (a * d - c * b)
  {
  }

  lemma CrossIsDistance(d: Direction, e: Direction)
    requires OnCircle(d) && OnCircle(e)
    ensures Squared(Place(d), Place(e)) == (Cross(d, e) * Cross(d, e)) as real
  {
    var a, b, c, f := d.a as real, d.b as real, e.a as real, e.b as real;
    Times(d.a, d.a);
    Times(d.b, d.b);
    Times(d.a, d.b);
    Times(e.a, e.a);
    Times(e.b, e.b);
    Times(e.a, e.b);
    Times(d.a, e.b);
    Times(e.a, d.b);
    Times(Cross(d, e), Cross(d, e));
    ChordSquared(a, b, c, f, (RADIUS * RADIUS) as real);
  }

  lemma Times(i: int, j: int)
    ensures (i * j) as real == i as real * j as real
  {
  }

  lemma AllOnCircle(u: nat)
    requires u < 12
    ensures OnCircle(DIRECTIONS[u])
  {
  }

  lemma FirstRows(u: nat, v: nat)
    requires u < 4 && v < 12
    ensures v in NEIGHBOURS[u] <==> u != v && v != 11 && Chord(u, v) < 27600000
  {
  }

  lemma MiddleRows(u: nat, v: nat)
    requires 4 <= u < 8 && v < 12
    ensures v in NEIGHBOURS[u] <==> u != v && v != 11 && Chord(u, v) < 27600000
  {
  }

  lemma LastRows(u: nat, v: nat)
    requires 8 <= u < 12 && v < 12
    ensures v in NEIGHBOURS[u] <==> u != v && v != 11 && Chord(u, v) < 27600000
  {
  }

  lemma RowsIncrease(u: nat)
    requires u < 12
    ensures Increasing(NEIGHBOURS[u])
  {
    if u < 4 {
      FirstRowsIncrease(u);
    } else if u < 8 {
      MiddleRowsIncrease(u);
    } else {
      LastRowsIncrease(u);
    }
  }

  lemma FirstRowsIncrease(u: nat)
    requires u < 4
    ensures Increasing(NEIGHBOURS[u])
  {
  }

  lemma MiddleRowsIncrease(u: nat)
    requires 4 <= u < 8
    ensures Increasing(NEIGHBOURS[u])
  {
  }

  lemma LastRowsIncrease(u: nat)
    requires 8 <= u < 12
    ensures Increasing(NEIGHBOURS[u])
  {
  }

  lemma ChordIsDistance(u: nat, v: nat)
    requires u < 12 && v < 12
    ensures IsDistanceOf(Chord(u, v) as real, Places()[u], Places()[v])
    ensures Closer(Places()[u], Places()[v], RANGE) <==> Chord(u, v) < 27600000
  {
    hide Squared, Place, Cross, OnCircle;
    var d, e := DIRECTIONS[u], DIRECTIONS[v];
    AllOnCircle(u);
    AllOnCircle(v);
    CrossIsDistance(d, e);
    SquareOfChord(Cross(d, e), Chord(u, v), 27600000);
  }

  lemma SquareOfChord(cross: int, chord: int, range: int)
    requires chord == (if cross < 0 then -cross else cross) && range >= 0
    ensures (cross * cross) as real == chord as real * chord as real
    ensures (cross * cross) as real < range as real * range as real <==> chord < range
  {
    assert chord * chord == cross * cross;
    assert (chord * chord) as real == chord as real * chord as real;
    if chord < range {
      LargerSquare(range as real, chord as real);
    } else if range < chord {
      LargerSquare(chord as real, range as real);
    }
  }

  lemma DiskIsPlaced()
    ensures Placed(Disk(), Places()) && Disk().Valid()
  {
    hide Closer, IsDistanceOf, Increasing;
    var g := Disk();
    forall u: nat, v: nat | u < 12 && v < 12
      ensures g.Edge(u, v) <==> u != v && v != 11 && Closer(Places()[u], Places()[v], RANGE)
      ensures IsDistanceOf(g.length(u, v), Places()[u], Places()[v])
    {
      EdgesAreNear(u, v);
      ChordIsDistance(u, v);
    }
    forall u: nat | u < 12 ensures Increasing(g.adj[u]) {
      RowsIncrease(u);
    }
    PlacedIsValid(g, Places());
  }

  lemma EdgesAreNear(u: nat, v: nat)
    requires u < 12 && v < 12
    ensures Disk().Edge(u, v) <==> u != v && v != 11 && Chord(u, v) < 27600000
  {
    if u < 4 {
      FirstRows(u, v);
    } else if u < 8 {
      MiddleRows(u, v);
    } else {
      LastRows(u, v);
    }
  }
}
