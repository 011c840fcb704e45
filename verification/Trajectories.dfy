// Ordering the heads by angle and cutting them into one wedge per UAV
// (sortedCHVector, buildTrajectories).

module Trajectories {
  import opened Sequences

  // The place line 646 picks: before the first head at a larger angle.
  function Insert(s: seq<nat>, x: nat, angle: nat -> real): seq<nat> {
    if s == [] then [x]
    else if angle(s[0]) > angle(x) then [x] + s
    else [s[0]] + Insert(s[1..], x, angle)
  }

  function ByAngle(s: seq<nat>, angle: nat -> real): seq<nat> {
    if s == [] then [] else Insert(ByAngle(s[..|s| - 1], angle), s[|s| - 1], angle)
  }

  ghost predicate Ascending(s: seq<nat>, angle: nat -> real) {
    forall i, j :: 0 <= i < j < |s| ==> angle(s[i]) <= angle(s[j])
  }

  // The members at one angle, in the order they appear.
  ghost function AtAngle(s: seq<nat>, angle: nat -> real, a: real): seq<nat> {
    if s == [] then []
    else if angle(s[0]) == a then [s[0]] + AtAngle(s[1..], angle, a)
    else AtAngle(s[1..], angle, a)
  }

  lemma {:induction false} InsertKeeps(s: seq<nat>, x: nat, angle: nat -> real)
    ensures multiset(Insert(s, x, angle)) == multiset(s) + multiset{x}
    ensures |Insert(s, x, angle)| == |s| + 1
  {
    if s != [] && angle(s[0]) <= angle(x) {
      InsertKeeps(s[1..], x, angle);
      assert s == [s[0]] + s[1..];
    }
  }

  lemma {:induction false} InsertAscending(s: seq<nat>, x: nat, angle: nat -> real)
    requires Ascending(s, angle)
    ensures Ascending(Insert(s, x, angle), angle)
  {
    if s != [] && angle(s[0]) <= angle(x) {
      var r := Insert(s[1..], x, angle);
      InsertAscending(s[1..], x, angle);
      forall j | 0 <= j < |r| ensures angle(s[0]) <= angle(r[j]) {
        InsertKeeps(s[1..], x, angle);
        assert r[j] in multiset(r);
      }
    }
  }

  // Insertion puts x behind those at its own angle and moves no one else.
  lemma {:induction false} InsertStable(s: seq<nat>, x: nat, angle: nat -> real, a: real)
    requires Ascending(s, angle)
    ensures AtAngle(Insert(s, x, angle), angle, a)
         == if angle(x) == a then AtAngle(s, angle, a) + [x] else AtAngle(s, angle, a)
  {
    if s == [] {
      assert Insert(s, x, angle) == [x];
      assert [x][1..] == [];
    } else if angle(s[0]) > angle(x) {
      assert ([x] + s)[1..] == s;
      if angle(x) == a {
        NoneAtAngle(s, angle, a);
      }
    } else {
      var r := Insert(s[1..], x, angle);
      assert ([s[0]] + r)[1..] == r;
      InsertStable(s[1..], x, angle, a);
    }
  }

  lemma {:induction false} NoneAtAngle(s: seq<nat>, angle: nat -> real, a: real)
    requires forall i :: 0 <= i < |s| ==> angle(s[i]) != a
    ensures AtAngle(s, angle, a) == []
  {
    if s != [] {
      NoneAtAngle(s[1..], angle, a);
    }
  }

  lemma {:induction false} AtAngleSnoc(s: seq<nat>, x: nat, angle: nat -> real, a: real)
    ensures AtAngle(s + [x], angle, a) == if angle(x) == a then AtAngle(s, angle, a) + [x] else AtAngle(s, angle, a)
  {
    if s == [] {
      assert s + [x] == [x] && [x][1..] == [];
    } else {
      assert (s + [x])[1..] == s[1..] + [x];
      AtAngleSnoc(s[1..], x, angle, a);
    }
  }

  // Where the scan stops is where Insert puts x.
  lemma {:induction false} InsertAt(s: seq<nat>, x: nat, j: nat, angle: nat -> real)
    requires j <= |s| && (forall i :: 0 <= i < j ==> angle(s[i]) <= angle(x))
    requires j < |s| ==> angle(s[j]) > angle(x)
    ensures Insert(s, x, angle) == s[..j] + [x] + s[j..]
  {
    if j > 0 {
      InsertAt(s[1..], x, j - 1, angle);
      assert s[1..][..j - 1] == s[1..j] && s[1..][j - 1..] == s[j..];
      assert [s[0]] + s[1..j] == s[..j];
    }
  }

  lemma ByAngleNext(s: seq<nat>, x: nat, j: nat, angle: nat -> real)
    requires j <= |ByAngle(s, angle)| && (forall i :: 0 <= i < j ==> angle(ByAngle(s, angle)[i]) <= angle(x))
    requires j < |ByAngle(s, angle)| ==> angle(ByAngle(s, angle)[j]) > angle(x)
    ensures ByAngle(s + [x], angle) == ByAngle(s, angle)[..j] + [x] + ByAngle(s, angle)[j..]
  {
    assert (s + [x])[..|s|] == s;
    InsertAt(ByAngle(s, angle), x, j, angle);
  }

  // ByAngle is a stable sort: a permutation, ascending, equal angles kept in order.
  lemma {:induction false} ByAngleIsStableSort(s: seq<nat>, angle: nat -> real, a: real)
    ensures multiset(ByAngle(s, angle)) == multiset(s) && |ByAngle(s, angle)| == |s|
    ensures Ascending(ByAngle(s, angle), angle)
    ensures AtAngle(ByAngle(s, angle), angle, a) == AtAngle(s, angle, a)
  {
    if s != [] {
      var front, x := s[..|s| - 1], s[|s| - 1];
      assert s == front + [x];
      ByAngleIsStableSort(front, angle, a);
      InsertKeeps(ByAngle(front, angle), x, angle);
      InsertAscending(ByAngle(front, angle), x, angle);
      InsertStable(ByAngle(front, angle), x, angle, a);
      AtAngleSnoc(front, x, angle, a);
    }
  }

  // The angle of a head as seen from the direction of the first head.
  function AngleOf(angle: (nat, nat) -> real, first: nat): nat -> real {
    (x: nat) => angle(first, x)
  }

  // The vector sortedCHVector builds: the first head, then the others by angle from it.
  function HeadsByAngle(heads: seq<nat>, angle: (nat, nat) -> real): seq<nat> {
    if heads == [] then [] else [heads[0]] + ByAngle(heads[1..], AngleOf(angle, heads[0]))
  }

  // G::angle gives -1 from a point to itself and at least -1 otherwise (GeoMathHelper.cc).
  ghost predicate AngleFrom(angle: (nat, nat) -> real) {
    && (forall x: nat :: angle(x, x) == -1.0)
    && (forall x: nat, y: nat :: angle(x, y) >= -1.0)
  }

  lemma HeadsByAngleLength(heads: seq<nat>, angle: (nat, nat) -> real)
    ensures |HeadsByAngle(heads, angle)| == |heads|
  {
    if heads != [] {
      ByAngleIsStableSort(heads[1..], AngleOf(angle, heads[0]), 0.0);
    }
  }

  lemma HeadsByAngleIsSorted(heads: seq<nat>, angle: (nat, nat) -> real)
    requires heads != [] && AngleFrom(angle)
    ensures multiset(HeadsByAngle(heads, angle)) == multiset(heads)
    ensures |HeadsByAngle(heads, angle)| == |heads| && HeadsByAngle(heads, angle)[0] == heads[0]
    ensures Ascending(HeadsByAngle(heads, angle), AngleOf(angle, heads[0]))
    ensures forall i, j :: 0 <= i < j < |heads| ==>
              angle(heads[0], HeadsByAngle(heads, angle)[i]) <= angle(heads[0], HeadsByAngle(heads, angle)[j])
  {
    ByAngleIsStableSort(heads[1..], AngleOf(angle, heads[0]), 0.0);
    assert heads == [heads[0]] + heads[1..];
    FirstIsLeast(heads, angle, ByAngle(heads[1..], AngleOf(angle, heads[0])));
  }

  lemma FirstIsLeast(heads: seq<nat>, angle: (nat, nat) -> real, rest: seq<nat>)
    requires heads != [] && AngleFrom(angle) && Ascending(rest, AngleOf(angle, heads[0]))
    ensures Ascending([heads[0]] + rest, AngleOf(angle, heads[0]))
  {
  }

  // ---- wedges

  // The k-th of n wedges: |s| / n consecutive heads.
  function Wedge(s: seq<nat>, n: nat, k: nat): (r: seq<nat>)
    requires k < n <= |s|
    ensures |r| == |s| / n
  {
    WedgeBounds(|s|, n, k);
    s[|s| / n * k..|s| / n * (k + 1)]
  }

  lemma WedgeBounds(size: nat, n: nat, k: nat)
    requires k < n
    ensures 0 <= size / n * k <= size / n * (k + 1) <= size
    ensures size / n * (k + 1) == size / n * k + size / n
  {
    var q := size / n;
    assert q * n <= size;
    MulMonotone(q, k + 1, n);
  }

  lemma MulMonotone(q: nat, a: nat, b: nat)
    requires a <= b
    ensures q * a <= q * b
  {
    assert q * b == q * a + q * (b - a);
  }

  // The first k wedges together.
  function Wedges(s: seq<nat>, n: nat, k: nat): seq<nat>
    requires k <= n <= |s|
  {
    if k == 0 then [] else Wedges(s, n, k - 1) + Wedge(s, n, k - 1)
  }

  lemma {:induction false} WedgesArePrefix(s: seq<nat>, n: nat, k: nat)
    requires 0 < n <= |s| && k <= n
    ensures 0 <= |s| / n * k <= |s|
    ensures Wedges(s, n, k) == s[..|s| / n * k]
  {
    if k > 0 {
      WedgesArePrefix(s, n, k - 1);
      WedgeBounds(|s|, n, k - 1);
    }
  }

  // The wedges follow each other without gap or overlap and leave out exactly the last
  // |s| mod n heads.
  lemma WedgesLeaveRemainder(s: seq<nat>, n: nat)
    requires 0 < n <= |s|
    ensures |s| % n <= |s|
    ensures Wedges(s, n, n) == s[..|s| - |s| % n]
    ensures Wedges(s, n, n) == s <==> |s| % n == 0
  {
    WedgesArePrefix(s, n, n);
    QuotientTimesDivisor(|s|, n);
  }

  lemma QuotientTimesDivisor(a: nat, n: nat)
    requires n > 0
    ensures a / n * n == a - a % n
  {
  }

  // No angle in an earlier wedge exceeds one in a later wedge.
  lemma WedgesAscend(s: seq<nat>, n: nat, j: nat, k: nat, x: nat, y: nat, angle: nat -> real)
    requires 0 < n <= |s| && j < k < n && Ascending(s, angle)
    requires x in Wedge(s, n, j) && y in Wedge(s, n, k)
    ensures angle(x) <= angle(y)
  {
    WedgeBounds(|s|, n, j);
    WedgeBounds(|s|, n, k);
    MulMonotone(|s| / n, j + 1, k);
    var a :| 0 <= a < |Wedge(s, n, j)| && Wedge(s, n, j)[a] == x;
    var b :| 0 <= b < |Wedge(s, n, k)| && Wedge(s, n, k)[b] == y;
    assert s[|s| / n * j + a] == x && s[|s| / n * k + b] == y;
  }

  // ---- tours

  ghost function TourLength(tour: seq<nat>, distance: (nat, nat) -> real): real {
    if |tour| <= 1 then 0.0
    else TourLength(tour[..|tour| - 1], distance) + distance(tour[|tour| - 2], tour[|tour| - 1])
  }

  // The length of one leg, and of none.
  lemma ShortTours(x: nat, y: nat, distance: (nat, nat) -> real)
    ensures TourLength([x, y], distance) == distance(x, y)
    ensures TourLength([x], distance) == 0.0 && TourLength([], distance) == 0.0
  {
    assert [x, y][..1] == [x];
  }

  // Two paths that meet at a node add up.
  lemma {:induction false} ToursAddUp(p: seq<nat>, q: seq<nat>, distance: (nat, nat) -> real)
    requires p != [] && q != [] && p[|p| - 1] == q[0]
    ensures TourLength(p + q[1..], distance) == TourLength(p, distance) + TourLength(q, distance)
    decreases |q|
  {
    if |q| == 1 {
      assert p + q[1..] == p;
    } else {
      var front := q[..|q| - 1];
      ToursAddUp(p, front, distance);
      var whole := p + q[1..];
      assert whole[..|whole| - 1] == p + front[1..];
      assert whole[|whole| - 2] == q[|q| - 2] && whole[|whole| - 1] == q[|q| - 1];
    }
  }

  // The tour of a single head is there and back.
  lemma SingleHeadTour(sink: nat, h: nat, distance: (nat, nat) -> real)
    ensures TourLength([sink, h, sink], distance) == distance(sink, h) + distance(h, sink)
  {
    ToursAddUp([sink, h], [h, sink], distance);
    ShortTours(sink, h, distance);
    ShortTours(h, sink, distance);
    assert [sink, h] + [h, sink][1..] == [sink, h, sink];
  }

  // tour starts and ends at the sink and visits the stops once each, in some order.
  ghost predicate RoundTrip(tour: seq<nat>, sink: nat, stops: seq<nat>) {
    && |tour| == |stops| + 2 && tour[0] == sink && tour[|tour| - 1] == sink
    && multiset(tour[1..|tour| - 1]) == multiset(stops)
  }

  // What buildTrajectories makes of the heads: one head per UAV while there are fewer
  // heads than UAVs, one wedge per UAV otherwise.
  ghost predicate ToursOf(heads: seq<nat>, tours: seq<seq<nat>>, n: nat, sink: nat, angle: (nat, nat) -> real) {
    && |tours| == n
    && (if |heads| < n then
          forall i :: 0 <= i < n ==> tours[i] == if i < |heads| then [sink, heads[i], sink] else []
        else
          |HeadsByAngle(heads, angle)| == |heads| &&
          forall k :: 0 <= k < n ==> RoundTrip(tours[k], sink, Wedge(HeadsByAngle(heads, angle), n, k)))
  }

  // Every tour that is flown starts and ends at the sink; in between it visits its own head
  // while there are fewer heads than UAVs, or else the |heads| / n heads that follow those
  // of the tours before it, each as often as they occur there.
  lemma TourShape(heads: seq<nat>, tours: seq<seq<nat>>, n: nat, sink: nat, angle: (nat, nat) -> real, k: nat)
    requires ToursOf(heads, tours, n, sink, angle) && k < n
    ensures |tours| == n && |HeadsByAngle(heads, angle)| == |heads|
    ensures tours[k] != [] ==> |tours[k]| >= 2 && tours[k][0] == sink && tours[k][|tours[k]| - 1] == sink
    ensures |heads| < n ==> (tours[k] == [] <==> k >= |heads|)
    ensures k < |heads| < n ==> |tours[k]| == 3 && tours[k][1] == heads[k]
    ensures n <= |heads| ==> |tours[k]| == |heads| / n + 2 && 0 <= |heads| / n * k <= |heads| / n * (k + 1) <= |heads|
    ensures n <= |heads| ==>
              multiset(tours[k][1..|tours[k]| - 1])
              == multiset(HeadsByAngle(heads, angle)[|heads| / n * k..|heads| / n * (k + 1)])
  {
    HeadsByAngleLength(heads, angle);
    if n <= |heads| {
      WedgeBounds(|heads|, n, k);
    }
  }

  ghost predicate OnSomeTour(tours: seq<seq<nat>>, x: nat) {
    exists k :: 0 <= k < |tours| && x in tours[k]
  }

  // Which heads are visited: all while there are fewer heads than UAVs; otherwise all but
  // the last |heads| mod n by angle, of which only a sink is on a tour.
  lemma VisitedIff(heads: seq<nat>, tours: seq<seq<nat>>, n: nat, sink: nat, angle: (nat, nat) -> real, i: nat)
    requires ToursOf(heads, tours, n, sink, angle) && n > 0 && NoDup(heads) && i < |heads|
    ensures |HeadsByAngle(heads, angle)| == |heads|
    ensures OnSomeTour(tours, HeadsByAngle(heads, angle)[i])
       <==> |heads| < n || i < |heads| - |heads| % n || HeadsByAngle(heads, angle)[i] == sink
  {
    HeadsByAngleKeeps(heads, angle);
    var s := HeadsByAngle(heads, angle);
    if |heads| < n {
      assert s[i] in multiset(heads);
      var j :| 0 <= j < |heads| && heads[j] == s[i];
      assert s[i] in tours[j];
    } else if i < |heads| - |heads| % n {
      var k, j := PlaceInWedge(s, n, i);
      StopVisited(tours[k], sink, Wedge(s, n, k), j);
    } else if s[i] == sink {
      assert s[i] in tours[0];
    } else if OnSomeTour(tours, s[i]) {
      var k :| 0 <= k < |tours| && s[i] in tours[k];
      StopsOnly(tours[k], sink, Wedge(s, n, k), s[i]);
      WedgeEndsBefore(s, n, k, s[i]);
    }
  }

  // Every head is visited exactly if there are fewer heads than UAVs, or their number is a
  // multiple of the UAVs, or the one head left over is the sink.
  lemma AllVisitedIff(heads: seq<nat>, tours: seq<seq<nat>>, n: nat, sink: nat, angle: (nat, nat) -> real)
    requires ToursOf(heads, tours, n, sink, angle) && n > 0 && NoDup(heads)
    ensures |HeadsByAngle(heads, angle)| == |heads|
    ensures (forall x :: x in heads ==> OnSomeTour(tours, x))
       <==> |heads| < n || |heads| % n == 0
            || (|heads| % n == 1 && HeadsByAngle(heads, angle)[|heads| - 1] == sink)
  {
    hide ToursOf, HeadsByAngle, OnSomeTour, NoDup;
    HeadsByAngleKeeps(heads, angle);
    var s := HeadsByAngle(heads, angle);
    var left := if |s| < n then 0 else |s| % n;
    forall i | 0 <= i < |s|
      ensures s[i] in heads && (OnSomeTour(tours, s[i]) <==> i < |s| - left || s[i] == sink)
    {
      assert s[i] in multiset(s);
      VisitedIff(heads, tours, n, sink, angle, i);
    }
    if left == 0 || (left == 1 && s[|s| - 1] == sink) {
      forall x | x in heads ensures OnSomeTour(tours, x) {
        assert x in multiset(s);
        var i :| 0 <= i < |s| && s[i] == x;
      }
    } else {
      assert OnSomeTour(tours, s[|s| - 1]) <==> s[|s| - 1] == sink;
      if left > 1 {
        NoDupDiffer(s, |s| - 2, |s| - 1);
      }
    }
  }

  lemma NoDupDiffer(s: seq<nat>, i: nat, j: nat)
    requires NoDup(s) && i < j < |s|
    ensures s[i] != s[j]
  {
  }

  // Three heads and two UAVs: the tours end at heads 1 and 2, and no UAV comes to head 3.
  lemma ThirdHeadUnvisited(angle: (nat, nat) -> real)
    requires angle(1, 2) <= angle(1, 3)
    ensures ToursOf([1, 2, 3], [[0, 1, 0], [0, 2, 0]], 2, 0, angle)
    ensures !OnSomeTour([[0, 1, 0], [0, 2, 0]], 3)
  {
    var heads, tours := [1, 2, 3], [[0, 1, 0], [0, 2, 0]];
    var key := AngleOf(angle, 1);
    assert heads[1..] == [2, 3];
    TwoByAngle(2, 3, key);
    assert HeadsByAngle(heads, angle) == heads;
    assert Wedge(heads, 2, 0) == [1] && Wedge(heads, 2, 1) == [2];
    assert tours[0][1..2] == [1] && tours[1][1..2] == [2];
  }

  lemma TwoByAngle(x: nat, y: nat, key: nat -> real)
    requires key(x) <= key(y)
    ensures ByAngle([x, y], key) == [x, y]
  {
    assert [x, y][..1] == [x] && [x][..0] == [] && [x][1..] == [];
    assert ByAngle([x], key) == Insert([], x, key) == [x];
    assert Insert([x], y, key) == [x] + Insert([], y, key);
  }

  lemma HeadsByAngleKeeps(heads: seq<nat>, angle: (nat, nat) -> real)
    ensures multiset(HeadsByAngle(heads, angle)) == multiset(heads) && |HeadsByAngle(heads, angle)| == |heads|
    ensures NoDup(heads) ==> NoDup(HeadsByAngle(heads, angle))
  {
    if heads != [] {
      ByAngleIsStableSort(heads[1..], AngleOf(angle, heads[0]), 0.0);
      assert heads == [heads[0]] + heads[1..];
    }
    PermutationNoDup(heads, HeadsByAngle(heads, angle));
  }

  lemma PermutationNoDup(s: seq<nat>, t: seq<nat>)
    requires multiset(s) == multiset(t)
    ensures NoDup(s) ==> NoDup(t)
  {
    NoDupCounts(s);
    NoDupCounts(t);
  }

  lemma StopsOnly(tour: seq<nat>, sink: nat, stops: seq<nat>, x: nat)
    requires RoundTrip(tour, sink, stops) && x in tour && x != sink
    ensures x in stops
  {
    assert tour == [sink] + tour[1..|tour| - 1] + [sink];
    assert x in multiset(tour[1..|tour| - 1]);
    assert x in multiset(stops);
  }

  // The members of a wedge come before the remainder.
  lemma WedgeEndsBefore(s: seq<nat>, n: nat, k: nat, x: nat)
    requires k < n <= |s| && x in Wedge(s, n, k)
    ensures x in s[..|s| - |s| % n]
  {
    var q := |s| / n;
    WedgeBounds(|s|, n, k);
    QuotientTimesDivisor(|s|, n);
    MulMonotone(q, k + 1, n);
    var j :| 0 <= j < |Wedge(s, n, k)| && Wedge(s, n, k)[j] == x;
    assert s[..|s| - |s| % n][q * k + j] == x;
  }

  lemma StopVisited(tour: seq<nat>, sink: nat, stops: seq<nat>, j: nat)
    requires RoundTrip(tour, sink, stops) && j < |stops|
    ensures stops[j] in tour
  {
    assert stops[j] in multiset(stops);
    assert stops[j] in tour[1..|tour| - 1];
  }

  lemma PlaceInWedge(s: seq<nat>, n: nat, i: nat) returns (k: nat, j: nat)
    requires 0 < n <= |s| && i < |s| - |s| % n
    ensures k < n && j < |Wedge(s, n, k)| && Wedge(s, n, k)[j] == s[i]
  {
    var q := |s| / n;
    QuotientTimesDivisor(|s|, n);
    k := i / q;
    QuotientBelow(i, q, n);
    WedgeBounds(|s|, n, k);
    j := i - q * k;
  }

  lemma QuotientBelow(i: nat, q: nat, n: nat)
    requires q > 0 && i < q * n
    ensures i / q < n && q * (i / q) <= i < q * (i / q + 1)
  {
    if i / q >= n {
      MulMonotone(q, n, i / q);
    }
  }
}
