// Where the distance theorems leave the code: a network that UDG::init builds, and the run
// growBalls makes of it with the heap of std::priority_queue. A key falls in the queue, the
// heap is no longer ordered, nodes are popped before nearer ones, and a label ends too large.

module StalePops {
  import opened Sequences
  import opened Network
  import opened Searching
  import opened Distances
  import opened PriorityQueue
  import opened QueueRuns
  import opened UnitDisk
  import opened CircleNetwork

  const INFINITY := 1000000000.0

  ghost function FromHead(): Problem {
    Growing(Disk(), {0}, INFINITY)
  }

  // ---- one step of a round

  // Looking at the first k neighbours of u leads from t to s.
  ghost predicate Reached(t: Machine, u: nat, k: nat, s: Machine) {
    && u < 12 && k <= |NEIGHBOURS[u]| && Ready(FromHead(), t)
    && HeapLooked(FromHead(), t, u, k) == s
  }

  // The k-th neighbour of u.
  predicate Row(u: nat, k: nat, v: nat, chord: int) {
    u < 12 && k < |NEIGHBOURS[u]| && NEIGHBOURS[u][k] == v < 12 && Chord(u, v) == chord
  }

  lemma LookedAtNone(t: Machine, u: nat)
    requires Ready(FromHead(), t) && u < 12
    ensures Reached(t, u, 0, t)
  {
  }

  // A neighbour that is settled or gets no smaller label.
  lemma Pass(t: Machine, u: nat, k: nat, s: Machine, v: nat, chord: int)
    requires Reached(t, u, k, s) && Row(u, k, v, chord)
    requires |s.labels| == 12 && (v in s.order || s.labels[v] <= s.labels[u] + chord as real)
    ensures Reached(t, u, k + 1, s)
  {
  }

  predicate Passes(s: Machine, u: nat, k: nat) {
    && u < 12 && |s.labels| == 12 && k < |NEIGHBOURS[u]| && NEIGHBOURS[u][k] < 12
    && (NEIGHBOURS[u][k] in s.order || s.labels[NEIGHBOURS[u][k]] <= s.labels[u] + Chord(u, NEIGHBOURS[u][k]) as real)
  }

  // None of the neighbours gets a smaller label.
  lemma {:induction false} AllPass(t: Machine, u: nat, k: nat)
    requires Ready(FromHead(), t) && u < 12 && k <= |NEIGHBOURS[u]|
    requires forall j: nat :: j < k ==> Passes(t, u, j)
    ensures Reached(t, u, k, t)
  {
    hide Reached;
    LookedAtNone(t, u);
    if k > 0 {
      AllPass(t, u, k - 1);
      assert Passes(t, u, k - 1);
      Pass(t, u, k - 1, t, NEIGHBOURS[u][k - 1], Chord(u, NEIGHBOURS[u][k - 1]));
    }
  }

  // s after the relaxation of v from u, with this heap.
  function Lowered(s: Machine, u: nat, v: nat, chord: int, heap: seq<nat>): Machine
    requires |s.labels| == |s.root| == 12 && u < 12 && v < 12
  {
    Machine(s.labels[v := s.labels[u] + chord as real], s.root[v := s.root[u]], s.order, heap)
  }

  ghost predicate Lowers(s: Machine, u: nat, v: nat, chord: int) {
    && |s.labels| == |s.root| == 12 && AllBelow(s.heap, 12) && u < 12 && v < 12 && v !in s.order
    && s.labels[u] + chord as real < s.labels[v] - 1.0 && s.labels[u] + chord as real < INFINITY
  }

  // A neighbour that gets a smaller label is pushed; its entry ...
  lemma Lower(t: Machine, u: nat, k: nat, s: Machine, v: nat, chord: int, r: Machine)
    requires Reached(t, u, k, s) && Row(u, k, v, chord) && Lowers(s, u, v, chord)
    requires r == Lowered(s, u, v, chord, Push(s.labels[v := s.labels[u] + chord as real], s.heap, v))
    ensures Reached(t, u, k + 1, r)
  {
    hide Push, Chord, Ready;
    FromHeadIs();
    ReachedIs(t, u, k, s);
    assert FromHead().g.length(u, v) == chord as real;
  }

  lemma FromHeadIs()
    ensures FromHead().g.adj == NEIGHBOURS && FromHead().g.size == 12 == |FromHead().bound|
    ensures forall v :: 0 <= v < 12 ==> FromHead().bound[v] == INFINITY
    ensures FromHead().slack < 1.0
    ensures forall u: nat, v: nat :: FromHead().g.length(u, v) == Chord(u, v) as real
  {
  }

  lemma ReachedIs(t: Machine, u: nat, k: nat, s: Machine)
    requires Reached(t, u, k, s)
    ensures Ready(FromHead(), t) && Ready(FromHead(), s) && s.order == t.order
  {
  }

  // ... stays, ...
  lemma Lower0(t: Machine, u: nat, k: nat, s: Machine, v: nat, chord: int) returns (r: Machine)
    requires Reached(t, u, k, s) && Row(u, k, v, chord) && Lowers(s, u, v, chord)
    requires var key := s.labels[v := s.labels[u] + chord as real];
             s.heap == [] || key[s.heap[(|s.heap| - 1) / 2]] <= key[v]
    ensures r == Lowered(s, u, v, chord, s.heap + [v]) && Reached(t, u, k + 1, r)
  {
    hide Reached, Row;
    r := Lowered(s, u, v, chord, s.heap + [v]);
    Push0(r.labels, s.heap, v);
    Lower(t, u, k, s, v, chord, r);
  }

  // ... rises once, ...
  lemma Lower1(t: Machine, u: nat, k: nat, s: Machine, v: nat, chord: int, p: nat) returns (r: Machine)
    requires Reached(t, u, k, s) && Row(u, k, v, chord) && Lowers(s, u, v, chord)
    requires s.heap != [] && p == (|s.heap| - 1) / 2
    requires var key := s.labels[v := s.labels[u] + chord as real];
             key[s.heap[p]] > key[v] && (p == 0 || key[s.heap[(p - 1) / 2]] <= key[v])
    ensures r == Lowered(s, u, v, chord, s.heap[p := v] + [s.heap[p]]) && Reached(t, u, k + 1, r)
  {
    hide Reached, Row;
    r := Lowered(s, u, v, chord, s.heap[p := v] + [s.heap[p]]);
    Push1(r.labels, s.heap, v);
    Lower(t, u, k, s, v, chord, r);
  }

  // ... or twice.
  lemma Lower2(t: Machine, u: nat, k: nat, s: Machine, v: nat, chord: int, p: nat, q: nat) returns (r: Machine)
    requires Reached(t, u, k, s) && Row(u, k, v, chord) && Lowers(s, u, v, chord)
    requires |s.heap| > 2 && p == (|s.heap| - 1) / 2 && q == (p - 1) / 2
    requires var key := s.labels[v := s.labels[u] + chord as real];
             && key[s.heap[p]] > key[v] && key[s.heap[q]] > key[v]
             && (q == 0 || key[s.heap[(q - 1) / 2]] <= key[v])
    ensures r == Lowered(s, u, v, chord, s.heap[p := s.heap[q]][q := v] + [s.heap[p]]) && Reached(t, u, k + 1, r)
  {
    hide Reached, Row;
    r := Lowered(s, u, v, chord, s.heap[p := s.heap[q]][q := v] + [s.heap[p]]);
    Push2(r.labels, s.heap, v);
    Lower(t, u, k, s, v, chord, r);
  }

  lemma Disks(m: Machine)
    requires |m.labels| == |m.root| == 12 && AllBelow(m.heap, 12)
    ensures Ready(FromHead(), m) && FromHead().g.adj == NEIGHBOURS && FromHead().g.size == 12
  {
    hide Placed;
    DiskIsPlaced();
  }

  // The labels of m, and that the nodes relaxed from have the head as root.
  ghost predicate Keys(m: Machine, x0: real, x1: real, x2: real, x3: real, x4: real, x5: real, x6: real, x7: real,
                       x8: real, x9: real, x10: real, x11: real)
  {
    && |m.labels| == |m.root| == 12
    && m.labels[0] == x0 && m.labels[1] == x1 && m.labels[2] == x2 && m.labels[3] == x3 && m.labels[4] == x4
    && m.labels[5] == x5 && m.labels[6] == x6 && m.labels[7] == x7 && m.labels[8] == x8 && m.labels[9] == x9
    && m.labels[10] == x10 && m.labels[11] == x11 && m.root[0] == 0
    && (m.root[1] == 0 || m.labels[1] == INFINITY) && (m.root[7] == 0 || m.labels[7] == INFINITY)
    && (m.root[9] == 0 || m.labels[9] == INFINITY)
  }

  // The start, and the vectors after each of the first nine rounds.
  function Begin(): Machine {
    Machine(
      [0.0, INFINITY, INFINITY, INFINITY, INFINITY, INFINITY, INFINITY, INFINITY, INFINITY, INFINITY, INFINITY,
       0.0],
      [0, -1, -1, -1, -1, -1, -1, -1, -1, -1, -1, -1],
      [], [0]
    )
  }

  lemma BeginIs()
    ensures Keys(Begin(),
                 0.0, INFINITY, INFINITY, INFINITY, INFINITY, INFINITY, INFINITY, INFINITY, INFINITY, INFINITY,
                 INFINITY, 0.0)
    ensures Begin().order == [] && Begin().heap == [0]
  {
  }

  function AfterOne(): Machine {
    var m := Begin();
    Machine(m.labels[1 := 21675000.0][7 := 12928500.0][9 := 21834800.0], m.root[1 := 0][7 := 0][9 := 0],
            [0], [7, 1, 9])
  }

  lemma AfterOneIs()
    ensures Keys(AfterOne(),
                 0.0, 21675000.0, INFINITY, INFINITY, INFINITY, INFINITY, INFINITY, 12928500.0, INFINITY,
                 21834800.0, INFINITY, 0.0)
    ensures AfterOne().order == [0] && AfterOne().heap == [7, 1, 9]
  {
    hide Begin;
    BeginIs();
  }

  function AfterTwo(): Machine {
    var m := AfterOne();
    Machine(m.labels[2 := 40483875.0][4 := 33312500.0], m.root[2 := 0][4 := 0],
            [0, 7], [1, 9, 2, 4])
  }

  lemma AfterTwoIs()
    ensures Keys(AfterTwo(),
                 0.0, 21675000.0, 40483875.0, INFINITY, 33312500.0, INFINITY, INFINITY, 12928500.0, INFINITY,
                 21834800.0, INFINITY, 0.0)
    ensures AfterTwo().order == [0, 7] && AfterTwo().heap == [1, 9, 2, 4]
  {
    hide AfterOne;
    AfterOneIs();
  }

  function DuringThree(): Machine {
    var m := AfterTwo();
    Machine(m.labels[3 := 43509800.0][4 := 32968100.0][5 := 43169375.0], m.root[3 := 0][4 := 0][5 := 0],
            [0, 7, 1], [9, 4, 2, 3, 4, 5])
  }

  lemma DuringThreeIs()
    ensures Keys(DuringThree(),
                 0.0, 21675000.0, 40483875.0, 43509800.0, 32968100.0, 43169375.0, INFINITY, 12928500.0, INFINITY,
                 21834800.0, INFINITY, 0.0)
    ensures DuringThree().order == [0, 7, 1] && DuringThree().heap == [9, 4, 2, 3, 4, 5]
  {
    hide AfterTwo;
    AfterTwoIs();
  }

  function AfterThree(): Machine {
    var m := DuringThree();
    Machine(m.labels[6 := 43169375.0][8 := 47151200.0][10 := 47151200.0], m.root[6 := 0][8 := 0][10 := 0],
            [0, 7, 1], [9, 4, 2, 3, 4, 5, 6, 8, 10])
  }

  lemma AfterThreeIs()
    ensures Keys(AfterThree(),
                 0.0, 21675000.0, 40483875.0, 43509800.0, 32968100.0, 43169375.0, 43169375.0, 12928500.0,
                 47151200.0, 21834800.0, 47151200.0, 0.0)
    ensures AfterThree().order == [0, 7, 1] && AfterThree().heap == [9, 4, 2, 3, 4, 5, 6, 8, 10]
  {
    hide DuringThree;
    DuringThreeIs();
  }

  function DuringFour(): Machine {
    var m := AfterThree();
    Machine(m.labels[3 := 42818504.0][5 := 43166825.0][6 := 43166825.0], m.root[3 := 0][5 := 0][6 := 0],
            [0, 7, 1, 9], [4, 4, 2, 3, 5, 5, 6, 8, 3, 10, 6])
  }

  lemma DuringFourIs()
    ensures Keys(DuringFour(),
                 0.0, 21675000.0, 40483875.0, 42818504.0, 32968100.0, 43166825.0, 43166825.0, 12928500.0,
                 47151200.0, 21834800.0, 47151200.0, 0.0)
    ensures DuringFour().order == [0, 7, 1, 9] && DuringFour().heap == [4, 4, 2, 3, 5, 5, 6, 8, 3, 10, 6]
  {
    hide AfterThree;
    AfterThreeIs();
  }

  function AfterFour(): Machine {
    var m := DuringFour();
    Machine(m.labels[8 := 38245376.0][10 := 38245376.0], m.root[8 := 0][10 := 0],
            [0, 7, 1, 9], [4, 4, 8, 3, 5, 10, 6, 8, 3, 10, 6, 5, 2])
  }

  lemma AfterFourIs()
    ensures Keys(AfterFour(),
                 0.0, 21675000.0, 40483875.0, 42818504.0, 32968100.0, 43166825.0, 43166825.0, 12928500.0,
                 38245376.0, 21834800.0, 38245376.0, 0.0)
    ensures AfterFour().order == [0, 7, 1, 9] && AfterFour().heap == [4, 4, 8, 3, 5, 10, 6, 8, 3, 10, 6, 5, 2]
  {
    hide DuringFour;
    DuringFourIs();
  }

  function AfterFive(): Machine {
    AfterFour().(order := [0, 7, 1, 9, 4], heap := [4, 3, 8, 8, 5, 10, 6, 2, 3, 10, 6, 5])
  }

  function AfterSix(): Machine {
    AfterFive().(heap := [8, 3, 10, 8, 5, 5, 6, 2, 3, 10, 6])
  }

  function AfterSeven(): Machine {
    AfterSix().(order := [0, 7, 1, 9, 4, 8], heap := [10, 3, 6, 8, 5, 5, 6, 2, 3, 10])
  }

  function AfterEight(): Machine {
    AfterSeven().(order := [0, 7, 1, 9, 4, 8, 10], heap := [3, 8, 6, 10, 5, 5, 6, 2, 3])
  }

  function AfterNine(): Machine {
    AfterEight().(order := [0, 7, 1, 9, 4, 8, 10, 3], heap := [8, 10, 6, 2, 5, 5, 6, 3])
  }

  // ---- the rounds

  lemma RoundOne()
    ensures Ready(FromHead(), Begin())
    ensures HeapRound(FromHead(), Begin()) == AfterOne()
  {
    hide SiftUp, SiftDown, Pop, Push, HeapLooked, Ready, Begin;
    BeginIs();
    var m := Begin();
    Disks(m);
    var t := Machine(m.labels, m.root, [0], []);
    Disks(t);
    assert m.order + [0] == [0] && |NEIGHBOURS[0]| == 3;
    assert Taken(FromHead(), m) == m.(heap := []);
    LookAtOne(t);
  }

  lemma LookAtOne(t: Machine)
    requires t == Machine(Begin().labels, Begin().root, [0], [])
    ensures Reached(t, 0, 3, AfterOne())
  {
    hide Pop, Push, Reached, Ready, Begin;
    BeginIs();
    Disks(t);
    LookedAtNone(t, 0);
    var s := t;
    s := Lower0(t, 0, 0, s, 1, 21675000);
    assert s.heap == [1];
    s := Lower1(t, 0, 1, s, 7, 12928500, 0);
    assert s.heap == [7, 1];
    s := Lower0(t, 0, 2, s, 9, 21834800);
    assert s.heap == [7, 1, 9];
  }

  lemma PopTwo()
    ensures AllBelow(AfterOne().heap, 12)
    ensures Pop(AfterOne().labels, AfterOne().heap) == [1, 9]
  {
    hide SiftUp, SiftDown, Pop, AfterOne;
    AfterOneIs();
    var m := AfterOne();
    var key := m.labels;
    PopIs(key, m.heap, [7, 1], 9);
    Sink(key, [7, 1], 0, 1, [1, 1]);
    SinkEnds(key, [1, 1], 1);
    RiseEnds(key, [1, 1], 1, 9, [1, 9]);
  }

  lemma RoundTwo()
    ensures Ready(FromHead(), AfterOne())
    ensures HeapRound(FromHead(), AfterOne()) == AfterTwo()
  {
    hide SiftUp, SiftDown, Pop, Push, HeapLooked, Ready, AfterOne;
    AfterOneIs();
    var m := AfterOne();
    Disks(m);
    PopTwo();
    var t := Machine(m.labels, m.root, [0, 7], [1, 9]);
    Disks(t);
    assert m.order + [7] == [0, 7] && |NEIGHBOURS[7]| == 4;
    assert Taken(FromHead(), m) == m.(heap := [1, 9]);
    LookAtTwo(t);
  }

  lemma LookAtTwo(t: Machine)
    requires t == Machine(AfterOne().labels, AfterOne().root, [0, 7], [1, 9])
    ensures Reached(t, 7, 4, AfterTwo())
  {
    hide Pop, Push, Reached, Ready, AfterOne;
    AfterOneIs();
    Disks(t);
    LookedAtNone(t, 7);
    var s := t;
    Pass(t, 7, 0, s, 0, 12928500);
    Pass(t, 7, 1, s, 1, 10531500);
    s := Lower0(t, 7, 2, s, 2, 27555375);
    assert s.heap == [1, 9, 2];
    s := Lower0(t, 7, 3, s, 4, 20384000);
    assert s.heap == [1, 9, 2, 4];
  }

  lemma PopThree()
    ensures AllBelow(AfterTwo().heap, 12)
    ensures Pop(AfterTwo().labels, AfterTwo().heap) == [9, 4, 2]
  {
    hide SiftUp, SiftDown, Pop, AfterTwo;
    AfterTwoIs();
    var m := AfterTwo();
    var key := m.labels;
    PopIs(key, m.heap, [1, 9, 2], 4);
    Sink(key, [1, 9, 2], 0, 1, [9, 9, 2]);
    SinkEnds(key, [9, 9, 2], 1);
    RiseEnds(key, [9, 9, 2], 1, 4, [9, 4, 2]);
  }

  lemma RoundThree()
    ensures Ready(FromHead(), AfterTwo())
    ensures HeapRound(FromHead(), AfterTwo()) == AfterThree()
  {
    hide SiftUp, SiftDown, Pop, Push, HeapLooked, Ready, AfterTwo;
    AfterTwoIs();
    var m := AfterTwo();
    Disks(m);
    PopThree();
    var t := Machine(m.labels, m.root, [0, 7, 1], [9, 4, 2]);
    Disks(t);
    assert m.order + [1] == [0, 7, 1] && |NEIGHBOURS[1]| == 9;
    assert Taken(FromHead(), m) == m.(heap := [9, 4, 2]);
    LookAtThreeFirst(t);
    LookAtThreeSecond(t);
  }

  lemma LookAtThreeFirst(t: Machine)
    requires t == Machine(AfterTwo().labels, AfterTwo().root, [0, 7, 1], [9, 4, 2])
    ensures Reached(t, 1, 5, DuringThree())
  {
    hide Pop, Push, Reached, Ready, AfterTwo;
    AfterTwoIs();
    Disks(t);
    LookedAtNone(t, 1);
    var s := t;
    Pass(t, 1, 0, s, 0, 21675000);
    Pass(t, 1, 1, s, 2, 21332025);
    s := Lower0(t, 1, 2, s, 3, 21834800);
    assert s.heap == [9, 4, 2, 3];
    s := Lower0(t, 1, 3, s, 4, 11293100);
    assert s.heap == [9, 4, 2, 3, 4];
    s := Lower0(t, 1, 4, s, 5, 21494375);
    assert s.heap == [9, 4, 2, 3, 4, 5];
  }

  lemma LookAtThreeSecond(t: Machine)
    requires Reached(t, 1, 5, DuringThree())
    ensures Reached(t, 1, 9, AfterThree())
  {
    hide Pop, Push, Reached, Ready, DuringThree;
    DuringThreeIs();
    var s := DuringThree();
    s := Lower0(t, 1, 5, s, 6, 21494375);
    assert s.heap == [9, 4, 2, 3, 4, 5, 6];
    Pass(t, 1, 6, s, 7, 10531500);
    s := Lower0(t, 1, 7, s, 8, 25476200);
    assert s.heap == [9, 4, 2, 3, 4, 5, 6, 8];
    s := Lower0(t, 1, 8, s, 10, 25476200);
    assert s.heap == [9, 4, 2, 3, 4, 5, 6, 8, 10];
  }

  lemma PopFour()
    ensures AllBelow(AfterThree().heap, 12)
    ensures Pop(AfterThree().labels, AfterThree().heap) == [4, 4, 2, 3, 10, 5, 6, 8]
  {
    hide SiftUp, SiftDown, Pop, AfterThree;
    AfterThreeIs();
    var m := AfterThree();
    var key := m.labels;
    PopIs(key, m.heap, [9, 4, 2, 3, 4, 5, 6, 8], 10);
    Sink(key, [9, 4, 2, 3, 4, 5, 6, 8], 0, 1, [4, 4, 2, 3, 4, 5, 6, 8]);
    Sink(key, [4, 4, 2, 3, 4, 5, 6, 8], 1, 4, [4, 4, 2, 3, 4, 5, 6, 8]);
    SinkEnds(key, [4, 4, 2, 3, 4, 5, 6, 8], 4);
    RiseEnds(key, [4, 4, 2, 3, 4, 5, 6, 8], 4, 10, [4, 4, 2, 3, 10, 5, 6, 8]);
  }

  lemma RoundFour()
    ensures Ready(FromHead(), AfterThree())
    ensures HeapRound(FromHead(), AfterThree()) == AfterFour()
  {
    hide SiftUp, SiftDown, Pop, Push, HeapLooked, Ready, AfterThree;
    AfterThreeIs();
    var m := AfterThree();
    Disks(m);
    PopFour();
    var t := Machine(m.labels, m.root, [0, 7, 1, 9], [4, 4, 2, 3, 10, 5, 6, 8]);
    Disks(t);
    assert m.order + [9] == [0, 7, 1, 9] && |NEIGHBOURS[9]| == 7;
    assert Taken(FromHead(), m) == m.(heap := [4, 4, 2, 3, 10, 5, 6, 8]);
    LookAtFourFirst(t);
    LookAtFourSecond(t);
  }

  lemma LookAtFourFirst(t: Machine)
    requires t == Machine(AfterThree().labels, AfterThree().root, [0, 7, 1, 9], [4, 4, 2, 3, 10, 5, 6, 8])
    ensures Reached(t, 9, 5, DuringFour())
  {
    hide Pop, Push, Reached, Ready, AfterThree;
    AfterThreeIs();
    Disks(t);
    LookedAtNone(t, 9);
    var s := t;
    Pass(t, 9, 0, s, 0, 21834800);
    Pass(t, 9, 1, s, 2, 21494375);
    s := Lower0(t, 9, 2, s, 3, 20983704);
    assert s.heap == [4, 4, 2, 3, 10, 5, 6, 8, 3];
    s := Lower1(t, 9, 3, s, 5, 21332025, 4);
    assert s.heap == [4, 4, 2, 3, 5, 5, 6, 8, 3, 10];
    s := Lower0(t, 9, 4, s, 6, 21332025);
    assert s.heap == [4, 4, 2, 3, 5, 5, 6, 8, 3, 10, 6];
  }

  lemma LookAtFourSecond(t: Machine)
    requires Reached(t, 9, 5, DuringFour())
    ensures Reached(t, 9, 7, AfterFour())
  {
    hide Pop, Push, Reached, Ready, DuringFour;
    DuringFourIs();
    var s := DuringFour();
    s := Lower2(t, 9, 5, s, 8, 16410576, 5, 2);
    assert s.heap == [4, 4, 8, 3, 5, 2, 6, 8, 3, 10, 6, 5];
    s := Lower1(t, 9, 6, s, 10, 16410576, 5);
    assert s.heap == [4, 4, 8, 3, 5, 10, 6, 8, 3, 10, 6, 5, 2];
  }

  lemma PopFive()
    ensures AllBelow(AfterFour().heap, 12)
    ensures Pop(AfterFour().labels, AfterFour().heap) == [4, 3, 8, 8, 5, 10, 6, 2, 3, 10, 6, 5]
  {
    hide SiftUp, SiftDown, Pop, AfterFour;
    AfterFourIs();
    var m := AfterFour();
    var key := m.labels;
    PopIs(key, m.heap, [4, 4, 8, 3, 5, 10, 6, 8, 3, 10, 6, 5], 2);
    Sink(key, [4, 4, 8, 3, 5, 10, 6, 8, 3, 10, 6, 5], 0, 1, [4, 4, 8, 3, 5, 10, 6, 8, 3, 10, 6, 5]);
    Sink(key, [4, 4, 8, 3, 5, 10, 6, 8, 3, 10, 6, 5], 1, 3, [4, 3, 8, 3, 5, 10, 6, 8, 3, 10, 6, 5]);
    Sink(key, [4, 3, 8, 3, 5, 10, 6, 8, 3, 10, 6, 5], 3, 7, [4, 3, 8, 8, 5, 10, 6, 8, 3, 10, 6, 5]);
    SinkEnds(key, [4, 3, 8, 8, 5, 10, 6, 8, 3, 10, 6, 5], 7);
    RiseEnds(key, [4, 3, 8, 8, 5, 10, 6, 8, 3, 10, 6, 5], 7, 2, [4, 3, 8, 8, 5, 10, 6, 2, 3, 10, 6, 5]);
  }

  lemma RoundFive()
    ensures Ready(FromHead(), AfterFour())
    ensures HeapRound(FromHead(), AfterFour()) == AfterFive()
  {
    hide SiftUp, SiftDown, Pop, Push, HeapLooked, Ready, AfterFour;
    AfterFourIs();
    var m := AfterFour();
    Disks(m);
    PopFive();
    var t := Machine(m.labels, m.root, [0, 7, 1, 9, 4], [4, 3, 8, 8, 5, 10, 6, 2, 3, 10, 6, 5]);
    Disks(t);
    assert m.order + [4] == [0, 7, 1, 9, 4] && |NEIGHBOURS[4]| == 8;
    assert Taken(FromHead(), m) == m.(heap := [4, 3, 8, 8, 5, 10, 6, 2, 3, 10, 6, 5]);
    forall k: nat | k < 8 ensures Passes(t, 4, k) {}
    AllPass(t, 4, 8);
  }

  lemma PopSix()
    ensures AllBelow(AfterFive().heap, 12)
    ensures Pop(AfterFive().labels, AfterFive().heap) == [8, 3, 10, 8, 5, 5, 6, 2, 3, 10, 6]
  {
    hide SiftUp, SiftDown, Pop, AfterFour;
    AfterFourIs();
    var m := AfterFive();
    var key := m.labels;
    PopIs(key, m.heap, [4, 3, 8, 8, 5, 10, 6, 2, 3, 10, 6], 5);
    Sink(key, [4, 3, 8, 8, 5, 10, 6, 2, 3, 10, 6], 0, 2, [8, 3, 8, 8, 5, 10, 6, 2, 3, 10, 6]);
    Sink(key, [8, 3, 8, 8, 5, 10, 6, 2, 3, 10, 6], 2, 5, [8, 3, 10, 8, 5, 10, 6, 2, 3, 10, 6]);
    SinkEnds(key, [8, 3, 10, 8, 5, 10, 6, 2, 3, 10, 6], 5);
    RiseEnds(key, [8, 3, 10, 8, 5, 10, 6, 2, 3, 10, 6], 5, 5, [8, 3, 10, 8, 5, 5, 6, 2, 3, 10, 6]);
  }

  lemma RoundSix()
    ensures Ready(FromHead(), AfterFive())
    ensures HeapRound(FromHead(), AfterFive()) == AfterSix()
  {
    hide Pop, Ready, AfterFour;
    AfterFourIs();
    var m := AfterFive();
    Disks(m);
    PopSix();
  }

  lemma PopSeven()
    ensures AllBelow(AfterSix().heap, 12)
    ensures Pop(AfterSix().labels, AfterSix().heap) == [10, 3, 6, 8, 5, 5, 6, 2, 3, 10]
  {
    hide SiftUp, SiftDown, Pop, AfterFour;
    AfterFourIs();
    var m := AfterSix();
    var key := m.labels;
    PopIs(key, m.heap, [8, 3, 10, 8, 5, 5, 6, 2, 3, 10], 6);
    Sink(key, [8, 3, 10, 8, 5, 5, 6, 2, 3, 10], 0, 2, [10, 3, 10, 8, 5, 5, 6, 2, 3, 10]);
    Sink(key, [10, 3, 10, 8, 5, 5, 6, 2, 3, 10], 2, 6, [10, 3, 6, 8, 5, 5, 6, 2, 3, 10]);
    SinkEnds(key, [10, 3, 6, 8, 5, 5, 6, 2, 3, 10], 6);
    RiseEnds(key, [10, 3, 6, 8, 5, 5, 6, 2, 3, 10], 6, 6, [10, 3, 6, 8, 5, 5, 6, 2, 3, 10]);
  }

  lemma RoundSeven()
    ensures Ready(FromHead(), AfterSix())
    ensures HeapRound(FromHead(), AfterSix()) == AfterSeven()
  {
    hide SiftUp, SiftDown, Pop, Push, HeapLooked, Ready, AfterFour;
    AfterFourIs();
    var m := AfterSix();
    Disks(m);
    PopSeven();
    var t := Machine(m.labels, m.root, [0, 7, 1, 9, 4, 8], [10, 3, 6, 8, 5, 5, 6, 2, 3, 10]);
    Disks(t);
    assert m.order + [8] == [0, 7, 1, 9, 4, 8] && |NEIGHBOURS[8]| == 8;
    assert Taken(FromHead(), m) == m.(heap := [10, 3, 6, 8, 5, 5, 6, 2, 3, 10]);
    forall k: nat | k < 8 ensures Passes(t, 8, k) {}
    AllPass(t, 8, 8);
  }

  lemma PopEight()
    ensures AllBelow(AfterSeven().heap, 12)
    ensures Pop(AfterSeven().labels, AfterSeven().heap) == [3, 8, 6, 10, 5, 5, 6, 2, 3]
  {
    hide SiftUp, SiftDown, Pop, AfterFour;
    AfterFourIs();
    var m := AfterSeven();
    var key := m.labels;
    PopIs(key, m.heap, [10, 3, 6, 8, 5, 5, 6, 2, 3], 10);
    Sink(key, [10, 3, 6, 8, 5, 5, 6, 2, 3], 0, 1, [3, 3, 6, 8, 5, 5, 6, 2, 3]);
    Sink(key, [3, 3, 6, 8, 5, 5, 6, 2, 3], 1, 3, [3, 8, 6, 8, 5, 5, 6, 2, 3]);
    Sink(key, [3, 8, 6, 8, 5, 5, 6, 2, 3], 3, 7, [3, 8, 6, 2, 5, 5, 6, 2, 3]);
    SinkEnds(key, [3, 8, 6, 2, 5, 5, 6, 2, 3], 7);
    Rise(key, [3, 8, 6, 2, 5, 5, 6, 2, 3], 7, 10, [3, 8, 6, 2, 5, 5, 6, 2, 3]);
    RiseEnds(key, [3, 8, 6, 2, 5, 5, 6, 2, 3], 3, 10, [3, 8, 6, 10, 5, 5, 6, 2, 3]);
  }

  lemma RoundEight()
    ensures Ready(FromHead(), AfterSeven())
    ensures HeapRound(FromHead(), AfterSeven()) == AfterEight()
  {
    hide SiftUp, SiftDown, Pop, Push, HeapLooked, Ready, AfterFour;
    AfterFourIs();
    var m := AfterSeven();
    Disks(m);
    PopEight();
    var t := Machine(m.labels, m.root, [0, 7, 1, 9, 4, 8, 10], [3, 8, 6, 10, 5, 5, 6, 2, 3]);
    Disks(t);
    assert m.order + [10] == [0, 7, 1, 9, 4, 8, 10] && |NEIGHBOURS[10]| == 8;
    assert Taken(FromHead(), m) == m.(heap := [3, 8, 6, 10, 5, 5, 6, 2, 3]);
    forall k: nat | k < 8 ensures Passes(t, 10, k) {}
    AllPass(t, 10, 8);
  }

  lemma PopNine()
    ensures AllBelow(AfterEight().heap, 12)
    ensures Pop(AfterEight().labels, AfterEight().heap) == [8, 10, 6, 2, 5, 5, 6, 3]
  {
    hide SiftUp, SiftDown, Pop, AfterFour;
    AfterFourIs();
    var m := AfterEight();
    var key := m.labels;
    PopIs(key, m.heap, [3, 8, 6, 10, 5, 5, 6, 2], 3);
    Sink(key, [3, 8, 6, 10, 5, 5, 6, 2], 0, 1, [8, 8, 6, 10, 5, 5, 6, 2]);
    Sink(key, [8, 8, 6, 10, 5, 5, 6, 2], 1, 3, [8, 10, 6, 10, 5, 5, 6, 2]);
    Sink(key, [8, 10, 6, 10, 5, 5, 6, 2], 3, 7, [8, 10, 6, 2, 5, 5, 6, 2]);
    SinkEnds(key, [8, 10, 6, 2, 5, 5, 6, 2], 7);
    RiseEnds(key, [8, 10, 6, 2, 5, 5, 6, 2], 7, 3, [8, 10, 6, 2, 5, 5, 6, 3]);
  }

  lemma RoundNine()
    ensures Ready(FromHead(), AfterEight())
    ensures HeapRound(FromHead(), AfterEight()) == AfterNine()
  {
    hide SiftUp, SiftDown, Pop, Push, HeapLooked, Ready, AfterFour;
    AfterFourIs();
    var m := AfterEight();
    Disks(m);
    PopNine();
    var t := Machine(m.labels, m.root, [0, 7, 1, 9, 4, 8, 10, 3], [8, 10, 6, 2, 5, 5, 6, 3]);
    Disks(t);
    assert m.order + [3] == [0, 7, 1, 9, 4, 8, 10, 3] && |NEIGHBOURS[3]| == 8;
    assert Taken(FromHead(), m) == m.(heap := [8, 10, 6, 2, 5, 5, 6, 3]);
    forall k: nat | k < 8 ensures Passes(t, 3, k) {}
    AllPass(t, 3, 8);
  }

  // ---- what the run comes to

  lemma NineRounds()
    ensures Ready(FromHead(), Begin()) && Ready(FromHead(), AfterThree()) && Ready(FromHead(), AfterEight())
    ensures HeapRun(FromHead(), Begin(), 3) == AfterThree()
    ensures HeapRun(FromHead(), AfterThree(), 1) == AfterFour()
    ensures HeapRun(FromHead(), Begin(), 8) == AfterEight()
    ensures HeapRun(FromHead(), Begin(), 9) == AfterNine()
  {
    hide HeapRound, Ready;
    var P := FromHead();
    RoundOne();
    RoundTwo();
    RoundThree();
    RoundFour();
    RoundFive();
    RoundSix();
    RoundSeven();
    RoundEight();
    RoundNine();
    assert HeapRun(P, AfterOne(), 2) == HeapRun(P, AfterTwo(), 1) == AfterThree();
    assert HeapRun(P, AfterSix(), 2) == HeapRun(P, AfterSeven(), 1) == AfterEight();
    assert HeapRun(P, AfterFour(), 4) == HeapRun(P, AfterFive(), 3) == HeapRun(P, AfterSix(), 2);
    assert HeapRun(P, AfterTwo(), 6) == HeapRun(P, AfterThree(), 5) == HeapRun(P, AfterFour(), 4);
    assert HeapRun(P, Begin(), 8) == HeapRun(P, AfterOne(), 7) == HeapRun(P, AfterTwo(), 6);
    RunsJoin(P, Begin(), 8, 1);
    assert HeapRun(P, AfterEight(), 1) == AfterNine();
  }

  // In the fourth round the key of node 8 falls while it waits, and the heap is not
  // ordered any more: an old entry of 8 is below one of 3, which has a larger key.
  lemma KeyFalls()
    ensures Ready(FromHead(), Begin()) && Ready(FromHead(), AfterThree())
    ensures HeapRun(FromHead(), Begin(), 3) == AfterThree() && HeapRun(FromHead(), AfterThree(), 1) == AfterFour()
    ensures 8 in AfterThree().heap && 8 in AfterFour().heap && AfterFour().labels[8] < AfterThree().labels[8]
    ensures !Ordered(AfterFour().labels, AfterFour().heap)
  {
    hide HeapRun, HeapRound, Ready, AfterThree, AfterFour;
    NineRounds();
    AfterThreeIs();
    AfterFourIs();
    var m := AfterFour();
    assert m.heap[3] == 3 && m.heap[7] == 8 && m.labels[8] < m.labels[3];
    assert Up(7) == 3 && !After(m.labels, m.heap, Up(7), 7);
    assert AfterThree().heap[7] == 8;
  }

  // The ninth pop takes node 3 while node 2, which is not settled, waits with a smaller key.
  lemma PopIsNotLeast()
    ensures Ready(FromHead(), Begin()) && HeapRun(FromHead(), Begin(), 8) == AfterEight()
    ensures AfterEight().heap != [] && AfterEight().heap[0] == 3 && 3 !in AfterEight().order
    ensures 2 in AfterEight().heap && 2 !in AfterEight().order && AfterEight().labels[2] < AfterEight().labels[3]
  {
    hide HeapRun, HeapRound, Ready, AfterFour;
    NineRounds();
    AfterFourIs();
    assert AfterEight().heap[7] == 2;
  }

  lemma Shortcut() returns (p: Path)
    ensures p.Valid(Disk()) && p.Source() == 0 && p.node == 3 && p.Length(Disk()) == 41194858.0 && p.Hops() == 3
  {
    var g := Disk();
    assert NEIGHBOURS[0][1] == 7 && NEIGHBOURS[7][2] == 2 && NEIGHBOURS[2][1] == 3;
    assert g.Edge(0, 7) && g.Edge(7, 2) && g.Edge(2, 3);
    assert Chord(0, 7) == 12928500 && Chord(7, 2) == 27555375 && Chord(2, 3) == 710983;
    var toSeven := Then(At(0), 7);
    var toTwo := Then(toSeven, 2);
    p := Then(toTwo, 3);
    assert toSeven.Valid(g) && toSeven.Cost(g, 0.0) == 12928500.0;
    assert toTwo.Valid(g) && toTwo.Cost(g, 0.0) == 40483875.0;
  }

  lemma BeginIsSearch()
    ensures Inv(FromHead(), Begin().Shadow(), 0, false) && Degree(FromHead(), Begin().Shadow()) == 0
    ensures Unpruned(FromHead())
  {
    hide Placed;
    DiskIsPlaced();
    SpanIsProduct(12, RANGE);
    StartState(FromHead(), Begin().Shadow(), false);
  }

  // On a network that UDG::init builds, growBalls from one head with the heap of
  // std::priority_queue ends with label 42818504 for node 3, although a path of length
  // 41194858 reaches it: the labels are not near the distances, up to EPSILON per hop.
  lemma QueueOvershoots() returns (n: nat, p: Path)
    ensures Placed(Disk(), Places()) && Ready(FromHead(), Begin())
    ensures Inv(FromHead(), Begin().Shadow(), 0, false) && HeapRun(FromHead(), Begin(), n).heap == []
    ensures Finished(FromHead(), HeapRun(FromHead(), Begin(), n).Shadow(), false)
    ensures p.Valid(Disk()) && p.Source() == 0 && p.node == 3
    ensures p.Length(Disk()) + Span(p.Hops(), EPSILON) < HeapRun(FromHead(), Begin(), n).labels[3]
  {
    hide Inv, Placed, HeapRun, Ready, AfterFour, Begin, Finished;
    DiskIsPlaced();
    BeginIsSearch();
    NineRounds();
    AfterFourIs();
    assert AfterNine().order[7] == 3;
    n := RunFinishes(FromHead(), Begin(), 9, 3);
    p := Shortcut();
    SpanIsProduct(3, EPSILON);
  }
}
