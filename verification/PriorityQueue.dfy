// std::priority_queue with Comparebydistance, as libstdc++ keeps it: a binary heap in a
// vector, whose push and pop compare the keys as they stand at that moment.

module PriorityQueue {
  import opened Sequences
  import opened Peeling

  // __push_heap: v rises from the hole past parents with a larger key.
  function SiftUp(key: seq<real>, h: seq<nat>, hole: nat, v: nat): (r: seq<nat>)
    requires AllBelow(h, |key|) && v < |key| && hole < |h|
    ensures |r| == |h| && AllBelow(r, |key|)
    decreases hole
  {
    var parent := (hole - 1) / 2;
    if hole > 0 && key[h[parent]] > key[v] then SiftUp(key, h[hole := h[parent]], parent, v)
    else h[hole := v]
  }

  function Push(key: seq<real>, h: seq<nat>, v: nat): (r: seq<nat>)
    requires AllBelow(h, |key|) && v < |key|
    ensures |r| == |h| + 1 && AllBelow(r, |key|)
  {
    SiftUp(key, h + [v], |h|, v)
  }

  // The child with the smaller key, the right one of two equals, or the only one.
  function SmallerChild(key: seq<real>, h: seq<nat>, hole: nat): (child: nat)
    requires AllBelow(h, |key|) && 2 * hole + 1 < |h|
    ensures hole < child < |h| && (child == 2 * hole + 1 || child == 2 * hole + 2)
    ensures key[h[child]] <= key[h[2 * hole + 1]] && (2 * hole + 2 < |h| ==> key[h[child]] <= key[h[2 * hole + 2]])
  {
    var right := 2 * hole + 2;
    if right == |h| || key[h[right]] > key[h[right - 1]] then right - 1 else right
  }

  // The first part of __adjust_heap: the hole sinks to a leaf, that child rising each time.
  function SiftDown(key: seq<real>, h: seq<nat>, hole: nat): (r: (seq<nat>, nat))
    requires AllBelow(h, |key|) && hole < |h|
    ensures |r.0| == |h| && AllBelow(r.0, |key|) && r.1 < |h|
    decreases |h| - hole
  {
    if 2 * hole + 1 < |h| then
      var child := SmallerChild(key, h, hole);
      SiftDown(key, h[hole := h[child]], child)
    else (h, hole)
  }

  // pop_heap and pop_back: the last entry fills the hole the top leaves.
  function Pop(key: seq<real>, h: seq<nat>): (r: seq<nat>)
    requires AllBelow(h, |key|) && h != []
    ensures |r| == |h| - 1 && AllBelow(r, |key|)
  {
    if |h| == 1 then []
    else
      var sunk := SiftDown(key, h[..|h| - 1], 0);
      SiftUp(key, sunk.0, sunk.1, h[|h| - 1])
  }

  // ---- what push and pop keep, whatever the keys did

  // Filling the hole from elsewhere and putting v there is putting v into the hole.
  lemma HoleMoves(h: seq<nat>, hole: nat, from: nat, v: nat)
    requires hole < |h| && from < |h| && hole != from
    ensures multiset(h[hole := h[from]][from := v]) == multiset(h[hole := v])
  {
    var rest := multiset(h) - multiset{h[hole]};
    var moved := h[hole := h[from]];
    assert moved[from] == h[from];
    assert multiset(moved) == rest + multiset{h[from]};
    assert multiset(moved[from := v]) == multiset(moved) - multiset{h[from]} + multiset{v};
  }

  lemma {:induction false} SiftUpKeeps(key: seq<real>, h: seq<nat>, hole: nat, v: nat)
    requires AllBelow(h, |key|) && v < |key| && hole < |h|
    ensures multiset(SiftUp(key, h, hole, v)) == multiset(h[hole := v])
    decreases hole
  {
    var parent := (hole - 1) / 2;
    if hole > 0 && key[h[parent]] > key[v] {
      HoleMoves(h, hole, parent, v);
      SiftUpKeeps(key, h[hole := h[parent]], parent, v);
    }
  }

  lemma {:induction false} SiftDownKeeps(key: seq<real>, h: seq<nat>, hole: nat, v: nat)
    requires AllBelow(h, |key|) && hole < |h|
    ensures var r := SiftDown(key, h, hole); multiset(r.0[r.1 := v]) == multiset(h[hole := v])
    decreases |h| - hole
  {
    hide SmallerChild;
    if 2 * hole + 1 < |h| {
      var child := SmallerChild(key, h, hole);
      HoleMoves(h, hole, child, v);
      SiftDownKeeps(key, h[hole := h[child]], child, v);
    }
  }

  lemma PushKeeps(key: seq<real>, h: seq<nat>, v: nat)
    requires AllBelow(h, |key|) && v < |key|
    ensures multiset(Push(key, h, v)) == multiset(h) + multiset{v}
  {
    SiftUpKeeps(key, h + [v], |h|, v);
    assert (h + [v])[|h| := v] == h + [v];
  }

  lemma PopKeeps(key: seq<real>, h: seq<nat>)
    requires AllBelow(h, |key|) && h != []
    ensures multiset(Pop(key, h)) == multiset(h) - multiset{h[0]}
  {
    hide SiftUp, SiftDown;
    var front, last := h[..|h| - 1], h[|h| - 1];
    assert h == front + [last];
    if |h| > 1 {
      var sunk := SiftDown(key, front, 0);
      SiftUpKeeps(key, sunk.0, sunk.1, last);
      SiftDownKeeps(key, front, 0, last);
      LastToTop(front, last);
    }
  }

  lemma LastToTop(front: seq<nat>, last: nat)
    requires front != []
    ensures multiset(front[0 := last]) == multiset(front + [last]) - multiset{front[0]}
  {
    assert multiset(front[0 := last]) == multiset(front) - multiset{front[0]} + multiset{last};
    assert front[0] in multiset(front);
  }

  // ---- the order, while it lasts

  function Up(i: nat): nat {
    if i == 0 then 0 else (i - 1) / 2
  }

  // The entry at i does not come before the one at a.
  predicate After(key: seq<real>, h: seq<nat>, a: nat, i: nat) {
    a < |h| && i < |h| && h[a] < |key| && h[i] < |key| && key[h[a]] <= key[h[i]]
  }

  // No entry has a smaller key than the one above it.
  ghost predicate Ordered(key: seq<real>, h: seq<nat>) {
    AllBelow(h, |key|) && forall i: nat :: i < |h| ==> After(key, h, Up(i), i)
  }

  lemma {:induction false} TopIsLeastAt(key: seq<real>, h: seq<nat>, i: nat)
    requires Ordered(key, h) && i < |h|
    ensures key[h[0]] <= key[h[i]]
  {
    if i > 0 {
      assert After(key, h, Up(i), i);
      TopIsLeastAt(key, h, Up(i));
    }
  }

  // An ordered queue gives a least entry.
  lemma TopIsLeast(key: seq<real>, h: seq<nat>)
    requires Ordered(key, h) && h != []
    ensures IsLeast(multiset(h), key, h[0])
  {
    forall x | x in multiset(h) ensures x < |key| && key[h[0]] <= key[x] {
      var i :| 0 <= i < |h| && h[i] == x;
      TopIsLeastAt(key, h, i);
    }
  }

  // Ordered but for the entry at the hole, which may be anything; its children do not come
  // before its parent.
  ghost predicate OrderedBut(key: seq<real>, h: seq<nat>, hole: nat) {
    && AllBelow(h, |key|) && hole < |h|
    && (forall i: nat :: i < |h| && i != hole && Up(i) != hole ==> After(key, h, Up(i), i))
    && (forall i: nat :: 0 < i < |h| && Up(i) == hole ==> After(key, h, Up(hole), i) || hole == 0)
  }

  // The hole with v in it is not below its children.
  ghost predicate Covers(key: seq<real>, h: seq<nat>, hole: nat, v: nat) {
    v < |key| && forall i: nat :: 0 < i < |h| && Up(i) == hole ==> h[i] < |key| && key[v] <= key[h[i]]
  }

  lemma {:induction false} SiftUpOrders(key: seq<real>, h: seq<nat>, hole: nat, v: nat)
    requires OrderedBut(key, h, hole) && Covers(key, h, hole, v)
    ensures Ordered(key, SiftUp(key, h, hole, v))
    decreases hole
  {
    var parent := Up(hole);
    if hole > 0 && key[h[parent]] > key[v] {
      HoleRises(key, h, hole, v);
      SiftUpOrders(key, h[hole := h[parent]], parent, v);
    } else {
      HoleFilled(key, h, hole, v);
    }
  }

  lemma HoleFilled(key: seq<real>, h: seq<nat>, hole: nat, v: nat)
    requires OrderedBut(key, h, hole) && Covers(key, h, hole, v)
    requires hole == 0 || key[h[Up(hole)]] <= key[v]
    ensures Ordered(key, h[hole := v])
  {
    var r := h[hole := v];
    forall i: nat | i < |r| ensures After(key, r, Up(i), i) {
      if i != hole && Up(i) != hole {
        assert After(key, h, Up(i), i);
      }
    }
  }

  lemma HoleRises(key: seq<real>, h: seq<nat>, hole: nat, v: nat)
    requires OrderedBut(key, h, hole) && Covers(key, h, hole, v)
    requires hole > 0 && key[h[Up(hole)]] > key[v]
    ensures OrderedBut(key, h[hole := h[Up(hole)]], Up(hole)) && Covers(key, h[hole := h[Up(hole)]], Up(hole), v)
  {
    var parent := Up(hole);
    var r := h[hole := h[parent]];
    forall i: nat | i < |r| && i != parent && Up(i) != parent ensures After(key, r, Up(i), i) {
      if Up(i) == hole {
        assert After(key, h, Up(hole), i);
      } else {
        assert After(key, h, Up(i), i);
      }
    }
    forall i: nat | 0 < i < |r| && Up(i) == parent
      ensures After(key, r, Up(parent), i) || parent == 0
      ensures r[i] < |key| && key[v] <= key[r[i]]
    {
      if i != hole {
        assert After(key, h, Up(i), i);
      }
      if parent > 0 {
        assert After(key, h, Up(parent), parent);
      }
    }
  }

  lemma PushOrders(key: seq<real>, h: seq<nat>, v: nat)
    requires Ordered(key, h) && v < |key|
    ensures Ordered(key, Push(key, h, v))
  {
    var r := h + [v];
    forall i: nat | i < |r| && i != |h| && Up(i) != |h| ensures After(key, r, Up(i), i) {
      assert After(key, h, Up(i), i);
    }
    SiftUpOrders(key, r, |h|, v);
  }

  lemma {:induction false} SiftDownOrders(key: seq<real>, h: seq<nat>, hole: nat)
    requires OrderedBut(key, h, hole)
    ensures AllBelow(h, |key|) && hole < |h|
    ensures var r := SiftDown(key, h, hole); OrderedBut(key, r.0, r.1) && 2 * r.1 + 1 >= |h|
    decreases if hole < |h| then |h| - hole else 0
  {
    hide SmallerChild, OrderedBut;
    OrderedButBelow(key, h, hole);
    if 2 * hole + 1 < |h| {
      var child := SmallerChild(key, h, hole);
      HoleSinks(key, h, hole, child);
      SiftDownOrders(key, h[hole := h[child]], child);
    }
  }

  lemma OrderedButBelow(key: seq<real>, h: seq<nat>, hole: nat)
    requires OrderedBut(key, h, hole)
    ensures AllBelow(h, |key|) && hole < |h|
  {
  }

  lemma HoleSinks(key: seq<real>, h: seq<nat>, hole: nat, child: nat)
    requires OrderedBut(key, h, hole) && child < |h| && child > 0 && Up(child) == hole
    requires forall i: nat :: 0 < i < |h| && Up(i) == hole ==> key[h[child]] <= key[h[i]]
    ensures OrderedBut(key, h[hole := h[child]], child)
  {
    var r := h[hole := h[child]];
    forall i: nat | i < |r| && i != child && Up(i) != child ensures After(key, r, Up(i), i) {
      if i == hole {
        assert i == 0 || After(key, h, Up(hole), child);
      } else if Up(i) != hole {
        assert After(key, h, Up(i), i);
      }
    }
    forall i: nat | 0 < i < |r| && Up(i) == child ensures After(key, r, Up(child), i) {
      assert After(key, h, Up(i), i);
    }
  }

  lemma PopOrders(key: seq<real>, h: seq<nat>)
    requires Ordered(key, h) && h != []
    ensures Ordered(key, Pop(key, h))
  {
    if |h| > 1 {
      var front := h[..|h| - 1];
      forall i: nat | i < |front| && i != 0 && Up(i) != 0 ensures After(key, front, Up(i), i) {
        assert After(key, h, Up(i), i);
      }
      var sunk := SiftDown(key, front, 0);
      SiftDownOrders(key, front, 0);
      SiftUpOrders(key, sunk.0, sunk.1, h[|h| - 1]);
    }
  }

  // ---- one step of the heap at a time

  lemma PopIs(key: seq<real>, h: seq<nat>, front: seq<nat>, last: nat)
    requires AllBelow(h, |key|) && h == front + [last] && front != []
    ensures AllBelow(front, |key|) && last < |key|
    ensures var sunk := SiftDown(key, front, 0); Pop(key, h) == SiftUp(key, sunk.0, sunk.1, last)
  {
    assert h[..|h| - 1] == front && h[|h| - 1] == last;
    assert forall i :: 0 <= i < |front| ==> front[i] == h[i];
  }

  // A pushed entry stays, ...
  lemma Push0(key: seq<real>, h: seq<nat>, v: nat)
    requires AllBelow(h, |key|) && v < |key|
    requires h == [] || key[h[(|h| - 1) / 2]] <= key[v]
    ensures Push(key, h, v) == h + [v]
  {
  }

  // ... rises once, ...
  lemma Push1(key: seq<real>, h: seq<nat>, v: nat)
    requires AllBelow(h, |key|) && v < |key| && h != []
    requires var p := (|h| - 1) / 2; key[h[p]] > key[v] && (p == 0 || key[h[(p - 1) / 2]] <= key[v])
    ensures var p := (|h| - 1) / 2; Push(key, h, v) == h[p := v] + [h[p]]
  {
    var p := (|h| - 1) / 2;
    assert Push(key, h, v) == SiftUp(key, (h + [v])[|h| := h[p]], p, v);
  }

  // ... or twice.
  lemma Push2(key: seq<real>, h: seq<nat>, v: nat)
    requires AllBelow(h, |key|) && v < |key| && |h| > 2
    requires var p := (|h| - 1) / 2;
             var q := (p - 1) / 2;
             key[h[p]] > key[v] && key[h[q]] > key[v] && (q == 0 || key[h[(q - 1) / 2]] <= key[v])
    ensures var p := (|h| - 1) / 2;
            var q := (p - 1) / 2;
            Push(key, h, v) == h[p := h[q]][q := v] + [h[p]]
  {
    var p := (|h| - 1) / 2;
    var q := (p - 1) / 2;
    var h1 := (h + [v])[|h| := h[p]];
    assert Push(key, h, v) == SiftUp(key, h1, p, v) == SiftUp(key, h1[p := h1[q]], q, v);
  }

  lemma Sink(key: seq<real>, h: seq<nat>, hole: nat, child: nat, sunk: seq<nat>)
    requires AllBelow(h, |key|) && 2 * hole + 1 < |h| && child == SmallerChild(key, h, hole)
    requires sunk == h[hole := h[child]]
    ensures AllBelow(sunk, |key|) && SiftDown(key, h, hole) == SiftDown(key, sunk, child)
  {
  }

  lemma SinkEnds(key: seq<real>, h: seq<nat>, hole: nat)
    requires AllBelow(h, |key|) && hole < |h| <= 2 * hole + 1
    ensures SiftDown(key, h, hole) == (h, hole)
  {
  }

  lemma Rise(key: seq<real>, h: seq<nat>, hole: nat, v: nat, risen: seq<nat>)
    requires AllBelow(h, |key|) && v < |key| && 0 < hole < |h| && key[h[(hole - 1) / 2]] > key[v]
    requires risen == h[hole := h[(hole - 1) / 2]]
    ensures AllBelow(risen, |key|) && SiftUp(key, h, hole, v) == SiftUp(key, risen, (hole - 1) / 2, v)
  {
  }

  lemma RiseEnds(key: seq<real>, h: seq<nat>, hole: nat, v: nat, filled: seq<nat>)
    requires AllBelow(h, |key|) && v < |key| && hole < |h|
    requires hole == 0 || key[h[(hole - 1) / 2]] <= key[v]
    requires filled == h[hole := v]
    ensures SiftUp(key, h, hole, v) == filled
  {
  }
}
