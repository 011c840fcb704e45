// Lists of node ids without repetition, filtering, and weighted sums.

module Sequences {

  ghost predicate NoDup(s: seq<nat>) {
    forall i, j :: 0 <= i < j < |s| ==> s[i] != s[j]
  }

  ghost predicate AllBelow(s: seq<nat>, n: nat) {
    forall i :: 0 <= i < |s| ==> s[i] < n
  }

  lemma AllBelowSubset(s: seq<nat>, t: seq<nat>, n: nat)
    requires AllBelow(s, n) && forall x :: x in t ==> x in s
    ensures AllBelow(t, n)
  {
    forall i | 0 <= i < |t| ensures t[i] < n {
      assert t[i] in s;
    }
  }

  function Elems(s: seq<nat>): set<nat> {
    set x | x in s
  }

  // A duplicate-free list of ids below n has at most n entries.
  lemma NoDupCard(s: seq<nat>)
    requires NoDup(s)
    ensures |Elems(s)| == |s|
  {
    if s == [] {
      assert Elems(s) == {};
    } else {
      var front, last := s[..|s| - 1], s[|s| - 1];
      NoDupCard(front);
      assert last !in front;
      assert Elems(s) == Elems(front) + {last};
    }
  }

  lemma CardBelow(S: set<nat>, n: nat)
    requires forall x :: x in S ==> x < n
    ensures |S| <= n
  {
    if n == 0 {
      assert S == {};
    } else {
      CardBelow(S - {n - 1}, n - 1);
      assert S <= S - {n - 1} + {n - 1};
      CardUnion(S - {n - 1}, n - 1, S);
    }
  }

  lemma CardUnion(S: set<nat>, x: nat, T: set<nat>)
    requires T <= S + {x}
    ensures |T| <= |S| + 1
  {
    CardSubset(T, S + {x});
  }

  lemma CardSubset(S: set<nat>, T: set<nat>)
    requires S <= T
    ensures |S| <= |T|
    ensures S != T ==> |S| < |T|
  {
    assert T == S + (T - S);
    assert |T| == |S| + |T - S|;
    if S != T {
      assert T - S != {};
    }
  }

  lemma NoDupBounded(s: seq<nat>, n: nat)
    requires NoDup(s) && AllBelow(s, n)
    ensures |s| <= n
  {
    NoDupCard(s);
    CardBelow(Elems(s), n);
  }

  lemma NoDupSnoc(s: seq<nat>, x: nat)
    requires NoDup(s) && x !in s
    ensures NoDup(s + [x])
  {
  }

  lemma SnocNoDup(s: seq<nat>, x: nat)
    ensures NoDup(s + [x]) <==> NoDup(s) && x !in s
  {
    if NoDup(s + [x]) {
      var t := s + [x];
      forall i | 0 <= i < |s| ensures s[i] != x {
        assert t[i] == s[i] && t[|s|] == x;
      }
      forall i, j | 0 <= i < j < |s| ensures s[i] != s[j] {
        assert t[i] == s[i] && t[j] == s[j];
      }
    }
  }

  // No member occurs twice exactly if every count is at most one.
  lemma {:induction false} NoDupCounts(s: seq<nat>)
    ensures NoDup(s) <==> forall x: nat :: multiset(s)[x] <= 1
  {
    if s != [] {
      var front: seq<nat>, last: nat := s[..|s| - 1], s[|s| - 1];
      assert s == front + [last];
      NoDupCounts(front);
      assert multiset(s) == multiset(front) + multiset{last};
      SnocNoDup(front, last);
      assert last in front <==> last in multiset(front);
      if NoDup(front) && last in front {
        assert multiset(s)[last] > 1;
      }
      if forall x: nat :: multiset(s)[x] <= 1 {
        assert forall x: nat :: multiset(front)[x] <= multiset(s)[x];
        assert multiset(s)[last] <= 1;
      }
    }
  }

  // std::remove / erase of every entry that lies in S.
  function Without(s: seq<nat>, S: set<nat>): (r: seq<nat>)
    ensures forall x :: x in r <==> x in s && x !in S
    ensures |r| <= |s|
  {
    if s == [] then []
    else
      var r := Without(s[..|s| - 1], S);
      if s[|s| - 1] in S then r else r + [s[|s| - 1]]
  }

  // The entries of s that lie in S, in order.
  function Only(s: seq<nat>, S: set<nat>): (r: seq<nat>)
    ensures forall x :: x in r <==> x in s && x in S
    ensures |r| <= |s|
  {
    if s == [] then []
    else
      var r := Only(s[..|s| - 1], S);
      if s[|s| - 1] in S then r + [s[|s| - 1]] else r
  }

  // Without removes every copy, Only keeps every copy, and nothing else changes.
  lemma {:induction false} WithoutCounts(s: seq<nat>, S: set<nat>)
    ensures forall x: nat :: multiset(Without(s, S))[x] == if x in S then 0 else multiset(s)[x]
  {
    if s != [] {
      var front: seq<nat>, last: nat := s[..|s| - 1], s[|s| - 1];
      assert s == front + [last];
      WithoutCounts(front, S);
    }
  }

  lemma {:induction false} OnlyCounts(s: seq<nat>, S: set<nat>)
    ensures forall x: nat :: multiset(Only(s, S))[x] == if x in S then multiset(s)[x] else 0
  {
    if s != [] {
      var front: seq<nat>, last: nat := s[..|s| - 1], s[|s| - 1];
      assert s == front + [last];
      OnlyCounts(front, S);
    }
  }

  lemma {:induction false} WithoutNoDup(s: seq<nat>, S: set<nat>)
    requires NoDup(s)
    ensures NoDup(Without(s, S))
  {
    if s != [] {
      WithoutNoDup(s[..|s| - 1], S);
      assert s[|s| - 1] !in s[..|s| - 1];
    }
  }

  lemma {:induction false} OnlyNoDup(s: seq<nat>, S: set<nat>)
    requires NoDup(s)
    ensures NoDup(Only(s, S))
  {
    if s != [] {
      OnlyNoDup(s[..|s| - 1], S);
      assert s[|s| - 1] !in s[..|s| - 1];
    }
  }

  lemma {:induction false} OnlySnoc(s: seq<nat>, x: nat, S: set<nat>)
    ensures Only(s + [x], S) == if x in S then Only(s, S) + [x] else Only(s, S)
  {
    assert (s + [x])[..|s|] == s;
  }

  lemma {:induction false} OnlyNone(s: seq<nat>, S: set<nat>)
    requires forall x :: x in s ==> x !in S
    ensures Only(s, S) == []
  {
    if s != [] {
      OnlyNone(s[..|s| - 1], S);
      assert s[|s| - 1] in s;
    }
  }

  // Filtering looks only at the members that occur.
  lemma {:induction false} OnlyAgree(s: seq<nat>, S: set<nat>, T: set<nat>)
    requires forall x :: x in s ==> (x in S <==> x in T)
    ensures Only(s, S) == Only(s, T)
  {
    if s != [] {
      OnlyAgree(s[..|s| - 1], S, T);
    }
  }

  // Dropping x from a filtered list filters for one member less.
  lemma {:induction false} OnlyWithout(s: seq<nat>, S: set<nat>, x: nat)
    ensures Without(Only(s, S), {x}) == Only(s, S - {x})
  {
    if s != [] {
      var front, last := s[..|s| - 1], s[|s| - 1];
      OnlyWithout(front, S, x);
      if last in S {
        var r := Only(front, S);
        assert (r + [last])[..|r|] == r;
      }
    }
  }

  lemma {:induction false} OnlyAll(s: seq<nat>, S: set<nat>)
    requires forall x :: x in s ==> x in S
    ensures Only(s, S) == s
  {
    if s != [] {
      OnlyAll(s[..|s| - 1], S);
      assert s[|s| - 1] in s;
      assert s == s[..|s| - 1] + [s[|s| - 1]];
    }
  }

  lemma {:induction false} WithoutOneMultiset(s: seq<nat>, x: nat)
    requires NoDup(s) && x in s
    ensures multiset(Without(s, {x})) == multiset(s) - multiset{x}
  {
    var front, last := s[..|s| - 1], s[|s| - 1];
    assert s == front + [last];
    if last == x {
      assert x !in front;
      WithoutNothing(front, {x});
    } else {
      WithoutOneMultiset(front, x);
    }
  }

  lemma {:induction false} WithoutTwice(s: seq<nat>, S: set<nat>, T: set<nat>)
    ensures Without(Without(s, S), T) == Without(s, S + T)
  {
    if s != [] {
      var front, last := s[..|s| - 1], s[|s| - 1];
      WithoutTwice(front, S, T);
      if last !in S {
        var r := Without(front, S);
        assert (r + [last])[..|r|] == r;
      }
    }
  }

  lemma {:induction false} WithoutNothing(s: seq<nat>, S: set<nat>)
    requires forall x :: x in s ==> x !in S
    ensures Without(s, S) == s
  {
    if s != [] {
      WithoutNothing(s[..|s| - 1], S);
      assert s[|s| - 1] in s;
      assert s == s[..|s| - 1] + [s[|s| - 1]];
    }
  }

  lemma {:induction false} WithoutOne(s: seq<nat>, x: nat)
    requires NoDup(s) && x in s
    ensures |Without(s, {x})| == |s| - 1
  {
    var front, last := s[..|s| - 1], s[|s| - 1];
    if last == x {
      assert x !in front;
      WithoutNothing(front, {x});
    } else {
      WithoutOne(front, x);
    }
  }

  // -------------------------------------------------------------------------
  // Weights

  // The sum of w over a list, repetitions counted.
  ghost function SumSeq(w: seq<real>, s: seq<nat>): real
    requires AllBelow(s, |w|)
  {
    if s == [] then 0.0 else SumSeq(w, s[..|s| - 1]) + w[s[|s| - 1]]
  }

  // The sum of w over those members of S that are below n.
  ghost function SumBelow(w: seq<real>, S: set<nat>, n: nat): real
    requires n <= |w|
  {
    if n == 0 then 0.0 else SumBelow(w, S, n - 1) + if n - 1 in S then w[n - 1] else 0.0
  }

  // The total weight of a set of nodes.
  ghost function WeightOf(w: seq<real>, S: set<nat>): real {
    SumBelow(w, S, |w|)
  }

  ghost predicate NonNegative(w: seq<real>) {
    forall i :: 0 <= i < |w| ==> w[i] >= 0.0
  }

  lemma {:induction false} SumSeqSnoc(w: seq<real>, s: seq<nat>, x: nat)
    requires AllBelow(s, |w|) && x < |w|
    ensures AllBelow(s + [x], |w|)
    ensures SumSeq(w, s + [x]) == SumSeq(w, s) + w[x]
  {
    assert (s + [x])[..|s|] == s;
  }

  lemma {:induction false} SumSeqConcat(w: seq<real>, s: seq<nat>, t: seq<nat>)
    requires AllBelow(s, |w|) && AllBelow(t, |w|)
    ensures AllBelow(s + t, |w|)
    ensures SumSeq(w, s + t) == SumSeq(w, s) + SumSeq(w, t)
  {
    if t == [] {
      assert s + t == s;
    } else {
      var front, last := t[..|t| - 1], t[|t| - 1];
      SumSeqConcat(w, s, front);
      assert s + t == (s + front) + [last];
      SumSeqSnoc(w, s + front, last);
    }
  }

  lemma {:induction false} SumSeqMonotone(w: seq<real>, s: seq<nat>, k: nat)
    requires NonNegative(w) && AllBelow(s, |w|) && k <= |s|
    ensures AllBelow(s[..k], |w|)
    ensures 0.0 <= SumSeq(w, s[..k]) <= SumSeq(w, s)
  {
    if k == |s| {
      assert s[..k] == s;
      if s != [] {
        SumSeqMonotone(w, s[..|s| - 1], |s| - 1);
        assert s[..|s| - 1][..|s| - 1] == s[..|s| - 1];
      }
    } else {
      SumSeqMonotone(w, s[..|s| - 1], k);
      assert s[..|s| - 1][..k] == s[..k];
    }
  }

  lemma {:induction false} SumBelowAdd(w: seq<real>, S: set<nat>, x: nat, n: nat)
    requires n <= |w| && x !in S
    ensures SumBelow(w, S + {x}, n) == SumBelow(w, S, n) + if x < n then w[x] else 0.0
  {
    if n > 0 {
      SumBelowAdd(w, S, x, n - 1);
    }
  }

  lemma WeightAdd(w: seq<real>, S: set<nat>, x: nat)
    requires x < |w| && x !in S
    ensures WeightOf(w, S + {x}) == WeightOf(w, S) + w[x]
  {
    SumBelowAdd(w, S, x, |w|);
  }

  lemma {:induction false} SumBelowEmpty(w: seq<real>, n: nat)
    requires n <= |w|
    ensures SumBelow(w, {}, n) == 0.0
  {
    if n > 0 {
      SumBelowEmpty(w, n - 1);
    }
  }

  lemma {:induction false} SumBelowUnion(w: seq<real>, S: set<nat>, T: set<nat>, n: nat)
    requires n <= |w| && S !! T
    ensures SumBelow(w, S + T, n) == SumBelow(w, S, n) + SumBelow(w, T, n)
  {
    if n > 0 {
      SumBelowUnion(w, S, T, n - 1);
    }
  }

  lemma {:induction false} SumBelowNonNegative(w: seq<real>, S: set<nat>, n: nat)
    requires n <= |w| && NonNegative(w)
    ensures SumBelow(w, S, n) >= 0.0
  {
    if n > 0 {
      SumBelowNonNegative(w, S, n - 1);
    }
  }

  // A duplicate-free list weighs as much as its set of members.
  lemma {:induction false} SumSeqIsWeight(w: seq<real>, s: seq<nat>)
    requires NoDup(s) && AllBelow(s, |w|)
    ensures SumSeq(w, s) == WeightOf(w, Elems(s))
  {
    if s == [] {
      assert Elems(s) == {};
      SumBelowEmpty(w, |w|);
    } else {
      var front, last := s[..|s| - 1], s[|s| - 1];
      SumSeqIsWeight(w, front);
      assert last !in front;
      assert Elems(s) == Elems(front) + {last};
      WeightAdd(w, Elems(front), last);
    }
  }
}
