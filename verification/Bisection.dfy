// The bisection on the energy level in mainAlg.

module Bisection {

  // One round: the level tried, and whether all trajectories stayed within L_max.
  datatype Probe = Probe(level: real, feasible: bool)

  datatype Bracket = Bracket(low: real, high: real)
  {
    function Middle(): real {
      (high + low) / 2.0
    }

    function Narrow(p: Probe): Bracket {
      if p.feasible then this.(low := p.level) else this.(high := p.level)
    }
  }

  function AfterProbes(b: Bracket, probes: seq<Probe>): Bracket {
    if probes == [] then b
    else AfterProbes(b, probes[..|probes| - 1]).Narrow(probes[|probes| - 1])
  }

  // Every round tries the middle of the bracket, and only while it is wider than tolerance.
  predicate Search(b: Bracket, probes: seq<Probe>, tolerance: real) {
    probes == [] ||
    (var front := probes[..|probes| - 1];
     && Search(b, front, tolerance)
     && (front != [] ==> AfterProbes(b, front).high - AfterProbes(b, front).low > tolerance)
     && probes[|probes| - 1].level == AfterProbes(b, front).Middle())
  }

  // x halved n times.
  function Halved(x: real, n: nat): real
    decreases n
  {
    if n == 0 then x else Halved(x / 2.0, n - 1)
  }

  lemma {:induction false} HalvedOnce(x: real, n: nat)
    ensures Halved(x, n + 1) == Halved(x, n) / 2.0
    decreases n
  {
    if n > 0 {
      HalvedOnce(x / 2.0, n - 1);
    }
  }

  // Doubled n times again, it is x.
  lemma {:induction false} HalvedDoubles(x: real, n: nat)
    ensures Halved(x, 0) == x && Halved(x, n + 1) + Halved(x, n + 1) == Halved(x, n)
  {
    HalvedOnce(x, n);
  }

  // A gap of 8 takes seven rounds to get down to 0.1.
  lemma EightTakesSeven()
    ensures Halved(8.0, 6) == 0.125 && Halved(8.0, 7) == 0.0625
  {
    assert Halved(8.0, 7) == Halved(4.0, 6) == Halved(2.0, 5) == Halved(1.0, 4);
    assert Halved(1.0, 4) == Halved(0.5, 3) == Halved(0.25, 2) == Halved(0.125, 1);
    HalvedOnce(8.0, 6);
  }

  // Halving gets below the tolerance of 0.1 after a number of rounds known beforehand.
  lemma {:induction false} HalvedVanishes(x: real, n: nat)
    requires x <= 0.1 * (n + 1) as real
    ensures Halved(x, n) <= 0.1
    decreases n
  {
    if n > 0 {
      HalvedVanishes(x / 2.0, n - 1);
    }
  }

  lemma SearchSnoc(b: Bracket, probes: seq<Probe>, p: Probe, tolerance: real)
    requires Search(b, probes, tolerance)
    requires probes != [] ==> AfterProbes(b, probes).high - AfterProbes(b, probes).low > tolerance
    requires p.level == AfterProbes(b, probes).Middle()
    ensures Search(b, probes + [p], tolerance)
    ensures AfterProbes(b, probes + [p]) == AfterProbes(b, probes).Narrow(p)
  {
    assert (probes + [p])[..|probes|] == probes;
  }

  // Each round halves the bracket, whatever the outcome.
  lemma {:induction false} GapHalves(b: Bracket, probes: seq<Probe>, tolerance: real)
    requires Search(b, probes, tolerance)
    ensures AfterProbes(b, probes).high - AfterProbes(b, probes).low == Halved(b.high - b.low, |probes|)
  {
    if probes != [] {
      GapHalves(b, probes[..|probes| - 1], tolerance);
      HalvedOnce(b.high - b.low, |probes| - 1);
    }
  }

  // Before the last round the halved gap was still too wide.
  lemma {:induction false} RoundsAreLeast(b: Bracket, probes: seq<Probe>, tolerance: real, k: nat)
    requires Search(b, probes, tolerance) && 1 <= k < |probes|
    ensures Halved(b.high - b.low, k) > tolerance
    ensures AfterProbes(b, probes[..k]).high - AfterProbes(b, probes[..k]).low > tolerance
  {
    var front := probes[..|probes| - 1];
    if k == |front| {
      GapHalves(b, front, tolerance);
    } else {
      assert front[..k] == probes[..k];
      RoundsAreLeast(b, front, tolerance, k);
    }
  }

  // A finished bisection made exactly the least number k >= 1 of rounds with
  // gap / 2^k <= tolerance.
  lemma RoundsAreExact(b: Bracket, probes: seq<Probe>, tolerance: real, k: nat)
    requires Search(b, probes, tolerance) && probes != []
    requires AfterProbes(b, probes).high - AfterProbes(b, probes).low <= tolerance
    requires 1 <= k <= |probes|
    ensures Halved(b.high - b.low, k) <= tolerance <==> k == |probes|
    ensures AfterProbes(b, probes[..k]).high - AfterProbes(b, probes[..k]).low <= tolerance <==> k == |probes|
  {
    GapHalves(b, probes, tolerance);
    if k < |probes| {
      RoundsAreLeast(b, probes, tolerance, k);
    } else {
      assert probes[..k] == probes;
    }
  }

  ghost predicate FeasibleAt(probes: seq<Probe>, level: real) {
    exists i :: 0 <= i < |probes| && probes[i] == Probe(level, true)
  }

  ghost predicate InfeasibleAt(probes: seq<Probe>, level: real) {
    exists i :: 0 <= i < |probes| && probes[i] == Probe(level, false)
  }

  // The lower end is the largest feasible level tried (or the initial bound), the upper
  // end the least infeasible one (or the initial bound).
  lemma {:induction false} BracketSeparates(b: Bracket, probes: seq<Probe>, tolerance: real, i: nat)
    requires Search(b, probes, tolerance) && b.low <= b.high
    ensures var e := AfterProbes(b, probes);
            && b.low <= e.low <= e.high <= b.high
            && (e.low == b.low || FeasibleAt(probes, e.low))
            && (e.high == b.high || InfeasibleAt(probes, e.high))
            && (i < |probes| && probes[i].feasible ==> probes[i].level <= e.low)
            && (i < |probes| && !probes[i].feasible ==> e.high <= probes[i].level)
  {
    if probes != [] {
      var front, p := probes[..|probes| - 1], probes[|probes| - 1];
      BracketSeparates(b, front, tolerance, i);
      var e, f := AfterProbes(b, front), AfterProbes(b, probes);
      assert probes[|probes| - 1] == Probe(p.level, p.feasible);
      if f.low == e.low && e.low != b.low {
        var j :| 0 <= j < |front| && front[j] == Probe(e.low, true);
        assert probes[j] == Probe(f.low, true);
      }
      if f.high == e.high && e.high != b.high {
        var j :| 0 <= j < |front| && front[j] == Probe(e.high, false);
        assert probes[j] == Probe(f.high, false);
      }
      if i < |front| {
        assert front[i] == probes[i];
      }
    }
  }
}
