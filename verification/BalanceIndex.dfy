// The balancing index of the statistics page (handleStatistics in client/app/index.js):
// the squared sum over the sum of squares over the count, for all nodes and for those
// that received anything.

module BalanceIndex {

  function Sum(xs: seq<real>): real {
    if xs == [] then 0.0 else Sum(xs[..|xs| - 1]) + xs[|xs| - 1]
  }

  function Times(a: real, b: real): real {
    a * b
  }

  function Square(x: real): real {
    Times(x, x)
  }

  function SumSquares(xs: seq<real>): real {
    if xs == [] then 0.0 else SumSquares(xs[..|xs| - 1]) + Square(xs[|xs| - 1])
  }

  // filter(x => x > 0)
  function Positive(xs: seq<real>): seq<real> {
    if xs == [] then []
    else
      var front := Positive(xs[..|xs| - 1]);
      if xs[|xs| - 1] > 0.0 then front + [xs[|xs| - 1]] else front
  }

  // An index times the count it was taken over.
  function Scaled(value: real, count: nat): real {
    value * count as real
  }

  datatype Quotient = NaN | Number(value: real)

  // The squared sum s over the sum of squares q over the count n.
  function Ratio(s: real, q: real, n: real): real
    requires q != 0.0 && n != 0.0
  {
    s * s / q / n
  }

  // BI: 0 / 0 is NaN, for an empty list and for one of zeros.
  function BI(xs: seq<real>): Quotient {
    if SumSquares(xs) == 0.0 || |xs| == 0 then NaN
    else Number(Ratio(Sum(xs), SumSquares(xs), |xs| as real))
  }

  function BI1(xs: seq<real>): Quotient {
    BI(Positive(xs))
  }

  ghost predicate NonNegative(xs: seq<real>) {
    forall i :: 0 <= i < |xs| ==> xs[i] >= 0.0
  }

  ghost predicate AllEqual(xs: seq<real>) {
    forall i, j :: 0 <= i < |xs| && 0 <= j < |xs| ==> xs[i] == xs[j]
  }

  // The sum of squared differences from y.
  function Spread(xs: seq<real>, y: real): real {
    if xs == [] then 0.0
    else Spread(xs[..|xs| - 1], y) + Square(xs[|xs| - 1] - y)
  }

  // The spread of n numbers with sum s and sum of squares q from y, multiplied out.
  function Expanded(n: real, q: real, s: real, y: real): real {
    q - 2.0 * y * s + n * (y * y)
  }

  lemma ExpandStep(n: real, q: real, s: real, x: real, y: real)
    ensures Expanded(n, q, s, y) + Square(x - y) == Expanded(n + 1.0, q + Square(x), s + x, y)
  {
  }

  lemma ExpandStart(y: real)
    ensures Expanded(0.0, 0.0, 0.0, y) == 0.0
  {
  }

  lemma {:induction false} SpreadExpands(xs: seq<real>, y: real)
    ensures Spread(xs, y) == Expanded(|xs| as real, SumSquares(xs), Sum(xs), y)
  {
    hide Expanded, Square;
    if xs == [] {
      ExpandStart(y);
    } else {
      var front, x := xs[..|xs| - 1], xs[|xs| - 1];
      SpreadExpands(front, y);
      ExpandStep(|front| as real, SumSquares(front), Sum(front), x, y);
      assert |xs| as real == |front| as real + 1.0;
    }
  }

  lemma TimesSigns(a: real, b: real)
    ensures a > 0.0 && b > 0.0 ==> Times(a, b) > 0.0
    ensures a == 0.0 ==> Times(a, b) == 0.0
  {
  }

  lemma TimesNegated(a: real, b: real)
    ensures Times(-a, -b) == Times(a, b)
  {
  }

  lemma SquareNotNegative(x: real)
    ensures x != 0.0 ==> Square(x) > 0.0
    ensures x == 0.0 ==> Square(x) == 0.0
    ensures Square(x) >= 0.0
  {
    hide Times;
    TimesSigns(x, x);
    TimesSigns(-x, -x);
    TimesNegated(x, x);
  }

  lemma {:induction false} SpreadNotNegative(xs: seq<real>, y: real)
    ensures Spread(xs, y) >= 0.0
    ensures Spread(xs, y) == 0.0 <==> forall i :: 0 <= i < |xs| ==> xs[i] == y
  {
    hide Square;
    if xs != [] {
      var front, x := xs[..|xs| - 1], xs[|xs| - 1];
      SpreadNotNegative(front, y);
      SquareNotNegative(x - y);
      if Spread(xs, y) == 0.0 {
        forall i | 0 <= i < |xs| ensures xs[i] == y {
          if i < |front| {
            assert front[i] == y;
          }
        }
      }
    }
  }

  // n * sum of squares - (sum)^2, the gap of the Cauchy-Schwarz inequality.
  function Gap(n: real, q: real, s: real): real {
    n * q - s * s
  }

  function Defect(xs: seq<real>): real {
    Gap(|xs| as real, SumSquares(xs), Sum(xs))
  }

  lemma GapStep(n: real, q: real, s: real, x: real)
    ensures Gap(n + 1.0, q + Square(x), s + x) == Gap(n, q, s) + Expanded(n, q, s, x)
  {
  }

  // A new entry widens the gap by its spread from the old ones.
  lemma DefectGrows(xs: seq<real>)
    requires xs != []
    ensures Defect(xs) == Defect(xs[..|xs| - 1]) + Spread(xs[..|xs| - 1], xs[|xs| - 1])
  {
    hide Gap, Expanded, Square;
    var front, x := xs[..|xs| - 1], xs[|xs| - 1];
    SpreadExpands(front, x);
    GapStep(|front| as real, SumSquares(front), Sum(front), x);
    assert |xs| as real == |front| as real + 1.0;
  }

  // Cauchy-Schwarz for the list against the all-ones list, with its equality case.
  lemma {:induction false} CauchySchwarz(xs: seq<real>)
    ensures Defect(xs) >= 0.0
    ensures Defect(xs) == 0.0 <==> AllEqual(xs)
  {
    hide Gap, Square;
    if xs == [] {
      assert Defect(xs) == 0.0 by { GapStart(); }
    } else {
      var front, x := xs[..|xs| - 1], xs[|xs| - 1];
      CauchySchwarz(front);
      DefectGrows(xs);
      SpreadNotNegative(front, x);
      assert forall i :: 0 <= i < |front| ==> front[i] == xs[i];
      if forall i :: 0 <= i < |front| ==> front[i] == x {
        assert AllEqual(front);
        assert AllEqual(xs);
      }
    }
  }

  // Written out: n times the sum of squares is at least the squared sum.
  lemma SquaredSumAtMost(xs: seq<real>)
    ensures Sum(xs) * Sum(xs) <= |xs| as real * SumSquares(xs)
    ensures Sum(xs) * Sum(xs) == |xs| as real * SumSquares(xs) <==> AllEqual(xs)
  {
    hide Sum, SumSquares;
    CauchySchwarz(xs);
  }

  lemma GapStart()
    ensures Gap(0.0, 0.0, 0.0) == 0.0
  {
  }

  lemma {:induction false} SquaresVanish(xs: seq<real>)
    ensures 0.0 <= SumSquares(xs)
    ensures SumSquares(xs) == 0.0 <==> forall i :: 0 <= i < |xs| ==> xs[i] == 0.0
  {
    hide Square;
    if xs != [] {
      var front, x := xs[..|xs| - 1], xs[|xs| - 1];
      SquaresVanish(front);
      SquareNotNegative(x);
      assert forall i :: 0 <= i < |front| ==> front[i] == xs[i];
    }
  }

  lemma {:induction false} SquaresWithinSquare(xs: seq<real>)
    requires NonNegative(xs)
    ensures Sum(xs) >= 0.0 && SumSquares(xs) <= Sum(xs) * Sum(xs)
  {
    if xs != [] {
      var front, x := xs[..|xs| - 1], xs[|xs| - 1];
      SquaresWithinSquare(front);
      var s := Sum(front);
      assert (s + x) * (s + x) == s * s + 2.0 * (s * x) + Square(x);
      assert s * x >= 0.0;
    }
  }

  lemma QuotientAtMost(a: real, b: real, c: real)
    requires b > 0.0 && c > 0.0
    ensures a <= c * b <==> a / b / c <= 1.0
    ensures a == c * b <==> a / b / c == 1.0
    ensures a >= b <==> a / b / c >= 1.0 / c
  {
    var q := a / b;
    assert q * b == a;
    var r := q / c;
    assert r * c == q;
    assert a == r * (c * b);
    ScaleBy(r, 1.0, c * b);
    ScaleBy(q, 1.0, b);
    ScaleBy(r, 1.0 / c, c);
    assert 1.0 / c * c == 1.0;
  }

  lemma ScaleBy(x: real, y: real, c: real)
    requires c > 0.0
    ensures x <= y <==> x * c <= y * c
    ensures x == y <==> x * c == y * c
  {
    if x < y {
      assert (y - x) * c > 0.0;
      assert (y - x) * c == y * c - x * c;
    }
    if x > y {
      assert (x - y) * c > 0.0;
      assert (x - y) * c == x * c - y * c;
    }
  }

  // Sums over one count, and over two lists.
  lemma {:induction false} SumsAdd(xs: seq<real>, ys: seq<real>, x: real)
    ensures Sum([x]) == x && SumSquares([x]) == x * x
    ensures Sum(xs + ys) == Sum(xs) + Sum(ys)
    ensures SumSquares(xs + ys) == SumSquares(xs) + SumSquares(ys)
    decreases |ys|
  {
    assert [x][..0] == [] && Sum([x]) == Sum([]) + x && SumSquares([x]) == SumSquares([]) + Square(x);
    if ys == [] {
      assert xs + ys == xs;
    } else {
      assert (xs + ys)[..|xs + ys| - 1] == xs + ys[..|ys| - 1];
      SumsAdd(xs, ys[..|ys| - 1], x);
    }
  }

  // The index times the count times the sum of squares is the squared sum.
  lemma IndexTimes(xs: seq<real>)
    ensures BI(xs) == NaN <==> SumSquares(xs) == 0.0 || |xs| == 0
    ensures BI(xs).Number? ==> BI(xs).value * |xs| as real * SumSquares(xs) == Sum(xs) * Sum(xs)
  {
    hide SumSquares, Sum;
    if BI(xs).Number? {
      TwoQuotients(Sum(xs) * Sum(xs), SumSquares(xs), |xs| as real);
    }
  }

  lemma TwoQuotients(a: real, q: real, n: real)
    requires q != 0.0 && n != 0.0
    ensures a / q / n * n * q == a
  {
    var x := a / q;
    assert x * q == a;
    assert x / n * n == x;
  }

  // filter(x => x > 0) keeps each positive count as often as it occurs.
  lemma {:induction false} PositiveCounts(xs: seq<real>)
    ensures forall x: real :: multiset(Positive(xs))[x] == if x > 0.0 then multiset(xs)[x] else 0
  {
    if xs != [] {
      var front, last := xs[..|xs| - 1], xs[|xs| - 1];
      assert xs == front + [last];
      PositiveCounts(front);
    }
  }

  // The index lies between 1/n and 1, and is 1 exactly when the load is even.
  lemma IndexRange(xs: seq<real>)
    requires NonNegative(xs)
    ensures BI(xs) == NaN <==> forall i :: 0 <= i < |xs| ==> xs[i] == 0.0
    ensures BI(xs).Number? ==> |xs| > 0 && 1.0 / |xs| as real <= BI(xs).value <= 1.0
    ensures BI(xs).Number? ==> (BI(xs).value == 1.0 <==> AllEqual(xs))
  {
    SquaresVanish(xs);
    if BI(xs).Number? {
      SquaresWithinSquare(xs);
      CauchySchwarz(xs);
      QuotientAtMost(Sum(xs) * Sum(xs), SumSquares(xs), |xs| as real);
    }
  }

  lemma {:induction false} PositiveKeepsSums(xs: seq<real>)
    requires NonNegative(xs)
    ensures Sum(Positive(xs)) == Sum(xs) && SumSquares(Positive(xs)) == SumSquares(xs)
    ensures |Positive(xs)| <= |xs|
    ensures forall i :: 0 <= i < |Positive(xs)| ==> Positive(xs)[i] > 0.0
  {
    if xs != [] {
      var front, x := xs[..|xs| - 1], xs[|xs| - 1];
      PositiveKeepsSums(front);
      if x > 0.0 {
        assert (Positive(front) + [x])[..|Positive(front)|] == Positive(front);
      }
    }
  }

  // The quotient both indices divide by their count.
  lemma SharedQuotient(xs: seq<real>)
    requires NonNegative(xs)
    ensures BI1(xs) == NaN <==> BI(xs) == NaN
    ensures BI(xs).Number? ==> |xs| > 0 && |Positive(xs)| > 0 && SumSquares(xs) > 0.0
    ensures BI(xs).Number? ==> BI1(xs).value == Ratio(Sum(xs), SumSquares(xs), |Positive(xs)| as real)
  {
    hide Ratio;
    PositiveKeepsSums(xs);
    SquaresVanish(xs);
    SquaresVanish(Positive(xs));
  }

  // Dropping the zeros keeps index times count, so it can only raise the index.
  lemma DroppingZeros(xs: seq<real>)
    requires NonNegative(xs)
    ensures BI1(xs) == NaN <==> BI(xs) == NaN
    ensures BI(xs).Number? ==>
              && BI1(xs).value * |Positive(xs)| as real == BI(xs).value * |xs| as real
              && BI(xs).value <= BI1(xs).value <= 1.0
  {
    hide BI, BI1, Positive;
    ScaledAlike(xs);
  }

  lemma ScaledAlike(xs: seq<real>)
    requires NonNegative(xs)
    ensures BI1(xs) == NaN <==> BI(xs) == NaN
    ensures BI(xs).Number? ==>
              && Scaled(BI1(xs).value, |Positive(xs)|) == Scaled(BI(xs).value, |xs|)
              && BI(xs).value <= BI1(xs).value <= 1.0
  {
    hide Ratio, Scaled;
    SharedQuotient(xs);
    if BI(xs).Number? {
      PositiveKeepsSums(xs);
      PositiveIndexAtMostOne(xs);
      DroppedIndex(Sum(xs), SumSquares(xs), |Positive(xs)|, |xs|);
    }
  }

  lemma PositiveIndexAtMostOne(xs: seq<real>)
    requires NonNegative(xs) && BI1(xs).Number?
    ensures BI1(xs).value <= 1.0
  {
    PositiveKeepsSums(xs);
    IndexRange(Positive(xs));
  }

  lemma DroppedIndex(s: real, b: real, m: nat, n: nat)
    requires b > 0.0 && 0 < m <= n
    ensures Scaled(Ratio(s, b, m as real), m) == Scaled(Ratio(s, b, n as real), n)
    ensures Ratio(s, b, n as real) <= Ratio(s, b, m as real)
  {
    SquareNotNegative(s);
    assert s * s == Square(s);
    QuotientNotNegative(s * s, b);
    SmallerDivisor(s * s / b, m as real, n as real);
  }

  lemma QuotientNotNegative(a: real, b: real)
    requires a >= 0.0 && b > 0.0
    ensures a / b >= 0.0
  {
  }

  lemma SmallerDivisor(q: real, m: real, n: real)
    requires q >= 0.0 && 0.0 < m <= n
    ensures q / m * m == q / n * n
    ensures q / n <= q / m
  {
    var a, b := q / n, q / m;
    assert a * n == q && b * m == q;
    ScaleBy(0.0, a, n);
    assert a * m <= a * n by {
      assert a * (n - m) >= 0.0;
      assert a * (n - m) == a * n - a * m;
    }
    ScaleBy(a, b, m);
  }
}
