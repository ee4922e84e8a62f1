/**
 The storage forecast of the admin dashboard: a least-squares line through the running
 total of bytes per day, extrapolated to the day the quota is reached.

 A day's bytes are integers and the slope is an exact rational, so the statements below are
 about the algorithm and not about floating point.
 */
module StorageForecast {
  import opened Common

  /** `rows[i].bytes`; the SQL aggregate can be null, which counts as zero. */
  type Day = Option<int>

  function Bytes(d: Day): int {
    d.GetOr(0)
  }

  ghost predicate NonNegative(rows: seq<Day>) {
    forall i | 0 <= i < |rows| :: Bytes(rows[i]) >= 0
  }

  // ---- The four reduce expressions over the points (i, ys[i]) ----

  function SumX(n: nat): int {
    if n == 0 then 0 else SumX(n - 1) + (n - 1)
  }

  function SumX2(n: nat): int {
    if n == 0 then 0 else SumX2(n - 1) + (n - 1) * (n - 1)
  }

  function SumY(ys: seq<int>): int {
    if ys == [] then 0 else SumY(ys[..|ys| - 1]) + ys[|ys| - 1]
  }

  function SumXY(ys: seq<int>): int {
    if ys == [] then 0 else SumXY(ys[..|ys| - 1]) + (|ys| - 1) * ys[|ys| - 1]
  }

  /** The running total after each day. */
  function Totals(rows: seq<Day>): (ys: seq<int>)
    ensures |ys| == |rows|
  {
    if rows == [] then []
    else
      var before := Totals(rows[..|rows| - 1]);
      before + [(if before == [] then 0 else before[|before| - 1]) + Bytes(rows[|rows| - 1])]
  }

  /** The bytes of all these days, from the first one on. */
  function Used(rows: seq<Day>): int {
    if rows == [] then 0
    else
      var first := match rows[0] { case Some(bytes) => bytes case None => 0 };
      first + Used(rows[1..])
  }

  lemma {:induction false} UsedAppend(rows: seq<Day>, day: Day)
    ensures Used(rows + [day]) == Used(rows) + (if day.Some? then day.value else 0)
  {
    if rows != [] {
      assert (rows + [day])[1..] == rows[1..] + [day];
      UsedAppend(rows[1..], day);
    }
  }

  /** The running total after a day is what all the days up to it have added. */
  lemma {:induction false} TotalsAreSums(rows: seq<Day>, k: nat)
    requires k < |rows|
    ensures Totals(rows)[k] == Used(rows[..k + 1])
  {
    var n := |rows| - 1;
    var front := rows[..n];
    if k < n {
      assert front[..k + 1] == rows[..k + 1];
      TotalsAreSums(front, k);
    } else {
      assert rows == front + [rows[n]] && rows[..k + 1] == rows;
      UsedAppend(front, rows[n]);
      if n > 0 {
        TotalsAreSums(front, n - 1);
        assert front[..n] == front;
      }
    }
  }

  function Denominator(n: nat): int {
    n * SumX2(n) - SumX(n) * SumX(n)
  }

  function Numerator(ys: seq<int>): int {
    |ys| * SumXY(ys) - SumX(|ys|) * SumY(ys)
  }

  // ---- The denominator in closed form ----

  lemma {:induction false} SumXClosed(n: nat)
    ensures 2 * SumX(n) == n * (n - 1)
  {
    if n > 0 {
      SumXClosed(n - 1);
    }
  }

  lemma {:induction false} SumX2Closed(n: nat)
    ensures 6 * SumX2(n) == n * (n - 1) * (2 * n - 1)
  {
    if n > 0 {
      SumX2Closed(n - 1);
      assert (n - 1) * (n - 2) * (2 * n - 3) + 6 * (n - 1) * (n - 1) == n * (n - 1) * (2 * n - 1);
    }
  }

  lemma ScaledDenominator(n: int, x: int, x2: int)
    requires 2 * x == n * (n - 1)
    requires 6 * x2 == n * (n - 1) * (2 * n - 1)
    ensures 12 * (n * x2 - x * x) == n * n * (n * n - 1)
  {
    var m := n * (n - 1);
    var p := n * n;
    assert m == p - n;
    calc {
      12 * (n * x2 - x * x);
      2 * n * (6 * x2) - 3 * ((2 * x) * (2 * x));
      2 * n * (m * (2 * n - 1)) - 3 * (m * m);
      m * (2 * n * (2 * n - 1) - 3 * m);
      { assert 2 * n * (2 * n - 1) == 4 * p - 2 * n; }
      (p - n) * (p + n);
      p * p - p;
      n * n * (n * n - 1);
    }
  }

  /** The zero test on the denominator never fires: with at least two rows it is positive. */
  lemma DenominatorClosed(n: nat)
    ensures 12 * Denominator(n) == n * n * (n * n - 1)
    ensures n >= 2 ==> Denominator(n) > 0
  {
    SumXClosed(n);
    SumX2Closed(n);
    ScaledDenominator(n, SumX(n), SumX2(n));
    if n >= 2 {
      var p := n * n;
      assert p >= 4;
      assert p * (p - 1) > 0;
    }
  }

  // ---- The numerator as a weighted sum of the days' bytes (Abel summation) ----

  /** Sum over the days k before `upTo` of k * bytes(k). */
  function DayWeighted(rows: seq<Day>): int {
    if rows == [] then 0
    else DayWeighted(rows[..|rows| - 1]) + (|rows| - 1) * Bytes(rows[|rows| - 1])
  }

  /** Sum over the days k of k * (n - k) * bytes(k), n being the number of days. */
  function Spread(rows: seq<Day>): int {
    if rows == [] then 0
    else Spread(rows[..|rows| - 1]) + DayWeighted(rows)
  }

  lemma Stretch(k: int, y: int, b: int)
    ensures k * (y + b) == (k - 1) * y + y + k * b
  {}

  lemma {:induction false} LastTotalAgainstSum(rows: seq<Day>)
    requires rows != []
    ensures (|rows| - 1) * Totals(rows)[|rows| - 1] - SumY(Totals(rows)[..|rows| - 1]) == DayWeighted(rows)
  {
    var n := |rows|;
    var front := rows[..n - 1];
    var ys := Totals(front);
    assert Totals(rows)[..n - 1] == ys;
    if n > 1 {
      LastTotalAgainstSum(front);
      assert SumY(ys) == SumY(ys[..n - 2]) + ys[n - 2];
      Stretch(n - 1, ys[n - 2], Bytes(rows[n - 1]));
    }
  }

  lemma {:induction false} HalfNumerator(rows: seq<Day>)
    ensures 2 * SumXY(Totals(rows)) - (|rows| - 1) * SumY(Totals(rows)) == Spread(rows)
  {
    if rows != [] {
      var n := |rows|;
      var ys := Totals(rows);
      HalfNumerator(rows[..n - 1]);
      LastTotalAgainstSum(rows);
      assert ys[..n - 1] == Totals(rows[..n - 1]);
      Stretch(n - 1, SumY(ys[..n - 1]), ys[n - 1]);
    }
  }

  lemma FactorOut(n: int, x: int, xy: int, y: int, spread: int)
    requires 2 * x == n * (n - 1)
    requires spread == 2 * xy - (n - 1) * y
    ensures 2 * (n * xy - x * y) == n * spread
  {
    calc {
      2 * (n * xy - x * y);
      2 * (n * xy) - (2 * x) * y;
      2 * (n * xy) - (n * (n - 1)) * y;
      2 * (n * xy) - n * ((n - 1) * y);
      n * (2 * xy - (n - 1) * y);
    }
  }

  /** The covariance of day and running total, n times over, is a sum with positive weights. */
  lemma NumeratorIsSpread(rows: seq<Day>)
    ensures 2 * Numerator(Totals(rows)) == |rows| * Spread(rows)
  {
    var n, ys := |rows|, Totals(rows);
    assert Numerator(ys) == n * SumXY(ys) - SumX(n) * SumY(ys);
    hide *;
    HalfNumerator(rows);
    SumXClosed(n);
    FactorOut(n, SumX(n), SumXY(ys), SumY(ys), Spread(rows));
  }

  /** Some day after the first added bytes. */
  ghost predicate Grows(rows: seq<Day>) {
    exists i | 0 < i < |rows| :: Bytes(rows[i]) != 0
  }

  lemma {:induction false} SpreadSign(rows: seq<Day>)
    requires NonNegative(rows)
    ensures DayWeighted(rows) >= 0 && (DayWeighted(rows) > 0 <==> Grows(rows))
    ensures Spread(rows) >= 0 && (Spread(rows) > 0 <==> Grows(rows))
  {
    if rows != [] {
      var n := |rows|;
      var front := rows[..n - 1];
      SpreadSign(front);
      assert Grows(front) ==> Grows(rows) by {
        if Grows(front) {
          var i :| 0 < i < |front| && Bytes(front[i]) != 0;
          assert Bytes(rows[i]) != 0;
        }
      }
      if Grows(rows) && !Grows(front) {
        var i :| 0 < i < n && Bytes(rows[i]) != 0;
        assert forall j | 0 < j < n - 1 :: rows[j] == front[j];
        assert i == n - 1;
      }
      var last := Bytes(rows[n - 1]);
      if n > 1 && last > 0 {
        assert (n - 1) * last > 0;
      } else {
        assert (n - 1) * last == 0;
      }
    }
  }

  lemma ProductSign(n: int, x: int)
    requires n > 0
    ensures (n * x > 0 <==> x > 0) && (n * x >= 0 <==> x >= 0)
  {}

  /** Chebyshev: the slope is never negative, and it is zero exactly when the total is flat. */
  lemma SlopeSign(rows: seq<Day>)
    requires NonNegative(rows) && |rows| >= 2
    ensures Numerator(Totals(rows)) >= 0
    ensures Numerator(Totals(rows)) > 0 <==> Grows(rows)
  {
    NumeratorIsSpread(rows);
    SpreadSign(rows);
    hide *;
    ProductSign(|rows|, Spread(rows));
  }

  // ---- The line of least squares ----

  function Times(x: real, y: real): real {
    x * y
  }

  function Square(x: real): real {
    Times(x, x)
  }

  /** The sum of the squared distances of the points from the line through `a` with slope `b`. */
  function Error(ys: seq<int>, a: real, b: real): real {
    if ys == [] then 0.0
    else
      var n := |ys| - 1;
      Error(ys[..n], a, b) + Square(ys[n] as real - a - b * n as real)
  }

  function SumY2(ys: seq<int>): int {
    if ys == [] then 0 else SumY2(ys[..|ys| - 1]) + ys[|ys| - 1] * ys[|ys| - 1]
  }

  /** The sums over some points, in reals. */
  datatype Sums = Sums(n: real, x: real, x2: real, y: real, xy: real, y2: real)

  function SumsOf(ys: seq<int>): Sums {
    Sums(|ys| as real, SumX(|ys|) as real, SumX2(|ys|) as real, SumY(ys) as real, SumXY(ys) as real,
         SumY2(ys) as real)
  }

  function WithPoint(s: Sums, x: real, y: real): Sums {
    Sums(s.n + 1.0, s.x + x, s.x2 + x * x, s.y + y, s.xy + x * y, s.y2 + y * y)
  }

  /** The error by the sums. */
  function Expanded(s: Sums, a: real, b: real): real {
    s.y2 - 2.0 * a * s.y - 2.0 * b * s.xy + s.n * a * a + 2.0 * a * b * s.x + b * b * s.x2
  }

  lemma OnePoint(s: Sums, x: real, y: real, a: real, b: real)
    ensures Expanded(s, a, b) + Square(y - a - b * x) == Expanded(WithPoint(s, x, y), a, b)
  {
    var bx := b * x;
    assert (y - a - bx) * (y - a - bx) == y * y + a * a + bx * bx - 2.0 * a * y - 2.0 * bx * y + 2.0 * a * bx;
    assert bx * bx == b * b * (x * x);
    assert 2.0 * bx * y == 2.0 * b * (x * y);
    assert 2.0 * a * bx == 2.0 * a * b * x;
    assert b * b * (s.x2 + x * x) == b * b * s.x2 + b * b * (x * x);
    assert 2.0 * b * (s.xy + x * y) == 2.0 * b * s.xy + 2.0 * b * (x * y);
    assert 2.0 * a * b * (s.x + x) == 2.0 * a * b * s.x + 2.0 * a * b * x;
    assert (s.n + 1.0) * a * a == s.n * a * a + a * a;
    assert 2.0 * a * (s.y + y) == 2.0 * a * s.y + 2.0 * a * y;
  }

  lemma RealProduct(a: int, b: int)
    ensures (a * b) as real == a as real * b as real
  {}

  lemma SumsAppend(ys: seq<int>)
    requires ys != []
    ensures var n := |ys| - 1; SumsOf(ys) == WithPoint(SumsOf(ys[..n]), n as real, ys[n] as real)
  {
    var n := |ys| - 1;
    RealProduct(n, n);
    RealProduct(n, ys[n]);
    RealProduct(ys[n], ys[n]);
  }

  lemma NoPoints(a: real, b: real)
    ensures Expanded(SumsOf([]), a, b) == 0.0
  {
    assert SumsOf([]) == Sums(0.0, 0.0, 0.0, 0.0, 0.0, 0.0);
  }

  lemma {:induction false} ErrorExpands(ys: seq<int>, a: real, b: real)
    ensures Error(ys, a, b) == Expanded(SumsOf(ys), a, b)
  {
    hide Expanded, SumsOf, WithPoint, Square;
    if ys == [] {
      NoPoints(a, b);
    } else {
      var n := |ys| - 1;
      SumsAppend(ys);
      OnePoint(SumsOf(ys[..n]), n as real, ys[n] as real, a, b);
      ErrorExpands(ys[..n], a, b);
    }
  }

  /** The error around a line: two linear terms that vanish at the best one, and a quadratic one. */
  lemma Around(s: Sums, a: real, b: real, u: real, v: real)
    ensures Expanded(s, a + u, b + v) - Expanded(s, a, b)
      == s.n * u * u + 2.0 * u * v * s.x + v * v * s.x2
         - 2.0 * u * (s.y - s.n * a - b * s.x) - 2.0 * v * (s.xy - a * s.x - b * s.x2)
  {}

  lemma Squares(n: real, x: real, x2: real, u: real, v: real)
    ensures n * (n * u * u + 2.0 * u * v * x + v * v * x2) == Square(n * u + x * v) + (n * x2 - x * x) * Square(v)
  {}

  function Slope(numerator: int, denominator: int): (s: real)
    requires denominator > 0
    ensures s > 0.0 <==> numerator > 0
    ensures s * denominator as real == numerator as real
  {
    numerator as real / denominator as real
  }

  /** No other line is as near to the points. */
  ghost predicate BestLine(ys: seq<int>, a: real, b: real) {
    forall a', b' :: a' != a || b' != b ==> Error(ys, a, b) < Error(ys, a', b')
  }

  function Intercept(n: real, x: real, y: real, b: real): (a: real)
    requires n > 0.0
    ensures n * a == y - b * x
  {
    (y - b * x) / n
  }

  lemma NormalEquations(n: real, x: real, x2: real, y: real, xy: real, a: real, b: real)
    requires n > 0.0 && n * a == y - b * x
    requires b * (n * x2 - x * x) == n * xy - x * y
    ensures y - n * a - b * x == 0.0 && xy - a * x - b * x2 == 0.0
  {
    var r := xy - a * x - b * x2;
    assert n * (a * x) == (n * a) * x == (y - b * x) * x == x * y - b * (x * x);
    assert n * (b * x2) == b * (n * x2);
    assert n * r == n * xy - n * (a * x) - n * (b * x2) == 0.0;
  }

  lemma Further(s: Sums, a: real, b: real, u: real, v: real)
    requires s.n > 0.0 && s.n * s.x2 - s.x * s.x > 0.0 && (u != 0.0 || v != 0.0)
    requires s.y - s.n * a - b * s.x == 0.0 && s.xy - a * s.x - b * s.x2 == 0.0
    ensures Expanded(s, a, b) < Expanded(s, a + u, b + v)
  {
    var rest := s.n * u * u + 2.0 * u * v * s.x + v * v * s.x2;
    Around(s, a, b, u, v);
    assert Expanded(s, a + u, b + v) - Expanded(s, a, b) == rest;
    hide Expanded;
    Squares(s.n, s.x, s.x2, u, v);
    Independent(s.n, u, s.x, v);
    Positive(s.n * u + s.x * v, v, s.n * s.x2 - s.x * s.x);
    hide Square;
    PositiveFactor(s.n, rest);
  }

  lemma PositiveFactor(n: real, r: real)
    requires n > 0.0 && n * r > 0.0
    ensures r > 0.0
  {}

  lemma TimesSign(x: real, y: real)
    ensures x > 0.0 && y > 0.0 ==> Times(x, y) > 0.0
    ensures x < 0.0 && y < 0.0 ==> Times(x, y) > 0.0
    ensures x == 0.0 ==> Times(x, y) == 0.0
  {}

  lemma SquareSign(p: real)
    ensures Square(p) >= 0.0 && (Square(p) == 0.0 <==> p == 0.0)
  {
    hide Times;
    TimesSign(p, p);
  }

  lemma Positive(p: real, v: real, den: real)
    requires den > 0.0 && (p != 0.0 || v != 0.0)
    ensures Square(p) + den * Square(v) > 0.0
  {
    SquareSign(v);
    SquareSign(p);
    hide Square;
    NonNegativeProduct(den, Square(v));
  }

  lemma NonNegativeProduct(x: real, y: real)
    requires x > 0.0 && y >= 0.0
    ensures x * y >= 0.0 && (x * y > 0.0 <==> y > 0.0)
  {}

  lemma Independent(n: real, u: real, x: real, v: real)
    requires n > 0.0 && (u != 0.0 || v != 0.0)
    ensures n * u + x * v != 0.0 || v != 0.0
  {}

  /** The integer expressions of the slope, in reals. */
  lemma RealSlope(ys: seq<int>)
    ensures var s := SumsOf(ys);
      && Denominator(|ys|) as real == s.n * s.x2 - s.x * s.x
      && Numerator(ys) as real == s.n * s.xy - s.x * s.y
  {
    RealProduct(|ys|, SumX2(|ys|));
    RealProduct(SumX(|ys|), SumX(|ys|));
    RealProduct(|ys|, SumXY(ys));
    RealProduct(SumX(|ys|), SumY(ys));
  }

  lemma BestByEquations(ys: seq<int>, a: real, b: real)
    requires var s := SumsOf(ys);
      && s.n > 0.0 && s.n * s.x2 - s.x * s.x > 0.0
      && s.y - s.n * a - b * s.x == 0.0 && s.xy - a * s.x - b * s.x2 == 0.0
    ensures BestLine(ys, a, b)
  {
    hide SumsOf, Expanded, Error;
    forall a', b' | a' != a || b' != b ensures Error(ys, a, b) < Error(ys, a', b') {
      ErrorExpands(ys, a, b);
      ErrorExpands(ys, a', b');
      Further(SumsOf(ys), a, b, a' - a, b' - b);
      assert a + (a' - a) == a' && b + (b' - b) == b';
    }
  }

  /** The quotient is the slope of the line of least squares through the points. */
  lemma SlopeIsLeastSquares(ys: seq<int>)
    requires |ys| >= 2
    ensures Denominator(|ys|) > 0
    ensures exists a :: BestLine(ys, a, Slope(Numerator(ys), Denominator(|ys|)))
  {
    DenominatorClosed(|ys|);
    RealSlope(ys);
    var b := Slope(Numerator(ys), Denominator(|ys|));
    var s := SumsOf(ys);
    assert s.n == |ys| as real;
    hide SumsOf, Numerator, Denominator, Slope, BestLine;
    var a := Intercept(s.n, s.x, s.y, b);
    NormalEquations(s.n, s.x, s.x2, s.y, s.xy, a, b);
    BestByEquations(ys, a, b);
  }

  // ---- The estimate ----

  function Ceil(x: real): int {
    -((-x).Floor)
  }

  /** Day `d` after the last row reaches the quota on the fitted slope. */
  ghost predicate Reaches(last: int, slope: real, quota: int, d: int) {
    last as real + slope * d as real >= quota as real
  }

  lemma CeilIsLeast(last: int, slope: real, quota: int, d: int)
    requires slope > 0.0
    requires d == Ceil((quota - last) as real / slope)
    ensures Reaches(last, slope, quota, d)
    ensures forall e: int :: e < d ==> !Reaches(last, slope, quota, e)
  {
    var gap := (quota - last) as real;
    var x := gap / slope;
    assert x * slope == gap;
    assert d as real >= x && (d - 1) as real < x;
    assert d as real * slope >= x * slope;
    forall e: int | e < d ensures !Reaches(last, slope, quota, e) {
      assert e as real < x;
      assert e as real * slope < x * slope;
    }
  }

  /**
   The estimate for any rows and quota: absent exactly when there are too few days, no quota, or no
   growth, zero exactly when the days have used the quota up, and otherwise the first day on which
   the fitted line is at or above the quota.
   */
  method EstimateDaysUntilFull(rows: seq<Day>, quota: int) returns (r: Option<int>)
    ensures |rows| < 2 || quota <= 0 ==> r == None
    ensures |rows| >= 2 && quota > 0 ==>
      && Denominator(|rows|) > 0
      && var slope := Slope(Numerator(Totals(rows)), Denominator(|rows|));
      && (r == None <==> slope <= 0.0)
      && (NonNegative(rows) ==> (r == None <==> !Grows(rows)))
      && (slope > 0.0 && Used(rows) >= quota ==> r == Some(0))
      && (slope > 0.0 && Used(rows) < quota ==>
            && r.Some? && r.value > 0
            && Reaches(Used(rows), slope, quota, r.value)
            && forall e: int :: e < r.value ==> !Reaches(Used(rows), slope, quota, e))
  {
    if |rows| < 2 || quota <= 0 {
      return None;
    }
    var cumulative := 0;
    var points: seq<int> := [];
    for i := 0 to |rows|
      invariant |points| == i && points == Totals(rows[..i])
      invariant cumulative == if i == 0 then 0 else points[i - 1]
    {
      assert rows[..i + 1][..i] == rows[..i];
      cumulative := cumulative + Bytes(rows[i]);
      points := points + [cumulative];
    }
    assert rows[..|rows|] == rows;
    var n := |points|;
    TotalsAreSums(rows, n - 1);
    var denom := Denominator(n);
    assert denom > 0 by { DenominatorClosed(n); }
    if denom == 0 {
      return None;
    }
    var slope := Slope(Numerator(points), denom);
    if NonNegative(rows) {
      SlopeSign(rows);
    }
    if slope <= 0.0 {
      return None;
    }
    var lastCumulative := points[n - 1];
    if lastCumulative >= quota {
      return Some(0);
    }
    assert slope > 0.0;
    var days := Ceil((quota - lastCumulative) as real / slope);
    CeilIsLeast(lastCumulative, slope, quota, days);
    return Some(days);
  }
}
