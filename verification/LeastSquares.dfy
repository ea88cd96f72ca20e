/** Sums of numbers. */
module Totals {
  function Sum(s: seq<real>): real {
    if s == [] then 0.0 else Sum(s[..|s| - 1]) + s[|s| - 1]
  }

  lemma SumNext(s: seq<real>, i: nat)
    requires i < |s|
    ensures Sum(s[..i + 1]) == Sum(s[..i]) + s[i]
  {
    assert s[..i + 1][..i] == s[..i];
  }

  function Scaled(a: real, s: seq<real>): (t: seq<real>)
    ensures |t| == |s|
  {
    seq(|s|, i requires 0 <= i < |s| => a * s[i])
  }

  lemma ScaledAt(a: real, s: seq<real>, i: nat)
    requires i < |s|
    ensures Scaled(a, s)[i] == a * s[i]
  {
  }

  lemma Distributed(a: real, s: real, t: real)
    ensures a * (s + t) == a * s + a * t
  {
  }

  lemma {:induction false} SumScaled(a: real, s: seq<real>)
    ensures Sum(Scaled(a, s)) == a * Sum(s)
  {
    if s != [] {
      var n := |s| - 1;
      SumScaled(a, s[..n]);
      forall i | 0 <= i < n ensures Scaled(a, s)[..n][i] == Scaled(a, s[..n])[i] {
        ScaledAt(a, s, i);
        ScaledAt(a, s[..n], i);
      }
      assert Scaled(a, s)[..n] == Scaled(a, s[..n]);
      ScaledAt(a, s, n);
      Distributed(a, Sum(s[..n]), s[n]);
    }
  }

  lemma {:induction false} SumAdded(t: seq<real>, u: seq<real>, v: seq<real>, w: seq<real>, z: seq<real>)
    requires |t| == |u| == |v| == |w| == |z| && forall i :: 0 <= i < |t| ==> t[i] == u[i] + v[i] + w[i] + z[i]
    ensures Sum(t) == Sum(u) + Sum(v) + Sum(w) + Sum(z)
  {
    if t != [] {
      var n := |t| - 1;
      SumAdded(t[..n], u[..n], v[..n], w[..n], z[..n]);
    }
  }

  function Ones(n: nat): (s: seq<real>)
    ensures |s| == n && forall i :: 0 <= i < n ==> s[i] == 1.0
  {
    seq(n, i => 1.0)
  }

  lemma {:induction false} SumOnes(n: nat)
    ensures Sum(Ones(n)) == n as real
  {
    if n > 0 {
      SumOnes(n - 1);
      assert Ones(n)[..n - 1] == Ones(n - 1);
    }
  }

  lemma {:induction false} SumSign(t: seq<real>)
    requires forall i :: 0 <= i < |t| ==> t[i] >= 0.0
    ensures Sum(t) >= 0.0
    ensures Sum(t) > 0.0 <==> exists i :: 0 <= i < |t| && t[i] > 0.0
  {
    if t != [] {
      var n := |t| - 1;
      SumSign(t[..n]);
      if i :| 0 <= i < |t| && t[i] > 0.0 {
        assert i < n ==> t[..n][i] == t[i];
      }
    }
  }
}

/**
 * The least-squares line. fitSlope adds up five sums in one pass; what they mean is said here
 * by sums over all pairs of points and by the squared error of a line. Numbers are exact.
 */
module LeastSquares {
  import opened Totals

  datatype Point = Point(x: real, y: real)

  function Xs(points: seq<Point>): (s: seq<real>)
    ensures |s| == |points| && forall i :: 0 <= i < |points| ==> s[i] == points[i].x
  {
    seq(|points|, i requires 0 <= i < |points| => points[i].x)
  }

  function Ys(points: seq<Point>): (s: seq<real>)
    ensures |s| == |points| && forall i :: 0 <= i < |points| ==> s[i] == points[i].y
  {
    seq(|points|, i requires 0 <= i < |points| => points[i].y)
  }

  function Area(p: Point): real {
    p.x * p.y
  }

  function Areas(points: seq<Point>): (s: seq<real>)
    ensures |s| == |points| && forall i :: 0 <= i < |points| ==> s[i] == Area(points[i])
  {
    seq(|points|, i requires 0 <= i < |points| => Area(points[i]))
  }

  /** Each point with its y replaced by its x. */
  function Diagonal(points: seq<Point>): (d: seq<Point>)
    ensures |d| == |points| && forall i :: 0 <= i < |points| ==> d[i] == Point(points[i].x, points[i].x)
  {
    seq(|points|, i requires 0 <= i < |points| => Point(points[i].x, points[i].x))
  }

  /** n Sxy - Sx Sy */
  function Num(points: seq<Point>): real {
    |points| as real * Sum(Areas(points)) - Sum(Xs(points)) * Sum(Ys(points))
  }

  /** n Sxx - Sx Sx */
  function Den(points: seq<Point>): real {
    Num(Diagonal(points))
  }

  function Slope(points: seq<Point>): real {
    if Den(points) == 0.0 then 0.0 else Num(points) / Den(points)
  }

  // ---- Sums over pairs ----

  function Cross(q: Point, p: Point): real {
    (q.x - p.x) * (q.y - p.y)
  }

  function Crosses(points: seq<Point>, p: Point): (s: seq<real>)
    ensures |s| == |points| && forall i :: 0 <= i < |points| ==> s[i] == Cross(points[i], p)
  {
    seq(|points|, i requires 0 <= i < |points| => Cross(points[i], p))
  }

  /** The sum of (xi - xj)(yi - yj) over all i, for each j. */
  function Against(points: seq<Point>): (s: seq<real>)
    ensures |s| == |points| && forall j :: 0 <= j < |points| ==> s[j] == Sum(Crosses(points, points[j]))
  {
    seq(|points|, j requires 0 <= j < |points| => Sum(Crosses(points, points[j])))
  }

  /** The sum of (xi - xj)(yi - yj) over all i and j. */
  function Pairs(points: seq<Point>): real {
    Sum(Against(points))
  }

  lemma CrossIs(q: Point, p: Point)
    ensures Cross(q, p) == Area(q) + (-p.y) * q.x + (-p.x) * q.y + Area(p) * 1.0
  {
  }

  lemma AgainstIs(points: seq<Point>, p: Point)
    ensures Sum(Crosses(points, p))
      == Sum(Areas(points)) + (-p.y) * Sum(Xs(points)) + (-p.x) * Sum(Ys(points)) + Area(p) * |points| as real
  {
    hide Sum, Scaled, Cross, Area;
    var t, xs, ys, ones := Crosses(points, p), Xs(points), Ys(points), Ones(|points|);
    forall i | 0 <= i < |t|
      ensures t[i] == Areas(points)[i] + Scaled(-p.y, xs)[i] + Scaled(-p.x, ys)[i] + Scaled(Area(p), ones)[i]
    {
      CrossIs(points[i], p);
      ScaledAt(-p.y, xs, i);
      ScaledAt(-p.x, ys, i);
      ScaledAt(Area(p), ones, i);
    }
    SumAdded(t, Areas(points), Scaled(-p.y, xs), Scaled(-p.x, ys), Scaled(Area(p), ones));
    SumScaled(-p.y, xs);
    SumScaled(-p.x, ys);
    SumScaled(Area(p), ones);
    SumOnes(|points|);
  }

  lemma Regrouped(n: real, sx: real, sy: real, sxy: real)
    ensures sxy * n + (-sy) * sx + (-sx) * sy + n * sxy == 2.0 * (n * sxy - sx * sy)
  {
  }

  /** The numerator is half the sum over all pairs. */
  lemma NumeratorIsPairs(points: seq<Point>)
    ensures 2.0 * Num(points) == Pairs(points)
  {
    hide Sum, Scaled, Crosses, Area;
    var n, sx, sy, sxy := |points| as real, Sum(Xs(points)), Sum(Ys(points)), Sum(Areas(points));
    var t, xs, ys, xys, ones := Against(points), Xs(points), Ys(points), Areas(points), Ones(|points|);
    forall j | 0 <= j < |t|
      ensures t[j] == Scaled(sxy, ones)[j] + Scaled(-sy, xs)[j] + Scaled(-sx, ys)[j] + Scaled(n, xys)[j]
    {
      AgainstIs(points, points[j]);
      ScaledAt(sxy, ones, j);
      ScaledAt(-sy, xs, j);
      ScaledAt(-sx, ys, j);
      ScaledAt(n, xys, j);
    }
    SumAdded(t, Scaled(sxy, ones), Scaled(-sy, xs), Scaled(-sx, ys), Scaled(n, xys));
    SumScaled(sxy, ones);
    SumScaled(-sy, xs);
    SumScaled(-sx, ys);
    SumScaled(n, xys);
    SumOnes(|points|);
    Regrouped(n, sx, sy, sxy);
  }

  // ---- Signs ----

  /** x and y never fall along the points. */
  ghost predicate Climbing(points: seq<Point>) {
    forall i, j :: 0 <= i <= j < |points| ==> points[i].x <= points[j].x && points[i].y <= points[j].y
  }

  lemma CrossOfOrdered(q: Point, p: Point)
    requires (q.x <= p.x && q.y <= p.y) || (p.x <= q.x && p.y <= q.y)
    ensures Cross(q, p) >= 0.0
  {
  }

  lemma ClimbingPairs(points: seq<Point>)
    requires Climbing(points)
    ensures Pairs(points) >= 0.0
  {
    hide Sum, Cross;
    var t := Against(points);
    forall j | 0 <= j < |t| ensures t[j] >= 0.0 {
      var c := Crosses(points, points[j]);
      forall i | 0 <= i < |c| ensures c[i] >= 0.0 {
        assert i <= j || j <= i;
        CrossOfOrdered(points[i], points[j]);
      }
      SumSign(c);
    }
    SumSign(t);
  }

  ghost predicate Spread(points: seq<Point>) {
    exists i, j :: 0 <= i < |points| && 0 <= j < |points| && points[i].x != points[j].x
  }

  ghost predicate ApartFrom(points: seq<Point>, x: real) {
    exists i :: 0 <= i < |points| && points[i].x != x
  }

  function Square(r: real): real {
    r * r
  }

  lemma ProductOfNonzeros(a: real, b: real, p: real)
    requires a != 0.0 && b != 0.0 && p == a * b
    ensures p != 0.0
  {
    assert (a * b) / b == a;
  }

  lemma SquareSign(r: real)
    ensures Square(r) >= 0.0 && (Square(r) > 0.0 <==> r != 0.0)
  {
    if r != 0.0 {
      ProductOfNonzeros(r, r, Square(r));
    }
  }

  lemma CrossOfDiagonal(x: real, y: real)
    ensures Cross(Point(x, x), Point(y, y)) >= 0.0
    ensures Cross(Point(x, x), Point(y, y)) > 0.0 <==> x != y
  {
    SquareSign(x - y);
  }

  lemma SquaresAgainst(points: seq<Point>, j: nat)
    requires j < |points|
    ensures var s := Against(Diagonal(points))[j]; s >= 0.0 && (s > 0.0 <==> ApartFrom(points, points[j].x))
  {
    hide Sum, Cross;
    var d := Diagonal(points);
    var c := Crosses(d, d[j]);
    forall i | 0 <= i < |c| ensures c[i] >= 0.0 && (c[i] > 0.0 <==> points[i].x != points[j].x) {
      CrossOfDiagonal(points[i].x, points[j].x);
    }
    SumSign(c);
    if ApartFrom(points, points[j].x) {
      var i :| 0 <= i < |points| && points[i].x != points[j].x;
      assert c[i] > 0.0;
    }
  }

  /** The denominator is positive exactly when two points differ in x, and zero otherwise. */
  lemma DenominatorSign(points: seq<Point>)
    ensures Den(points) >= 0.0
    ensures Den(points) > 0.0 <==> Spread(points)
  {
    hide Sum, Num, Against;
    var t := Against(Diagonal(points));
    NumeratorIsPairs(Diagonal(points));
    forall j | 0 <= j < |t| ensures t[j] >= 0.0 && (t[j] > 0.0 <==> ApartFrom(points, points[j].x)) {
      SquaresAgainst(points, j);
    }
    SumSign(t);
    if Spread(points) {
      var i, j :| 0 <= i < |points| && 0 <= j < |points| && points[i].x != points[j].x;
      assert ApartFrom(points, points[j].x);
      assert t[j] > 0.0;
    }
  }

  lemma Ratio(a: real, b: real)
    requires a >= 0.0 && b > 0.0
    ensures a / b >= 0.0
  {
  }

  /** What doesn't fall has no falling slope. */
  lemma ClimbingSlope(points: seq<Point>)
    requires Climbing(points)
    ensures Slope(points) >= 0.0
  {
    hide Num, Den, Pairs;
    NumeratorIsPairs(points);
    ClimbingPairs(points);
    DenominatorSign(points);
    if Den(points) != 0.0 {
      Ratio(Num(points), Den(points));
    }
  }

  // ---- Shifts and straight lines ----

  function Shifted(points: seq<Point>, dx: real, dy: real): (s: seq<Point>)
    ensures |s| == |points| && forall i :: 0 <= i < |points| ==> s[i] == Point(points[i].x + dx, points[i].y + dy)
  {
    seq(|points|, i requires 0 <= i < |points| => Point(points[i].x + dx, points[i].y + dy))
  }

  lemma CrossShifted(q: Point, p: Point, dx: real, dy: real)
    ensures Cross(Point(q.x + dx, q.y + dy), Point(p.x + dx, p.y + dy)) == Cross(q, p)
  {
  }

  lemma ShiftedPairs(points: seq<Point>, dx: real, dy: real)
    ensures Pairs(Shifted(points, dx, dy)) == Pairs(points)
  {
    hide Sum, Cross;
    var s := Shifted(points, dx, dy);
    forall j | 0 <= j < |points| ensures Against(s)[j] == Against(points)[j] {
      forall i | 0 <= i < |points| ensures Crosses(s, s[j])[i] == Crosses(points, points[j])[i] {
        CrossShifted(points[i], points[j], dx, dy);
      }
      assert Crosses(s, s[j]) == Crosses(points, points[j]);
    }
    assert Against(s) == Against(points);
  }

  /** The slope depends neither on where time starts nor on how much space there is. */
  lemma SlopeIgnoresShifts(points: seq<Point>, dx: real, dy: real)
    ensures Slope(Shifted(points, dx, dy)) == Slope(points)
  {
    hide Num, Pairs;
    var s := Shifted(points, dx, dy);
    NumeratorIsPairs(points);
    NumeratorIsPairs(s);
    ShiftedPairs(points, dx, dy);
    assert Diagonal(s) == Shifted(Diagonal(points), dx, dx);
    NumeratorIsPairs(Diagonal(points));
    NumeratorIsPairs(Diagonal(s));
    ShiftedPairs(Diagonal(points), dx, dx);
  }

  function At(a: real, b: real, x: real): real {
    a + b * x
  }

  ghost predicate OnLine(points: seq<Point>, a: real, b: real) {
    forall i :: 0 <= i < |points| ==> points[i].y == At(a, b, points[i].x)
  }

  lemma CrossOnLine(q: Point, p: Point, a: real, b: real)
    requires p.y == At(a, b, p.x) && q.y == At(a, b, q.x)
    ensures Cross(q, p) == b * Cross(Point(q.x, q.x), Point(p.x, p.x))
  {
    var d := q.x - p.x;
    assert q.y - p.y == b * d;
    assert d * (b * d) == b * (d * d);
  }

  lemma OnLinePairs(points: seq<Point>, a: real, b: real)
    requires OnLine(points, a, b)
    ensures Pairs(points) == b * Pairs(Diagonal(points))
  {
    hide Sum, Cross, At, Scaled;
    var d := Diagonal(points);
    forall j | 0 <= j < |points| ensures Against(points)[j] == Scaled(b, Against(d))[j] {
      var c := Crosses(d, d[j]);
      forall i | 0 <= i < |points| ensures Crosses(points, points[j])[i] == Scaled(b, c)[i] {
        CrossOnLine(points[i], points[j], a, b);
        ScaledAt(b, c, i);
      }
      assert Crosses(points, points[j]) == Scaled(b, c);
      SumScaled(b, c);
      ScaledAt(b, Against(d), j);
    }
    assert Against(points) == Scaled(b, Against(d));
    SumScaled(b, Against(d));
  }

  lemma Divided(n: real, d: real, b: real)
    requires 2.0 * n == b * (2.0 * d) && d != 0.0
    ensures n / d == b
  {
  }

  /** On a straight line the slope is the line's. */
  lemma SlopeOfLine(points: seq<Point>, a: real, b: real)
    requires OnLine(points, a, b) && Spread(points)
    ensures Slope(points) == b
  {
    hide Num, Pairs;
    NumeratorIsPairs(points);
    NumeratorIsPairs(Diagonal(points));
    DenominatorSign(points);
    OnLinePairs(points, a, b);
    Divided(Num(points), Den(points), b);
  }

  // ---- Least squares ----

  function Residual(p: Point, a: real, b: real): real {
    p.y - At(a, b, p.x)
  }

  function Residuals(points: seq<Point>, a: real, b: real): (s: seq<real>)
    ensures |s| == |points| && forall i :: 0 <= i < |points| ==> s[i] == Residual(points[i], a, b)
  {
    seq(|points|, i requires 0 <= i < |points| => Residual(points[i], a, b))
  }

  function Squares(s: seq<real>): (q: seq<real>)
    ensures |q| == |s| && forall i :: 0 <= i < |s| ==> q[i] == Square(s[i])
  {
    seq(|s|, i requires 0 <= i < |s| => Square(s[i]))
  }

  /** The squared error of the line a + b x. */
  function Error(points: seq<Point>, a: real, b: real): real {
    Sum(Squares(Residuals(points, a, b)))
  }

  /** The line goes through the middle of the points. */
  function Intercept(points: seq<Point>): real
    requires points != []
  {
    (Sum(Ys(points)) - Slope(points) * Sum(Xs(points))) / |points| as real
  }

  /** The residuals, weighted by x. */
  function Leverage(p: Point, a: real, b: real): real {
    p.x * Residual(p, a, b)
  }

  function Leverages(points: seq<Point>, a: real, b: real): (s: seq<real>)
    ensures |s| == |points| && forall i :: 0 <= i < |points| ==> s[i] == Leverage(points[i], a, b)
  {
    seq(|points|, i requires 0 <= i < |points| => Leverage(points[i], a, b))
  }

  lemma ResidualIs(p: Point, a: real, b: real)
    ensures Residual(p, a, b) == p.y + (-b) * p.x + (-a) * 1.0
    ensures Leverage(p, a, b) == Area(p) + (-b) * Area(Point(p.x, p.x)) + (-a) * p.x
  {
    assert p.x * (b * p.x) == b * (p.x * p.x);
  }

  lemma ResidualsAddUp(points: seq<Point>, a: real, b: real)
    ensures Sum(Residuals(points, a, b)) == Sum(Ys(points)) + (-b) * Sum(Xs(points)) + (-a) * |points| as real
  {
    hide Sum, Scaled, Residual, Leverage, Area;
    var t, xs, ys, ones := Residuals(points, a, b), Xs(points), Ys(points), Ones(|points|);
    forall i | 0 <= i < |t| ensures t[i] == ys[i] + Scaled(-b, xs)[i] + Scaled(-a, ones)[i] + Scaled(0.0, ones)[i] {
      ResidualIs(points[i], a, b);
      ScaledAt(-b, xs, i);
      ScaledAt(-a, ones, i);
      ScaledAt(0.0, ones, i);
    }
    SumAdded(t, ys, Scaled(-b, xs), Scaled(-a, ones), Scaled(0.0, ones));
    SumScaled(-b, xs);
    SumScaled(-a, ones);
    SumScaled(0.0, ones);
    SumOnes(|points|);
  }

  lemma LeveragesAddUp(points: seq<Point>, a: real, b: real)
    ensures Sum(Leverages(points, a, b))
      == Sum(Areas(points)) + (-b) * Sum(Areas(Diagonal(points))) + (-a) * Sum(Xs(points))
  {
    hide Sum, Scaled, Residual, Leverage, Area;
    var t, xs, xys, xxs := Leverages(points, a, b), Xs(points), Areas(points), Areas(Diagonal(points));
    forall i | 0 <= i < |t| ensures t[i] == xys[i] + Scaled(-b, xxs)[i] + Scaled(-a, xs)[i] + Scaled(0.0, xs)[i] {
      ResidualIs(points[i], a, b);
      ScaledAt(-b, xxs, i);
      ScaledAt(-a, xs, i);
      ScaledAt(0.0, xs, i);
    }
    SumAdded(t, xys, Scaled(-b, xxs), Scaled(-a, xs), Scaled(0.0, xs));
    SumScaled(-b, xxs);
    SumScaled(-a, xs);
    SumScaled(0.0, xs);
  }

  lemma Eliminated(n: real, sx: real, sy: real, sxx: real, sxy: real, a: real, b: real)
    requires n > 0.0 && b * (n * sxx - sx * sx) == n * sxy - sx * sy && a * n == sy - b * sx
    ensures sxy + (-b) * sxx + (-a) * sx == 0.0
  {
    var w := sxy + (-b) * sxx + (-a) * sx;
    assert n * w == n * sxy - b * (n * sxx) - (a * n) * sx;
    assert (a * n) * sx == sy * sx - b * (sx * sx);
    assert b * (n * sxx - sx * sx) == b * (n * sxx) - b * (sx * sx);
    assert n * w == 0.0;
  }

  lemma Multiplied(n: real, d: real)
    requires d != 0.0
    ensures (n / d) * d == n
  {
  }

  lemma DenIs(points: seq<Point>)
    ensures Den(points) == |points| as real * Sum(Areas(Diagonal(points))) - Sum(Xs(points)) * Sum(Xs(points))
  {
    hide Sum, Area;
    assert Xs(Diagonal(points)) == Xs(points) && Ys(Diagonal(points)) == Xs(points);
  }

  /** At the fitted line the residuals cancel, plain and weighted by x. */
  lemma NormalEquations(points: seq<Point>)
    requires Spread(points)
    ensures var a, b := Intercept(points), Slope(points);
      Sum(Residuals(points, a, b)) == 0.0 && Sum(Leverages(points, a, b)) == 0.0
  {
    hide Sum, Area, Residual, Leverage, Den;
    var a, b := Intercept(points), Slope(points);
    var n, sx, sy := |points| as real, Sum(Xs(points)), Sum(Ys(points));
    DenominatorSign(points);
    ResidualsAddUp(points, a, b);
    LeveragesAddUp(points, a, b);
    DenIs(points);
    Multiplied(Num(points), Den(points));
    Multiplied(sy - b * sx, n);
    Eliminated(n, sx, sy, Sum(Areas(Diagonal(points))), Sum(Areas(points)), a, b);
  }

  lemma ResidualOfAnother(p: Point, a: real, b: real, a': real, b': real)
    ensures Square(Residual(p, a', b'))
      == Square(Residual(p, a, b)) + (-2.0 * (a' - a)) * Residual(p, a, b) + (-2.0 * (b' - b)) * Leverage(p, a, b)
           + Square(At(a' - a, b' - b, p.x))
  {
    var r, u, da, db := Residual(p, a, b), At(a' - a, b' - b, p.x), a' - a, b' - b;
    assert Residual(p, a', b') == r - u by {
      assert (b' - b) * p.x == b' * p.x - b * p.x;
    }
    SquareOfDifference(r, p.x, u, da, db);
  }

  lemma SquareOfDifference(r: real, x: real, u: real, da: real, db: real)
    requires u == da + db * x
    ensures (r - u) * (r - u) == r * r + (-2.0 * da) * r + (-2.0 * db) * (x * r) + u * u
  {
    assert u * r == da * r + db * (x * r);
  }

  /** Where the residuals cancel, no other line has a smaller squared error. */
  lemma ErrorOfAnother(points: seq<Point>, a: real, b: real, a': real, b': real)
    requires Sum(Residuals(points, a, b)) == 0.0 && Sum(Leverages(points, a, b)) == 0.0
    ensures Error(points, a', b') >= Error(points, a, b)
  {
    hide Sum, Scaled, Residual, Leverage, Square, At;
    var n, da, db := |points|, -2.0 * (a' - a), -2.0 * (b' - b);
    var r, l := Residuals(points, a, b), Leverages(points, a, b);
    var t := Squares(Residuals(points, a', b'));
    var u := seq(n, i requires 0 <= i < n => Square(At(a' - a, b' - b, points[i].x)));
    forall i | 0 <= i < n ensures t[i] == Squares(r)[i] + Scaled(da, r)[i] + Scaled(db, l)[i] + u[i] {
      ResidualOfAnother(points[i], a, b, a', b');
      ScaledAt(da, r, i);
      ScaledAt(db, l, i);
    }
    SumAdded(t, Squares(r), Scaled(da, r), Scaled(db, l), u);
    SumScaled(da, r);
    SumScaled(db, l);
    assert Sum(Scaled(da, r)) == 0.0 && Sum(Scaled(db, l)) == 0.0;
    forall i | 0 <= i < n ensures u[i] >= 0.0 {
      SquareSign(At(a' - a, b' - b, points[i].x));
    }
    SumSign(u);
  }

  /** No line fits better than the one with this slope. */
  lemma SlopeIsLeastSquares(points: seq<Point>, a: real, b: real)
    requires Spread(points)
    ensures Error(points, Intercept(points), Slope(points)) <= Error(points, a, b)
  {
    hide Error, Slope, Intercept, Sum;
    NormalEquations(points);
    ErrorOfAnother(points, Intercept(points), Slope(points), a, b);
  }
}
