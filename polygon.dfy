/** Polygon helpers used by polygon-shaped annotations: the signed shoelace
    area, the orientation test built on it, the area-weighted centroid and the
    per-vertex expansion along the centroid->vertex axis.

    A polygon is an ordered sequence of vertices read as a closed loop: vertex
    i is always paired with the vertex before it, and vertex 0 with the last
    one. Coordinates are exact reals. */
module Geom {

  datatype Point = Point(x: real, y: real)

  /** The polygon record: it only stores its ordered vertices. */
  datatype Polygon = Polygon(points: seq<Point>)

  function Abs(v: real): real {
    if v < 0.0 then -v else v
  }

  /** 1, -1 or 0, as the source's nested conditional computes it. */
  function Sign(v: real): real {
    if v > 0.0 then 1.0 else if v < 0.0 then -1.0 else 0.0
  }

  /** Math.pow(v, 2). */
  function Pow2(v: real): real {
    v * v
  }

  /** Squared Euclidean distance. */
  function Dist2(a: Point, b: Point): real {
    Pow2(a.x - b.x) + Pow2(a.y - b.y)
  }

  // ---------------------------------------------------------------------------
  // Sums over the edges of the wrap-around loop
  // ---------------------------------------------------------------------------

  /** The three quantities the loops accumulate, one term per edge. */
  datatype Quantity = Area2 | MomentX | MomentY

  function Cross(a: Point, b: Point): real {
    a.x * b.y - b.x * a.y
  }

  /** The term of the edge from `prev` (the trailing index j) to `cur` (index i). */
  function Term(q: Quantity, prev: Point, cur: Point): real {
    match q
    case Area2 => (prev.x + cur.x) * (prev.y - cur.y)
    case MomentX => (cur.x + prev.x) * Cross(cur, prev)
    case MomentY => (cur.y + prev.y) * Cross(cur, prev)
  }

  /** Sum of the terms of the open path s[0] -> s[1] -> ... -> s[|s|-1]. */
  function PathSum(q: Quantity, s: seq<Point>): real
    decreases |s|
  {
    if |s| < 2 then 0.0 else Term(q, s[0], s[1]) + PathSum(q, s[1..])
  }

  /** Sum of the terms of the closed loop: the path plus the closing edge
      from the last vertex back to the first. */
  function LoopSum(q: Quantity, s: seq<Point>): real {
    if s == [] then 0.0 else Term(q, s[|s| - 1], s[0]) + PathSum(q, s)
  }

  /** What the source's loops have accumulated after their first i iterations. */
  function PrefixSum(q: Quantity, s: seq<Point>, i: nat): real
    requires i <= |s|
  {
    if i == 0 then 0.0 else Term(q, s[|s| - 1], s[0]) + PathSum(q, s[..i])
  }

  /** The trailing index j of iteration i: the previous vertex, wrapping at 0. */
  function Prev(n: nat, i: nat): nat
    requires i < n
  {
    if i == 0 then n - 1 else i - 1
  }

  /** Reversing an edge negates its term, for each of the three quantities. */
  lemma TermAntisymmetric(q: Quantity, a: Point, b: Point)
    ensures Term(q, b, a) == -Term(q, a, b)
  {
    match q
    case Area2 =>
    case MomentX =>
      assert Cross(a, b) == -Cross(b, a);
    case MomentY =>
      assert Cross(a, b) == -Cross(b, a);
  }

  /** Appending a vertex to a path adds the term of the new last edge. */
  lemma {:induction false} PathSumSnoc(q: Quantity, s: seq<Point>, p: Point)
    requires |s| >= 1
    ensures PathSum(q, s + [p]) == PathSum(q, s) + Term(q, s[|s| - 1], p)
    decreases |s|
  {
    if |s| == 1 {
      assert (s + [p])[1..] == [p];
    } else {
      assert (s + [p])[1..] == s[1..] + [p];
      PathSumSnoc(q, s[1..], p);
    }
  }

  /** One iteration of the source's loop adds the term of edge Prev(i) -> i. */
  lemma PrefixSumStep(q: Quantity, s: seq<Point>, i: nat)
    requires i < |s|
    ensures PrefixSum(q, s, i + 1) == PrefixSum(q, s, i) + Term(q, s[Prev(|s|, i)], s[i])
  {
    if i == 0 {
      assert |s[..1]| == 1;
    } else {
      assert s[..i + 1] == s[..i] + [s[i]];
      PathSumSnoc(q, s[..i], s[i]);
    }
  }

  /** After the last iteration the accumulator holds the whole loop sum. */
  lemma PrefixSumComplete(q: Quantity, s: seq<Point>)
    ensures PrefixSum(q, s, |s|) == LoopSum(q, s)
  {
    assert s[..|s|] == s;
  }

  function Reverse(s: seq<Point>): (r: seq<Point>)
    ensures |r| == |s|
  {
    seq(|s|, k requires 0 <= k < |s| => s[|s| - 1 - k])
  }

  /** The vertices rotated left by k: vertex k becomes the first one. */
  function Rotate(s: seq<Point>, k: nat): (r: seq<Point>)
    requires k <= |s|
    ensures |r| == |s|
  {
    s[k..] + s[..k]
  }

  /** Walking a path backwards negates its sum. */
  lemma {:induction false} PathSumReverse(q: Quantity, s: seq<Point>)
    ensures PathSum(q, Reverse(s)) == -PathSum(q, s)
    decreases |s|
  {
    if |s| >= 2 {
      var t := s[1..];
      assert Reverse(s) == Reverse(t) + [s[0]];
      PathSumReverse(q, t);
      PathSumSnoc(q, Reverse(t), s[0]);
      TermAntisymmetric(q, s[0], s[1]);
    }
  }

  /** Walking the closed loop backwards negates its sum. */
  lemma LoopSumReverse(q: Quantity, s: seq<Point>)
    ensures LoopSum(q, Reverse(s)) == -LoopSum(q, s)
  {
    if s != [] {
      PathSumReverse(q, s);
      TermAntisymmetric(q, s[|s| - 1], s[0]);
    }
  }

  /** Moving the first vertex to the end leaves the loop sum unchanged. */
  lemma LoopSumRotateOne(q: Quantity, s: seq<Point>)
    requires s != []
    ensures LoopSum(q, Rotate(s, 1)) == LoopSum(q, s)
  {
    var u := s[1..];
    if u == [] {
      assert Rotate(s, 1) == s;
    } else {
      assert Rotate(s, 1) == u + [s[0]];
      PathSumSnoc(q, u, s[0]);
      assert PathSum(q, s) == Term(q, s[0], u[0]) + PathSum(q, u);
    }
  }

  /** Starting the loop at any vertex leaves its sum unchanged. */
  lemma {:induction false} LoopSumRotate(q: Quantity, s: seq<Point>, k: nat)
    requires k <= |s|
    ensures LoopSum(q, Rotate(s, k)) == LoopSum(q, s)
    decreases k
  {
    if k == 0 {
      assert Rotate(s, 0) == s;
    } else {
      LoopSumRotate(q, s, k - 1);
      var r := Rotate(s, k - 1);
      assert Rotate(s, k) == Rotate(r, 1);
      LoopSumRotateOne(q, r);
    }
  }

  // ---------------------------------------------------------------------------
  // computeArea and isClockwise
  // ---------------------------------------------------------------------------

  /** The signed area: half the loop sum of (x_j + x_i) * (y_j - y_i). */
  function Area(points: seq<Point>): real {
    LoopSum(Area2, points) / 2.0
  }

  /** computeArea: the loop with j trailing i, starting at length - 1. */
  method ComputeArea(points: seq<Point>) returns (r: real)
    ensures r == Area(points)
  {
    var area := 0.0;
    var j := |points| - 1;
    var i := 0;
    while i < |points|
      invariant 0 <= i <= |points|
      invariant i < |points| ==> j == Prev(|points|, i)
      invariant area == PrefixSum(Area2, points, i)
    {
      area := area + (points[j].x + points[i].x) * (points[j].y - points[i].y);
      PrefixSumStep(Area2, points, i);
      j := i;
      i := i + 1;
    }
    PrefixSumComplete(Area2, points);
    r := area / 2.0;
  }

  /** Fewer than three vertices enclose no area: with one vertex the closing
      edge is degenerate, with two the two edges cancel. */
  lemma AreaDegenerate(points: seq<Point>)
    requires |points| < 3
    ensures Area(points) == 0.0
  {
    if |points| == 1 {
      TermAntisymmetric(Area2, points[0], points[0]);
    } else if |points| == 2 {
      assert points[1..] == [points[1]];
      assert PathSum(Area2, points) == Term(Area2, points[0], points[1]);
      TermAntisymmetric(Area2, points[0], points[1]);
      assert LoopSum(Area2, points) == 0.0;
    }
  }

  /** Reversing the vertex order negates the signed area. */
  lemma AreaReverse(points: seq<Point>)
    ensures Area(Reverse(points)) == -Area(points)
  {
    LoopSumReverse(Area2, points);
  }

  /** Starting the loop at another vertex leaves the signed area unchanged. */
  lemma AreaRotate(points: seq<Point>, k: nat)
    requires k <= |points|
    ensures Area(Rotate(points, k)) == Area(points)
  {
    LoopSumRotate(Area2, points, k);
  }

  /** A polygon with non-zero area has at least three vertices. */
  lemma AreaNonZeroSize(points: seq<Point>)
    ensures Area(points) != 0.0 ==> 3 <= |points|
  {
    if |points| < 3 {
      AreaDegenerate(points);
    }
  }

  /** isClockwise: a strict sign test on the signed area. A polygon reported
      clockwise has at least three vertices, and exactly these polygons have
      a reverse of negative area. */
  function IsClockwise(points: seq<Point>): (r: bool)
    ensures r ==> 3 <= |points|
    ensures r <==> Area(Reverse(points)) < 0.0
  {
    AreaReverse(points);
    AreaNonZeroSize(points);
    Area(points) > 0.0
  }

  /** Fewer than three vertices are never reported clockwise. */
  lemma DegenerateNotClockwise(points: seq<Point>)
    requires |points| < 3
    ensures !IsClockwise(points)
  {
    AreaDegenerate(points);
  }

  /** Reversing a polygon of non-zero area flips the orientation test; a
      zero-area polygon stays not clockwise. */
  lemma ClockwiseReverse(points: seq<Point>)
    ensures Area(points) != 0.0 ==> IsClockwise(Reverse(points)) == !IsClockwise(points)
    ensures Area(points) == 0.0 ==> !IsClockwise(Reverse(points)) && !IsClockwise(points)
  {
    AreaReverse(points);
  }

  /** The loop sum of four vertices, written out edge by edge. */
  lemma LoopSumOfFour(q: Quantity, a: Point, b: Point, c: Point, d: Point)
    ensures LoopSum(q, [a, b, c, d]) == Term(q, d, a) + Term(q, a, b) + Term(q, b, c) + Term(q, c, d)
  {
    var s := [a, b, c, d];
    assert s[1..] == [b, c, d] && [b, c, d][1..] == [c, d] && [c, d][1..] == [d];
    assert PathSum(q, [c, d]) == Term(q, c, d);
    assert PathSum(q, [b, c, d]) == Term(q, b, c) + Term(q, c, d);
  }

  /** The square (0,0), (a,0), (a,a), (0,a) in this order. */
  function Square(a: real): seq<Point> {
    [Point(0.0, 0.0), Point(a, 0.0), Point(a, a), Point(0.0, a)]
  }

  /** The code's sign convention: this square has area -a^2 and is not
      reported clockwise; its reverse has area a^2 and is. */
  lemma SquareArea(a: real)
    ensures Area(Square(a)) == -Pow2(a)
    ensures Area(Reverse(Square(a))) == Pow2(a)
    ensures a != 0.0 ==> !IsClockwise(Square(a)) && IsClockwise(Reverse(Square(a)))
  {
    LoopSumOfFour(Area2, Point(0.0, 0.0), Point(a, 0.0), Point(a, a), Point(0.0, a));
    AreaReverse(Square(a));
    if a != 0.0 {
      Pow2Positive(a);
    }
  }

  // ---------------------------------------------------------------------------
  // computeCentroid
  // ---------------------------------------------------------------------------

  /** The centroid formula of the source: each moment divided by 6 * area,
      and the absolute value taken of each coordinate separately. */
  function Centroid(points: seq<Point>): Point
    requires Area(points) != 0.0
  {
    var f := Area(points) * 6.0;
    Point(Abs(LoopSum(MomentX, points) / f), Abs(LoopSum(MomentY, points) / f))
  }

  /** computeCentroid: the moment loop, then the division by 6 * computeArea. */
  method ComputeCentroid(points: seq<Point>) returns (c: Point)
    requires Area(points) != 0.0
    ensures c == Centroid(points)
    ensures 0.0 <= c.x && 0.0 <= c.y
  {
    var x := 0.0;
    var y := 0.0;
    var f: real;
    var j := |points| - 1;
    var i := 0;
    while i < |points|
      invariant 0 <= i <= |points|
      invariant i < |points| ==> j == Prev(|points|, i)
      invariant x == PrefixSum(MomentX, points, i)
      invariant y == PrefixSum(MomentY, points, i)
    {
      f := points[i].x * points[j].y - points[j].x * points[i].y;
      MomentStep(points, i, j, f);
      x := x + (points[i].x + points[j].x) * f;
      y := y + (points[i].y + points[j].y) * f;
      j := i;
      i := i + 1;
    }
    PrefixSumComplete(MomentX, points);
    PrefixSumComplete(MomentY, points);
    var area := ComputeArea(points);
    f := area * 6.0;
    c := Point(Abs(x / f), Abs(y / f));
  }

  /** One iteration of computeCentroid's loop, with f the cross term of
      vertex i and its trailing vertex j. */
  lemma MomentStep(points: seq<Point>, i: nat, j: int, f: real)
    requires i < |points| && j == Prev(|points|, i)
    requires f == points[i].x * points[j].y - points[j].x * points[i].y
    ensures PrefixSum(MomentX, points, i + 1)
         == PrefixSum(MomentX, points, i) + (points[i].x + points[j].x) * f
    ensures PrefixSum(MomentY, points, i + 1)
         == PrefixSum(MomentY, points, i) + (points[i].y + points[j].y) * f
  {
    PrefixSumStep(MomentX, points, i);
    PrefixSumStep(MomentY, points, i);
  }

  /** The centroid from the values of the area and the two moments. */
  lemma CentroidFrom(points: seq<Point>, area: real, mx: real, my: real)
    requires Area(points) == area && area != 0.0
    requires LoopSum(MomentX, points) == mx && LoopSum(MomentY, points) == my
    ensures Centroid(points) == Point(Abs(mx / (area * 6.0)), Abs(my / (area * 6.0)))
  {
  }

  /** The centroid does not depend on the orientation: reversing the vertices
      negates both moments and the area. */
  lemma CentroidReverse(points: seq<Point>)
    requires Area(points) != 0.0
    ensures Area(Reverse(points)) != 0.0 && Centroid(Reverse(points)) == Centroid(points)
  {
    AreaReverse(points);
    LoopSumReverse(MomentX, points);
    LoopSumReverse(MomentY, points);
    var f := Area(points) * 6.0;
    assert LoopSum(MomentX, points) / f == -LoopSum(MomentX, points) / -f;
    assert LoopSum(MomentY, points) / f == -LoopSum(MomentY, points) / -f;
  }

  /** The centroid does not depend on which vertex the loop starts at. */
  lemma CentroidRotate(points: seq<Point>, k: nat)
    requires Area(points) != 0.0 && k <= |points|
    ensures Area(Rotate(points, k)) != 0.0 && Centroid(Rotate(points, k)) == Centroid(points)
  {
    AreaRotate(points, k);
    LoopSumRotate(MomentX, points, k);
    LoopSumRotate(MomentY, points, k);
  }

  /** The square's two moments, edge by edge. */
  lemma SquareMoments(a: real)
    ensures LoopSum(MomentX, Square(a)) == -3.0 * a * Pow2(a)
    ensures LoopSum(MomentY, Square(a)) == -3.0 * a * Pow2(a)
  {
    LoopSumOfFour(MomentX, Point(0.0, 0.0), Point(a, 0.0), Point(a, a), Point(0.0, a));
    LoopSumOfFour(MomentY, Point(0.0, 0.0), Point(a, 0.0), Point(a, a), Point(0.0, a));
  }

  /** The square's centre is (a/2, a/2); the per-coordinate absolute value
      reports (|a|/2, |a|/2), which differs from it when a < 0. */
  lemma SquareCentroid(a: real)
    requires a != 0.0
    ensures Area(Square(a)) != 0.0
    ensures Centroid(Square(a)) == Point(Abs(a) / 2.0, Abs(a) / 2.0)
  {
    SquareArea(a);
    SquareMoments(a);
    Pow2Positive(a);
    var m := -3.0 * a * Pow2(a);
    var f := -Pow2(a) * 6.0;
    assert m == (a / 2.0) * f;
    CentroidFrom(Square(a), -Pow2(a), m, m);
  }

  // ---------------------------------------------------------------------------
  // _expandTriangle, shiftAlongAxis and expandPolygon
  // ---------------------------------------------------------------------------

  /** What Math.sqrt is relied on for: the non-negative square root of a
      non-negative argument. */
  ghost predicate IsSqrt(sqrt: real -> real) {
    forall v :: 0.0 <= v ==> 0.0 <= sqrt(v) && Pow2(sqrt(v)) == v
  }

  /** shiftAlongAxis: solve for a displacement of length |delta| with the
      ratio axis.x / axis.y, then apply its absolute components with the signs
      of the axis. */
  function ShiftAlongAxis(p: Point, c: Point, delta: real, sqrt: real -> real): (r: Point)
    requires p.y != c.y
    // each coordinate moves by a non-negative amount in the direction of the
    // sign of that axis component, and not at all when that component is 0
    ensures r.x - p.x == Abs(r.x - p.x) * Sign(p.x - c.x)
    ensures r.y - p.y == Abs(r.y - p.y) * Sign(p.y - c.y)
  {
    var ax, ay := p.x - c.x, p.y - c.y;  // the axis centroid -> vertex
    var dy := sqrt(Pow2(delta) / (1.0 + Pow2(ax / ay)));
    var dx := (ax / ay) * dy;
    Point(p.x + Abs(dx) * Sign(ax), p.y + Abs(dy) * Sign(ay))
  }

  // Facts about squares are proved for Pow2 once. The product lemma keeps
  // its two factors apart, as a square of one term is not always matched
  // with the unfolded Pow2 of that term.

  function Product(a: real, b: real): real {
    a * b
  }

  lemma ProductPositive(a: real, b: real)
    requires a > 0.0 && b > 0.0
    ensures Product(a, b) > 0.0
  {
  }

  lemma Pow2Even(v: real)
    ensures Pow2(-v) == Pow2(v)
  {
  }

  lemma Pow2Positive(v: real)
    requires v != 0.0
    ensures Pow2(v) > 0.0
  {
    var a := Abs(v);
    ProductPositive(a, a);
    assert Pow2(a) == Product(a, a);
    Pow2Even(v);
  }

  lemma Pow2NonNegative(v: real)
    ensures Pow2(v) >= 0.0
  {
    if v != 0.0 {
      Pow2Positive(v);
    }
  }

  lemma Pow2Zero(v: real)
    requires Pow2(v) == 0.0
    ensures v == 0.0
  {
    if v != 0.0 {
      Pow2Positive(v);
    }
  }

  lemma Pow2Product(a: real, b: real)
    ensures Pow2(a * b) == Pow2(a) * Pow2(b)
  {
  }

  lemma Pow2Sum(a: real, b: real)
    ensures Pow2(a + b) == Pow2(a) + 2.0 * (a * b) + Pow2(b)
  {
  }

  /** A magnitude |v| carried with the sign of w has the square of v, when
      w is 0 only for v == 0. */
  lemma Pow2SignedMagnitude(v: real, w: real)
    requires w == 0.0 ==> v == 0.0
    ensures Pow2(Abs(v) * Sign(w)) == Pow2(v)
  {
    Pow2Even(v);
    if w > 0.0 {
      assert Abs(v) * Sign(w) == Abs(v);
    } else if w < 0.0 {
      assert Abs(v) * Sign(w) == -Abs(v);
      Pow2Even(Abs(v));
    } else {
      assert Abs(v) * Sign(w) == 0.0;
    }
  }

  lemma ProductNonNegative(a: real, b: real)
    requires a >= 0.0 && b >= 0.0
    ensures a * b >= 0.0
  {
  }

  lemma DivisionInverse(a: real, b: real)
    requires b != 0.0
    ensures (a / b) * b == a
  {
  }

  /** The vertical displacement solves dy^2 * (1 + ratio^2) == delta^2. */
  lemma RiseSolves(ratio: real, delta: real, sqrt: real -> real)
    requires IsSqrt(sqrt)
    ensures var dy := sqrt(Pow2(delta) / (1.0 + Pow2(ratio)));
      0.0 <= dy && Pow2(dy) * (1.0 + Pow2(ratio)) == Pow2(delta)
  {
    Pow2NonNegative(ratio);
    Pow2NonNegative(delta);
    var n := 1.0 + Pow2(ratio);
    var v := Pow2(delta) / n;
    DivisionInverse(Pow2(delta), n);
    assert Pow2(sqrt(v)) == v;
  }

  /** The values the shift is built from, named as in the source. */
  lemma ShiftParts(p: Point, c: Point, delta: real, sqrt: real -> real)
      returns (ax: real, ay: real, ratio: real, dy: real, dx: real)
    requires IsSqrt(sqrt) && p.y != c.y
    ensures ax == p.x - c.x && ay == p.y - c.y && ay != 0.0
    ensures ratio == ax / ay && ratio * ay == ax
    ensures 0.0 <= dy && Pow2(dy) * (1.0 + Pow2(ratio)) == Pow2(delta)
    ensures dx == ratio * dy
    ensures ShiftAlongAxis(p, c, delta, sqrt)
         == Point(p.x + Abs(dx) * Sign(ax), p.y + Abs(dy) * Sign(ay))
  {
    ax, ay := p.x - c.x, p.y - c.y;
    ratio := ax / ay;
    DivisionInverse(ax, ay);
    RiseSolves(ratio, delta, sqrt);
    dy := sqrt(Pow2(delta) / (1.0 + Pow2(ratio)));
    dx := ratio * dy;
  }

  /** The displacement has Euclidean length |delta|: dx^2 + dy^2 == delta^2. */
  lemma ShiftLength(p: Point, c: Point, delta: real, sqrt: real -> real)
    requires IsSqrt(sqrt) && p.y != c.y
    ensures Dist2(ShiftAlongAxis(p, c, delta, sqrt), p) == Pow2(delta)
  {
    var ax, ay, ratio, dy, dx := ShiftParts(p, c, delta, sqrt);
    var q := ShiftAlongAxis(p, c, delta, sqrt);
    assert ax == 0.0 ==> dx == 0.0;
    Pow2SignedMagnitude(dx, ax);
    Pow2SignedMagnitude(dy, ay);
    assert q.x - p.x == Abs(dx) * Sign(ax);
    assert q.y - p.y == Abs(dy) * Sign(ay);
    Pow2Product(ratio, dy);
    calc {
      Dist2(q, p);
      Pow2(dx) + Pow2(dy);
      Pow2(ratio) * Pow2(dy) + Pow2(dy);
      Pow2(dy) * (1.0 + Pow2(ratio));
      Pow2(delta);
    }
  }

  /** |ax / ay| carried with the sign of ax, times ay, is ax carried with
      the sign of ay. */
  lemma RatioSign(ax: real, ay: real)
    requires ay != 0.0
    ensures Abs(ax / ay) * Sign(ax) * ay == ax * Sign(ay)
  {
    var ratio := ax / ay;
    DivisionInverse(ax, ay);
    if ax == 0.0 {
      assert ratio == 0.0;
    } else if ax > 0.0 && ay > 0.0 {
      assert ratio > 0.0;
    } else if ax > 0.0 && ay < 0.0 {
      assert ratio < 0.0;
    } else if ax < 0.0 && ay > 0.0 {
      assert ratio < 0.0;
    } else {
      assert ratio > 0.0;
    }
  }

  lemma AbsScaled(v: real, w: real)
    requires w >= 0.0
    ensures Abs(v * w) == Abs(v) * w
  {
    if v < 0.0 {
      assert v * w <= 0.0;
    } else {
      assert v * w >= 0.0;
    }
  }

  /** The displacement is parallel to the axis from the centroid. */
  lemma ShiftParallel(p: Point, c: Point, delta: real, sqrt: real -> real)
    requires IsSqrt(sqrt) && p.y != c.y
    ensures var q := ShiftAlongAxis(p, c, delta, sqrt);
      (q.x - p.x) * (p.y - c.y) == (q.y - p.y) * (p.x - c.x)
  {
    var ax, ay, ratio, dy, dx := ShiftParts(p, c, delta, sqrt);
    ParallelParts(ax, ay, dy);
  }

  /** The parallel condition on the parts of the shift alone. */
  lemma ParallelParts(ax: real, ay: real, dy: real)
    requires ay != 0.0 && dy >= 0.0
    ensures (Abs((ax / ay) * dy) * Sign(ax)) * ay == (Abs(dy) * Sign(ay)) * ax
  {
    var ratio := ax / ay;
    RatioSign(ax, ay);
    AbsScaled(ratio, dy);
    var u := Abs(ratio) * Sign(ax);
    assert Abs(ratio * dy) * Sign(ax) == u * dy;
    ScaleBoth(u, ay, ax * Sign(ay), dy);
  }

  lemma ScaleBoth(u: real, w: real, v: real, k: real)
    requires u * w == v
    ensures (u * k) * w == k * v
  {
  }

  /** A shifted vertex is never closer to the centroid, and strictly farther
      when delta is not 0. */
  lemma ShiftMovesAway(p: Point, c: Point, delta: real, sqrt: real -> real)
    requires IsSqrt(sqrt) && p.y != c.y
    ensures Dist2(ShiftAlongAxis(p, c, delta, sqrt), c) >= Dist2(p, c)
    ensures delta != 0.0 ==> Dist2(ShiftAlongAxis(p, c, delta, sqrt), c) > Dist2(p, c)
  {
    var q := ShiftAlongAxis(p, c, delta, sqrt);
    ShiftLength(p, c, delta, sqrt);
    var ax, ay := p.x - c.x, p.y - c.y;
    var mx, my := q.x - p.x, q.y - p.y;
    assert mx * ax >= 0.0 by {
      assert mx * ax == Abs(mx) * (Sign(ax) * ax);
      ProductNonNegative(Abs(mx), Sign(ax) * ax);
    }
    assert my * ay >= 0.0 by {
      assert my * ay == Abs(my) * (Sign(ay) * ay);
      ProductNonNegative(Abs(my), Sign(ay) * ay);
    }
    Pow2Sum(ax, mx);
    Pow2Sum(ay, my);
    assert Dist2(q, c) == Pow2(ax + mx) + Pow2(ay + my);
    assert Dist2(q, c) == Dist2(p, c) + 2.0 * (mx * ax + my * ay) + Pow2(delta);
    Pow2NonNegative(delta);
    if delta != 0.0 {
      Pow2Positive(delta);
    }
  }

  /** A zero delta leaves the vertex where it was. */
  lemma ShiftZero(p: Point, c: Point, sqrt: real -> real)
    requires IsSqrt(sqrt) && p.y != c.y
    ensures ShiftAlongAxis(p, c, 0.0, sqrt) == p
  {
    var ax, ay, ratio, dy, dx := ShiftParts(p, c, 0.0, sqrt);
    Pow2NonNegative(ratio);
    assert Pow2(0.0) == 0.0;
    assert Pow2(dy) == 0.0;
    Pow2Zero(dy);
  }

  /** delta only enters squared: shifting by -delta is shifting by delta. */
  lemma ShiftEven(p: Point, c: Point, delta: real, sqrt: real -> real)
    requires p.y != c.y
    ensures ShiftAlongAxis(p, c, -delta, sqrt) == ShiftAlongAxis(p, c, delta, sqrt)
  {
    Pow2Even(delta);
  }

  /** No vertex lies level with the centroid, so every axis.y is non-zero. */
  predicate Expandable(points: seq<Point>) {
    Area(points) != 0.0 && forall i :: 0 <= i < |points| ==> points[i].y != Centroid(points).y
  }

  /** The expanded polygon: vertex i shifted along the axis from the shared
      centroid. */
  function Expanded(points: seq<Point>, delta: real, sqrt: real -> real): (r: seq<Point>)
    requires Expandable(points)
  {
    var c := Centroid(points);
    seq(|points|, i requires 0 <= i < |points| => ShiftAlongAxis(points[i], c, delta, sqrt))
  }

  /** _expandTriangle: compute the centroid once, then push one shifted
      vertex per input vertex onto a fresh sequence. */
  method ExpandTriangle(points: seq<Point>, delta: real, sqrt: real -> real)
      returns (expanded: seq<Point>)
    requires Expandable(points)
    ensures |expanded| == |points|
    ensures forall i :: 0 <= i < |points| ==>
      expanded[i] == ShiftAlongAxis(points[i], Centroid(points), delta, sqrt)
    ensures expanded == Expanded(points, delta, sqrt)
  {
    var centroid := ComputeCentroid(points);
    expanded := [];
    var i := 0;
    while i < |points|
      invariant 0 <= i <= |points|
      invariant |expanded| == i
      invariant forall k :: 0 <= k < i ==>
        expanded[k] == ShiftAlongAxis(points[k], centroid, delta, sqrt)
    {
      expanded := expanded + [ShiftAlongAxis(points[i], centroid, delta, sqrt)];
      i := i + 1;
    }
  }

  /** expandPolygon: a direct call of the triangle routine, for any number of
      vertices. */
  method ExpandPolygon(points: seq<Point>, delta: real, sqrt: real -> real)
      returns (r: seq<Point>)
    requires Expandable(points)
    ensures r == Expanded(points, delta, sqrt)
    ensures |r| == |points|
  {
    r := ExpandTriangle(points, delta, sqrt);
  }

  /** Each expanded vertex lies |delta| away from its input vertex, never
      closer to the centroid, and strictly farther when delta is not 0. */
  lemma ExpandedDisplacement(points: seq<Point>, delta: real, sqrt: real -> real, i: nat)
    requires IsSqrt(sqrt) && Expandable(points) && i < |points|
    ensures Dist2(Expanded(points, delta, sqrt)[i], points[i]) == Pow2(delta)
    ensures Dist2(Expanded(points, delta, sqrt)[i], Centroid(points)) >= Dist2(points[i], Centroid(points))
    ensures delta != 0.0 ==>
      Dist2(Expanded(points, delta, sqrt)[i], Centroid(points)) > Dist2(points[i], Centroid(points))
  {
    ShiftLength(points[i], Centroid(points), delta, sqrt);
    ShiftMovesAway(points[i], Centroid(points), delta, sqrt);
  }

  /** Expanding by 0 returns the input vertices. */
  lemma ExpandedZero(points: seq<Point>, sqrt: real -> real)
    requires IsSqrt(sqrt) && Expandable(points)
    ensures Expanded(points, 0.0, sqrt) == points
  {
    var r := Expanded(points, 0.0, sqrt);
    forall i | 0 <= i < |points|
      ensures r[i] == points[i]
    {
      ShiftZero(points[i], Centroid(points), sqrt);
    }
  }

  /** Expanding by -delta gives the same polygon as expanding by delta: a
      negative delta does not shift inwards. */
  lemma ExpandedEven(points: seq<Point>, delta: real, sqrt: real -> real)
    requires Expandable(points)
    ensures Expanded(points, -delta, sqrt) == Expanded(points, delta, sqrt)
  {
    var a, b := Expanded(points, -delta, sqrt), Expanded(points, delta, sqrt);
    forall i | 0 <= i < |points|
      ensures a[i] == b[i]
    {
      ShiftEven(points[i], Centroid(points), delta, sqrt);
    }
  }
}
