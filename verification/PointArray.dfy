/** The connector generator's local rectangular point array (`my_rarray`):
    it validates the spacings and counts, lays out an x-major grid of points
    whose lower-left point is the origin, and optionally re-centres the grid
    on the origin. Pushing the points onto the kernel's stack is not modelled;
    the method returns the point list it would push. */
module PointArray {
  import opened Geometry

  /** The ValueError raised on a non-positive spacing or count. */
  datatype ArrayError = SpacingAndCountMustBePositive

  datatype Result<T> = Success(value: T) | Failure(error: ArrayError)

  predicate ValidArguments(xSpacing: real, ySpacing: real, xCount: int, yCount: int) {
    !(xSpacing <= 0.0 || ySpacing <= 0.0 || xCount < 1 || yCount < 1)
  }

  /** Column x of the grid: the yCount points (xSpacing*x, ySpacing*y), y ascending. */
  function Column(xSpacing: real, ySpacing: real, x: int, yCount: nat): (col: seq<Point>)
    ensures |col| == yCount
  {
    seq(yCount, y requires 0 <= y < yCount => Point(xSpacing * x as real, ySpacing * y as real))
  }

  /** The uncentred grid of the first xCount columns, relative to its
      lower-left point, in x-major order (column after column). */
  function Grid(xSpacing: real, ySpacing: real, xCount: nat, yCount: nat): (g: seq<Point>)
    ensures |g| == xCount * yCount
  {
    if xCount == 0 then []
    else
      var g := Grid(xSpacing, ySpacing, xCount - 1, yCount);
      assert (xCount - 1) * yCount + yCount == xCount * yCount;
      g + Column(xSpacing, ySpacing, xCount - 1, yCount)
  }

  /** The shift subtracted from every point when centring is requested:
      half the extent of the grid in each direction. */
  function CentreOffset(xSpacing: real, ySpacing: real, xCount: int, yCount: int): (off: Point) {
    Point(xSpacing * (xCount - 1) as real * 0.5, ySpacing * (yCount - 1) as real * 0.5)
  }

  /** What `my_rarray` pushes, or the error it raises. */
  function RArray(xSpacing: real, ySpacing: real, xCount: int, yCount: int, center: bool): (r: Result<seq<Point>>)
    ensures r.Failure? <==> (xSpacing <= 0.0 || ySpacing <= 0.0 || xCount < 1 || yCount < 1)
    ensures r.Success? ==> |r.value| == xCount * yCount
  {
    if !ValidArguments(xSpacing, ySpacing, xCount, yCount) then
      Failure(SpacingAndCountMustBePositive)
    else
      var g := Grid(xSpacing, ySpacing, xCount, yCount);
      Success(if center then MoveAll(g, Neg(CentreOffset(xSpacing, ySpacing, xCount, yCount))) else g)
  }

  /** Every index of an xCount by yCount grid is x*yCount + y for some
      column x and row y. */
  lemma {:induction false} Decompose(i: int, xCount: nat, yCount: nat) returns (x: int, y: int)
    requires 0 <= i < xCount * yCount
    ensures 0 <= x < xCount && 0 <= y < yCount && i == x * yCount + y
  {
    if i < (xCount - 1) * yCount {
      x, y := Decompose(i, xCount - 1, yCount);
    } else {
      x, y := xCount - 1, i - (xCount - 1) * yCount;
    }
  }

  /** Point x*yCount+y of the uncentred grid is (xSpacing*x, ySpacing*y). */
  lemma {:induction false} GridAt(xSpacing: real, ySpacing: real, xCount: nat, yCount: nat, x: int, y: int)
    requires 0 <= x < xCount && 0 <= y < yCount
    ensures x * yCount + y < xCount * yCount
    ensures Grid(xSpacing, ySpacing, xCount, yCount)[x * yCount + y]
            == Point(xSpacing * x as real, ySpacing * y as real)
  {
    var g := Grid(xSpacing, ySpacing, xCount - 1, yCount);
    assert Grid(xSpacing, ySpacing, xCount, yCount) == g + Column(xSpacing, ySpacing, xCount - 1, yCount);
    if x == xCount - 1 {
      assert x * yCount + y == |g| + y;
    } else {
      GridAt(xSpacing, ySpacing, xCount - 1, yCount, x, y);
      assert x * yCount + y < |g|;
    }
  }

  /** Point x*yCount+y of the centred grid is (xSpacing*x, ySpacing*y) less
      the centring offset. */
  lemma CentredGridAt(xSpacing: real, ySpacing: real, xCount: int, yCount: int, x: int, y: int)
    requires xSpacing > 0.0 && ySpacing > 0.0 && 0 <= x < xCount && 0 <= y < yCount
    ensures RArray(xSpacing, ySpacing, xCount, yCount, true).Success?
    ensures x * yCount + y < xCount * yCount
    ensures RArray(xSpacing, ySpacing, xCount, yCount, true).value[x * yCount + y]
            == Sub(Point(xSpacing * x as real, ySpacing * y as real), CentreOffset(xSpacing, ySpacing, xCount, yCount))
  {
    GridAt(xSpacing, ySpacing, xCount, yCount, x, y);
  }

  /** The loops of `my_rarray`: an x-major nested loop appending
      (xSpacing*x, ySpacing*y), then, when centring, a second loop
      subtracting half the extent from every point. */
  method MyRArray(xSpacing: real, ySpacing: real, xCount: int, yCount: int, center: bool)
    returns (r: Result<seq<Point>>)
    ensures r == RArray(xSpacing, ySpacing, xCount, yCount, center)
  {
    if xSpacing <= 0.0 || ySpacing <= 0.0 || xCount < 1 || yCount < 1 {
      return Failure(SpacingAndCountMustBePositive);
    }
    var lpoints: seq<Point> := [];
    for x := 0 to xCount
      invariant lpoints == Grid(xSpacing, ySpacing, x, yCount)
    {
      ghost var column := Column(xSpacing, ySpacing, x, yCount);
      for y := 0 to yCount
        invariant lpoints == Grid(xSpacing, ySpacing, x, yCount) + column[..y]
      {
        assert column[y] == Point(xSpacing * x as real, ySpacing * y as real);
        assert column[..y + 1] == column[..y] + [column[y]];
        lpoints := lpoints + [Point(xSpacing * x as real, ySpacing * y as real)];
      }
      assert column[..yCount] == column;
      assert Grid(xSpacing, ySpacing, x + 1, yCount) == Grid(xSpacing, ySpacing, x, yCount) + column;
    }
    if center {
      var xc := xSpacing * (xCount - 1) as real * 0.5;
      var yc := ySpacing * (yCount - 1) as real * 0.5;
      var cpoints: seq<Point> := [];
      assert Neg(CentreOffset(xSpacing, ySpacing, xCount, yCount)) == Point(-xc, -yc);
      for i := 0 to |lpoints|
        invariant cpoints == MoveAll(lpoints[..i], Point(-xc, -yc))
      {
        assert lpoints[..i + 1] == lpoints[..i] + [lpoints[i]];
        cpoints := cpoints + [Point(lpoints[i].x - xc, lpoints[i].y - yc)];
      }
      assert lpoints[..|lpoints|] == lpoints;
      lpoints := cpoints;
    }
    return Success(lpoints);
  }

  /** Before centring, point x*yCount+y is (xSpacing*x, ySpacing*y): the
      points come column by column (x-major), each column bottom to top. */
  lemma GridIndex(xSpacing: real, ySpacing: real, xCount: int, yCount: int, x: int, y: int)
    requires ValidArguments(xSpacing, ySpacing, xCount, yCount)
    requires 0 <= x < xCount && 0 <= y < yCount
    ensures RArray(xSpacing, ySpacing, xCount, yCount, false).Success?
    ensures x * yCount + y < xCount * yCount
    ensures RArray(xSpacing, ySpacing, xCount, yCount, false).value[x * yCount + y]
            == Point(xSpacing * x as real, ySpacing * y as real)
  {
    GridAt(xSpacing, ySpacing, xCount, yCount, x, y);
  }

  /** Without centring the first point is the origin, the last is the far
      corner, and every point lies in the rectangle they span. */
  lemma UncentredCorners(xSpacing: real, ySpacing: real, xCount: int, yCount: int)
    requires ValidArguments(xSpacing, ySpacing, xCount, yCount)
    ensures RArray(xSpacing, ySpacing, xCount, yCount, false).Success?
    ensures var ps := RArray(xSpacing, ySpacing, xCount, yCount, false).value;
      && ps[0] == Origin
      && ps[|ps| - 1] == Point((xCount - 1) as real * xSpacing, (yCount - 1) as real * ySpacing)
      && forall i :: 0 <= i < |ps| ==>
           0.0 <= ps[i].x <= (xCount - 1) as real * xSpacing &&
           0.0 <= ps[i].y <= (yCount - 1) as real * ySpacing
  {
    var g := Grid(xSpacing, ySpacing, xCount, yCount);
    GridAt(xSpacing, ySpacing, xCount, yCount, 0, 0);
    GridAt(xSpacing, ySpacing, xCount, yCount, xCount - 1, yCount - 1);
    assert |g| - 1 == (xCount - 1) * yCount + (yCount - 1);
    GridWithin(xSpacing, ySpacing, xCount, yCount, (xCount - 1) as real * xSpacing, (yCount - 1) as real * ySpacing);
  }

  /** Every point of ps lies in the rectangle [0, xMax] x [0, yMax]. */
  predicate InRect(ps: seq<Point>, xMax: real, yMax: real) {
    forall i :: 0 <= i < |ps| ==> 0.0 <= ps[i].x <= xMax && 0.0 <= ps[i].y <= yMax
  }

  lemma InRectAppend(a: seq<Point>, b: seq<Point>, xMax: real, yMax: real)
    requires InRect(a, xMax, yMax) && InRect(b, xMax, yMax)
    ensures InRect(a + b, xMax, yMax)
  {
    forall i | 0 <= i < |a + b| ensures 0.0 <= (a + b)[i].x <= xMax && 0.0 <= (a + b)[i].y <= yMax {
      if i < |a| {
        assert (a + b)[i] == a[i];
      } else {
        assert (a + b)[i] == b[i - |a|];
      }
    }
  }

  /** Column x lies in the rectangle when its x-coordinate and its top row do. */
  lemma ColumnInRect(xSpacing: real, ySpacing: real, x: nat, yCount: nat, xMax: real, yMax: real)
    requires xSpacing > 0.0 && ySpacing > 0.0
    requires x as real * xSpacing <= xMax && (yCount - 1) as real * ySpacing <= yMax
    ensures InRect(Column(xSpacing, ySpacing, x, yCount), xMax, yMax)
  {
    var col := Column(xSpacing, ySpacing, x, yCount);
    forall y | 0 <= y < yCount ensures 0.0 <= col[y].x <= xMax && 0.0 <= col[y].y <= yMax {
      ScaleBetween(xSpacing, x, x);
      ScaleBetween(ySpacing, y, yCount - 1);
    }
  }

  /** Every point of the first xCount columns lies in [0, xMax] x [0, yMax]
      when the last column and the last row do. */
  lemma {:induction false} GridWithin(xSpacing: real, ySpacing: real, xCount: nat, yCount: nat, xMax: real, yMax: real)
    requires xSpacing > 0.0 && ySpacing > 0.0
    requires (xCount - 1) as real * xSpacing <= xMax && (yCount - 1) as real * ySpacing <= yMax
    ensures InRect(Grid(xSpacing, ySpacing, xCount, yCount), xMax, yMax)
  {
    if xCount > 0 {
      var x := xCount - 1;
      assert (x - 1) as real * xSpacing == x as real * xSpacing - xSpacing;
      GridWithin(xSpacing, ySpacing, x, yCount, xMax, yMax);
      ColumnInRect(xSpacing, ySpacing, x, yCount, xMax, yMax);
      InRectAppend(Grid(xSpacing, ySpacing, x, yCount), Column(xSpacing, ySpacing, x, yCount), xMax, yMax);
    }
  }

  /** 0 <= s*k <= s*m for a positive spacing s and 0 <= k <= m. */
  lemma ScaleBetween(s: real, k: int, m: int)
    requires s > 0.0 && 0 <= k <= m
    ensures 0.0 <= s * k as real <= m as real * s
  {
    assert s * (m - k) as real >= 0.0;
  }

  /** Centring shifts every point by exactly half the grid's extent and
      keeps the count and the order. */
  lemma CentringShift(xSpacing: real, ySpacing: real, xCount: int, yCount: int)
    requires ValidArguments(xSpacing, ySpacing, xCount, yCount)
    ensures RArray(xSpacing, ySpacing, xCount, yCount, true).Success?
    ensures RArray(xSpacing, ySpacing, xCount, yCount, false).Success?
    ensures var c := RArray(xSpacing, ySpacing, xCount, yCount, true).value;
      var g := RArray(xSpacing, ySpacing, xCount, yCount, false).value;
      && |c| == |g|
      && forall i :: 0 <= i < |c| ==>
           c[i] == Point(g[i].x - (xCount - 1) as real * xSpacing / 2.0,
                         g[i].y - (yCount - 1) as real * ySpacing / 2.0)
  {
  }

  /** Centring preserves every pairwise difference between points, so the
      shape of the array is unchanged. */
  lemma CentringPreservesDifferences(xSpacing: real, ySpacing: real, xCount: int, yCount: int, i: int, j: int)
    requires ValidArguments(xSpacing, ySpacing, xCount, yCount)
    requires 0 <= i < xCount * yCount && 0 <= j < xCount * yCount
    ensures RArray(xSpacing, ySpacing, xCount, yCount, true).Success?
    ensures RArray(xSpacing, ySpacing, xCount, yCount, false).Success?
    ensures var c := RArray(xSpacing, ySpacing, xCount, yCount, true).value;
      var g := RArray(xSpacing, ySpacing, xCount, yCount, false).value;
      Sub(c[i], c[j]) == Sub(g[i], g[j])
  {
  }

  /** The centred array is point-symmetric about the origin: point i is the
      negation of point N-1-i. */
  lemma CentredIsSymmetric(xSpacing: real, ySpacing: real, xCount: int, yCount: int)
    requires ValidArguments(xSpacing, ySpacing, xCount, yCount)
    ensures RArray(xSpacing, ySpacing, xCount, yCount, true).Success?
    ensures var c := RArray(xSpacing, ySpacing, xCount, yCount, true).value;
      forall i :: 0 <= i < |c| ==> c[i] == Neg(c[|c| - 1 - i])
  {
    var c := RArray(xSpacing, ySpacing, xCount, yCount, true).value;
    var n := xCount * yCount;
    forall i | 0 <= i < n ensures c[i] == Neg(c[n - 1 - i]) {
      CentredPairSymmetric(xSpacing, ySpacing, xCount, yCount, i);
    }
  }

  /** Points i and N-1-i of the uncentred grid add up to the far corner,
      which centring moves to the origin. */
  lemma CentredPairSymmetric(xSpacing: real, ySpacing: real, xCount: int, yCount: int, i: int)
    requires ValidArguments(xSpacing, ySpacing, xCount, yCount)
    requires 0 <= i < xCount * yCount
    ensures var c := MoveAll(Grid(xSpacing, ySpacing, xCount, yCount), Neg(CentreOffset(xSpacing, ySpacing, xCount, yCount)));
      c[i] == Neg(c[xCount * yCount - 1 - i])
  {
    var x, y := Decompose(i, xCount, yCount);
    MirrorIndex(xCount, yCount, x, y);
    GridMirrorPair(xSpacing, ySpacing, xCount, yCount, x, y);
    MovedPairMirror(Grid(xSpacing, ySpacing, xCount, yCount), CentreOffset(xSpacing, ySpacing, xCount, yCount),
                    x * yCount + y, (xCount - 1 - x) * yCount + (yCount - 1 - y));
  }

  /** The point in column x, row y and the one in column xCount-1-x, row
      yCount-1-y add up to twice the centring offset. */
  lemma GridMirrorPair(xSpacing: real, ySpacing: real, xCount: nat, yCount: nat, x: int, y: int)
    requires 0 <= x < xCount && 0 <= y < yCount
    ensures var g := Grid(xSpacing, ySpacing, xCount, yCount);
      var i := x * yCount + y;
      var j := (xCount - 1 - x) * yCount + (yCount - 1 - y);
      var off := CentreOffset(xSpacing, ySpacing, xCount, yCount);
      && 0 <= i < |g| && 0 <= j < |g|
      && g[i].x + g[j].x == 2.0 * off.x && g[i].y + g[j].y == 2.0 * off.y
  {
    GridAt(xSpacing, ySpacing, xCount, yCount, x, y);
    GridAt(xSpacing, ySpacing, xCount, yCount, xCount - 1 - x, yCount - 1 - y);
    SumAbout(xSpacing, xCount - 1, x);
    SumAbout(ySpacing, yCount - 1, y);
  }

  /** Two points of ps whose coordinates add up to twice `off` are mirror
      images once every point is moved by -off. */
  lemma MovedPairMirror(ps: seq<Point>, off: Point, i: int, j: int)
    requires 0 <= i < |ps| && 0 <= j < |ps|
    requires ps[i].x + ps[j].x == 2.0 * off.x && ps[i].y + ps[j].y == 2.0 * off.y
    ensures MoveAll(ps, Neg(off))[i] == Neg(MoveAll(ps, Neg(off))[j])
  {
  }

  /** The mirror image of column x, row y in the x-major order is column
      xCount-1-x, row yCount-1-y. */
  lemma MirrorIndex(xCount: int, yCount: int, x: int, y: int)
    ensures xCount * yCount - 1 - (x * yCount + y) == (xCount - 1 - x) * yCount + (yCount - 1 - y)
  {
    assert (xCount - 1 - x) * yCount == xCount * yCount - yCount - x * yCount;
  }

  /** Coordinates k and m-k along one axis add up to the full extent s*m,
      which is twice the centring offset. */
  lemma SumAbout(s: real, m: int, k: int)
    ensures s * k as real + s * (m - k) as real == 2.0 * (s * m as real * 0.5)
  {
    assert (m - k) as real == m as real - k as real;
    assert s * (m - k) as real == s * m as real - s * k as real;
  }

  /** The centroid of the centred array is exactly the origin. */
  lemma CentredCentroidIsOrigin(xSpacing: real, ySpacing: real, xCount: int, yCount: int)
    requires ValidArguments(xSpacing, ySpacing, xCount, yCount)
    ensures RArray(xSpacing, ySpacing, xCount, yCount, true).Success?
    ensures var c := RArray(xSpacing, ySpacing, xCount, yCount, true).value;
      |c| > 0 && Sum(c) == Origin && Centroid(c) == Origin
  {
    var c := RArray(xSpacing, ySpacing, xCount, yCount, true).value;
    CentredIsSymmetric(xSpacing, ySpacing, xCount, yCount);
    SymmetricSumIsOrigin(c);
    assert |c| == xCount * yCount;
    assert xCount * yCount >= 1 by {
      assert xCount * yCount >= 1 * yCount;
    }
    CentroidOfZeroSum(c);
  }

  /** Worked case: five points at pitch 2.54 in one row, centred, have the
      x-coordinates -5.08, -2.54, 0, 2.54 and 5.08. */
  lemma FivePointRow()
    ensures RArray(2.54, 1.0, 5, 1, true)
            == Success([Point(-5.08, 0.0), Point(-2.54, 0.0), Point(0.0, 0.0),
                        Point(2.54, 0.0), Point(5.08, 0.0)])
  {
    var c := RArray(2.54, 1.0, 5, 1, true).value;
    forall i | 0 <= i < 5 ensures c[i] == Point(2.54 * i as real - 5.08, 0.0) {
      GridAt(2.54, 1.0, 5, 1, i, 0);
    }
    assert c == [Point(-5.08, 0.0), Point(-2.54, 0.0), Point(0.0, 0.0), Point(2.54, 0.0), Point(5.08, 0.0)];
  }
}
