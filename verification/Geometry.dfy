/** Plain geometric values shared by the connector and header models: planar
    points (the offsets handed to the CAD kernel) and axis-aligned boxes (the
    rectangles the kernel extrudes). All lengths are exact reals. */
module Geometry {

  /** A point (or offset) in a sketch plane. */
  datatype Point = Point(x: real, y: real)

  const Origin: Point := Point(0.0, 0.0)

  function Add(p: Point, q: Point): (r: Point) {
    Point(p.x + q.x, p.y + q.y)
  }

  function Sub(p: Point, q: Point): (r: Point) {
    Point(p.x - q.x, p.y - q.y)
  }

  function Neg(p: Point): (r: Point) {
    Point(-p.x, -p.y)
  }

  /** Translates every point of `ps` by `d`, keeping the order. */
  function MoveAll(ps: seq<Point>, d: Point): (r: seq<Point>) {
    seq(|ps|, i requires 0 <= i < |ps| => Add(ps[i], d))
  }

  /** Vector sum of a sequence of points. */
  function Sum(ps: seq<Point>): (total: Point) {
    if ps == [] then Origin else Add(ps[0], Sum(ps[1..]))
  }

  /** Centroid of a non-empty sequence of points. */
  function Centroid(ps: seq<Point>): (c: Point)
    requires |ps| > 0
  {
    var s := Sum(ps);
    Point(s.x / |ps| as real, s.y / |ps| as real)
  }

  lemma {:induction false} SumSnoc(ps: seq<Point>, p: Point)
    ensures Sum(ps + [p]) == Add(Sum(ps), p)
  {
    if ps == [] {
      assert ps + [p] == [p];
    } else {
      assert (ps + [p])[1..] == ps[1..] + [p];
      SumSnoc(ps[1..], p);
    }
  }

  lemma {:induction false} SumAppend(a: seq<Point>, b: seq<Point>)
    ensures Sum(a + b) == Add(Sum(a), Sum(b))
  {
    if a == [] {
      assert a + b == b;
    } else {
      assert (a + b)[1..] == a[1..] + b;
      SumAppend(a[1..], b);
    }
  }

  /** A point sequence that is point-symmetric about the origin
      (element i is the negation of element n-1-i) sums to the origin. */
  lemma {:induction false} SymmetricSumIsOrigin(ps: seq<Point>)
    requires forall i :: 0 <= i < |ps| ==> ps[i] == Neg(ps[|ps| - 1 - i])
    ensures Sum(ps) == Origin
  {
    var n := |ps|;
    if n == 0 {
    } else if n == 1 {
      assert ps[0] == Neg(ps[0]);
      assert ps[1..] == [];
    } else {
      var mid := ps[1..n - 1];
      forall i | 0 <= i < |mid| ensures mid[i] == Neg(mid[|mid| - 1 - i]) {
        assert mid[i] == ps[i + 1];
        assert mid[|mid| - 1 - i] == ps[n - 2 - i];
      }
      SymmetricSumIsOrigin(mid);
      assert ps[1..] == mid + [ps[n - 1]];
      SumSnoc(mid, ps[n - 1]);
      assert ps[0] == Neg(ps[n - 1]);
    }
  }

  lemma CentroidOfZeroSum(ps: seq<Point>)
    requires |ps| > 0 && Sum(ps) == Origin
    ensures Centroid(ps) == Origin
  {
    var n := |ps| as real;
    assert 0.0 / n == 0.0;
  }

  /** An axis-aligned box: the solid produced by extruding a rectangle. */
  datatype Box = Box(xMin: real, xMax: real, yMin: real, yMax: real, zMin: real, zMax: real)

  /** A `width` by `depth` rectangle centred on (cx, cy), extruded from z0
      by `height` (the kernel's centred `rect` followed by `extrude`). */
  function CentredBox(cx: real, cy: real, width: real, depth: real, z0: real, height: real): (b: Box)
    ensures b.xMax - b.xMin == width && b.yMax - b.yMin == depth && b.zMax - b.zMin == height
    ensures (b.xMin + b.xMax) / 2.0 == cx && (b.yMin + b.yMax) / 2.0 == cy && b.zMin == z0
  {
    Box(cx - width / 2.0, cx + width / 2.0, cy - depth / 2.0, cy + depth / 2.0, z0, z0 + height)
  }

  function Translate(b: Box, dx: real, dy: real, dz: real): (moved: Box) {
    Box(b.xMin + dx, b.xMax + dx, b.yMin + dy, b.yMax + dy, b.zMin + dz, b.zMax + dz)
  }

  /** Centre of a box's footprint in the XY plane. */
  function FootprintCentre(b: Box): (c: Point) {
    Point((b.xMin + b.xMax) / 2.0, (b.yMin + b.yMax) / 2.0)
  }
}
