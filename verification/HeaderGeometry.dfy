/** Dimensions and placement of a straight 2 x n box header at 2.54 mm pitch:
    the shrouded plastic base, a single square pin, a row of pins, and the
    two rows of the header. Solids are modelled by the boxes the kernel is
    asked to extrude; fillets, chamfers, shells and booleans are the kernel's. */
module HeaderGeometry {
  import opened Geometry

  /** Pin pitch along and across the rows. */
  const Pitch: real := 2.54

  /** Base block and shroud dimensions. */
  const BaseWidth: real := 8.9          // W1
  const InnerWidth: real := 6.4         // W2
  const WallThickness: real := (BaseWidth - InnerWidth) / 2.0   // T
  const BaseHeight: real := 2.8         // H
  const WallHeight: real := 8.9 - BaseHeight                    // H2
  const CutoutWidth: real := 4.0        // CW

  /** Length of the base for `pins` pins per row. */
  function BaseLength(pins: int): (length: real) {
    pins as real * 2.54 + 7.62
  }

  /** The translation that puts the base over the pin rows. */
  function BaseOffset(pins: int): (off: Point) {
    Point((pins - 1) as real * 1.27, 1.27)
  }

  /** The base: a solid block, the outer box of the shroud wall (which the
      kernel hollows with the given wall thickness, leaving its top open),
      and the notch cut out of the wall, all after the final translation. */
  datatype Base = Base(block: Box, wall: Box, wallThickness: real, cutout: Box)

  /** The hollow inside the shroud: the wall box shrunk by the wall
      thickness on every side except the open top. */
  function Cavity(b: Base): (cavity: Box) {
    var w := b.wall;
    var t := b.wallThickness;
    Box(w.xMin + t, w.xMax - t, w.yMin + t, w.yMax - t, w.zMin + t, w.zMax)
  }

  /** `MakeBase`: the block of height H - T, the wall from H - T with height
      H2 + T, the notch (CW wide, from z = H with height H2) moved by -W2/2
      in y, and the whole base translated by BaseOffset. */
  function MakeBase(pins: int): (base: Base) {
    var l := BaseLength(pins);
    var t := WallThickness;
    var o := BaseOffset(pins);
    var block := CentredBox(0.0, 0.0, l, BaseWidth, 0.0, BaseHeight - t);
    var wall := CentredBox(0.0, 0.0, l, BaseWidth, BaseHeight - t, WallHeight + t);
    var cutout := Translate(CentredBox(0.0, 0.0, CutoutWidth, BaseWidth, BaseHeight, WallHeight), 0.0, -InnerWidth / 2.0, 0.0);
    Base(Translate(block, o.x, o.y, 0.0), Translate(wall, o.x, o.y, 0.0), t, Translate(cutout, o.x, o.y, 0.0))
  }

  /** Base dimensions: length 2.54*pins + 7.62, wall thickness 1.25, the block
      up to 1.55 where the wall starts, the wall up to 8.9 = H + H2, and a
      cavity whose floor is at H = 2.8 and whose width is W2 = 6.4. */
  lemma BaseDimensions(pins: int)
    ensures var b := MakeBase(pins); var c := Cavity(b);
      && b.block.xMax - b.block.xMin == 2.54 * pins as real + 7.62
      && b.wall.xMin == b.block.xMin && b.wall.xMax == b.block.xMax
      && b.block.yMax - b.block.yMin == 8.9 && b.wall.yMin == b.block.yMin && b.wall.yMax == b.block.yMax
      && b.wallThickness == 1.25
      && b.block.zMin == 0.0 && b.block.zMax == 1.55 && b.wall.zMin == b.block.zMax
      && b.wall.zMax == 8.9
      && c.zMin == 2.8
      && c.yMax - c.yMin == 6.4
      && c.xMax - c.xMin == 2.54 * pins as real + 5.12
  {
  }

  /** The base footprint is centred on ((pins-1)*1.27, 1.27) and extends
      exactly 5.08 beyond x = 0 and x = 2.54*(pins-1) at each end, and 3.18
      beyond y = 0 and y = 2.54 at each side. For pins >= 1 these lines carry
      the outermost pin centres (see PinsClearOfBaseEnds). */
  lemma BaseOverhang(pins: int)
    ensures var b := MakeBase(pins);
      && FootprintCentre(b.block) == BaseOffset(pins)
      && b.block.xMin == 0.0 - 5.08
      && b.block.xMax == 2.54 * (pins - 1) as real + 5.08
      && b.block.yMin == 0.0 - 3.18
      && b.block.yMax == 2.54 + 3.18
  {
  }

  /** The notch is 4 wide, centred on the base along x, cuts through the whole
      thickness of the wall on the -y side from the cavity floor to the top of
      the wall, and stops short of the wall on the +y side. */
  lemma CutoutThroughFrontWall(pins: int)
    ensures var b := MakeBase(pins); var c := Cavity(b);
      && b.cutout.xMax - b.cutout.xMin == 4.0
      && (b.cutout.xMin + b.cutout.xMax) / 2.0 == BaseOffset(pins).x
      && b.cutout.yMin < b.wall.yMin
      && b.cutout.yMax > b.wall.yMin + b.wallThickness
      && b.cutout.yMax < b.wall.yMax - b.wallThickness
      && b.cutout.zMin == c.zMin && b.cutout.zMax == b.wall.zMax
  {
  }

  /** Side of the square pin, its extent below z = 0, its length, and the
      chamfer applied at both of its ends. */
  const PinSize: real := 0.64
  const PinDepth: real := -3.0
  const PinLength: real := 11.0
  const PinChamfer: real := 0.2   // kernel work; less than half of PinSize, so each tip stays flat

  /** `MakePin`: a PinSize square extruded PinLength from z = PinDepth. */
  function MakePin(): (pin: Box)
    ensures pin.xMax - pin.xMin == 0.64 && pin.yMax - pin.yMin == 0.64
    ensures FootprintCentre(pin) == Origin
    ensures pin.zMin == -3.0 && pin.zMax == 8.0
  {
    CentredBox(0.0, 0.0, PinSize, PinSize, PinDepth, PinLength)
  }

  /** Pin i of a row: the pin translated by 2.54*i along x and by y across. */
  function PinAt(i: int, y: real): (pin: Box) {
    Translate(MakePin(), Pitch * i as real, y, 0.0)
  }

  /** Number of pins in a row for argument n: range(1, n) adds nothing when
      n < 2, so there is always at least the first pin. */
  function RowLength(n: int): (k: nat) {
    if n < 1 then 1 else n
  }

  /** The pins of one row along y = 0. */
  function PinRow(n: int): (row: seq<Box>)
    ensures |row| == RowLength(n)
  {
    seq(RowLength(n), i requires 0 <= i < RowLength(n) => PinAt(i, 0.0))
  }

  /** `MakePinRow`: start from one pin and union a pin translated by 2.54*i
      for each i in range(1, n). */
  method MakePinRow(n: int) returns (row: seq<Box>)
    ensures row == PinRow(n)
    ensures n >= 1 ==> |row| == n
    ensures n < 1 ==> |row| == 1
  {
    row := [MakePin()];
    assert MakePin() == PinAt(0, 0.0);
    var i := 1;
    while i < n
      invariant 1 <= i && (i <= n || i == 1)
      invariant row == seq(i, k requires 0 <= k < i => PinAt(k, 0.0))
    {
      row := row + [Translate(MakePin(), Pitch * i as real, 0.0, 0.0)];
      i := i + 1;
    }
  }

  /** The header's pins: a row at y = 0 and the same row moved to y = 2.54. */
  function HeaderPins(n: int): (pins: seq<Box>) {
    var row := PinRow(n);
    row + seq(|row|, i requires 0 <= i < |row| => Translate(row[i], 0.0, Pitch, 0.0))
  }

  /** The header holds 2*RowLength(n) pins; pin r*m + i (row r, column i) is
      centred at (2.54*i, 2.54*r) and spans z from -3 to 8. */
  lemma HeaderPinGrid(n: int, r: int, i: int)
    requires 0 <= r < 2 && 0 <= i < RowLength(n)
    ensures var pins := HeaderPins(n); var m := RowLength(n);
      && |pins| == 2 * m
      && r * m + i < |pins|
      && FootprintCentre(pins[r * m + i]) == Point(2.54 * i as real, 2.54 * r as real)
      && pins[r * m + i].zMin == -3.0 && pins[r * m + i].zMax == 8.0
  {
    var m := RowLength(n);
    if r == 1 {
      assert r * m + i == m + i;
    }
  }

  /** The pin centres of the header, in pin order. */
  function PinCentres(n: int): (cs: seq<Point>)
    ensures |cs| == |HeaderPins(n)|
  {
    var pins := HeaderPins(n);
    seq(|pins|, i requires 0 <= i < |pins| => FootprintCentre(pins[i]))
  }

  /** The centres of a row of k pins at pitch 2.54 along the line y,
      starting at x = 0, add up to (1.27*k*(k-1), k*y). */
  lemma {:induction false} RowSum(r: seq<Point>, k: nat, y: real)
    requires |r| == k
    requires forall i :: 0 <= i < k ==> r[i] == Point(2.54 * i as real, y)
    ensures Sum(r) == Point(1.27 * (k * (k - 1)) as real, k as real * y)
  {
    if k > 0 {
      var j := k - 1;
      assert r == r[..j] + [r[j]];
      RowSum(r[..j], j, y);
      SumSnoc(r[..j], r[j]);
      TriangleStep(j);
    }
  }

  lemma TriangleStep(j: nat)
    ensures 1.27 * (j * (j - 1)) as real + 2.54 * j as real == 1.27 * ((j + 1) * j) as real
  {
    assert (j + 1) * j == j * (j - 1) + 2 * j;
  }

  /** q is x / d when q * d == x. */
  lemma Quotient(x: real, d: real, q: real)
    requires d != 0.0 && q * d == x
    ensures x / d == q
  {
  }

  /** Two rows of n centres, the first along y = 0 and the second along
      y = 2.54, add up to (2.54*n*(n-1), 2.54*n). */
  lemma GridSum(cs: seq<Point>, n: nat)
    requires |cs| == 2 * n
    requires forall i :: 0 <= i < n ==> cs[i] == Point(2.54 * i as real, 0.0)
    requires forall i :: n <= i < 2 * n ==> cs[i] == Point(2.54 * (i - n) as real, 2.54)
    ensures Sum(cs) == Point(2.54 * (n * (n - 1)) as real, 2.54 * n as real)
  {
    var a, b := cs[..n], cs[n..];
    assert cs == a + b;
    RowSum(a, n, 0.0);
    forall i | 0 <= i < n ensures b[i] == Point(2.54 * i as real, 2.54) {
      assert b[i] == cs[n + i];
    }
    RowSum(b, n, 2.54);
    SumOfRows(a, b, (n * (n - 1)) as real, n as real);
  }

  /** The sums of a row along y = 0 and a row along y = 2.54 add up. */
  lemma SumOfRows(a: seq<Point>, b: seq<Point>, m: real, k: real)
    requires Sum(a) == Point(1.27 * m, k * 0.0) && Sum(b) == Point(1.27 * m, k * 2.54)
    ensures Sum(a + b) == Point(2.54 * m, 2.54 * k)
  {
    SumAppend(a, b);
  }

  /** For n >= 1 the pin centres are the row at y = 0 followed by the row at
      y = 2.54, both at pitch 2.54 from x = 0. */
  lemma PinCentresAsRows(n: int)
    requires n >= 1
    ensures |PinCentres(n)| == 2 * n
    ensures forall i :: 0 <= i < n ==> PinCentres(n)[i] == Point(2.54 * i as real, 0.0)
    ensures forall i :: n <= i < 2 * n ==> PinCentres(n)[i] == Point(2.54 * (i - n) as real, 2.54)
  {
    forall i | 0 <= i < 2 * n
      ensures i < n ==> PinCentres(n)[i] == Point(2.54 * i as real, 0.0)
      ensures n <= i ==> PinCentres(n)[i] == Point(2.54 * (i - n) as real, 2.54)
    {
      if i < n {
        HeaderPinGrid(n, 0, i);
      } else {
        HeaderPinGrid(n, 1, i - n);
      }
    }
  }

  lemma PinCentresSum(n: int)
    requires n >= 1
    ensures Sum(PinCentres(n)) == Point(2.54 * (n * (n - 1)) as real, 2.54 * n as real)
  {
    PinCentresAsRows(n);
    GridSum(PinCentres(n), n);
  }

  /** For n >= 1 pins per row, the centroid of all pin centres is exactly the
      point the base is translated to, so the base is centred on the pins. */
  lemma BaseCentredOnPins(n: int)
    requires n >= 1
    ensures |PinCentres(n)| > 0 && Centroid(PinCentres(n)) == BaseOffset(n)
  {
    var cs := PinCentres(n);
    PinCentresSum(n);
    var k := n as real;
    assert |cs| as real == 2.0 * k;
    assert (n * (n - 1)) as real == k * (k - 1.0);
    Quotient(2.54 * (n * (n - 1)) as real, 2.0 * k, (n - 1) as real * 1.27);
    Quotient(2.54 * k, 2.0 * k, 1.27);
  }

  /** For n >= 1 every pin centre lies at least 5.08 inside both ends and
      3.18 inside both sides of the base, with exactly 5.08 for the first
      and the last pin of each row and exactly 3.18 for every pin. */
  lemma PinsClearOfBaseEnds(n: int, j: int)
    requires n >= 1 && 0 <= j < |HeaderPins(n)|
    ensures var b := MakeBase(n).block; var c := FootprintCentre(HeaderPins(n)[j]);
      && b.xMin + 5.08 <= c.x <= b.xMax - 5.08
      && (j == 0 || j == n ==> c.x == b.xMin + 5.08)
      && (j == n - 1 || j == 2 * n - 1 ==> c.x == b.xMax - 5.08)
      && (c.y == b.yMin + 3.18 || c.y == b.yMax - 3.18)
  {
    if j < n {
      HeaderPinGrid(n, 0, j);
    } else {
      HeaderPinGrid(n, 1, j - n);
    }
  }

  /** For n >= 1, every pin's square lies inside the shroud's cavity and the
      pin tips stay below the top of the wall. */
  lemma PinsInsideShroud(n: int, j: int)
    requires n >= 1 && 0 <= j < |HeaderPins(n)|
    ensures var p := HeaderPins(n)[j]; var c := Cavity(MakeBase(n));
      && c.xMin < p.xMin && p.xMax < c.xMax
      && c.yMin < p.yMin && p.yMax < c.yMax
      && p.zMax < MakeBase(n).wall.zMax
  {
    var m := RowLength(n);
    if j < m {
      HeaderPinGrid(n, 0, j);
    } else {
      HeaderPinGrid(n, 1, j - m);
    }
  }
}
