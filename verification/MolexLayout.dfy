/** Placement arithmetic of the Molex SlimStack 54722 body and contacts: how
    many contact holes, ribs and contact slots are cut or added, and where,
    and at which offsets the contact pairs are copied. The solids themselves
    are the kernel's; the model keeps the points, rectangles and copies that
    are handed to it. Series dimensions arrive as a record because their
    table is not part of this model. */
module MolexLayout {
  import opened Geometry
  import opened PointArray

  /** The series and derived dimensions the placement arithmetic reads. */
  datatype BodyDims = BodyDims(
    numPins: int,
    pinPitch: real,
    bodyHeight: real,
    holeOffset: real,
    holeWidth: real,
    holeLength: real,
    pocketWidth: real,
    bodyChamfer: real,
    ribWidth: real,
    ribDepth: real,
    islandWidth: real,
    slotWidth: real,
    slotDepth: real,
    slotHeight: real)

  /** Contact holes, ribs and contact slots per row, from the pin count with
      Python 2 integer division (floor; for the divisor 2 Dafny's `/` is the
      same). Ribs per row are one more. */
  function PerRow(numPins: int): (h: int)
    ensures 2 * h <= numPins < 2 * h + 2
  {
    numPins / 2
  }

  /** Centres of the contact holes: one centred row of `numPins/2` points at
      the pin pitch, at y = +holeOffset, then the same row at y = -holeOffset. */
  function HoleCentres(d: BodyDims): (holes: Result<seq<Point>>) {
    match RArray(d.pinPitch, 1.0, PerRow(d.numPins), 1, true)
    case Failure(e) => Failure(e)
    case Success(row) =>
      Success(MoveAll(row, Point(0.0, d.holeOffset)) + MoveAll(row, Point(0.0, -d.holeOffset)))
  }

  /** Centres of the ribs: a centred array of `numPins/2 + 1` columns at the pin
      pitch and 2 rows spaced pocketWidth + bodyChamfer apart. */
  function RibCentres(d: BodyDims): (ribs: Result<seq<Point>>) {
    RArray(d.pinPitch, d.pocketWidth + d.bodyChamfer, PerRow(d.numPins) + 1, 2, true)
  }

  /** Where the first row of slot rectangles is anchored (its lower-left corners
      are offset from here by the centred pin array). */
  function SlotRowOrigin(d: BodyDims): (o: Point) {
    Point(-d.slotWidth / 2.0, d.islandWidth / 2.0 - d.slotDepth)
  }

  /** Lower-left corners of the contact slots: the first row from
      SlotRowOrigin, the second after moving the workplane by
      (0, -islandWidth - slotDepth). */
  function SlotCorners(d: BodyDims): (corners: Result<seq<Point>>) {
    match RArray(d.pinPitch, 1.0, PerRow(d.numPins), 1, true)
    case Failure(e) => Failure(e)
    case Success(row) =>
      var first := SlotRowOrigin(d);
      var second := Add(first, Point(0.0, -d.islandWidth - d.slotDepth));
      Success(MoveAll(row, first) + MoveAll(row, second))
  }

  /** Depth (in y) of one slot rectangle, which is drawn from its corner. */
  function SlotLength(d: BodyDims): (length: real) {
    d.slotDepth + (d.pocketWidth - d.islandWidth) / 2.0
  }

  /** The solids placed by the body generator's arrays. */
  datatype BodyArrays = BodyArrays(holes: seq<Box>, ribs: seq<Box>, slots: seq<Box>)

  function HoleBox(d: BodyDims, c: Point): (b: Box) {
    CentredBox(c.x, c.y, d.holeWidth, d.holeLength, d.bodyHeight - 2.0, 2.0)
  }

  function RibBox(d: BodyDims, c: Point): (b: Box) {
    CentredBox(c.x, c.y, d.ribWidth, d.ribDepth, 0.0, d.bodyHeight)
  }

  function SlotBox(d: BodyDims, corner: Point): (b: Box) {
    Box(corner.x, corner.x + d.slotWidth, corner.y, corner.y + SlotLength(d), 0.0, d.slotHeight)
  }

  /** The holes (cut 2 deep from the top face), ribs (full body height) and
      slots (from the base, slotHeight high) in the order the generator places
      them; the first failing point array aborts the body. */
  function PlaceArrays(d: BodyDims): (arrays: Result<BodyArrays>) {
    match HoleCentres(d)
    case Failure(e) => Failure(e)
    case Success(hs) =>
      match RibCentres(d)
      case Failure(e) => Failure(e)
      case Success(rs) =>
        match SlotCorners(d)
        case Failure(e) => Failure(e)
        case Success(ss) =>
          Success(BodyArrays(
            seq(|hs|, i requires 0 <= i < |hs| => HoleBox(d, hs[i])),
            seq(|rs|, i requires 0 <= i < |rs| => RibBox(d, rs[i])),
            seq(|ss|, i requires 0 <= i < |ss| => SlotBox(d, ss[i]))))
  }

  /** x-coordinate of column j of a centred array of `count` columns. */
  function CentredColumnX(pitch: real, count: int, j: int): (x: real) {
    j as real * pitch - (count - 1) as real * pitch / 2.0
  }

  /** Point j of a centred single row at the pin pitch. */
  lemma CentredRowAt(pitch: real, count: int, j: int)
    requires pitch > 0.0 && 0 <= j < count
    ensures RArray(pitch, 1.0, count, 1, true).Success?
    ensures RArray(pitch, 1.0, count, 1, true).value[j] == Point(CentredColumnX(pitch, count, j), 0.0)
  {
    CentredGridAt(pitch, 1.0, count, 1, j, 0);
  }

  /** The body's arrays fail, as `my_rarray` raises, exactly when the pitch is
      not positive, there are fewer than two pins, or the rib rows' spacing is
      not positive; otherwise there are 2*(numPins/2) holes and slots and
      2*(numPins/2 + 1) ribs. */
  lemma ArrayCounts(d: BodyDims)
    ensures PlaceArrays(d).Failure? <==>
            (d.pinPitch <= 0.0 || d.numPins < 2 || d.pocketWidth + d.bodyChamfer <= 0.0)
    ensures PlaceArrays(d).Success? ==>
            && |PlaceArrays(d).value.holes| == 2 * PerRow(d.numPins)
            && |PlaceArrays(d).value.slots| == 2 * PerRow(d.numPins)
            && |PlaceArrays(d).value.ribs| == 2 * (PerRow(d.numPins) + 1)
  {
    if PlaceArrays(d).Success? {
      var h := PerRow(d.numPins);
      assert |RibCentres(d).value| == (h + 1) * 2;
    }
  }

  /** Hole j of each row sits in column j of a centred row at the pin pitch:
      the first row at y = holeOffset, the second at y = -holeOffset. */
  lemma HolePositions(d: BodyDims, j: int)
    requires d.pinPitch > 0.0 && d.numPins >= 2
    requires 0 <= j < PerRow(d.numPins)
    ensures HoleCentres(d).Success?
    ensures var hs := HoleCentres(d).value; var h := PerRow(d.numPins);
      && |hs| == 2 * h
      && hs[j] == Point(CentredColumnX(d.pinPitch, h, j), d.holeOffset)
      && hs[h + j] == Point(CentredColumnX(d.pinPitch, h, j), -d.holeOffset)
  {
    CentredRowAt(d.pinPitch, PerRow(d.numPins), j);
  }

  /** Rib column k has its two ribs at y = -s/2 and y = +s/2, where s is the
      rib-row spacing pocketWidth + bodyChamfer. */
  lemma RibPositions(d: BodyDims, k: int)
    requires d.pinPitch > 0.0 && d.pocketWidth + d.bodyChamfer > 0.0 && d.numPins >= 0
    requires 0 <= k <= PerRow(d.numPins)
    ensures RibCentres(d).Success?
    ensures var rs := RibCentres(d).value; var h := PerRow(d.numPins);
      var s := d.pocketWidth + d.bodyChamfer;
      && |rs| == 2 * (h + 1)
      && rs[2 * k] == Point(CentredColumnX(d.pinPitch, h + 1, k), -s / 2.0)
      && rs[2 * k + 1] == Point(CentredColumnX(d.pinPitch, h + 1, k), s / 2.0)
  {
    var h := PerRow(d.numPins);
    var s := d.pocketWidth + d.bodyChamfer;
    CentredGridAt(d.pinPitch, s, h + 1, 2, k, 0);
    CentredGridAt(d.pinPitch, s, h + 1, 2, k, 1);
    assert k * 2 + 0 == 2 * k && k * 2 + 1 == 2 * k + 1;
  }

  /** There is one more rib column than hole columns, at the same pitch and
      both centred, so every hole lies exactly midway between the two rib
      columns on either side of it. */
  lemma HolesMidwayBetweenRibs(d: BodyDims, j: int)
    requires d.pinPitch > 0.0 && d.pocketWidth + d.bodyChamfer > 0.0 && d.numPins >= 2
    requires 0 <= j < PerRow(d.numPins)
    ensures HoleCentres(d).Success? && RibCentres(d).Success?
    ensures var hs := HoleCentres(d).value; var rs := RibCentres(d).value;
      && 2 * j + 2 < |rs| && j < |hs|
      && hs[j].x == (rs[2 * j].x + rs[2 * j + 2].x) / 2.0
      && rs[2 * j].x < hs[j].x < rs[2 * j + 2].x
  {
    HolePositions(d, j);
    RibPositions(d, j);
    RibPositions(d, j + 1);
    assert 2 * (j + 1) == 2 * j + 2;
  }

  /** Every slot is centred in x on the hole with the same index, in both rows. */
  lemma SlotsCentredOnHoles(d: BodyDims, i: int)
    requires d.pinPitch > 0.0 && d.numPins >= 2
    requires 0 <= i < 2 * PerRow(d.numPins)
    ensures HoleCentres(d).Success? && SlotCorners(d).Success?
    ensures var hs := HoleCentres(d).value; var ss := SlotCorners(d).value;
      && |ss| == |hs| && i < |hs|
      && (ss[i].x + (ss[i].x + d.slotWidth)) / 2.0 == hs[i].x
  {
  }

  /** The first slot row runs from slotDepth inside the island edge exactly to
      the pocket wall at y = pocketWidth/2; the second row is the mirror image
      of the first across the XZ plane exactly when
      pocketWidth == islandWidth + 4*slotDepth. */
  lemma SlotRows(d: BodyDims, j: int)
    requires d.pinPitch > 0.0 && d.numPins >= 2
    requires 0 <= j < PerRow(d.numPins)
    ensures SlotCorners(d).Success?
    ensures var ss := SlotCorners(d).value; var h := PerRow(d.numPins);
      var a := SlotBox(d, ss[j]); var b := SlotBox(d, ss[h + j]);
      && |ss| == 2 * h
      && a.yMin == d.islandWidth / 2.0 - d.slotDepth
      && a.yMax == d.pocketWidth / 2.0
      && b.xMin == a.xMin && b.xMax == a.xMax
      && ((b.yMin == -a.yMax && b.yMax == -a.yMin) <==> d.pocketWidth == d.islandWidth + 4.0 * d.slotDepth)
  {
    CentredRowAt(d.pinPitch, PerRow(d.numPins), j);
  }

  /** One copy of the contact solid: the base contact (built at a fixed place
      in the YZ plane), translated by `dx` along X and mirrored across the XZ
      plane (y negated) when `mirrored`. */
  datatype ContactCopy = ContactCopy(dx: real, mirrored: bool)

  /** Mirroring a union of contact copies across the XZ plane. */
  function MirrorXZ(s: set<ContactCopy>): (r: set<ContactCopy>) {
    set c | c in s :: ContactCopy(c.dx, !c.mirrored)
  }

  /** Translating a union of contact copies along X. */
  function TranslateX(s: set<ContactCopy>, dx: real): (r: set<ContactCopy>) {
    set c | c in s :: ContactCopy(c.dx + dx, c.mirrored)
  }

  /** A contact and its mirror image, translated by dx. */
  function PairAt(dx: real): (pair: set<ContactCopy>) {
    {ContactCopy(dx, false), ContactCopy(dx, true)}
  }

  /** The offsets 0, pinPitch, ..., (count-1)*pinPitch. */
  function PairOffsets(count: nat, pinPitch: real): (offs: seq<real>) {
    seq(count, k requires 0 <= k < count => k as real * pinPitch)
  }

  /** Contact pairs at each of the given offsets. */
  function PairsAt(offs: seq<real>): (pairs: set<ContactCopy>) {
    set dx, m: bool | dx in offs :: ContactCopy(dx, m)
  }

  /** Number of pair offsets in the contacts solid: numPins/2, but never
      fewer than the initial pair. */
  function PairCount(numPins: int): (n: nat)
    ensures n >= 1 && (numPins >= 2 ==> 2 * n <= numPins < 2 * n + 2)
    ensures numPins < 2 ==> n == 1
  {
    if PerRow(numPins) < 1 then 1 else PerRow(numPins)
  }

  /** The copies in the contacts solid: pairs at offsets k*pinPitch for
      k in 0 .. numPins/2 - 1; a pin count below 2 still leaves the initial
      pair at offset 0. */
  function ContactLayout(numPins: int, pinPitch: real): (layout: set<ContactCopy>) {
    PairsAt(PairOffsets(PairCount(numPins), pinPitch))
  }

  lemma PairsStep(count: nat, pinPitch: real)
    ensures PairsAt(PairOffsets(count + 1, pinPitch))
            == PairsAt(PairOffsets(count, pinPitch)) + PairAt(count as real * pinPitch)
  {
    var offs := PairOffsets(count, pinPitch);
    assert PairOffsets(count + 1, pinPitch) == offs + [count as real * pinPitch] by {
      var longer := PairOffsets(count + 1, pinPitch);
      forall k | 0 <= k < count + 1 ensures longer[k] == (offs + [count as real * pinPitch])[k] {
      }
    }
    var lhs := PairsAt(offs + [count as real * pinPitch]);
    var rhs := PairsAt(offs) + PairAt(count as real * pinPitch);
    forall c | c in rhs ensures c in lhs {
      assert c.dx in offs + [count as real * pinPitch];
    }
  }

  /** A single offset gives just the pair at 0. */
  lemma FirstPair(pinPitch: real)
    ensures PairsAt(PairOffsets(1, pinPitch)) == PairAt(0.0)
  {
    assert 0 as real * pinPitch == 0.0;
    var offs := PairOffsets(1, pinPitch);
    assert offs == [0.0];
    forall c | c in PairsAt(offs) ensures c in PairAt(0.0) {
      assert c.dx in offs;
    }
    assert ContactCopy(0.0, false) in PairsAt(offs);
    assert ContactCopy(0.0, true) in PairsAt(offs);
  }

  /** `generate_contacts`: the contact is unioned with its XZ mirror image, and
      that pair with a copy of itself translated by i*pinPitch for every i in
      range(0, numPins/2). The copy at i = 0 coincides with the pair itself. */
  method GenerateContacts(numPins: int, pinPitch: real) returns (contacts: set<ContactCopy>)
    ensures contacts == ContactLayout(numPins, pinPitch)
    ensures numPins < 2 ==> contacts == PairAt(0.0)
  {
    var contact1 := {ContactCopy(0.0, false)};
    var contact2 := MirrorXZ(contact1);
    assert contact2 == {ContactCopy(0.0, true)};
    var contactPair := contact1 + contact2;
    FirstPair(pinPitch);
    contacts := contactPair;
    var i := 0;
    while i < numPins / 2
      invariant 0 <= i && (i <= numPins / 2 || i == 0)
      invariant contacts == PairsAt(PairOffsets(if i < 1 then 1 else i, pinPitch))
    {
      var moved := TranslateX(contactPair, i as real * pinPitch);
      assert moved == PairAt(i as real * pinPitch) by {
        assert ContactCopy(0.0, false) in contactPair && ContactCopy(0.0, true) in contactPair;
      }
      if i >= 1 {
        PairsStep(i, pinPitch);
      } else {
        assert i as real * pinPitch == 0.0;
      }
      contacts := contacts + moved;
      i := i + 1;
    }
  }

  /** Every copy in the contacts solid is accompanied by its XZ mirror image,
      and a copy lies at offset dx exactly when dx is k*pinPitch for some
      k in 0 .. PairCount(numPins) - 1. */
  lemma ContactsMirrorClosed(numPins: int, pinPitch: real, c: ContactCopy)
    ensures c in ContactLayout(numPins, pinPitch) <==> ContactCopy(c.dx, !c.mirrored) in ContactLayout(numPins, pinPitch)
    ensures c in ContactLayout(numPins, pinPitch) <==>
            exists k :: 0 <= k < PairCount(numPins) && c.dx == PairOffsets(PairCount(numPins), pinPitch)[k]
  {
    var offs := PairOffsets(PairCount(numPins), pinPitch);
    if c.dx in offs {
      assert ContactCopy(c.dx, !c.mirrored) in ContactLayout(numPins, pinPitch);
      assert c in ContactLayout(numPins, pinPitch);
    }
  }

  /** The base contact is extruded pinWidth along X from
      -pinWidth/2 - pinGroupWidth/2, so a copy translated by dx is centred at
      dx - pinGroupWidth/2. */
  function ContactCentreX(c: ContactCopy, pinGroupWidth: real): (x: real) {
    c.dx - pinGroupWidth / 2.0
  }

  /** When the pin group width is (numPins/2 - 1) pitches, the contact pair
      at offset j*pinPitch is centred on hole column j. */
  lemma ContactsOverHoles(d: BodyDims, pinGroupWidth: real, j: int, m: bool)
    requires d.pinPitch > 0.0 && d.numPins >= 2
    requires pinGroupWidth == (PerRow(d.numPins) - 1) as real * d.pinPitch
    requires 0 <= j < PerRow(d.numPins)
    ensures HoleCentres(d).Success?
    ensures ContactCopy(j as real * d.pinPitch, m) in ContactLayout(d.numPins, d.pinPitch)
    ensures ContactCentreX(ContactCopy(j as real * d.pinPitch, m), pinGroupWidth) == HoleCentres(d).value[j].x
  {
    HolePositions(d, j);
    assert PairOffsets(PairCount(d.numPins), d.pinPitch)[j] == j as real * d.pinPitch;
  }
}
