/** Placement of cubic particle boxes around label centres (Set.adjust_box_coords):
    each box is centred on its label and shifted as little as needed to stay
    inside the volume. */
module BoxCoords {
  import opened Common

  /** True when a box of edge boxSize is no larger than the volume on any axis. */
  predicate BoxFits(boxSize: nat, shape: Triple)
  {
    boxSize <= shape.x && boxSize <= shape.y && boxSize <= shape.z
  }

  /** True when the box with this left corner lies inside the volume on every axis. */
  predicate Inside(left: Triple, boxSize: nat, shape: Triple)
  {
    && 0 <= left.x && left.x + boxSize <= shape.x
    && 0 <= left.y && left.y + boxSize <= shape.y
    && 0 <= left.z && left.z + boxSize <= shape.z
  }

  /** Left corner on one axis, by the steps of the source: centre the box, move
      it right when it sticks out on the left, then move it left when it sticks
      out on the right. */
  function AxisCorner(c: int, boxSize: nat, extent: int): (left: int)
    requires boxSize <= extent
    ensures 0 <= left && left + boxSize <= extent
    ensures left == Clamp(c - boxSize / 2, 0, extent - boxSize)
  {
    var half := boxSize / 2;
    var leftCoord := c - half;
    var leftFixed := if leftCoord < 0 then 0 else leftCoord;
    var rightCoord := leftFixed + boxSize;
    var rightFixed := if rightCoord >= extent then extent else rightCoord;
    rightFixed - boxSize
  }

  function Corner(c: Triple, boxSize: nat, shape: Triple): Triple
    requires BoxFits(boxSize, shape)
  {
    Triple(AxisCorner(c.x, boxSize, shape.x),
           AxisCorner(c.y, boxSize, shape.y),
           AxisCorner(c.z, boxSize, shape.z))
  }

  /** The centre of a box placed at this left corner. */
  function BoxCenter(left: Triple, boxSize: nat): Triple
  {
    var half := boxSize / 2;
    Triple(left.x + half, left.y + half, left.z + half)
  }

  /** The two fields set by adjust_box_coords. */
  datatype Boxes = Boxes(leftCorners: seq<Triple>, centers: seq<Triple>)

  /** adjust_box_coords on label centres and a volume shape: an error when the
      box is larger than the volume on some axis (checked before anything else,
      also for no centres), otherwise one left corner and one centre per label
      centre, every box inside the volume. */
  function AdjustBoxes(centers: seq<Triple>, boxSize: nat, shape: Triple): (r: Result<Boxes>)
    ensures r.Err? <==> !BoxFits(boxSize, shape)
    ensures r.Err? ==> r.error == BoxTooLarge(boxSize, shape)
    ensures r.Ok? ==> |r.value.leftCorners| == |centers| && |r.value.centers| == |centers|
    ensures r.Ok? ==> forall i :: 0 <= i < |centers| ==> Inside(r.value.leftCorners[i], boxSize, shape)
  {
    if !BoxFits(boxSize, shape) then
      Err(BoxTooLarge(boxSize, shape))
    else if |centers| > 0 then
      var lefts := seq(|centers|, i requires 0 <= i < |centers| => Corner(centers[i], boxSize, shape));
      Ok(Boxes(lefts, seq(|centers|, i requires 0 <= i < |centers| => BoxCenter(lefts[i], boxSize))))
    else
      Ok(Boxes([], []))
  }

  /** On every axis the left corner is the naive corner c - boxSize/2 clamped to
      [0, extent - boxSize]. */
  lemma AdjustBoxesClamps(centers: seq<Triple>, boxSize: nat, shape: Triple, i: int)
    requires AdjustBoxes(centers, boxSize, shape).Ok? && 0 <= i < |centers|
    ensures var l := AdjustBoxes(centers, boxSize, shape).value.leftCorners[i];
      && l.x == Clamp(centers[i].x - boxSize / 2, 0, shape.x - boxSize)
      && l.y == Clamp(centers[i].y - boxSize / 2, 0, shape.y - boxSize)
      && l.z == Clamp(centers[i].z - boxSize / 2, 0, shape.z - boxSize)
  {
  }

  /** The box is shifted as little as needed: no left corner of a box inside the
      volume is nearer to the naive corner, axis by axis. */
  lemma AdjustBoxesShiftsLeast(centers: seq<Triple>, boxSize: nat, shape: Triple, i: int, other: Triple)
    requires AdjustBoxes(centers, boxSize, shape).Ok? && 0 <= i < |centers|
    requires Inside(other, boxSize, shape)
    ensures var l := AdjustBoxes(centers, boxSize, shape).value.leftCorners[i];
      var half := boxSize / 2;
      && Dist(l.x, centers[i].x - half) <= Dist(other.x, centers[i].x - half)
      && Dist(l.y, centers[i].y - half) <= Dist(other.y, centers[i].y - half)
      && Dist(l.z, centers[i].z - half) <= Dist(other.z, centers[i].z - half)
  {
    var half := boxSize / 2;
    AdjustBoxesClamps(centers, boxSize, shape, i);
    ClampIsNearest(centers[i].x - half, 0, shape.x - boxSize, other.x);
    ClampIsNearest(centers[i].y - half, 0, shape.y - boxSize, other.y);
    ClampIsNearest(centers[i].z - half, 0, shape.z - boxSize, other.z);
  }

  /** The output centre is the left corner plus half the box; on an axis where
      the centred box already fits, it is the label centre itself; and it lies
      inside its box. */
  lemma AdjustBoxesCenters(centers: seq<Triple>, boxSize: nat, shape: Triple, i: int)
    requires AdjustBoxes(centers, boxSize, shape).Ok? && 0 <= i < |centers|
    ensures var b := AdjustBoxes(centers, boxSize, shape).value;
      var c := centers[i];
      var half := boxSize / 2;
      && b.centers[i] == BoxCenter(b.leftCorners[i], boxSize)
      && (0 <= c.x - half && c.x - half + boxSize <= shape.x ==> b.centers[i].x == c.x)
      && (0 <= c.y - half && c.y - half + boxSize <= shape.y ==> b.centers[i].y == c.y)
      && (0 <= c.z - half && c.z - half + boxSize <= shape.z ==> b.centers[i].z == c.z)
      && (boxSize > 0 ==>
            && b.leftCorners[i].x <= b.centers[i].x < b.leftCorners[i].x + boxSize
            && b.leftCorners[i].y <= b.centers[i].y < b.leftCorners[i].y + boxSize
            && b.leftCorners[i].z <= b.centers[i].z < b.leftCorners[i].z + boxSize)
  {
  }

  /** No label centres give no corners and no centres. */
  lemma AdjustBoxesEmpty(boxSize: nat, shape: Triple)
    requires BoxFits(boxSize, shape)
    ensures AdjustBoxes([], boxSize, shape) == Ok(Boxes([], []))
  {
  }

  /** A label near the low edge: the box is moved right onto the edge. */
  lemma AdjustBoxesLowEdgeExample()
    ensures AdjustBoxes([Triple(2, 2, 2)], 10, Triple(100, 100, 100))
         == Ok(Boxes([Triple(0, 0, 0)], [Triple(5, 5, 5)]))
  {
    var b := AdjustBoxes([Triple(2, 2, 2)], 10, Triple(100, 100, 100)).value;
    assert b.leftCorners == [Triple(0, 0, 0)];
    assert b.centers == [Triple(5, 5, 5)];
  }

  /** A label near the high edge: the box is moved left onto the edge. */
  lemma AdjustBoxesHighEdgeExample()
    ensures AdjustBoxes([Triple(98, 98, 98)], 10, Triple(100, 100, 100))
         == Ok(Boxes([Triple(90, 90, 90)], [Triple(95, 95, 95)]))
  {
    var b := AdjustBoxes([Triple(98, 98, 98)], 10, Triple(100, 100, 100)).value;
    assert b.leftCorners == [Triple(90, 90, 90)];
    assert b.centers == [Triple(95, 95, 95)];
  }
}
