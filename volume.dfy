/** Slicing particle boxes out of a 3D volume (the slices of Set.write_particles
    and the absolute-mode inset read that uses them). */
module Volume {
  import opened Common
  import opened BoxCoords

  /** A half-open index range [start, stop) on one axis. */
  datatype Slice = Slice(start: int, stop: int)

  datatype Slices3 = Slices3(x: Slice, y: Slice, z: Slice)

  /** Voxel values of a particle, indexed [x][y][z]. */
  type Grid = seq<seq<seq<int>>>

  /** The shape of a volume. */
  function Shape(tomo: array3<int>): Triple
  {
    Triple(tomo.Length0, tomo.Length1, tomo.Length2)
  }

  /** The slices of one box: [corner, corner + boxSize) on every axis. */
  function BoxSlice(left: Triple, boxSize: nat): (sl: Slices3)
    ensures sl.x.stop - sl.x.start == boxSize
    ensures sl.y.stop - sl.y.start == boxSize
    ensures sl.z.stop - sl.z.start == boxSize
  {
    Slices3(Slice(left.x, left.x + boxSize),
            Slice(left.y, left.y + boxSize),
            Slice(left.z, left.z + boxSize))
  }

  /** The slices of all boxes, one per left corner, in order. */
  function BoxSlices(leftCorners: seq<Triple>, boxSize: nat): (r: seq<Slices3>)
    ensures |r| == |leftCorners|
    ensures forall i :: 0 <= i < |r| ==> r[i] == BoxSlice(leftCorners[i], boxSize)
  {
    seq(|leftCorners|, i requires 0 <= i < |leftCorners| => BoxSlice(leftCorners[i], boxSize))
  }

  /** True when the slices lie inside the volume on every axis. */
  predicate SliceWithin(sl: Slices3, shape: Triple)
  {
    && 0 <= sl.x.start <= sl.x.stop <= shape.x
    && 0 <= sl.y.start <= sl.y.stop <= shape.y
    && 0 <= sl.z.start <= sl.z.stop <= shape.z
  }

  /** Every slice triple of the list lies inside the volume. */
  predicate SlicesWithin(slices: seq<Slices3>, shape: Triple)
  {
    forall q :: 0 <= q < |slices| ==> SliceWithin(slices[q], shape)
  }

  /** A box inside the volume has its slices inside the volume, and conversely. */
  lemma BoxSliceWithin(left: Triple, boxSize: nat, shape: Triple)
    ensures SliceWithin(BoxSlice(left, boxSize), shape) <==> Inside(left, boxSize, shape)
  {
  }

  /** Every slice built from the corners of AdjustBoxes lies inside the volume. */
  lemma AdjustedSlicesWithin(centers: seq<Triple>, boxSize: nat, shape: Triple)
    requires AdjustBoxes(centers, boxSize, shape).Ok?
    ensures SlicesWithin(BoxSlices(AdjustBoxes(centers, boxSize, shape).value.leftCorners, boxSize), shape)
  {
    var lefts := AdjustBoxes(centers, boxSize, shape).value.leftCorners;
    forall i | 0 <= i < |lefts|
      ensures SliceWithin(BoxSlices(lefts, boxSize)[i], shape)
    {
      BoxSliceWithin(lefts[i], boxSize, shape);
    }
  }

  /** The voxels a slice selects, read from the volume. */
  function Inset(tomo: array3<int>, sl: Slices3): (g: Grid)
    reads tomo
    requires SliceWithin(sl, Shape(tomo))
    ensures |g| == sl.x.stop - sl.x.start
    ensures forall i :: 0 <= i < |g| ==> |g[i]| == sl.y.stop - sl.y.start
    ensures forall i, j :: 0 <= i < |g| && 0 <= j < |g[i]| ==> |g[i][j]| == sl.z.stop - sl.z.start
    ensures forall i, j, k :: 0 <= i < |g| && 0 <= j < |g[i]| && 0 <= k < |g[i][j]| ==>
              g[i][j][k] == tomo[sl.x.start + i, sl.y.start + j, sl.z.start + k]
  {
    seq(sl.x.stop - sl.x.start, i requires 0 <= i < sl.x.stop - sl.x.start reads tomo =>
      seq(sl.y.stop - sl.y.start, j requires 0 <= j < sl.y.stop - sl.y.start reads tomo =>
        seq(sl.z.stop - sl.z.start, k requires 0 <= k < sl.z.stop - sl.z.start reads tomo =>
          tomo[sl.x.start + i, sl.y.start + j, sl.z.start + k])))
  }
}
