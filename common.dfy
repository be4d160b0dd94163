/** Values shared by the particle-extraction modules: coordinates, label ids,
    the errors the extraction raises, and the clamp that both the box
    placement and the intensity clipping are built on. */
module Common {

  /** A position, a left corner or a volume shape on the three axes (x, y, z), in voxels. */
  datatype Triple = Triple(x: int, y: int, z: int)

  /** Label ids: positive, 0 being the background of a label volume. */
  type LabelId = n: nat | n >= 1 witness 1

  datatype Option<+T> = None | Some(value: T)

  /** The exceptions raised while extracting particles. */
  datatype Error =
    | BoxTooLarge(boxSize: nat, shape: Triple)  // the box does not fit the volume on some axis
    | UnknownIdentifier(identifier: string)     // no listed group holds the dataset
    | UnknownGroup(groupName: string)           // a listed group is not in the structure object
    | MissingDataset(identifier: string)        // no volume path or label centres can be found for a dataset
    | LengthMismatch                            // catalog columns of unequal length

  datatype Result<+T> = Ok(value: T) | Err(error: Error)

  datatype Outcome = Pass | Fail(error: Error)

  /** The point of [lo, hi] nearest to v. */
  function Clamp(v: int, lo: int, hi: int): (r: int)
    requires lo <= hi
    ensures lo <= r <= hi
    ensures lo <= v <= hi ==> r == v
  {
    if v < lo then lo else if v > hi then hi else v
  }

  /** The smaller of two lengths: how many pairs zip forms. */
  function Min(a: nat, b: nat): (m: nat)
    ensures m <= a && m <= b && (m == a || m == b)
  {
    if a < b then a else b
  }

  function Dist(a: int, b: int): nat
  {
    if a < b then b - a else a - b
  }

  /** No point of [lo, hi] is closer to v than Clamp(v, lo, hi). */
  lemma ClampIsNearest(v: int, lo: int, hi: int, w: int)
    requires lo <= hi && lo <= w <= hi
    ensures Dist(Clamp(v, lo, hi), v) <= Dist(w, v)
  {
  }
}
