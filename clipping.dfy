/** Casting particle data to an integer type in Set.write_particles: values are
    clipped to the type's [min, max], and a warning is due exactly when some
    value lies outside that range. */
module Clipping {
  import opened Common
  import opened Volume

  /** Integer target types of a particle. */
  datatype IntType = Int8 | UInt8 | Int16 | UInt16 | Int32 | UInt32 | Int64 | UInt64

  datatype Range = Range(min: int, max: int)

  predicate Signed(t: IntType)
  {
    t.Int8? || t.Int16? || t.Int32? || t.Int64?
  }

  /** The representable range of an integer type (what iinfo reports): symmetric
      around -1/2 for signed types, starting at 0 for unsigned ones. */
  function IntRange(t: IntType): (r: Range)
    ensures 0 < r.max
    ensures Signed(t) ==> r.min == -(r.max + 1)
    ensures !Signed(t) ==> r.min == 0
  {
    match t
    case Int8 => Range(-0x80, 0x7F)
    case UInt8 => Range(0, 0xFF)
    case Int16 => Range(-0x8000, 0x7FFF)
    case UInt16 => Range(0, 0xFFFF)
    case Int32 => Range(-0x8000_0000, 0x7FFF_FFFF)
    case UInt32 => Range(0, 0xFFFF_FFFF)
    case Int64 => Range(-0x8000_0000_0000_0000, 0x7FFF_FFFF_FFFF_FFFF)
    case UInt64 => Range(0, 0xFFFF_FFFF_FFFF_FFFF)
  }

  predicate SameShape(a: Grid, b: Grid)
  {
    && |a| == |b|
    && (forall i :: 0 <= i < |a| ==> |a[i]| == |b[i]|)
    && (forall i, j :: 0 <= i < |a| && 0 <= j < |a[i]| ==> |a[i][j]| == |b[i][j]|)
  }

  predicate InRange(g: Grid, lo: int, hi: int)
  {
    forall i, j, k :: 0 <= i < |g| && 0 <= j < |g[i]| && 0 <= k < |g[i][j]| ==> lo <= g[i][j][k] <= hi
  }

  /** Some voxel lies below lo or above hi. */
  predicate NeedsClipping(g: Grid, lo: int, hi: int)
  {
    exists i, j, k :: 0 <= i < |g| && 0 <= j < |g[i]| && 0 <= k < |g[i][j]| &&
      (g[i][j][k] < lo || g[i][j][k] > hi)
  }

  /** np.clip on a grid: every voxel moved to the nearest value of [lo, hi]. */
  function ClipGrid(g: Grid, lo: int, hi: int): (r: Grid)
    requires lo <= hi
    ensures SameShape(r, g)
    ensures InRange(r, lo, hi)
    ensures forall i, j, k :: 0 <= i < |g| && 0 <= j < |g[i]| && 0 <= k < |g[i][j]| ==>
              (lo <= g[i][j][k] <= hi ==> r[i][j][k] == g[i][j][k]) &&
              (g[i][j][k] < lo ==> r[i][j][k] == lo) &&
              (g[i][j][k] > hi ==> r[i][j][k] == hi)
  {
    seq(|g|, i requires 0 <= i < |g| =>
      seq(|g[i]|, j requires 0 <= j < |g[i]| =>
        seq(|g[i][j]|, k requires 0 <= k < |g[i][j]| => Clamp(g[i][j][k], lo, hi))))
  }

  /** Clipping changes the grid exactly when some voxel is out of range. */
  lemma ClipGridChangesIffNeeded(g: Grid, lo: int, hi: int)
    requires lo <= hi
    ensures ClipGrid(g, lo, hi) == g <==> !NeedsClipping(g, lo, hi)
  {
    var r := ClipGrid(g, lo, hi);
    if NeedsClipping(g, lo, hi) {
      var i, j, k :| 0 <= i < |g| && 0 <= j < |g[i]| && 0 <= k < |g[i][j]| &&
        (g[i][j][k] < lo || g[i][j][k] > hi);
      assert r[i][j][k] != g[i][j][k];
    } else {
      forall i | 0 <= i < |g|
        ensures r[i] == g[i]
      {
        forall j | 0 <= j < |g[i]|
          ensures r[i][j] == g[i][j]
        {
          assert forall k :: 0 <= k < |g[i][j]| ==> r[i][j][k] == g[i][j][k];
        }
      }
    }
  }

  /** Clipping a grid that is already in range changes nothing. */
  lemma ClipGridIdempotent(g: Grid, lo: int, hi: int)
    requires lo <= hi
    ensures ClipGrid(ClipGrid(g, lo, hi), lo, hi) == ClipGrid(g, lo, hi)
  {
    ClipGridChangesIffNeeded(ClipGrid(g, lo, hi), lo, hi);
  }

  /** Cast result: the data and whether the clip warning is issued. */
  datatype Cast = Cast(data: Grid, clipped: bool)

  /** The cast of write_particles to an integer type: the data end up in the
      type's range, in-range voxels are kept, and the warning is issued exactly
      when the data had to change. */
  function CastToType(g: Grid, t: IntType): (c: Cast)
    ensures SameShape(c.data, g)
    ensures InRange(c.data, IntRange(t).min, IntRange(t).max)
    ensures c.clipped <==> NeedsClipping(g, IntRange(t).min, IntRange(t).max)
    ensures c.clipped <==> c.data != g
  {
    var r := IntRange(t);
    ClipGridChangesIffNeeded(g, r.min, r.max);
    Cast(ClipGrid(g, r.min, r.max), NeedsClipping(g, r.min, r.max))
  }

  /** Example: the value 200 cast to int8 becomes 127, with a warning. */
  lemma CastInt8Example()
    ensures CastToType([[[200, 5]]], Int8) == Cast([[[127, 5]]], true)
  {
    var g: Grid := [[[200, 5]]];
    assert IntRange(Int8) == Range(-128, 127);
    assert g[0][0][0] > 127;
    assert NeedsClipping(g, -128, 127);
    var r := ClipGrid(g, -128, 127);
    assert |r| == 1 && |r[0]| == 1 && |r[0][0]| == 2;
    assert r[0][0][0] == 127 && r[0][0][1] == 5;
    assert r[0][0] == [127, 5];
    assert r[0] == [[127, 5]];
    assert r == [[[127, 5]]];
  }

  /** The name numpy gives an integer type. */
  function TypeName(t: IntType): (name: string)
    ensures |name| >= 4
    ensures Signed(t) <==> name[0] == 'i'
  {
    match t
    case Int8 => "int8"
    case UInt8 => "uint8"
    case Int16 => "int16"
    case UInt16 => "uint16"
    case Int32 => "int32"
    case UInt32 => "uint32"
    case Int64 => "int64"
    case UInt64 => "uint64"
  }

  /** The clip warning as the source builds it: the format call binds to the
      second literal alone, so the particle slot keeps its braces, the path
      fills the slot meant for the type, and the type is not mentioned. */
  function ClipWarningAsWritten(path: string, t: IntType): string
  {
    "Warning: Particle {} needs to be clipped to convert" + (" it to " + path)
  }

  /** The text as written is the same for every type, and its particle slot
      still holds the braces. */
  lemma ClipWarningAsWrittenOmitsParticle(path: string, t: IntType, u: IntType)
    ensures ClipWarningAsWritten(path, t) == ClipWarningAsWritten(path, u)
    ensures ClipWarningAsWritten(path, t)[18..20] == "{}"
  {
    var w := ClipWarningAsWritten(path, t);
    assert w[18] == '{' && w[19] == '}';
  }

  /** For the particle "p.mrc" converted to int8 the text as written differs
      from the intended one: its particle slot holds "{}" instead of the path. */
  lemma ClipWarningAsWrittenDiffers()
    ensures ClipWarningAsWritten("p.mrc", Int8) != ClipWarning("p.mrc", Int8)
  {
    ClipWarningAsWrittenOmitsParticle("p.mrc", Int8, Int8);
    assert ClipWarning("p.mrc", Int8)[18..20] == "p.";
  }

  /** The clip warning as intended: it names the particle's path and the
      target type. */
  function ClipWarning(path: string, t: IntType): (w: string)
    ensures |w| == 18 + |path| + 38 + |TypeName(t)|
    ensures w[18..18 + |path|] == path
    ensures w[|w| - |TypeName(t)|..] == TypeName(t)
  {
    var head := "Warning: Particle ";
    var w := head + path + " needs to be clipped to convert it to " + TypeName(t);
    assert |head| == 18;
    assert w[18..18 + |path|] == (head + path)[18..];
    w
  }
}
