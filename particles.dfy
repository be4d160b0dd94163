/** The particle set of pyto.particles.Set: the state kept for the dataset
    being processed (volume, ids, boxes, particle paths), the particle catalog
    built across datasets, and the extraction driver that walks the requested
    identifiers. */
module Particles {
  import opened Common
  import opened BoxCoords
  import opened ParticleNames
  import opened Volume
  import opened Clipping
  import opened Catalog
  import opened Extraction

  /** One particle file as written: its path, its voxels and the clip warning
      issued for it, if any. */
  datatype ParticleFile = ParticleFile(path: string, data: Grid, warning: Option<string>)

  /** The particle write_particles writes for one box: the voxels the slices
      select, cast to the particle type when one is set, under the given
      path. */
  function PrepareParticle(tomo: array3<int>, sl: Slices3, path: string, dtype: Option<IntType>): (f: ParticleFile)
    reads tomo
    requires SliceWithin(sl, Shape(tomo))
    ensures f.path == path
  {
    var g := Inset(tomo, sl);
    match dtype
    case None => ParticleFile(path, g, None)
    case Some(t) =>
      var c := CastToType(g, t);
      ParticleFile(path, c.data, if c.clipped then Some(ClipWarning(path, t)) else None)
  }

  /** Without a particle type the voxels are kept as read and no warning is
      issued; with one they are clipped into its range, and a warning is
      issued exactly when some voxel lay outside it, that is exactly when the
      written voxels differ from the ones read. */
  lemma PrepareParticleSpec(tomo: array3<int>, sl: Slices3, path: string, dtype: Option<IntType>)
    requires SliceWithin(sl, Shape(tomo))
    ensures var f := PrepareParticle(tomo, sl, path, dtype);
      && (dtype.None? ==> f.data == Inset(tomo, sl) && f.warning.None?)
      && (dtype.Some? ==>
        && SameShape(f.data, Inset(tomo, sl))
        && InRange(f.data, IntRange(dtype.value).min, IntRange(dtype.value).max)
        && (f.warning.Some? <==> NeedsClipping(Inset(tomo, sl), IntRange(dtype.value).min, IntRange(dtype.value).max))
        && (f.warning.Some? <==> f.data != Inset(tomo, sl))
        && (f.warning.Some? ==> f.warning.value == ClipWarning(path, dtype.value)))
  {
  }

  /** The particles the write loop produces for the first n pairs of
      slices and paths, in order. */
  function WrittenParticles(tomo: array3<int>, slices: seq<Slices3>, paths: seq<string>,
                            dtype: Option<IntType>, n: nat): (ps: seq<ParticleFile>)
    reads tomo
    requires n <= |slices| && n <= |paths|
    requires SlicesWithin(slices, Shape(tomo))
    ensures |ps| == n
    ensures forall q :: 0 <= q < n ==> ps[q] == PrepareParticle(tomo, slices[q], paths[q], dtype)
  {
    seq(n, q requires 0 <= q < n reads tomo => PrepareParticle(tomo, slices[q], paths[q], dtype))
  }

  /** One more turn of the write loop appends the particle of the next
      slice and path. */
  lemma WrittenParticlesSnoc(tomo: array3<int>, slices: seq<Slices3>, paths: seq<string>,
                             dtype: Option<IntType>, n: nat)
    requires n < |slices| && n < |paths|
    requires SlicesWithin(slices, Shape(tomo))
    ensures WrittenParticles(tomo, slices, paths, dtype, n + 1)
         == WrittenParticles(tomo, slices, paths, dtype, n) + [PrepareParticle(tomo, slices[n], paths[n], dtype)]
  {
  }

  /** The box of its dataset's volume a catalog row points at lies within
      that volume. */
  predicate RowReady(row: Row, datasets: map<string, Dataset>, boxSize: nat)
  {
    && row.identifier in datasets
    && SliceWithin(BoxSlice(RowCorner(row), boxSize), Shape(datasets[row.identifier].tomo))
  }

  /** The particle file a catalog row stands for: the row's box of its
      dataset's volume, written to the row's particle path. */
  function RowParticle(row: Row, datasets: map<string, Dataset>, boxSize: nat, dtype: Option<IntType>): (f: ParticleFile)
    requires RowReady(row, datasets, boxSize)
    reads datasets[row.identifier].tomo
    ensures f.path == row.particlePath
  {
    PrepareParticle(datasets[row.identifier].tomo, BoxSlice(RowCorner(row), boxSize), row.particlePath, dtype)
  }

  /** The k-th file is the particle of the k-th row. */
  predicate FileOfRowAt(files: seq<ParticleFile>, rows: seq<Row>, datasets: map<string, Dataset>,
                        boxSize: nat, dtype: Option<IntType>, k: nat)
    reads set id | id in datasets :: datasets[id].tomo
  {
    && k < |files| && k < |rows|
    && RowReady(rows[k], datasets, boxSize)
    && files[k] == RowParticle(rows[k], datasets, boxSize, dtype)
  }

  /** The files are the particles of the rows, one for one, in order. */
  predicate FilesOfRows(files: seq<ParticleFile>, rows: seq<Row>, datasets: map<string, Dataset>,
                        boxSize: nat, dtype: Option<IntType>)
    reads set id | id in datasets :: datasets[id].tomo
  {
    && |files| == |rows|
    && forall k: nat :: k < |rows| ==> FileOfRowAt(files, rows, datasets, boxSize, dtype, k)
  }

  /** Files and rows paired one for one stay paired when both grow by
      paired parts. */
  lemma FilesOfRowsExtend(files: seq<ParticleFile>, rows: seq<Row>, files': seq<ParticleFile>, rows': seq<Row>,
                          datasets: map<string, Dataset>, boxSize: nat, dtype: Option<IntType>)
    requires files <= files' && rows <= rows'
    requires FilesOfRows(files, rows, datasets, boxSize, dtype)
    requires FilesOfRows(files'[|files|..], rows'[|rows|..], datasets, boxSize, dtype)
    ensures FilesOfRows(files', rows', datasets, boxSize, dtype)
  {
    var more, moreRows := files'[|files|..], rows'[|rows|..];
    forall k: nat | k < |rows'|
      ensures FileOfRowAt(files', rows', datasets, boxSize, dtype, k)
    {
      if k < |rows| {
        assert FileOfRowAt(files, rows, datasets, boxSize, dtype, k);
        assert rows'[k] == rows[k] && files'[k] == files[k];
      } else {
        assert FileOfRowAt(more, moreRows, datasets, boxSize, dtype, k - |rows|);
        assert rows'[k] == moreRows[k - |rows|] && files'[k] == more[k - |files|];
      }
    }
  }

  /** The particles write_particles appends for a dataset are the particles
      of the table add_data builds for it, when that table is built: it pairs
      every id with a path and a corner, so zip writes one particle per row. */
  lemma DatasetFilesOfRows(identifier: string, groupName: string, ids: seq<LabelId>, tomoPath: string,
                           paths: seq<string>, corners: seq<Triple>,
                           datasets: map<string, Dataset>, boxSize: nat, dtype: Option<IntType>,
                           before: seq<ParticleFile>, after: seq<ParticleFile>)
    requires DatasetRows(identifier, groupName, ids, tomoPath, paths, corners).Ok?
    requires |paths| == |ids| && identifier in datasets
    requires SlicesWithin(BoxSlices(corners, boxSize), Shape(datasets[identifier].tomo))
    requires after == before + WrittenParticles(datasets[identifier].tomo, BoxSlices(corners, boxSize), paths, dtype,
                                                Min(|corners|, |paths|))
    ensures FilesOfRows(after[|before|..], DatasetRows(identifier, groupName, ids, tomoPath, paths, corners).value,
                        datasets, boxSize, dtype)
  {
    var tomo := datasets[identifier].tomo;
    var slices := BoxSlices(corners, boxSize);
    var n := Min(|corners|, |paths|);
    var files := WrittenParticles(tomo, slices, paths, dtype, n);
    assert after[|before|..] == files;
    var rows := DatasetRows(identifier, groupName, ids, tomoPath, paths, corners).value;
    forall k: nat | k < |rows|
      ensures FileOfRowAt(files, rows, datasets, boxSize, dtype, k)
    {
      assert RowCorner(rows[k]) == corners[k];
    }
  }

  class Set {
    /** The structure object: group name to identifier to particle ids. */
    const struct: Groups
    /** Edge length of the particle boxes, in voxels. */
    const boxSize: nat
    /** Directory the particle files are written to. */
    const particleDir: string
    /** Particle type, when particles are cast. */
    const dtype: Option<IntType>

    /** The particle catalog, one row per particle written so far. */
    var data: seq<Row>

    /** The particle files written so far, in the order they were written. */
    var written: seq<ParticleFile>

    /** State of the dataset being processed. */
    var tomoPath: string
    var tomo: array3<int>
    var ids: seq<LabelId>
    var leftCorners: seq<Triple>
    var centers: seq<Triple>
    var particlePaths: seq<string>

    /** Every current box lies inside the current volume. */
    predicate BoxesInside()
      reads this
    {
      forall i :: 0 <= i < |leftCorners| ==> Inside(leftCorners[i], boxSize, Shape(tomo))
    }

    /** The dataset state is identifier's dataset as found in groupName: its
      volume path, volume and ids, the boxes AdjustBoxes places for its
      label centres, and its particles named by id. */
    predicate Holds(groupName: string, identifier: string, datasets: map<string, Dataset>)
      reads this`tomoPath, this`tomo, this`ids, this`leftCorners, this`centers, this`particlePaths
    {
      && groupName in struct && identifier in struct[groupName] && identifier in datasets
      && tomoPath == datasets[identifier].tomoPath
      && tomo == datasets[identifier].tomo
      && ids == struct[groupName][identifier]
      && AdjustBoxes(datasets[identifier].centers, boxSize, Shape(tomo)) == Ok(Boxes(leftCorners, centers))
      && particlePaths == ParticlePaths(particleDir, identifier, ids, true)
    }

    /** The dataset state is identifier's dataset as found in the first
      listed group holding it. */
    predicate HoldsFirst(identifier: string, groupNames: seq<string>, datasets: map<string, Dataset>)
      reads this`tomoPath, this`tomo, this`ids, this`leftCorners, this`centers, this`particlePaths
    {
      && FirstGroup(identifier, groupNames, struct).Ok?
      && Holds(FirstGroup(identifier, groupNames, struct).value, identifier, datasets)
    }

    /** What the passes before pass i leave: the catalog ExtractRun gives
      for the first i identifiers, every row's particle written, and the
      dataset state of the last of them. */
    predicate Progress(identifiers: seq<string>, groupNames: seq<string>, datasets: map<string, Dataset>, i: nat)
      requires i <= |identifiers|
      reads this, set id | id in datasets :: datasets[id].tomo
    {
      && ExtractRun(identifiers[..i], groupNames, struct, datasets, boxSize, particleDir) == Run(data, Pass)
      && FilesOfRows(written, data, datasets, boxSize, dtype)
      && HoldsLast(identifiers[..i], groupNames, datasets)
    }

    /** After passes over identifiers, the dataset state is that of the
      last of them, if any. */
    predicate HoldsLast(identifiers: seq<string>, groupNames: seq<string>, datasets: map<string, Dataset>)
      reads this
    {
      |identifiers| > 0 ==> HoldsFirst(identifiers[|identifiers| - 1], groupNames, datasets)
    }

    /** Pass j over identifiers stopped once its dataset was read and its
      boxes placed: the catalog is the one ExtractRun gives for the
      identifiers before it, and the dataset state is identifiers[j]'s. */
    predicate StoppedAt(identifiers: seq<string>, groupNames: seq<string>, datasets: map<string, Dataset>, j: nat)
      reads this
    {
      && j < |identifiers|
      && ExtractRun(identifiers[..j], groupNames, struct, datasets, boxSize, particleDir) == Run(data, Pass)
      && HoldsFirst(identifiers[j], groupNames, datasets)
    }

    /** What extract_particles leaves: the catalog and outcome ExtractRun
      gives for identifiers, and the particles of the catalog rows, one for
      one and in order, as the first files written. After a successful run
      no other file was written and the dataset state is the last
      identifier's. When a dataset's table failed after its particles were
      written, the extraction stopped at that dataset, the dataset state is
      its own and the files after the rows' are its particles; after any
      other failure no other file was written. */
    predicate Finished(identifiers: seq<string>, groupNames: seq<string>, datasets: map<string, Dataset>, r: Outcome)
      reads this, tomo, set id | id in datasets :: datasets[id].tomo
    {
      && ExtractRun(identifiers, groupNames, struct, datasets, boxSize, particleDir) == Run(data, r)
      && |data| <= |written|
      && FilesOfRows(written[..|data|], data, datasets, boxSize, dtype)
      && (r.Pass? ==> written == written[..|data|] && HoldsLast(identifiers, groupNames, datasets))
      && (r.Fail? && r.error.LengthMismatch? ==>
            && (exists j :: 0 <= j < |identifiers| && StoppedAt(identifiers, groupNames, datasets, j))
            && WroteCurrent(written[..|data|]))
      && (r.Fail? && !r.error.LengthMismatch? ==> written == written[..|data|])
    }

    /** Before the first pass, with nothing in the catalog and nothing
      written, the extraction is at its start. */
    lemma ProgressStart(identifiers: seq<string>, groupNames: seq<string>, datasets: map<string, Dataset>)
      requires data == [] && written == []
      ensures Progress(identifiers, groupNames, datasets, 0)
    {
      assert identifiers[..0] == [];
    }

    /** Once every identifier has had its pass, the extraction has finished
      successfully. */
    lemma ProgressFinished(identifiers: seq<string>, groupNames: seq<string>, datasets: map<string, Dataset>)
      requires Progress(identifiers, groupNames, datasets, |identifiers|)
      ensures Finished(identifiers, groupNames, datasets, Pass)
    {
      assert identifiers[..|identifiers|] == identifiers;
      assert written[..|data|] == written;
    }

    /** The files written are before, then the particles of the current
      boxes under the current paths, paired as zip pairs them. */
    predicate WroteCurrent(before: seq<ParticleFile>)
      reads this, tomo
    {
      && SlicesWithin(BoxSlices(leftCorners, boxSize), Shape(tomo))
      && written == before + WrittenParticles(tomo, BoxSlices(leftCorners, boxSize), particlePaths, dtype,
                                              Min(|leftCorners|, |particlePaths|))
    }

    /** A new set with the given parameters, an empty catalog, no files
      written and no dataset. */
    constructor(struct: Groups, boxSize: nat, particleDir: string, dtype: Option<IntType>)
      ensures this.struct == struct && this.boxSize == boxSize
      ensures this.particleDir == particleDir && this.dtype == dtype
      ensures data == [] && written == []
      ensures ids == [] && leftCorners == [] && centers == [] && particlePaths == []
      ensures BoxesInside()
    {
      this.struct := struct;
      this.boxSize := boxSize;
      this.particleDir := particleDir;
      this.dtype := dtype;
      data := [];
      written := [];
      tomoPath := [];
      tomo := new int[0, 0, 0];
      ids := [];
      leftCorners := [];
      centers := [];
      particlePaths := [];
    }

    /** adjust_box_coords: fails when the box is larger than the volume on
      some axis, leaving the boxes as they were; otherwise every centre gets
      the box of AdjustBoxes, each box inside the volume. */
    method AdjustBoxCoords(cs: seq<Triple>) returns (r: Outcome)
      modifies this`leftCorners, this`centers
      ensures r.Fail? <==> !BoxFits(boxSize, Shape(tomo))
      ensures r.Fail? ==> r.error == BoxTooLarge(boxSize, Shape(tomo))
      ensures r.Fail? ==> leftCorners == old(leftCorners) && centers == old(centers)
      ensures r.Pass? ==>
        && AdjustBoxes(cs, boxSize, Shape(tomo)).Ok?
        && leftCorners == AdjustBoxes(cs, boxSize, Shape(tomo)).value.leftCorners
        && centers == AdjustBoxes(cs, boxSize, Shape(tomo)).value.centers
        && |leftCorners| == |cs| && BoxesInside()
    {
      var adjusted := AdjustBoxes(cs, boxSize, Shape(tomo));
      match adjusted
      case Err(e) =>
        r := Fail(e);
      case Ok(b) =>
        leftCorners := b.leftCorners;
        centers := b.centers;
        r := Pass;
    }

    /** get_coordinates_single: reads the dataset (its volume path, volume
      and label centres), takes the ids the structure object lists for the
      identifier in the group, and places the boxes. A dataset whose
      volume path cannot be found (MissingDataset) changes nothing. */
    method GetCoordinatesSingle(groupName: string, identifier: string, datasets: map<string, Dataset>)
      returns (r: Outcome)
      requires groupName in struct && identifier in struct[groupName]
      modifies this`tomoPath, this`tomo, this`ids, this`leftCorners, this`centers
      ensures identifier !in datasets ==>
        && r == Fail(MissingDataset(identifier))
        && tomoPath == old(tomoPath) && tomo == old(tomo) && ids == old(ids)
        && leftCorners == old(leftCorners) && centers == old(centers)
      ensures identifier in datasets ==>
        && tomoPath == datasets[identifier].tomoPath
        && tomo == datasets[identifier].tomo
        && ids == struct[groupName][identifier]
        && (match AdjustBoxes(datasets[identifier].centers, boxSize, Shape(tomo))
            case Err(e) => r == Fail(e) && leftCorners == old(leftCorners) && centers == old(centers)
            case Ok(b) => r == Pass && leftCorners == b.leftCorners && centers == b.centers)
      ensures r.Pass? ==> BoxesInside()
    {
      if identifier !in datasets {
        return Fail(MissingDataset(identifier));
      }
      var ds := datasets[identifier];
      tomoPath := ds.tomoPath;
      tomo := ds.tomo;
      ids := struct[groupName][identifier];
      r := AdjustBoxCoords(ds.centers);
    }

    /** write_particles: names the particles (by id, or by rank when ids are
      not kept; the given ids, or the current ones), records their paths and
      writes one particle per box and path, in order, pairing them as far as
      both go. No ids: no paths and nothing written. */
    method WriteParticles(identifier: string, idsArg: Option<seq<LabelId>>, keepIds: bool)
      requires BoxesInside()
      modifies this`particlePaths, this`written
      ensures var use := if idsArg.Some? then idsArg.value else ids;
        particlePaths == ParticlePaths(particleDir, identifier, use, keepIds)
      ensures SlicesWithin(BoxSlices(leftCorners, boxSize), Shape(tomo))
      ensures written == old(written) + WrittenParticles(tomo, BoxSlices(leftCorners, boxSize), particlePaths, dtype,
                                                         Min(|leftCorners|, |particlePaths|))
    {
      var use := if idsArg.Some? then idsArg.value else ids;
      var slices := BoxSlices(leftCorners, boxSize);
      forall q | 0 <= q < |slices|
        ensures SliceWithin(slices[q], Shape(tomo))
      {
        BoxSliceWithin(leftCorners[q], boxSize, Shape(tomo));
      }
      if |use| == 0 {
        particlePaths := [];
        return;
      }
      var paths := ParticlePaths(particleDir, identifier, use, keepIds);
      particlePaths := paths;
      WriteBoxes(slices, paths);
    }

    /** The write loop of write_particles: one particle per slice and path,
      paired in order as far as both go (what zip pairs), each appended to
      the files written. */
    method WriteBoxes(slices: seq<Slices3>, paths: seq<string>)
      requires SlicesWithin(slices, Shape(tomo))
      modifies this`written
      ensures written == old(written) + WrittenParticles(tomo, slices, paths, dtype, Min(|slices|, |paths|))
    {
      var count := Min(|slices|, |paths|);
      var m := 0;
      while m < count
        invariant 0 <= m <= count
        invariant written == old(written) + WrittenParticles(tomo, slices, paths, dtype, m)
      {
        WrittenParticlesSnoc(tomo, slices, paths, dtype, m);
        written := written + [PrepareParticle(tomo, slices[m], paths[m], dtype)];
        m := m + 1;
      }
    }

    /** add_data: appends one row per current particle to the catalog; with
      no ids nothing is added, and columns of different lengths are an
      error that leaves the catalog as it was. */
    method AddData(groupName: string, identifier: string) returns (r: Outcome)
      modifies this`data
      ensures match DatasetRows(identifier, groupName, ids, tomoPath, particlePaths, leftCorners)
        case Ok(rows) => r == Pass && data == old(data) + rows
        case Err(e) => r == Fail(e) && data == old(data)
    {
      if |ids| == 0 {
        return Pass;
      }
      var table := DatasetRows(identifier, groupName, ids, tomoPath, particlePaths, leftCorners);
      match table
      case Err(e) =>
        r := Fail(e);
      case Ok(rows) =>
        data := data + rows;
        r := Pass;
    }

    /** The body of the extraction loop for one dataset found in a group:
      get_coordinates_single, write_particles with the dataset's ids kept in
      the names, and add_data. The catalog grows by the rows of GroupStep, or
      stays as it was when the step fails. Once the dataset is read, the
      per-dataset state is the dataset's; once its boxes are placed, its
      particles are named and written. After a successful step the new files
      are the particles of the new catalog rows, one for one. */
    method ExtractDataset(groupName: string, identifier: string, datasets: map<string, Dataset>)
      returns (r: Outcome)
      requires groupName in struct && identifier in struct[groupName]
      modifies this`tomoPath, this`tomo, this`ids, this`leftCorners, this`centers, this`particlePaths
      modifies this`data, this`written
      ensures match GroupStep(identifier, groupName, struct, datasets, boxSize, particleDir)
        case Ok(rows) => r == Pass && data == old(data) + rows
        case Err(e) => r == Fail(e) && data == old(data)
      ensures identifier !in datasets ==>
        && tomoPath == old(tomoPath) && tomo == old(tomo) && ids == old(ids)
        && leftCorners == old(leftCorners) && centers == old(centers)
        && particlePaths == old(particlePaths) && written == old(written)
      ensures identifier in datasets ==>
        && tomoPath == datasets[identifier].tomoPath
        && tomo == datasets[identifier].tomo
        && ids == struct[groupName][identifier]
        && (match AdjustBoxes(datasets[identifier].centers, boxSize, Shape(tomo))
            case Err(_) =>
              && leftCorners == old(leftCorners) && centers == old(centers)
              && particlePaths == old(particlePaths) && written == old(written)
            case Ok(b) =>
              && leftCorners == b.leftCorners && centers == b.centers
              && particlePaths == ParticlePaths(particleDir, identifier, ids, true)
              && SlicesWithin(BoxSlices(leftCorners, boxSize), Shape(tomo))
              && written == old(written) + WrittenParticles(tomo, BoxSlices(leftCorners, boxSize), particlePaths,
                                                            dtype, Min(|leftCorners|, |particlePaths|)))
      ensures old(written) <= written
      ensures r.Pass? ==> FilesOfRows(written[|old(written)|..], data[|old(data)|..], datasets, boxSize, dtype)
      ensures r.Pass? || r.error.LengthMismatch? ==> Holds(groupName, identifier, datasets) && WroteCurrent(old(written))
      ensures r.Fail? && !r.error.LengthMismatch? ==> written == old(written)
    {
      assert forall id :: id in datasets ==> allocated(datasets[id].tomo) && datasets[id].tomo as object != this;
      r := GetCoordinatesSingle(groupName, identifier, datasets);
      if r.Fail? {
        return;
      }
      ghost var table := DatasetRows(identifier, groupName, ids, tomoPath,
                                     ParticlePaths(particleDir, identifier, ids, true), leftCorners);
      assert table == GroupStep(identifier, groupName, struct, datasets, boxSize, particleDir);
      ghost var before := data;
      r := WriteAndAdd(groupName, identifier, datasets);
      if r.Pass? {
        assert data[|before|..] == table.value;
      }
      assert Holds(groupName, identifier, datasets) && WroteCurrent(old(written));
    }

    /** The rest of the loop body once a dataset's boxes are placed:
      write_particles with the ids kept in the names, then add_data. The
      particles of the current boxes are written under paths named from the
      current ids, and the catalog grows by the current table, whose rows
      are the new files' rows, or stays as it was. */
    method WriteAndAdd(groupName: string, identifier: string, datasets: map<string, Dataset>)
      returns (r: Outcome)
      requires BoxesInside()
      requires identifier in datasets && datasets[identifier].tomo == tomo
      modifies this`particlePaths, this`written, this`data
      ensures particlePaths == ParticlePaths(particleDir, identifier, ids, true)
      ensures SlicesWithin(BoxSlices(leftCorners, boxSize), Shape(tomo))
      ensures written == old(written) + WrittenParticles(tomo, BoxSlices(leftCorners, boxSize), particlePaths,
                                                         dtype, Min(|leftCorners|, |particlePaths|))
      ensures match DatasetRows(identifier, groupName, ids, tomoPath, particlePaths, leftCorners)
        case Ok(rows) =>
          && r == Pass && data == old(data) + rows
          && FilesOfRows(written[|old(written)|..], rows, datasets, boxSize, dtype)
        case Err(e) => r == Fail(e) && data == old(data)
    {
      ghost var before := written;
      WriteParticles(identifier, None, true);
      r := AddData(groupName, identifier);
      if DatasetRows(identifier, groupName, ids, tomoPath, particlePaths, leftCorners).Ok? {
        DatasetFilesOfRows(identifier, groupName, ids, tomoPath, particlePaths, leftCorners, datasets, boxSize, dtype,
                           before, written);
      }
    }

    /** One pass of extract_particles' outer loop: the first group of
      groupNames holding identifier is found, and that group's dataset is
      extracted. The catalog grows exactly as DatasetStep says, and on
      success the particles written by this pass are the files of its rows.
      When the pass succeeds, or fails only at its table (LengthMismatch),
      the dataset state is the identifier's and this pass wrote exactly that
      dataset's particles; any other failure comes before write_particles,
      and nothing is written. */
    method ExtractIdentifier(identifier: string, groupNames: seq<string>, datasets: map<string, Dataset>)
      returns (r: Outcome)
      modifies this`tomoPath, this`tomo, this`ids, this`leftCorners, this`centers, this`particlePaths
      modifies this`data, this`written
      ensures match DatasetStep(identifier, groupNames, struct, datasets, boxSize, particleDir)
        case Ok(rows) => r == Pass && data == old(data) + rows
        case Err(e) => r == Fail(e) && data == old(data)
      ensures old(written) <= written
      ensures r.Pass? ==> FilesOfRows(written[|old(written)|..], data[|old(data)|..], datasets, boxSize, dtype)
      ensures r.Pass? || r.error.LengthMismatch? ==> HoldsFirst(identifier, groupNames, datasets) && WroteCurrent(old(written))
      ensures r.Fail? && !r.error.LengthMismatch? ==> written == old(written)
    {
      var j := 0;
      while j < |groupNames|
        invariant 0 <= j <= |groupNames|
        invariant FirstGroup(identifier, groupNames, struct) == FirstGroup(identifier, groupNames[j..], struct)
        invariant data == old(data) && written == old(written)
      {
        var gName := groupNames[j];
        if gName !in struct {
          return Fail(UnknownGroup(gName));
        }
        if identifier in struct[gName] {
          r := ExtractDataset(gName, identifier, datasets);
          return;
        }
        assert groupNames[j..][1..] == groupNames[j + 1..];
        j := j + 1;
      }
      r := Fail(UnknownIdentifier(identifier));
    }

    /** Pass i of extract_particles' outer loop, seen against the whole
      run: when the passes before it left the Progress of the first i
      identifiers, this pass either extends it to the first i + 1, or fails
      without adding rows, and then the set is already as extract_particles
      leaves it (Finished); a failure at the table stops at pass i. */
    method ExtractNext(identifiers: seq<string>, groupNames: seq<string>, datasets: map<string, Dataset>, i: nat)
      returns (r: Outcome)
      requires i < |identifiers|
      requires Progress(identifiers, groupNames, datasets, i)
      modifies this`tomoPath, this`tomo, this`ids, this`leftCorners, this`centers, this`particlePaths
      modifies this`data, this`written
      ensures r.Pass? ==> Progress(identifiers, groupNames, datasets, i + 1)
      ensures r.Fail? ==> data == old(data) && Finished(identifiers, groupNames, datasets, r)
      ensures r.Fail? && r.error.LengthMismatch? ==> StoppedAt(identifiers, groupNames, datasets, i)
    {
      ExtractRunExtend(identifiers, groupNames, struct, datasets, boxSize, particleDir, i);
      ghost var files, rows := written, data;
      assert forall id :: id in datasets ==> allocated(datasets[id].tomo) && datasets[id].tomo as object != this;
      r := ExtractIdentifier(identifiers[i], groupNames, datasets);
      assert FilesOfRows(files, rows, datasets, boxSize, dtype);
      ghost var step := DatasetStep(identifiers[i], groupNames, struct, datasets, boxSize, particleDir);
      if r.Fail? {
        assert step.Err? && data == rows;
        ExtractRunStopsAtFailure(identifiers, groupNames, struct, datasets, boxSize, particleDir, i + 1);
        assert written[..|data|] == files;
        if r.error.LengthMismatch? {
          assert StoppedAt(identifiers, groupNames, datasets, i);
        }
        return;
      }
      FilesOfRowsExtend(files, rows, written, data, datasets, boxSize, dtype);
      assert step.Ok? && data == rows + step.value;
    }

    /** extract_particles: for each identifier in order, the first listed
      group holding it is found, then the dataset is read, its particles are
      placed, written and added to the catalog. The catalog and the outcome
      are those of ExtractRun: the first error stops the extraction. The
      rest of what the set holds, the files written and the dataset state,
      is as Finished says. */
    static method ExtractParticles(struct: Groups, groupNames: seq<string>, identifiers: seq<string>,
                                   datasets: map<string, Dataset>, boxSize: nat, particleDir: string,
                                   dtype: Option<IntType>)
      returns (particles: Set, r: Outcome)
      ensures fresh(particles)
      ensures particles.struct == struct && particles.boxSize == boxSize
      ensures particles.particleDir == particleDir && particles.dtype == dtype
      ensures particles.data == ExtractRun(identifiers, groupNames, struct, datasets, boxSize, particleDir).rows
      ensures r == ExtractRun(identifiers, groupNames, struct, datasets, boxSize, particleDir).outcome
      ensures particles.Finished(identifiers, groupNames, datasets, r)
    {
      particles := new Set(struct, boxSize, particleDir, dtype);
      particles.ProgressStart(identifiers, groupNames, datasets);
      var i := 0;
      while i < |identifiers|
        invariant 0 <= i <= |identifiers|
        invariant fresh(particles)
        invariant particles.struct == struct && particles.boxSize == boxSize
        invariant particles.particleDir == particleDir && particles.dtype == dtype
        invariant particles.Progress(identifiers, groupNames, datasets, i)
      {
        var done := particles.ExtractNext(identifiers, groupNames, datasets, i);
        if done.Fail? {
          r := done;
          return;
        }
        i := i + 1;
      }
      particles.ProgressFinished(identifiers, groupNames, datasets);
      r := Pass;
    }
  }
}
