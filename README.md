# Particle extraction bookkeeping of pyto's `Set`

This project models the part of `pyto.particles.Set` that turns segmented
labels into particle files and a particle catalog, and proves properties of
that model:

- **Box placement** (`adjust_box_coords`). Each label centre gets a cubic box
  of edge `box_size`. The box is centred on the label, then shifted as little
  as possible to stay inside the volume. A box larger than the volume on
  some axis is an error.
- **Particle naming, slicing and clipping** (`write_particles`).
  - Ids, or ranks when ids are not kept, are zero-padded to a common width.
  - They go into names of the form `identifier_id-<padded>.mrc`, joined to the
    particle directory.
  - Each box is read out of the volume through the slices
    `[corner, corner + box_size)`.
  - With a particle type set, values are clipped into the type's range, and a
    warning is issued when clipping was needed.
- **Catalog accumulation** (`add_data`). Appends one row per particle of the
  current dataset.
- **Dataset dispatch** (`extract_particles`). Processes each requested
  identifier under the first listed group that holds it. An identifier that
  no group holds ends the extraction with an error.

Modules:

- `Common`: coordinates, `Clamp`, the error type and the `Result`/`Outcome`
  wrappers.
- `BoxCoords`: box placement as pure functions.
- `ParticleNames`: decimal formatting, zero padding, names, path joining and
  the order of names.
- `Volume`: slices and the inset read from an `array3`.
- `Clipping`: integer type ranges, clipping and the clip warning.
- `Catalog`: the rows of one dataset.
- `Extraction`: the specification of a whole extraction run, as a fold over
  per-dataset steps.
- `Particles`: the class `Set`. Its fields hold the current dataset's state,
  the catalog and the particle files written so far. Its methods are proved against the functions above.

Errors the source raises are modelled as results:

- a box too large for the volume;
- an identifier no listed group holds;
- a listed group missing from the structure object;
- a dataset that cannot be read;
- catalog columns of different lengths.

The extraction stops at the first error. The source raises an exception at
that point. The model returns the catalog built until then, together with the
error.

Inputs the source reads from disk or from objects not modelled here become
parameters:

- The structure object is a map from group name to identifier to particle ids.
- Each dataset is given by its tomogram path, its volume (an `array3<int>`) and
  its label centres, keyed by identifier.
- The label centres are what `LabelSet` would supply. `LabelSet` is not part of
  this model.

## Model

| member | source | states |
|---|---|---|
| Common.Clamp | pyto/particles/set.py:327-335 | the result lies in [lo, hi] and equals v whenever v already does |
| Common.ClampIsNearest | pyto/particles/set.py:136-140 | no value of [lo, hi] is nearer to v than Clamp(v, lo, hi): the "shifted as little as needed" promise on one axis |
| BoxCoords.AxisCorner | pyto/particles/set.py:327-338 | the corner computed by the source's steps (halve, floor at 0, cap the right edge at the extent) keeps the box inside the axis and equals Clamp(c - box//2, 0, extent - box) |
| BoxCoords.AdjustBoxes | pyto/particles/set.py:318-343 | an error, BoxTooLarge, exactly when the box exceeds the volume on some axis, also for no centres; otherwise one left corner and one centre per input centre, every box inside the volume |
| BoxCoords.AdjustBoxesClamps | pyto/particles/set.py:327-338 | each left corner is, per axis, Clamp(centre - box//2, 0, shape - box) |
| BoxCoords.AdjustBoxesShiftsLeast | pyto/particles/set.py:136-140 | among all boxes inside the volume, none has a corner nearer to the centred corner, axis by axis |
| BoxCoords.AdjustBoxesCenters | pyto/particles/set.py:327-339 | each output centre is left + box//2; on an axis where the centred box already fits, the output centre equals the input centre; for a nonempty box the centre lies inside its box |
| BoxCoords.AdjustBoxesEmpty | pyto/particles/set.py:340-343 | no centres give no corners and no centres when the box fits |
| BoxCoords.AdjustBoxesLowEdgeExample | pyto/particles/set.py:327-339 | centre (2,2,2), box 10 in a 100-cube: corner (0,0,0), centre (5,5,5) |
| BoxCoords.AdjustBoxesHighEdgeExample | pyto/particles/set.py:327-339 | centre (98,98,98), box 10 in a 100-cube: corner (90,90,90), centre (95,95,95) |
| ParticleNames.NumDigits | pyto/particles/set.py:384-385 | the digit count n_digits: at least 1, n < 10^k, and 10^(k-1) <= n when k > 1 (floor(log10 n) + 1 for n >= 1) |
| ParticleNames.NumDigitsMonotone | pyto/particles/set.py:384-385 | a smaller number has no more digits |
| ParticleNames.ZeroPad | pyto/particles/set.py:386-388 | the `0<width>d` padding: at least width characters, ends with the digits, zeros in front |
| ParticleNames.ZeroPadExact | pyto/particles/set.py:386-388 | the padding has exactly width characters, or is the digits unchanged when they are already that long |
| ParticleNames.FormatId | pyto/particles/set.py:387 | the `{:0Nd}` field: at least N characters and at least one, every one a decimal digit |
| ParticleNames.FormatIdIsFixed | pyto/particles/set.py:386-388 | a padded label is its fixed-width decimal representation whenever it fits the width |
| ParticleNames.ParseFixed | pyto/particles/set.py:386-388 | a fixed-width representation reads back as the number |
| ParticleNames.FormatIdRoundTrip | pyto/particles/set.py:386-388 | a padded label has exactly width characters and reads back as the label |
| ParticleNames.FixedOrder | pyto/particles/set.py:386-388 | fixed-width representations sort (as Python compares str) like the numbers |
| ParticleNames.MaxId | pyto/particles/set.py:385 | ids.max(): a member of the ids and no smaller than any of them |
| ParticleNames.NameWidth | pyto/particles/set.py:384-391 | the common width n_digits is at least one digit |
| ParticleNames.NameWidthBounds | pyto/particles/set.py:384-391 | with keep_ids the width is the fewest digits that hold every id: every id is below 10^w and, past one digit, some id is at least 10^(w-1); with ranks it is the digit count of len(ids): len(ids) is below 10^w and, past one digit, at least 10^(w-1) |
| ParticleNames.RankWidthAtPowerOfTen | pyto/particles/set.py:384-394 | with ranks and 10^k particles the width is k + 1, although every rank fits in k digits: ten particles are padded to two digits |
| ParticleNames.ParticleName | pyto/particles/set.py:386-388 | a name is the identifier followed by "_id-", then the padded label, then ".mrc", its length being the sum of those parts |
| ParticleNames.JoinPrefix | pyto/particles/set.py:396 | what os.path.join puts before the name: nothing exactly when the directory is empty or the name is absolute; otherwise the directory, ending in a single added "/" unless it already ends in "/" |
| ParticleNames.JoinPath | pyto/particles/set.py:396 | os.path.join(dir, name) ends with the name; it is the name alone when the directory is empty or the name is absolute; otherwise it starts with the directory and has a "/" right before the name |
| ParticleNames.LabelFitsWidth | pyto/particles/set.py:384-394 | every id (keep_ids) or rank (otherwise) has no more digits than the common width |
| ParticleNames.ParticlePaths | pyto/particles/set.py:372-397 | one path per id, in order; no ids give no paths |
| ParticleNames.ParticlePathAt | pyto/particles/set.py:384-397 | path i is the particle directory joined with identifier + "_id-" + label i padded to the width + ".mrc" |
| ParticleNames.ParticlePathComposed | pyto/particles/set.py:384-397 | path i is the joined prefix, identifier + "_id-", then a field of exactly the common width that reads back as label i, then ".mrc" |
| ParticleNames.ParticlePathLabel | pyto/particles/set.py:384-397 | the id (or rank) of particle i reads back from the digits of its path before ".mrc" |
| ParticleNames.ParticlePathSuffix | pyto/particles/set.py:384-397 | every path ends with its label padded to the common width, then ".mrc" |
| ParticleNames.ParticlePathsUniformWidth | pyto/particles/set.py:384-397 | all paths of one call have the same length |
| ParticleNames.ParticleNameOrder | pyto/particles/set.py:386-388 | names sharing an identifier sort like their labels |
| ParticleNames.ParticlePathsSorted | pyto/particles/set.py:384-397 | paths sort like their ids (keep_ids) or ranks (otherwise) |
| ParticleNames.ParticlePathsDistinct | pyto/particles/set.py:384-397 | particles with different labels get different paths |
| ParticleNames.ParticlePathsExample | pyto/particles/set.py:384-397 | ids [5, 12] of "ctrl_1" in "particles" give "particles/ctrl_1_id-05.mrc" and "particles/ctrl_1_id-12.mrc" |
| ParticleNames.LexLessIrreflexive | pyto/particles/set.py:386-388 | the str order used for names is irreflexive |
| Volume.BoxSlice | pyto/particles/set.py:377-381 | each slice spans exactly box_size voxels on every axis |
| Volume.BoxSlices | pyto/particles/set.py:377-381 | one slice triple per left corner, in order |
| Volume.BoxSliceWithin | pyto/particles/set.py:377-381 | a box's slices lie within the volume exactly when the box lies inside it |
| Volume.AdjustedSlicesWithin | pyto/particles/set.py:324-343 | every slice built from the corners of adjust_box_coords lies within the volume |
| Volume.Inset | pyto/particles/set.py:406-407 | the absolute-mode inset: a grid of the slices' extents whose voxel (i, j, k) is the volume's voxel at the slice starts plus (i, j, k) |
| Clipping.IntRange | pyto/particles/set.py:420 | iinfo of an integer type: signed types span [-(max+1), max], unsigned [0, max] |
| Clipping.ClipGrid | pyto/particles/set.py:426-427 | np.clip: same shape, every voxel in [min, max], in-range voxels kept, others moved to the nearer bound |
| Clipping.ClipGridChangesIffNeeded | pyto/particles/set.py:421-427 | clipping changes the data exactly when some voxel lies outside the range |
| Clipping.ClipGridIdempotent | pyto/particles/set.py:426-427 | clipping twice is clipping once |
| Clipping.CastToType | pyto/particles/set.py:416-429 | the cast data have the input's shape and lie in the type's range; the warning flag is set exactly when some voxel was out of range, which is exactly when the data changed |
| Clipping.CastInt8Example | pyto/particles/set.py:416-429 | [[[200, 5]]] cast to int8 gives [[[127, 5]]] with the warning |
| Clipping.TypeName | pyto/particles/set.py:425 | numpy's type names, signed ones starting with "i" |
| Clipping.ClipWarningAsWritten | pyto/particles/set.py:423-425 | the warning text as the source builds it (see Findings) |
| Clipping.ClipWarningAsWrittenOmitsParticle | pyto/particles/set.py:423-425 | the text as written is the same for every type and keeps "{}" in the particle slot |
| Clipping.ClipWarningAsWrittenDiffers | pyto/particles/set.py:423-425 | for "p.mrc" cast to int8 the text as written differs from the intended text |
| Clipping.ClipWarning | pyto/particles/set.py:423-425 | the intended text names the particle's path after "Warning: Particle " and ends with the type name |
| Catalog.DatasetRows | pyto/particles/set.py:445-456 | no ids give no rows; otherwise a length error unless paths and corners pair up with the ids, and else row i carries the identifier, group, tomo path, id i, path i and corner i |
| Extraction.FirstGroup | pyto/particles/set.py:183-214 | the group picked is listed, present and holds the identifier; an UnknownGroup error names a listed group the structure lacks; UnknownIdentifier exactly when every listed group is present and none holds the identifier |
| Extraction.FirstGroupSkips | pyto/particles/set.py:185-187 | present groups without the identifier are skipped (the `continue`) |
| Extraction.FirstGroupPicksFirst | pyto/particles/set.py:185-208 | the first present group holding the identifier is picked, whatever later groups hold (the `break`) |
| Extraction.GroupStep | pyto/particles/set.py:189-205 | one dataset under the group holding it: a dataset missing from the inputs is MissingDataset; the only errors are MissingDataset, BoxTooLarge and LengthMismatch; on success there is one row per id the structure lists for the identifier in the group |
| Extraction.DatasetStep | pyto/particles/set.py:183-214 | one identifier: a failed group lookup is the step's error; on success the lookup found a group and there is one row per id listed for the identifier in it |
| Extraction.RunSteps | pyto/particles/set.py:183-214 | the fold of the step results in order; what it means is stated by its lemmas: it passes exactly when every step succeeds (RunStepsPassIff), a failed run carries the error of the first failing step (RunStepsFailure), nothing changes after a failure (RunStepsStopsAtFailure), and every row comes from a successful step (RunStepsRowFrom) |
| Extraction.RunStepsStopsAtFailure | pyto/particles/set.py:183-214 | once the run over a prefix has failed, later steps change nothing |
| Extraction.RunStepsPassIff | pyto/particles/set.py:183-214 | a run passes exactly when every step succeeds |
| Extraction.RunStepsFailure | pyto/particles/set.py:183-214 | a failed run carries the error of a step all of whose predecessors succeeded |
| Extraction.RunStepsRowFrom | pyto/particles/set.py:183-214 | every catalog row of a run is a row of some successful step |
| Extraction.ExtractRun | pyto/particles/set.py:183-214 | the specification of the whole extraction, RunSteps over one DatasetStep per identifier; its lemmas state that it passes exactly when every identifier's step succeeds (ExtractRunPassIff), grows one identifier at a time (ExtractRunExtend), stops at the first failure (ExtractRunStopsAtFailure), and that every row is consistent with its dataset (ExtractRunRowsConsistent) |
| Extraction.ExtractRunPassIff | pyto/particles/set.py:183-214 | an extraction succeeds exactly when every identifier's dataset step succeeds |
| Extraction.ExtractRunExtend | pyto/particles/set.py:183-214 | one more identifier appends its dataset's rows, or ends the run with its error, or changes nothing after an earlier failure |
| Extraction.ExtractRunStopsAtFailure | pyto/particles/set.py:183-214 | after a failure on a prefix of the identifiers, the whole run is that prefix's run |
| Extraction.DatasetStepRowsConsistent | pyto/particles/set.py:189-205 | every row of one dataset carries its identifier, the first group holding it, the dataset's tomo path, one of its ids, a box inside its volume and a path from which the id reads back |
| Extraction.ExtractRunRowsConsistent | pyto/particles/set.py:183-214 | every row of the final catalog belongs to a requested identifier and is consistent with its dataset as above |
| Particles.PrepareParticle | pyto/particles/set.py:403-429 | the particle of one box carries the path it is written to |
| Particles.PrepareParticleSpec | pyto/particles/set.py:403-429 | without a type the particle holds the inset voxels and no warning; with a type the voxels keep the inset's shape and lie in the type's range, and a warning is issued exactly when some voxel was out of range, which is exactly when the voxels changed (its text is the corrected one of Findings) |
| Particles.WrittenParticles | pyto/particles/set.py:403-434 | the first n turns of the write loop give n particles, particle q cut from slice q and written to path q |
| Particles.WrittenParticlesSnoc | pyto/particles/set.py:403-434 | one more turn of the write loop appends the particle of the next slice and path |
| Particles.FilesOfRowsExtend | pyto/particles/set.py:183-214 | particle files paired one for one with catalog rows stay paired when both grow by paired parts |
| Particles.DatasetFilesOfRows | pyto/particles/set.py:199-205 | the particles write_particles writes for a dataset are, one for one and in order, the particles of the rows add_data then adds |
| Particles.Set.constructor | pyto/particles/set.py:57-94 | the parameters are stored, the catalog is empty, no particle has been written, and there is no current dataset |
| Particles.Set.AdjustBoxCoords | pyto/particles/set.py:305-343 | fails exactly when the box exceeds the volume, leaving the boxes as they were; otherwise the boxes are those of AdjustBoxes, one per centre, all inside the volume |
| Particles.Set.GetCoordinatesSingle | pyto/particles/set.py:223-254 | a dataset whose volume path cannot be found changes nothing; otherwise the tomo path, volume and ids become the dataset's and the boxes are placed as in AdjustBoxCoords |
| Particles.Set.WriteParticles | pyto/particles/set.py:345-434 | the particle paths are ParticlePaths of the given or current ids; no ids write nothing; otherwise min(boxes, ids) particles are appended to the files written, particle m from box m and path m |
| Particles.Set.WriteBoxes | pyto/particles/set.py:403-434 | the files written grow by one particle per slice and path, paired in order as zip pairs them, earlier files untouched |
| Particles.Set.AddData | pyto/particles/set.py:436-462 | the catalog grows by exactly the rows of DatasetRows, earlier rows untouched; no ids add nothing; a length error leaves the catalog as it was |
| Particles.Set.ExtractDataset | pyto/particles/set.py:189-205 | one dataset under its group: the catalog grows by the rows of GroupStep, or stays unchanged with the step's error; the current tomo path, volume and ids become the dataset's; once its boxes are placed, the paths are named from its ids and its particles are appended to the files written; on success the new files are the particles of the new rows, one for one; a failure before the table writes nothing |
| Particles.Set.WriteAndAdd | pyto/particles/set.py:199-205 | write_particles with ids kept, then add_data: the paths are named from the current ids, the current boxes' particles are appended, and the catalog grows by the current table, whose rows are the new files' rows, or stays as it was with the table's error |
| Particles.Set.ExtractIdentifier | pyto/particles/set.py:184-214 | one pass of the outer loop: the catalog grows exactly as DatasetStep says, or stays as it was with its error; on success the new files are the particles of the new rows; on success or a table error the tomo path, volume, ids, boxes and particle paths are those of the identifier's dataset under its first group, and exactly that dataset's particles were appended; any other error writes nothing |
| Particles.Set.ExtractNext | pyto/particles/set.py:183-214 | pass i of the outer loop extends Progress (the catalog of ExtractRun over the first i identifiers, every row's particle written and no other file, the dataset state that of identifier i - 1) to the first i + 1; a failing pass adds no row and leaves the set as Finished describes the whole run; a table error stops at pass i |
| Particles.Set.ProgressStart | pyto/particles/set.py:171-183 | an empty catalog with no file written is the Progress of no identifiers |
| Particles.Set.ProgressFinished | pyto/particles/set.py:183-216 | Progress over every identifier is a successful, Finished run |
| Particles.Set.ExtractParticles | pyto/particles/set.py:171-216 | the catalog and outcome of the nested loop are those of ExtractRun over the identifiers; the first files written are, one for one and in order, the particles of the catalog rows; after a successful run no other file has been written and the dataset state is the last identifier's; after a table error the one other set of files is exactly the particles of the failing identifier's dataset, whose state the set holds; after any other error no other file has been written |

## Left out

- Mean and standard-deviation normalisation (set.py:410-413). It is floating-point arithmetic; particle voxels are integers here.
- Floating-point particle types (the `np.finfo` branch, set.py:418-419). Only integer types, with their `iinfo` ranges, are modelled.
- `get_tomo_path` (set.py:256-303). It imports a Python file at run time. The tomogram path is an input of each dataset.
- `os.path.normpath` on particle paths (set.py:395-397). Joining is modelled as `os.path.join`, and normalisation is not applied.
- Reading volumes (set.py:246-247), creating the particle directory (set.py:400) and writing files (set.py:432-434). Each particle is appended, as a value, to the `written` field of the set, and the `test` flag, which only suppresses the write, is dropped.
- `LabelSet`: its coordinates, writes and catalog (set.py:176-180, 190-205). Label centres are an input of each dataset.
- The constructor arguments `work_path`, `catalog_var`, `dir_mode`, `mean` and `std`, and the standard file-organisation attributes (set.py:83-108). Apart from `mean` and `std`, none of them affects the modelled behaviour. `mean` and `std` normalise the written voxels (set.py:410-413), which changes them and whether the clip warning fires. The modelled particles are those written with `mean = std = None`, the normalisation left out above.
- Particle ids below 1. Ids are `LabelId`, at least 1. The source takes the logarithm only of `ids.max()` (keep_ids) or of `len(ids)`. So it accepts ids such as [0, 5], which it names `..._id-0.mrc` and `..._id-5.mrc`, and with keep_ids false it accepts any ids. With keep_ids, any ids whose maximum is 0 or less reach `log10` of 0 or of a negative number. The model covers none of these inputs.
- ParticleNames.NumDigits, ParticleNames.NameWidth: the width is the exact decimal digit count of an unbounded natural number. The source computes `np.log10(x).astype(int) + 1` in float64 on int64 ids. From 15 digits on, the rounding of log10 can add a digit: for 999999999999999 the source pads to 16 characters, the model to 15. Ids beyond the int64 range are not bounded here.
- Particles.Set.AddData: pandas column-length and indexing errors are collapsed into one `LengthMismatch` error. This includes `[][:, 0]` for a dataset with no centres.
- Particles.Set.ExtractParticles, Particles.Set.ExtractIdentifier, Particles.Set.ExtractNext: on an error the source raises and the caller never sees the object. The model returns the catalog built before the error. After an error other than a table length error, the tomo path, volume, ids, boxes and particle paths are not described: they are those of the last dataset reached, which may be one that stopped before its boxes were placed.
- Particles.Set.GetCoordinatesSingle: `MissingDataset` models a dataset whose volume path cannot be found, which changes nothing. A volume that fails to read after its path is found (set.py:243-247) leaves `_tomo_path` changed in the source; that failure is not modelled.
- Particles.Set.constructor: the source starts with `self.data = None` (set.py:94) and builds the DataFrame on the first `add_data`. The model starts the catalog as the empty sequence, so no `None` case exists.
- Particles.PrepareParticle, Particles.PrepareParticleSpec: the clip warning attached and stated is the corrected text, `ClipWarning`, which names the particle path and the type. The source issues the text as written, `ClipWarningAsWritten` (see Findings).

## Findings

| source | as written | input that shows it | evidently intended | confidence | as-written member | corrected member |
|---|---|---|---|---|---|---|
| pyto/particles/set.py:423-425 | `.format(path, self.dtype)` applies only to the literal `" it to {}"`. The warning reads "Warning: Particle {} needs to be clipped to convert it to <path>". | any particle that needs clipping, e.g. path "p.mrc" cast to int8 | "Warning: Particle p.mrc needs to be clipped to convert it to int8" | high (not executed) | Clipping.ClipWarningAsWrittenDiffers | Clipping.ClipWarning |
