/** What Set.extract_particles computes over all requested datasets: each
    identifier is processed under the first listed group that holds it, and the
    catalog grows by that dataset's rows; the first error ends the run. */
module Extraction {
  import opened Common
  import opened BoxCoords
  import opened ParticleNames
  import opened Volume
  import opened Catalog

  /** The structure object: for each group name, its dataset identifiers and,
      for each of them, the ids of the particles to extract. */
  type Groups = map<string, map<string, seq<LabelId>>>

  /** What the extraction reads for one dataset: the path of its volume, the
      volume itself and the label centres of its particles. */
  datatype Dataset = Dataset(tomoPath: string, tomo: array3<int>, centers: seq<Triple>)

  /** The group an identifier is processed under: the first listed group that
      holds it. Looking up a listed group that the structure object lacks is an
      error; so is an identifier that no listed group holds. */
  function FirstGroup(identifier: string, groupNames: seq<string>, struct: Groups): (r: Result<string>)
    ensures r.Ok? ==> r.value in groupNames && r.value in struct && identifier in struct[r.value]
    ensures r.Err? ==>
      (r.error == UnknownIdentifier(identifier) ||
       (r.error.UnknownGroup? && r.error.groupName in groupNames && r.error.groupName !in struct))
    ensures r == Err(UnknownIdentifier(identifier)) <==>
      forall g :: g in groupNames ==> g in struct && identifier !in struct[g]
  {
    if groupNames == [] then Err(UnknownIdentifier(identifier))
    else if groupNames[0] !in struct then Err(UnknownGroup(groupNames[0]))
    else if identifier in struct[groupNames[0]] then Ok(groupNames[0])
    else FirstGroup(identifier, groupNames[1..], struct)
  }

  /** Groups that are present and do not hold the identifier are skipped. */
  lemma {:induction false} FirstGroupSkips(identifier: string, groupNames: seq<string>, struct: Groups, k: nat)
    requires k <= |groupNames|
    requires forall j :: 0 <= j < k ==> groupNames[j] in struct && identifier !in struct[groupNames[j]]
    ensures FirstGroup(identifier, groupNames, struct) == FirstGroup(identifier, groupNames[k..], struct)
  {
    if k > 0 {
      FirstGroupSkips(identifier, groupNames[1..], struct, k - 1);
      assert groupNames[1..][k - 1..] == groupNames[k..];
    }
  }

  /** The first present group that holds the identifier is picked, whatever
      the later groups hold. */
  lemma FirstGroupPicksFirst(identifier: string, groupNames: seq<string>, struct: Groups, k: nat)
    requires k < |groupNames|
    requires forall j :: 0 <= j < k ==> groupNames[j] in struct && identifier !in struct[groupNames[j]]
    requires groupNames[k] in struct && identifier in struct[groupNames[k]]
    ensures FirstGroup(identifier, groupNames, struct) == Ok(groupNames[k])
  {
    FirstGroupSkips(identifier, groupNames, struct, k);
  }

  /** The catalog rows of one dataset processed under a group that holds it,
      or the error that ends the run there: reading the dataset, placing the
      boxes, naming the particles (by id) and building the table, in the
      order of the source. */
  function GroupStep(identifier: string, groupName: string, struct: Groups,
                     datasets: map<string, Dataset>, boxSize: nat, particleDir: string): (r: Result<seq<Row>>)
    requires groupName in struct && identifier in struct[groupName]
    ensures identifier !in datasets ==> r == Err(MissingDataset(identifier))
    ensures r.Err? ==> r.error.MissingDataset? || r.error.BoxTooLarge? || r.error.LengthMismatch?
    ensures r.Ok? ==> |r.value| == |struct[groupName][identifier]|
  {
    if identifier !in datasets then Err(MissingDataset(identifier))
    else
      var ds := datasets[identifier];
      var ids := struct[groupName][identifier];
      match AdjustBoxes(ds.centers, boxSize, Shape(ds.tomo))
      case Err(e) => Err(e)
      case Ok(b) =>
        DatasetRows(identifier, groupName, ids, ds.tomoPath,
                    ParticlePaths(particleDir, identifier, ids, true), b.leftCorners)
  }

  /** The catalog rows of one dataset, or the error that ends the run there:
      the group lookup, then the dataset under the group found. */
  function DatasetStep(identifier: string, groupNames: seq<string>, struct: Groups,
                       datasets: map<string, Dataset>, boxSize: nat, particleDir: string): (r: Result<seq<Row>>)
    ensures FirstGroup(identifier, groupNames, struct).Err? ==> r == Err(FirstGroup(identifier, groupNames, struct).error)
    ensures r.Ok? ==>
              && FirstGroup(identifier, groupNames, struct).Ok?
              && |r.value| == |struct[FirstGroup(identifier, groupNames, struct).value][identifier]|
  {
    match FirstGroup(identifier, groupNames, struct)
    case Err(e) => Err(e)
    case Ok(g) => GroupStep(identifier, g, struct, datasets, boxSize, particleDir)
  }

  /** The catalog built so far and how the run ended. */
  datatype Run = Run(rows: seq<Row>, outcome: Outcome)

  /** Folding the step results in order: rows are appended while steps
      succeed, and the first error ends the run. */
  function RunSteps(steps: seq<Result<seq<Row>>>): Run
  {
    if steps == [] then Run([], Pass)
    else
      var prev := RunSteps(steps[..|steps| - 1]);
      if prev.outcome.Fail? then prev
      else
        match steps[|steps| - 1]
        case Err(e) => Run(prev.rows, Fail(e))
        case Ok(rows) => Run(prev.rows + rows, Pass)
  }

  /** Once a prefix of the steps has failed, the rest changes nothing. */
  lemma {:induction false} RunStepsStopsAtFailure(steps: seq<Result<seq<Row>>>, k: nat)
    requires k <= |steps|
    requires RunSteps(steps[..k]).outcome.Fail?
    ensures RunSteps(steps) == RunSteps(steps[..k])
  {
    if k < |steps| {
      var front := steps[..|steps| - 1];
      assert front[..k] == steps[..k];
      RunStepsStopsAtFailure(front, k);
    } else {
      assert steps[..k] == steps;
    }
  }

  /** The run passes exactly when every step succeeds. */
  lemma {:induction false} RunStepsPassIff(steps: seq<Result<seq<Row>>>)
    ensures RunSteps(steps).outcome == Pass <==> forall k :: 0 <= k < |steps| ==> steps[k].Ok?
  {
    if steps != [] {
      var n := |steps|;
      var front := steps[..n - 1];
      RunStepsPassIff(front);
      if RunSteps(front).outcome == Pass && steps[n - 1].Ok? {
        forall k | 0 <= k < n
          ensures steps[k].Ok?
        {
          if k < n - 1 {
            assert steps[k] == front[k];
          }
        }
      } else if RunSteps(front).outcome != Pass {
        var k :| 0 <= k < |front| && !front[k].Ok?;
        assert steps[k] == front[k];
      }
    }
  }

  /** A failed run failed with the error of some step, every earlier step
      having succeeded. */
  lemma {:induction false} RunStepsFailure(steps: seq<Result<seq<Row>>>)
    requires RunSteps(steps).outcome.Fail?
    ensures exists k ::
              && 0 <= k < |steps| && steps[k] == Err(RunSteps(steps).outcome.error)
              && forall j :: 0 <= j < k ==> steps[j].Ok?
  {
    var n := |steps|;
    var front := steps[..n - 1];
    assert forall k :: 0 <= k < |front| ==> front[k] == steps[k];
    if RunSteps(front).outcome.Fail? {
      RunStepsFailure(front);
      var k :| 0 <= k < |front| && front[k] == Err(RunSteps(front).outcome.error) &&
        forall j :: 0 <= j < k ==> front[j].Ok?;
      assert steps[k] == front[k];
    } else {
      RunStepsPassIff(front);
    }
  }

  /** Every row of the run is a row of some successful step. */
  lemma {:induction false} RunStepsRowFrom(steps: seq<Result<seq<Row>>>, i: nat)
    requires i < |RunSteps(steps).rows|
    ensures exists k, j ::
              && 0 <= k < |steps| && steps[k].Ok? && 0 <= j < |steps[k].value|
              && RunSteps(steps).rows[i] == steps[k].value[j]
  {
    var n := |steps|;
    var front := steps[..n - 1];
    var prev := RunSteps(front);
    if i < |prev.rows| {
      RunStepsRowFrom(front, i);
      var k, j :| 0 <= k < |front| && front[k].Ok? && 0 <= j < |front[k].value| &&
        prev.rows[i] == front[k].value[j];
      assert steps[k] == front[k];
    } else {
      var j := i - |prev.rows|;
      assert RunSteps(steps).rows[i] == steps[n - 1].value[j];
    }
  }

  /** The step results of the identifiers, in order. */
  function Steps(identifiers: seq<string>, groupNames: seq<string>, struct: Groups,
                 datasets: map<string, Dataset>, boxSize: nat, particleDir: string): (steps: seq<Result<seq<Row>>>)
    ensures |steps| == |identifiers|
    ensures forall k :: 0 <= k < |identifiers| ==>
      steps[k] == DatasetStep(identifiers[k], groupNames, struct, datasets, boxSize, particleDir)
  {
    seq(|identifiers|, k requires 0 <= k < |identifiers| =>
      DatasetStep(identifiers[k], groupNames, struct, datasets, boxSize, particleDir))
  }

  /** The run of extract_particles over the identifiers in order. */
  function ExtractRun(identifiers: seq<string>, groupNames: seq<string>, struct: Groups,
                      datasets: map<string, Dataset>, boxSize: nat, particleDir: string): Run
  {
    RunSteps(Steps(identifiers, groupNames, struct, datasets, boxSize, particleDir))
  }

  /** The run over the identifiers succeeds exactly when every dataset step
      succeeds. */
  lemma ExtractRunPassIff(identifiers: seq<string>, groupNames: seq<string>, struct: Groups,
                          datasets: map<string, Dataset>, boxSize: nat, particleDir: string)
    ensures ExtractRun(identifiers, groupNames, struct, datasets, boxSize, particleDir).outcome == Pass <==>
      forall k :: 0 <= k < |identifiers| ==>
        DatasetStep(identifiers[k], groupNames, struct, datasets, boxSize, particleDir).Ok?
  {
    RunStepsPassIff(Steps(identifiers, groupNames, struct, datasets, boxSize, particleDir));
  }

  /** Processing one more identifier: nothing changes after a failure;
      otherwise the step's rows are appended, or its error ends the run. */
  lemma ExtractRunExtend(identifiers: seq<string>, groupNames: seq<string>, struct: Groups,
                         datasets: map<string, Dataset>, boxSize: nat, particleDir: string, i: nat)
    requires i < |identifiers|
    ensures var prev := ExtractRun(identifiers[..i], groupNames, struct, datasets, boxSize, particleDir);
      var next := ExtractRun(identifiers[..i + 1], groupNames, struct, datasets, boxSize, particleDir);
      var step := DatasetStep(identifiers[i], groupNames, struct, datasets, boxSize, particleDir);
      && (prev.outcome.Fail? ==> next == prev)
      && (prev.outcome.Pass? && step.Err? ==> next == Run(prev.rows, Fail(step.error)))
      && (prev.outcome.Pass? && step.Ok? ==> next == Run(prev.rows + step.value, Pass))
  {
    var steps := Steps(identifiers[..i + 1], groupNames, struct, datasets, boxSize, particleDir);
    assert steps[..i] == Steps(identifiers[..i], groupNames, struct, datasets, boxSize, particleDir);
  }

  /** Once the run over a prefix of the identifiers has failed, the run over
      all of them is that run. */
  lemma ExtractRunStopsAtFailure(identifiers: seq<string>, groupNames: seq<string>, struct: Groups,
                                 datasets: map<string, Dataset>, boxSize: nat, particleDir: string, k: nat)
    requires k <= |identifiers|
    requires ExtractRun(identifiers[..k], groupNames, struct, datasets, boxSize, particleDir).outcome.Fail?
    ensures ExtractRun(identifiers, groupNames, struct, datasets, boxSize, particleDir)
         == ExtractRun(identifiers[..k], groupNames, struct, datasets, boxSize, particleDir)
  {
    var steps := Steps(identifiers, groupNames, struct, datasets, boxSize, particleDir);
    assert steps[..k] == Steps(identifiers[..k], groupNames, struct, datasets, boxSize, particleDir);
    RunStepsStopsAtFailure(steps, k);
  }

  /** A catalog row agrees with the inputs of its dataset: its group is the
      first listed group holding its identifier, its id is one of that dataset's
      ids, its tomo path is the dataset's, its box lies inside the dataset's
      volume, and its particle path carries its id. */
  predicate RowConsistent(row: Row, groupNames: seq<string>, struct: Groups,
                          datasets: map<string, Dataset>, boxSize: nat)
  {
    && FirstGroup(row.identifier, groupNames, struct) == Ok(row.groupName)
    && row.identifier in datasets
    && row.tomoPath == datasets[row.identifier].tomoPath
    && row.id in struct[row.groupName][row.identifier]
    && Inside(RowCorner(row), boxSize, Shape(datasets[row.identifier].tomo))
    && LabelOfPath(row.particlePath, NameWidth(struct[row.groupName][row.identifier], true)) == row.id
  }

  /** Every row of one dataset step is consistent and carries its identifier. */
  lemma DatasetStepRowsConsistent(identifier: string, groupNames: seq<string>, struct: Groups,
                                  datasets: map<string, Dataset>, boxSize: nat, particleDir: string)
    requires DatasetStep(identifier, groupNames, struct, datasets, boxSize, particleDir).Ok?
    ensures var rows := DatasetStep(identifier, groupNames, struct, datasets, boxSize, particleDir).value;
      forall i :: 0 <= i < |rows| ==>
        rows[i].identifier == identifier && RowConsistent(rows[i], groupNames, struct, datasets, boxSize)
  {
    var g := FirstGroup(identifier, groupNames, struct).value;
    var ds := datasets[identifier];
    var ids := struct[g][identifier];
    var b := AdjustBoxes(ds.centers, boxSize, Shape(ds.tomo)).value;
    var paths := ParticlePaths(particleDir, identifier, ids, true);
    var rows := DatasetRows(identifier, g, ids, ds.tomoPath, paths, b.leftCorners).value;
    forall i | 0 <= i < |rows|
      ensures rows[i].identifier == identifier && RowConsistent(rows[i], groupNames, struct, datasets, boxSize)
    {
      ParticlePathLabel(particleDir, identifier, ids, true, i);
      assert RowCorner(rows[i]) == b.leftCorners[i];
    }
  }

  /** Every row of the catalog built by a run belongs to a requested
      identifier and is consistent with its dataset. */
  lemma ExtractRunRowsConsistent(identifiers: seq<string>, groupNames: seq<string>, struct: Groups,
                                 datasets: map<string, Dataset>, boxSize: nat, particleDir: string)
    ensures var rows := ExtractRun(identifiers, groupNames, struct, datasets, boxSize, particleDir).rows;
      forall i :: 0 <= i < |rows| ==>
        rows[i].identifier in identifiers && RowConsistent(rows[i], groupNames, struct, datasets, boxSize)
  {
    var steps := Steps(identifiers, groupNames, struct, datasets, boxSize, particleDir);
    var rows := RunSteps(steps).rows;
    forall i | 0 <= i < |rows|
      ensures rows[i].identifier in identifiers && RowConsistent(rows[i], groupNames, struct, datasets, boxSize)
    {
      RunStepsRowFrom(steps, i);
      var k, j :| 0 <= k < |steps| && steps[k].Ok? && 0 <= j < |steps[k].value| && rows[i] == steps[k].value[j];
      DatasetStepRowsConsistent(identifiers[k], groupNames, struct, datasets, boxSize, particleDir);
    }
  }
}
