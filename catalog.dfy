/** The particle catalog of Set.add_data: one row per particle of a dataset,
    appended after the rows of earlier datasets. */
module Catalog {
  import opened Common

  /** One catalog row: the columns identifier, group_name, id, tomo_path,
      particle_path, left_corner_x, left_corner_y and left_corner_z. */
  datatype Row = Row(
    identifier: string,
    groupName: string,
    id: nat,
    tomoPath: string,
    particlePath: string,
    leftCornerX: int,
    leftCornerY: int,
    leftCornerZ: int)

  /** The row describes this particle of this dataset. */
  predicate Describes(row: Row, identifier: string, groupName: string, id: nat,
                      tomoPath: string, particlePath: string, left: Triple)
  {
    && row.identifier == identifier && row.groupName == groupName
    && row.id == id && row.tomoPath == tomoPath && row.particlePath == particlePath
    && row.leftCornerX == left.x && row.leftCornerY == left.y && row.leftCornerZ == left.z
  }

  /** The left corner a row records. */
  function RowCorner(row: Row): (c: Triple)
    ensures c.x == row.leftCornerX && c.y == row.leftCornerY && c.z == row.leftCornerZ
  {
    Triple(row.leftCornerX, row.leftCornerY, row.leftCornerZ)
  }

  /** The table add_data builds for one dataset: empty for no ids; a
      column-length error when the particle paths or the left corners do not
      pair up with the ids; otherwise row i describes particle i, the dataset
      columns being the same in every row. */
  function DatasetRows(identifier: string, groupName: string, ids: seq<LabelId>, tomoPath: string,
                       paths: seq<string>, leftCorners: seq<Triple>): (r: Result<seq<Row>>)
    ensures |ids| == 0 ==> r == Ok([])
    ensures |ids| > 0 ==> (r.Ok? <==> |paths| == |ids| && |leftCorners| == |ids|)
    ensures r.Err? ==> r.error == LengthMismatch
    ensures r.Ok? ==> |r.value| == |ids|
    ensures r.Ok? ==> forall i :: 0 <= i < |ids| ==>
      Describes(r.value[i], identifier, groupName, ids[i], tomoPath, paths[i], leftCorners[i])
  {
    if |ids| == 0 then Ok([])
    else if |paths| != |ids| || |leftCorners| != |ids| then Err(LengthMismatch)
    else
      Ok(seq(|ids|, i requires 0 <= i < |ids| =>
        Row(identifier, groupName, ids[i], tomoPath, paths[i],
            leftCorners[i].x, leftCorners[i].y, leftCorners[i].z)))
  }
}
