/**
 * The flight table as the data path sees it: rows of [x, y, t], optionally tagged
 * with a `trajectory_id` column.
 */
module Tables {
  import opened Vectors

  /** One row of a table that has a `trajectory_id` column. */
  datatype Record = Record(row: Vec3, id: int)

  /** A table without a `trajectory_id` column, or one with it. */
  datatype Table = Untagged(rows: seq<Vec3>) | Tagged(records: seq<Record>)

  /** The `trajectory_id` column, in row order. */
  function Ids(records: seq<Record>): (r: seq<int>)
    ensures |r| == |records|
    ensures forall k :: 0 <= k < |records| ==> r[k] == records[k].id
  {
    seq(|records|, k requires 0 <= k < |records| => records[k].id)
  }
}
