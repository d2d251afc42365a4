/**
 * The request and response schemas of app/schemas/flight.py and their conversions to
 * and from numpy arrays.
 */
module Schemas {
  import opened Wrappers
  import opened Vectors

  /** One observed point of a request. */
  datatype Point = Point(x: real, y: real, t: real)

  /** The body of a prediction request. */
  datatype SequenceIn = SequenceIn(points: seq<Point>)

  /** The predicted point of a response. */
  datatype PointOut = PointOut(x: real, y: real, t: real)

  /** The row `[p.x, p.y, p.t]` of one point. */
  function Row(p: Point): Vec3 {
    Vec3(p.x, p.y, p.t)
  }

  /** The rows of a list of points, in order: the (n, 3) array before reshaping. */
  function Rows(points: seq<Point>): (r: seq<Vec3>)
    ensures |r| == |points|
    ensures forall i :: 0 <= i < |points| ==> r[i] == Row(points[i])
  {
    seq(|points|, i requires 0 <= i < |points| => Row(points[i]))
  }

  /**
   * `SequenceIn.to_numpy`: the rows reshaped to (1, 5, 3). The reshape raises (None)
   * unless there are exactly 5 points, 15 values in all.
   */
  function ToNumpy(s: SequenceIn): (r: Option<seq<seq<Vec3>>>)
    ensures r.Some? <==> |s.points| == 5
    ensures r.Some? ==> |r.value| == 1 && |r.value[0]| == 5
    ensures r.Some? ==> forall i :: 0 <= i < 5 ==> r.value[0][i] == Row(s.points[i])
  {
    if 3 * |s.points| == 15 then Some([Rows(s.points)]) else None
  }

  /**
   * `PointOut.from_array`: components 0, 1, 2 become x, y, t; further components are
   * ignored, and an array shorter than 3 raises IndexError (None).
   */
  function FromArray(arr: seq<real>): (r: Option<PointOut>)
    ensures r.Some? <==> |arr| >= 3
    ensures r.Some? ==> r.value.x == arr[0] && r.value.y == arr[1] && r.value.t == arr[2]
  {
    if |arr| < 3 then None else Some(PointOut(arr[0], arr[1], arr[2]))
  }

  /** Reading back the row of a point gives the same x, y and t. */
  lemma FromArrayOfRow(p: Point)
    ensures FromArray(AsSeq(Row(p))) == Some(PointOut(p.x, p.y, p.t))
  {
  }

  /** Components after the third never change the result. */
  lemma FromArrayIgnoresTail(arr: seq<real>, extra: seq<real>)
    requires |arr| >= 3
    ensures FromArray(arr + extra) == FromArray(arr)
  {
  }
}
