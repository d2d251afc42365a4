/**
 * Training samples from training/dataset.py: sliding windows over one trajectory
 * (`_create_windows`), the same per trajectory id in first-appearance order
 * (`create_sequences`), and the `FlightDataset` that pairs window i with target i.
 */
module Dataset {
  import opened Wrappers
  import opened Vectors
  import opened Tables

  /** max(0, len - w): the number of windows of size w in a trajectory of len rows. */
  function Count(len: nat, w: nat): nat {
    if len > w then len - w else 0
  }

  /** The inputs X and the targets y of a set of training pairs, as two parallel lists. */
  datatype Samples<T> = Samples(X: seq<seq<T>>, y: seq<T>)

  /** Window i of `data` is its rows i .. i + w - 1. */
  function Windows<T>(data: seq<T>, w: nat): seq<seq<T>> {
    seq(Count(|data|, w), i requires 0 <= i < Count(|data|, w) => data[i..i + w])
  }

  /** The target of window i is the row right after it, i + w. */
  function Targets<T>(data: seq<T>, w: nat): seq<T> {
    seq(Count(|data|, w), i requires 0 <= i < Count(|data|, w) => data[i + w])
  }

  /**
   * `_create_windows`: one pair per start index i, in ascending order, for every i
   * whose target row i + windowSize exists.
   */
  method CreateWindows<T>(data: seq<T>, windowSize: nat) returns (s: Samples<T>)
    ensures |s.X| == |s.y| == Count(|data|, windowSize)
    ensures forall i :: 0 <= i < |s.X| ==>
      |s.X[i]| == windowSize && s.X[i] == data[i..i + windowSize] && s.y[i] == data[i + windowSize]
    ensures s == Samples(Windows(data, windowSize), Targets(data, windowSize))
  {
    var X: seq<seq<T>> := [];
    var y: seq<T> := [];
    var i := 0;
    while i < |data| - windowSize
      invariant 0 <= i <= Count(|data|, windowSize)
      invariant |X| == i && |y| == i
      invariant forall k :: 0 <= k < i ==> X[k] == data[k..k + windowSize] && y[k] == data[k + windowSize]
    {
      X := X + [data[i..i + windowSize]];
      y := y + [data[i + windowSize]];
      i := i + 1;
    }
    s := Samples(X, y);
  }

  /**
   * Consecutive windows overlap by a shift of one: window i + 1 drops the first row of
   * window i and ends with the target of window i.
   */
  lemma WindowsShiftByOne<T>(data: seq<T>, w: nat, i: nat)
    requires w >= 1 && i + 1 < Count(|data|, w)
    ensures Windows(data, w)[i + 1][..w - 1] == Windows(data, w)[i][1..]
    ensures Windows(data, w)[i + 1][w - 1] == Targets(data, w)[i]
  {
  }

  /** The position of the first occurrence of `x` in `s`. */
  function FirstIndex(s: seq<int>, x: int): (k: nat)
    requires x in s
    ensures k < |s| && s[k] == x && x !in s[..k]
  {
    if s[0] == x then 0 else 1 + FirstIndex(s[1..], x)
  }

  /** Appending after a value's first occurrence does not move it. */
  lemma FirstIndexAppend(p: seq<int>, e: int, x: int)
    requires x in p
    ensures FirstIndex(p + [e], x) == FirstIndex(p, x)
  {
    if p[0] != x {
      assert (p + [e])[1..] == p[1..] + [e];
      FirstIndexAppend(p[1..], e, x);
    }
  }

  /**
   * `Series.unique()`: each id once, ordered by where it first appears in the column.
   */
  function Unique(ids: seq<int>): (u: seq<int>)
    ensures forall x :: x in u <==> x in ids
    ensures forall i, j :: 0 <= i < j < |u| ==> u[i] != u[j]
    ensures forall i, j :: 0 <= i < j < |u| ==> FirstIndex(ids, u[i]) < FirstIndex(ids, u[j])
  {
    if ids == [] then []
    else
      var p, last := ids[..|ids| - 1], ids[|ids| - 1];
      assert ids == p + [last];
      var u := Unique(p);
      FirstIndexesKept(p, last, u);
      if last in u then u
      else
        u + [last]
  }

  /** Helper for Unique: the first occurrences of the ids already seen stay where they were. */
  lemma FirstIndexesKept(p: seq<int>, last: int, u: seq<int>)
    requires forall x :: x in u <==> x in p
    ensures forall i :: 0 <= i < |u| ==> FirstIndex(p + [last], u[i]) == FirstIndex(p, u[i]) < |p|
  {
    forall i | 0 <= i < |u|
      ensures FirstIndex(p + [last], u[i]) == FirstIndex(p, u[i]) < |p|
    {
      FirstIndexAppend(p, last, u[i]);
    }
  }

  /** `df[df['trajectory_id'] == id]`, projected to [x, y, t]: the rows of one id in table order. */
  function Trajectory(records: seq<Record>, id: int): seq<Vec3> {
    if records == [] then []
    else
      var last := records[|records| - 1];
      Trajectory(records[..|records| - 1], id) + (if last.id == id then [last.row] else [])
  }

  /**
   * Selecting a trajectory keeps the table's row order: it distributes over
   * concatenation of tables.
   */
  lemma {:induction false} TrajectoryAppend(a: seq<Record>, b: seq<Record>, id: int)
    ensures Trajectory(a + b, id) == Trajectory(a, id) + Trajectory(b, id)
  {
    if b == [] {
      assert a + b == a;
    } else {
      var b' := b[..|b| - 1];
      assert (a + b)[..|a + b| - 1] == a + b';
      TrajectoryAppend(a, b', id);
    }
  }

  /** Every row of a trajectory is a row of the table tagged with that id. */
  lemma {:induction false} TrajectoryRowsTagged(records: seq<Record>, id: int)
    ensures forall v :: v in Trajectory(records, id) ==> Record(v, id) in records
  {
    if records != [] {
      var p := records[..|records| - 1];
      TrajectoryRowsTagged(p, id);
      assert forall r :: r in p ==> r in records;
    }
  }

  /** Conversely, every row of the table tagged with an id is in that id's trajectory. */
  lemma {:induction false} TrajectoryComplete(records: seq<Record>, id: int)
    ensures forall k :: 0 <= k < |records| && records[k].id == id ==> records[k].row in Trajectory(records, id)
  {
    if records != [] {
      var p := records[..|records| - 1];
      TrajectoryComplete(p, id);
      forall k | 0 <= k < |p| && records[k].id == id
        ensures records[k].row in Trajectory(records, id)
      {
        assert p[k] == records[k];
      }
    }
  }

  /** The windows of the trajectories `ids`, concatenated in the order of `ids`. */
  function GroupWindows(records: seq<Record>, ids: seq<int>, w: nat): seq<seq<Vec3>> {
    if ids == [] then []
    else GroupWindows(records, ids[..|ids| - 1], w) + Windows(Trajectory(records, ids[|ids| - 1]), w)
  }

  /** The targets of the trajectories `ids`, concatenated in the order of `ids`. */
  function GroupTargets(records: seq<Record>, ids: seq<int>, w: nat): seq<Vec3> {
    if ids == [] then []
    else GroupTargets(records, ids[..|ids| - 1], w) + Targets(Trajectory(records, ids[|ids| - 1]), w)
  }

  /** The sum over `ids` of max(0, L_id - w). */
  function GroupCount(records: seq<Record>, ids: seq<int>, w: nat): nat {
    if ids == [] then 0
    else GroupCount(records, ids[..|ids| - 1], w) + Count(|Trajectory(records, ids[|ids| - 1])|, w)
  }

  /** Count law: windows and targets both number the sum over ids of max(0, L_id - w). */
  lemma {:induction false} GroupCountLaw(records: seq<Record>, ids: seq<int>, w: nat)
    ensures |GroupWindows(records, ids, w)| == GroupCount(records, ids, w)
    ensures |GroupTargets(records, ids, w)| == GroupCount(records, ids, w)
  {
    if ids != [] {
      GroupCountLaw(records, ids[..|ids| - 1], w);
    }
  }

  /**
   * Where pair k of the grouped samples comes from: trajectory ids[j] (j = o.0), start
   * index i (i = o.1). Window and target are one contiguous stretch of that single
   * trajectory, so no pair mixes two trajectory ids.
   */
  function SourceOf(records: seq<Record>, ids: seq<int>, w: nat, k: nat): (o: (nat, nat))
    requires k < |GroupWindows(records, ids, w)|
    ensures o.0 < |ids|
  {
    var p := ids[..|ids| - 1];
    if k < |GroupWindows(records, p, w)| then SourceOf(records, p, w, k)
    else (|ids| - 1, k - |GroupWindows(records, p, w)|)
  }

  /**
   * The pair SourceOf names is the right one: window k is rows o.1 .. o.1 + w - 1 of
   * trajectory ids[o.0] and target k is the row right after them.
   */
  lemma {:induction false} SourceOfWindow(records: seq<Record>, ids: seq<int>, w: nat, k: nat)
    requires k < |GroupWindows(records, ids, w)|
    ensures var o := SourceOf(records, ids, w, k);
      && o.1 + w < |Trajectory(records, ids[o.0])|
      && k < |GroupTargets(records, ids, w)|
      && GroupWindows(records, ids, w)[k] == Trajectory(records, ids[o.0])[o.1..o.1 + w]
      && GroupTargets(records, ids, w)[k] == Trajectory(records, ids[o.0])[o.1 + w]
  {
    var p := ids[..|ids| - 1];
    var n := |GroupWindows(records, p, w)|;
    GroupCountLaw(records, p, w);
    if k < n {
      var o := SourceOf(records, p, w, k);
      assert SourceOf(records, ids, w, k) == o;
      SourceOfWindow(records, p, w, k);
      EarlierGroup(records, ids, w, k, o);
    } else {
      assert SourceOf(records, ids, w, k) == (|ids| - 1, k - n);
      LastGroup(records, ids, w, k);
    }
  }

  /** Pair k of the grouped samples, when it lies before the last trajectory's pairs, keeps its source. */
  lemma EarlierGroup(records: seq<Record>, ids: seq<int>, w: nat, k: nat, o: (nat, nat))
    requires ids != []
    requires var p := ids[..|ids| - 1];
      && k < |GroupWindows(records, p, w)| && k < |GroupTargets(records, p, w)|
      && o.0 < |p| && o.1 + w < |Trajectory(records, p[o.0])|
      && GroupWindows(records, p, w)[k] == Trajectory(records, p[o.0])[o.1..o.1 + w]
      && GroupTargets(records, p, w)[k] == Trajectory(records, p[o.0])[o.1 + w]
    ensures o.0 < |ids| && o.1 + w < |Trajectory(records, ids[o.0])|
    ensures k < |GroupWindows(records, ids, w)| && k < |GroupTargets(records, ids, w)|
    ensures GroupWindows(records, ids, w)[k] == Trajectory(records, ids[o.0])[o.1..o.1 + w]
    ensures GroupTargets(records, ids, w)[k] == Trajectory(records, ids[o.0])[o.1 + w]
  {
    var p := ids[..|ids| - 1];
    assert p[o.0] == ids[o.0];
  }

  /** Pair k of the grouped samples, when it lies among the last trajectory's pairs. */
  lemma LastGroup(records: seq<Record>, ids: seq<int>, w: nat, k: nat)
    requires ids != []
    requires |GroupWindows(records, ids[..|ids| - 1], w)| <= k < |GroupWindows(records, ids, w)|
    requires |GroupWindows(records, ids[..|ids| - 1], w)| == |GroupTargets(records, ids[..|ids| - 1], w)|
    ensures var n, traj := |GroupWindows(records, ids[..|ids| - 1], w)|, Trajectory(records, ids[|ids| - 1]);
      && k - n + w < |traj|
      && k < |GroupTargets(records, ids, w)|
      && GroupWindows(records, ids, w)[k] == traj[k - n..k - n + w]
      && GroupTargets(records, ids, w)[k] == traj[k - n + w]
  {
    var p := ids[..|ids| - 1];
    var n, traj := |GroupWindows(records, p, w)|, Trajectory(records, ids[|ids| - 1]);
    var ws, ts := Windows(traj, w), Targets(traj, w);
    assert GroupWindows(records, ids, w) == GroupWindows(records, p, w) + ws;
    assert GroupTargets(records, ids, w) == GroupTargets(records, p, w) + ts;
    assert GroupWindows(records, ids, w)[k] == ws[k - n];
    assert GroupTargets(records, ids, w)[k] == ts[k - n];
  }

  /**
   * No pair mixes trajectories: every row of window k, and its target, appear in the
   * table tagged with the one id ids[j] that SourceOf names.
   */
  lemma NoMixing(records: seq<Record>, ids: seq<int>, w: nat, k: nat)
    requires k < |GroupWindows(records, ids, w)|
    ensures k < |GroupTargets(records, ids, w)|
    ensures var id := ids[SourceOf(records, ids, w, k).0];
      && (forall v :: v in GroupWindows(records, ids, w)[k] ==> Record(v, id) in records)
      && Record(GroupTargets(records, ids, w)[k], id) in records
  {
    var o := SourceOf(records, ids, w, k);
    SourceOfWindow(records, ids, w, k);
    var traj := Trajectory(records, ids[o.0]);
    TrajectoryRowsTagged(records, ids[o.0]);
    assert forall v :: v in traj[o.1..o.1 + w] ==> v in traj;
    assert traj[o.1 + w] in traj;
  }

  /**
   * The pairs of a table: with a `trajectory_id` column, the windows of each trajectory
   * in first-appearance order of the ids; without it, the windows of the whole table.
   */
  function SequencesOf(table: Table, w: nat): Samples<Vec3> {
    match table
    case Untagged(rows) => Samples(Windows(rows, w), Targets(rows, w))
    case Tagged(records) =>
      var ids := Unique(Ids(records));
      Samples(GroupWindows(records, ids, w), GroupTargets(records, ids, w))
  }

  /** A table yields as many targets as windows. */
  lemma SequencesAligned(table: Table, w: nat)
    ensures |SequencesOf(table, w).X| == |SequencesOf(table, w).y|
  {
    if table.Tagged? {
      GroupCountLaw(table.records, Unique(Ids(table.records)), w);
    }
  }

  /** `create_sequences`. */
  method CreateSequences(table: Table, windowSize: nat) returns (s: Samples<Vec3>)
    ensures s == SequencesOf(table, windowSize)
  {
    var sequences: seq<seq<Vec3>> := [];
    var targets: seq<Vec3> := [];
    match table {
    case Tagged(records) =>
      var ids := Unique(Ids(records));
      var k := 0;
      while k < |ids|
        invariant 0 <= k <= |ids|
        invariant sequences == GroupWindows(records, ids[..k], windowSize)
        invariant targets == GroupTargets(records, ids[..k], windowSize)
      {
        var trajData := Trajectory(records, ids[k]);
        var pairs := CreateWindows(trajData, windowSize);
        sequences := sequences + pairs.X;
        targets := targets + pairs.y;
        assert ids[..k + 1][..k] == ids[..k];
        k := k + 1;
      }
      assert ids[..k] == ids;
    case Untagged(rows) =>
      var pairs := CreateWindows(rows, windowSize);
      sequences := sequences + pairs.X;
      targets := targets + pairs.y;
    }
    s := Samples(sequences, targets);
  }

  /** The dataset the training loop reads: pairs (X[idx], y[idx]). */
  class FlightDataset {
    const X: seq<seq<Vec3>>
    const y: seq<Vec3>

    constructor (X: seq<seq<Vec3>>, y: seq<Vec3>)
      ensures this.X == X && this.y == y
    {
      this.X := X;
      this.y := y;
    }

    /** `__len__`: the number of input windows. */
    function Length(): (n: nat)
      ensures n == |X|
    {
      |X|
    }

    /**
     * `__getitem__` with tensor indexing: a negative index counts from the end, and an
     * index outside either tensor raises IndexError (None).
     */
    function GetItem(idx: int): (r: Option<(seq<Vec3>, Vec3)>)
      ensures r.Some? <==> -|X| <= idx < |X| && -|y| <= idx < |y|
      ensures r.Some? && idx >= 0 ==> r.value == (X[idx], y[idx])
      ensures r.Some? && idx < 0 ==> r.value == (X[|X| + idx], y[|y| + idx])
    {
      if -|X| <= idx < |X| && -|y| <= idx < |y| then
        Some((X[if idx < 0 then |X| + idx else idx], y[if idx < 0 then |y| + idx else idx]))
      else None
    }
  }

  /**
   * A dataset built from `create_sequences` output pairs every window with its own
   * target: item i is (rows i .. i + w - 1, row i + w) of the trajectory.
   */
  lemma DatasetItems(ds: FlightDataset, data: seq<Vec3>, w: nat, i: nat)
    requires ds.X == Windows(data, w) && ds.y == Targets(data, w)
    requires i < ds.Length()
    ensures ds.GetItem(i) == Some((data[i..i + w], data[i + w]))
  {
  }
}
