/**
 * Data preparation of data/preprocess.py: the normalisation statistics with their
 * zero-std guard, loading a CSV table (column check, sort by t, projection), and the
 * row/id layout of the synthetic flight table.
 */
module Preprocess {
  import opened Wrappers
  import opened Vectors
  import opened Normalization
  import opened Tables

  // ---------------------------------------------------------------- statistics

  /** Column `i` of a feature table (0 = x, 1 = y, 2 = t). */
  function Column(rows: seq<Vec3>, i: nat): (c: seq<real>)
    requires i < 3
    ensures |c| == |rows| && forall k :: 0 <= k < |rows| ==> c[k] == Col(rows[k], i)
  {
    seq(|rows|, k requires 0 <= k < |rows| => Col(rows[k], i))
  }

  function Sum(s: seq<real>): real {
    if s == [] then 0.0 else s[0] + Sum(s[1..])
  }

  /** np.mean of one column. */
  function Mean(s: seq<real>): real
    requires |s| > 0
  {
    Sum(s) / (|s| as real)
  }

  /** The sum of squared deviations of `s` from `m`. */
  function SumSqDev(s: seq<real>, m: real): (r: real)
    ensures r >= 0.0
  {
    if s == [] then 0.0
    else
      SquareNonNegative(s[0] - m);
      (s[0] - m) * (s[0] - m) + SumSqDev(s[1..], m)
  }

  /** The population variance (np.std squared, ddof = 0) of one column. */
  function Variance(s: seq<real>): (r: real)
    requires |s| > 0
    ensures r >= 0.0
  {
    SumSqDev(s, Mean(s)) / (|s| as real)
  }

  /**
   * `calculate_normalization_stats`: the per-column mean, and the per-column standard
   * deviation `root(variance)` with every zero entry replaced by 1.0. `root` is the
   * square root of the numeric library.
   */
  function CalculateNormalizationStats(rows: seq<Vec3>, root: real -> real): (r: Stats)
    requires |rows| > 0
    requires IsSquareRoot(root)
    ensures NoZero(r.std)
    ensures forall i :: 0 <= i < 3 ==> Col(r.std, i) > 0.0
    ensures forall i :: 0 <= i < 3 && Variance(Column(rows, i)) != 0.0 ==>
      StdOf(Col(r.std, i), Variance(Column(rows, i)))
    ensures forall i :: 0 <= i < 3 ==> Col(r.mean, i) == Mean(Column(rows, i))
    ensures forall i :: 0 <= i < 3 ==>
      var d := root(Variance(Column(rows, i)));
      (d != 0.0 ==> Col(r.std, i) == d) && (d == 0.0 ==> Col(r.std, i) == 1.0)
  {
    var mean := Vec3(Mean(Column(rows, 0)), Mean(Column(rows, 1)), Mean(Column(rows, 2)));
    var raw := Vec3(root(Variance(Column(rows, 0))), root(Variance(Column(rows, 1))),
                    root(Variance(Column(rows, 2))));
    GuardedRoot(root, Variance(Column(rows, 0)));
    GuardedRoot(root, Variance(Column(rows, 1)));
    GuardedRoot(root, Variance(Column(rows, 2)));
    Stats(mean, Vec3(NonZeroOr1(raw.x), NonZeroOr1(raw.y), NonZeroOr1(raw.t)))
  }

  /** The guarded square root of a variance is positive, and is its standard deviation when the variance is not 0. */
  lemma GuardedRoot(root: real -> real, variance: real)
    requires IsSquareRoot(root) && variance >= 0.0
    ensures NonZeroOr1(root(variance)) > 0.0
    ensures variance != 0.0 ==> StdOf(NonZeroOr1(root(variance)), variance)
  {
    var d := root(variance);
    if d == 0.0 {
      assert d * d == variance;
    }
  }

  /** `d` is the standard deviation belonging to `variance`: non-negative, squaring to it. */
  ghost predicate StdOf(d: real, variance: real) {
    d >= 0.0 && d * d == variance
  }

  /** np.where(std == 0, 1.0, std) on one entry. */
  function NonZeroOr1(d: real): real {
    if d == 0.0 then 1.0 else d
  }

  /** A column whose rows all hold `c` sums to |s| * c. */
  lemma {:induction false} SumConstant(s: seq<real>, c: real)
    requires forall k :: 0 <= k < |s| ==> s[k] == c
    ensures Sum(s) == (|s| as real) * c
  {
    if s != [] {
      SumConstant(s[1..], c);
    }
  }

  /** ... and has no deviation from `c`. */
  lemma {:induction false} SumSqDevConstant(s: seq<real>, c: real)
    requires forall k :: 0 <= k < |s| ==> s[k] == c
    ensures SumSqDev(s, c) == 0.0
  {
    if s != [] {
      SumSqDevConstant(s[1..], c);
    }
  }

  /** A constant column has mean equal to its value and variance 0. */
  lemma ConstantColumn(s: seq<real>, c: real)
    requires |s| > 0
    requires forall k :: 0 <= k < |s| ==> s[k] == c
    ensures Mean(s) == c && Variance(s) == 0.0
  {
    SumConstant(s, c);
    SumSqDevConstant(s, c);
  }

  /**
   * A feature that never varies has variance 0, whose square root is 0, so its std entry
   * becomes 1.0 and normalising by it is well defined.
   */
  lemma ConstantFeatureStdIsOne(rows: seq<Vec3>, i: nat, root: real -> real)
    requires |rows| > 0 && i < 3 && IsSquareRoot(root)
    requires forall k :: 0 <= k < |rows| ==> Col(rows[k], i) == Col(rows[0], i)
    ensures Col(CalculateNormalizationStats(rows, root).std, i) == 1.0
    ensures Col(CalculateNormalizationStats(rows, root).mean, i) == Col(rows[0], i)
  {
    ConstantColumn(Column(rows, i), Col(rows[0], i));
    RootOfZero(root);
  }

  // ---------------------------------------------------------------- loading

  /** A table read from CSV: its column names and one cell per column in every row. */
  datatype Frame = Frame(columns: set<string>, rows: seq<map<string, real>>)

  /** Every row has exactly the frame's columns. */
  predicate Rectangular(f: Frame) {
    forall k :: 0 <= k < |f.rows| ==> f.rows[k].Keys == f.columns
  }

  /** The ValueError raised for a CSV that lacks x, y or t. */
  datatype LoadError = MissingColumns

  const Required: set<string> := {"x", "y", "t"}

  /** `df[['x', 'y', 't']]` as feature rows. */
  function Project(rows: seq<map<string, real>>): (r: seq<Vec3>)
    requires forall k :: 0 <= k < |rows| ==> Required <= rows[k].Keys
    ensures |r| == |rows|
  {
    seq(|rows|, k requires 0 <= k < |rows| => Vec3(rows[k]["x"], rows[k]["y"], rows[k]["t"]))
  }

  predicate SortedByT(s: seq<Vec3>) {
    forall i, j :: 0 <= i < j < |s| ==> s[i].t <= s[j].t
  }

  /** Inserts `v` into a table sorted by t. */
  function InsertByT(v: Vec3, s: seq<Vec3>): (r: seq<Vec3>)
    requires SortedByT(s)
    ensures SortedByT(r)
    ensures multiset(r) == multiset(s) + multiset{v}
  {
    if s == [] || v.t <= s[0].t then
      [v] + s
    else
      var rest := InsertByT(v, s[1..]);
      InsertBehindHead(v, s, rest);
      [s[0]] + rest
  }

  /** When `v` goes after the head of `s`, the head followed by `v` inserted into the tail is sorted and holds the same rows. */
  lemma InsertBehindHead(v: Vec3, s: seq<Vec3>, rest: seq<Vec3>)
    requires SortedByT(s) && s != [] && s[0].t < v.t
    requires SortedByT(rest) && multiset(rest) == multiset(s[1..]) + multiset{v}
    ensures SortedByT([s[0]] + rest)
    ensures multiset([s[0]] + rest) == multiset(s) + multiset{v}
  {
    assert s == [s[0]] + s[1..];
    forall k | 0 <= k < |rest|
      ensures s[0].t <= rest[k].t
    {
      assert rest[k] in multiset(s[1..]) + multiset{v} by {
        assert rest[k] in multiset(rest);
      }
      if rest[k] != v {
        var j :| 0 <= j < |s[1..]| && s[1..][j] == rest[k];
        assert s[j + 1] == rest[k];
      }
    }
  }

  /** `sort_values('t')`: a reordering of the rows by non-decreasing t. */
  function SortByT(s: seq<Vec3>): (r: seq<Vec3>)
    ensures SortedByT(r)
    ensures multiset(r) == multiset(s)
  {
    if s == [] then []
    else
      assert s == [s[0]] + s[1..];
      InsertByT(s[0], SortByT(s[1..]))
  }

  /**
   * `load_flight_data`: fails when any of x, y, t is missing; otherwise the rows, sorted
   * by t and projected to x, y, t.
   */
  function LoadFlightData(csv: Frame): (r: Result<seq<Vec3>, LoadError>)
    requires Rectangular(csv)
    ensures r.Failure? <==> !(Required <= csv.columns)
    ensures r.Success? ==> SortedByT(r.value) && multiset(r.value) == multiset(Project(csv.rows))
  {
    if !(Required <= csv.columns) then Failure(MissingColumns)
    else Success(SortByT(Project(csv.rows)))
  }

  // ---------------------------------------------------------------- synthetic data

  /** The ValueError pd.concat raises on an empty list of frames. */
  datatype SynthError = NoObjectsToConcatenate

  lemma {:induction false} MulAtLeast(d: int, len: nat)
    requires d >= 1
    ensures d * len >= len
  {
    assert d * len == (d - 1) * len + len;
    if d > 1 {
      MulAtLeast(d - 1, len);
    }
  }

  /** Row i of trajectory j sits at j * len + i. */
  lemma BlockPosition(j: nat, i: nat, len: nat)
    requires i < len
    ensures (j * len + i) / len == j && (j * len + i) % len == i
  {
    var x := j * len + i;
    var q, m := x / len, x % len;
    assert x == q * len + m;
    assert 0 <= m < len;
    if q > j {
      MulAtLeast(q - j, len);
      assert false;
    } else if q < j {
      MulAtLeast(j - q, len);
      assert false;
    }
  }

  /**
   * `generate_synthetic_flight_data`: trajectory j contributes `trajectoryLength` rows
   * tagged with id j, in order, so ids 0 .. n - 1 form contiguous blocks. The random and
   * trigonometric values of row i of trajectory j are `sample(j, i)`.
   */
  method GenerateSyntheticFlightData(nTrajectories: nat, trajectoryLength: nat, sample: (nat, nat) -> Vec3)
    returns (r: Result<seq<Record>, SynthError>)
    ensures r.Failure? <==> nTrajectories == 0
    ensures r.Success? ==> |r.value| == nTrajectories * trajectoryLength
    ensures r.Success? ==> forall k :: 0 <= k < |r.value| ==>
      r.value[k] == Record(sample(k / trajectoryLength, k % trajectoryLength), k / trajectoryLength)
  {
    var allData: seq<Record> := [];
    var j := 0;
    while j < nTrajectories
      invariant 0 <= j <= nTrajectories
      invariant |allData| == j * trajectoryLength
      invariant forall k :: 0 <= k < |allData| ==>
        allData[k] == Record(sample(k / trajectoryLength, k % trajectoryLength), k / trajectoryLength)
    {
      var trajData := seq(trajectoryLength, i requires 0 <= i < trajectoryLength => Record(sample(j, i), j));
      var before := allData;
      allData := allData + trajData;
      forall k | 0 <= k < |allData|
        ensures allData[k] == Record(sample(k / trajectoryLength, k % trajectoryLength), k / trajectoryLength)
      {
        if k >= |before| {
          BlockPosition(j, k - |before|, trajectoryLength);
        }
      }
      j := j + 1;
    }
    if nTrajectories == 0 {
      return Failure(NoObjectsToConcatenate);
    }
    r := Success(allData);
  }
}
