/**
 * The three-feature vector [x, y, t] that every array of the system carries on its
 * last axis: one observed point, one row of the feature table, or a per-feature
 * statistic (mean or std).
 */
module Vectors {
  import opened Wrappers

  datatype Vec3 = Vec3(x: real, y: real, t: real)

  /** Component `i` of `v`, numbered as the columns of the feature table: 0 = x, 1 = y, 2 = t. */
  function Col(v: Vec3, i: nat): real
    requires i < 3
  {
    if i == 0 then v.x else if i == 1 then v.y else v.t
  }

  /** No component of `v` is zero; a std vector must have this to be divided by. */
  predicate NoZero(v: Vec3) {
    v.x != 0.0 && v.y != 0.0 && v.t != 0.0
  }

  /** The numpy array `[x, y, t]` of `v`. */
  function AsSeq(v: Vec3): seq<real> {
    [v.x, v.y, v.t]
  }

  /**
   * Reads a one-dimensional numpy array as a feature vector. An array whose length is
   * not 3 cannot be combined element-wise with a feature vector (numpy raises a
   * broadcasting error), which is `None` here.
   */
  function AsVec3(s: seq<real>): (r: Option<Vec3>)
    ensures r.Some? <==> |s| == 3
    ensures r.Some? ==> AsSeq(r.value) == s
  {
    if |s| == 3 then Some(Vec3(s[0], s[1], s[2])) else None
  }

  /** True when no element of `s` is zero. */
  predicate NoZeroEntry(s: seq<real>) {
    forall i :: 0 <= i < |s| ==> s[i] != 0.0
  }

  lemma SquareNonNegative(d: real)
    ensures d * d >= 0.0
  {
    if d < 0.0 {
      assert d * d == (-d) * (-d);
    }
  }

  /** `np.sqrt` on the non-negative reals: a non-negative number whose square is its argument. */
  ghost predicate IsSquareRoot(root: real -> real) {
    forall x :: x >= 0.0 ==> root(x) >= 0.0 && root(x) * root(x) == x
  }

  /** A product of two non-negative numbers is zero only when one of them is. */
  lemma ProductZero(a: real, b: real)
    requires a >= 0.0 && b >= 0.0 && a * b == 0.0
    ensures a == 0.0 || b == 0.0
  {
    if a > 0.0 && b > 0.0 {
      ProductPositive(a, b);
    }
  }

  lemma ProductPositive(a: real, b: real)
    requires a > 0.0 && b > 0.0
    ensures a * b > 0.0
  {
  }

  /** A square root of 0 is 0. */
  lemma RootOfZero(root: real -> real)
    requires IsSquareRoot(root)
    ensures root(0.0) == 0.0
  {
    ProductZero(root(0.0), root(0.0));
  }
}
