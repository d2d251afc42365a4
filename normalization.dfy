/**
 * The per-feature affine normalisation of app/core/utils.py: `normalize` maps every
 * feature vector v of an array to (v - mean) / std and `denormalize` maps it to
 * v * std + mean, broadcasting over the leading (batch, sequence) axes.
 */
module Normalization {
  import opened Vectors

  /** The normalisation statistics: one mean and one std per feature. */
  datatype Stats = Stats(mean: Vec3, std: Vec3)

  /** Statistics that can be divided by: no std component is zero. */
  predicate Divisible(s: Stats) {
    NoZero(s.std)
  }

  /** normalize on one feature vector. */
  function Normalize(v: Vec3, s: Stats): (r: Vec3)
    requires Divisible(s)
    ensures r.x * s.std.x == v.x - s.mean.x
    ensures r.y * s.std.y == v.y - s.mean.y
    ensures r.t * s.std.t == v.t - s.mean.t
  {
    Vec3((v.x - s.mean.x) / s.std.x, (v.y - s.mean.y) / s.std.y, (v.t - s.mean.t) / s.std.t)
  }

  /**
   * denormalize on one feature vector: defined for every std (it only multiplies), and
   * the inverse of normalize whenever that is defined.
   */
  function Denormalize(v: Vec3, s: Stats): (r: Vec3)
    ensures r.x - s.mean.x == v.x * s.std.x
    ensures r.y - s.mean.y == v.y * s.std.y
    ensures r.t - s.mean.t == v.t * s.std.t
    ensures Divisible(s) ==> Normalize(r, s) == v
  {
    var r := Vec3(v.x * s.std.x + s.mean.x, v.y * s.std.y + s.mean.y, v.t * s.std.t + s.mean.t);
    assert Divisible(s) ==> Normalize(r, s) == v by {
      if Divisible(s) {
        var n := Normalize(r, s);
        assert n.x * s.std.x == v.x * s.std.x;
        assert n.y * s.std.y == v.y * s.std.y;
        assert n.t * s.std.t == v.t * s.std.t;
      }
    }
    r
  }

  /** normalize on a (seq_len, 3) array: each row on its own, undone row by row by denormalize. */
  function NormalizeRows(rows: seq<Vec3>, s: Stats): (r: seq<Vec3>)
    requires Divisible(s)
    ensures |r| == |rows|
    ensures forall i :: 0 <= i < |rows| ==> Denormalize(r[i], s) == rows[i]
  {
    seq(|rows|, i requires 0 <= i < |rows| => Normalize(rows[i], s))
  }

  /** denormalize on a (seq_len, 3) array: each row on its own, undone row by row by normalize. */
  function DenormalizeRows(rows: seq<Vec3>, s: Stats): (r: seq<Vec3>)
    ensures |r| == |rows|
    ensures forall i :: 0 <= i < |rows| ==> r[i] == Denormalize(rows[i], s)
    ensures Divisible(s) ==> forall i :: 0 <= i < |rows| ==> Normalize(r[i], s) == rows[i]
  {
    seq(|rows|, i requires 0 <= i < |rows| => Denormalize(rows[i], s))
  }

  /** normalize on a (batch, seq_len, 3) array: each sequence on its own, shape kept. */
  function NormalizeBatch(batch: seq<seq<Vec3>>, s: Stats): (r: seq<seq<Vec3>>)
    requires Divisible(s)
    ensures |r| == |batch|
    ensures forall b :: 0 <= b < |batch| ==> |r[b]| == |batch[b]|
  {
    seq(|batch|, i requires 0 <= i < |batch| => NormalizeRows(batch[i], s))
  }

  /** denormalize on a (batch, seq_len, 3) array: each vector on its own, shape kept. */
  function DenormalizeBatch(batch: seq<seq<Vec3>>, s: Stats): (r: seq<seq<Vec3>>)
    ensures |r| == |batch|
    ensures forall b :: 0 <= b < |batch| ==> |r[b]| == |batch[b]|
    ensures forall b, i :: 0 <= b < |batch| && 0 <= i < |batch[b]| ==> r[b][i] == Denormalize(batch[b][i], s)
  {
    seq(|batch|, i requires 0 <= i < |batch| => DenormalizeRows(batch[i], s))
  }

  /** Denormalising a normalised vector gives the vector back. */
  lemma DenormalizeNormalize(v: Vec3, s: Stats)
    requires Divisible(s)
    ensures Denormalize(Normalize(v, s), s) == v
  {
  }

  /** Normalising a denormalised vector gives the vector back. */
  lemma NormalizeDenormalize(v: Vec3, s: Stats)
    requires Divisible(s)
    ensures Normalize(Denormalize(v, s), s) == v
  {
  }

  /** The round trip on a whole (seq_len, 3) array, with its shape kept. */
  lemma DenormalizeNormalizeRows(rows: seq<Vec3>, s: Stats)
    requires Divisible(s)
    ensures |NormalizeRows(rows, s)| == |rows|
    ensures DenormalizeRows(NormalizeRows(rows, s), s) == rows
  {
    var back := DenormalizeRows(NormalizeRows(rows, s), s);
    forall i | 0 <= i < |rows|
      ensures back[i] == rows[i]
    {
      DenormalizeNormalize(rows[i], s);
    }
  }

  /** The inverse round trip on a whole (seq_len, 3) array. */
  lemma NormalizeDenormalizeRows(rows: seq<Vec3>, s: Stats)
    requires Divisible(s)
    ensures |DenormalizeRows(rows, s)| == |rows|
    ensures NormalizeRows(DenormalizeRows(rows, s), s) == rows
  {
    var back := NormalizeRows(DenormalizeRows(rows, s), s);
    forall i | 0 <= i < |rows|
      ensures back[i] == rows[i]
    {
      NormalizeDenormalize(rows[i], s);
    }
  }

  /** The round trip on a (batch, seq_len, 3) array. */
  lemma DenormalizeNormalizeBatch(batch: seq<seq<Vec3>>, s: Stats)
    requires Divisible(s)
    ensures DenormalizeBatch(NormalizeBatch(batch, s), s) == batch
  {
    var back := DenormalizeBatch(NormalizeBatch(batch, s), s);
    forall i | 0 <= i < |batch|
      ensures back[i] == batch[i]
    {
      DenormalizeNormalizeRows(batch[i], s);
    }
  }

  /** Each row of a normalised array depends on that row alone, at every batch position. */
  lemma NormalizeBatchRowwise(batch: seq<seq<Vec3>>, s: Stats, b: nat, i: nat)
    requires Divisible(s)
    requires b < |batch| && i < |batch[b]|
    ensures |NormalizeBatch(batch, s)| == |batch| && |NormalizeBatch(batch, s)[b]| == |batch[b]|
    ensures NormalizeBatch(batch, s)[b][i] == Normalize(batch[b][i], s)
  {
  }

  /** The mean itself normalises to the zero vector. */
  lemma NormalizeMean(s: Stats)
    requires Divisible(s)
    ensures Normalize(s.mean, s) == Vec3(0.0, 0.0, 0.0)
  {
  }

  /** Mean zero and std one. */
  const Identity: Stats := Stats(Vec3(0.0, 0.0, 0.0), Vec3(1.0, 1.0, 1.0))

  /** Mean zero and std one make both maps the identity. */
  lemma IdentityStats(v: Vec3)
    ensures Normalize(v, Identity) == v
    ensures Denormalize(v, Identity) == v
  {
  }

  /** ... on whole (batch, seq_len, 3) arrays too. */
  lemma IdentityStatsBatch(batch: seq<seq<Vec3>>)
    ensures NormalizeBatch(batch, Identity) == batch
  {
    forall b | 0 <= b < |batch|
      ensures NormalizeBatch(batch, Identity)[b] == batch[b]
    {
      forall i | 0 <= i < |batch[b]|
        ensures NormalizeRows(batch[b], Identity)[i] == batch[b][i]
      {
        IdentityStats(batch[b][i]);
      }
    }
  }
}
