/**
 * The older window builder of data/generate_sequences.py: for every start index it
 * takes a block of `window_size` rows, uses the first five as the input and the sixth
 * as the target.
 */
module GenerateSequences {
  import opened Wrappers
  import opened Dataset

  /** The IndexError `block.iloc[5]` raises when a block has fewer than six rows. */
  datatype WindowError = BlockTooShort(start: int)

  /**
   * Where `iloc[lo:hi]` stops: a negative stop counts from the end (and is 0 when it
   * reaches past the start), a stop past the end is the end.
   */
  function SliceStop(len: nat, hi: int): (stop: nat)
    ensures stop <= len
    ensures 0 <= hi <= len ==> stop == hi
    ensures hi < 0 && len + hi >= 0 ==> stop == len + hi
    ensures len + hi < 0 ==> stop == 0
    ensures hi > len ==> stop == len
  {
    if hi < 0 then (if len + hi < 0 then 0 else len + hi)
    else if hi > len then len
    else hi
  }

  /** `df.iloc[lo:hi]` for 0 <= lo: the rows lo .. hi - 1 that exist, a negative hi counting from the end. */
  function ILocSlice<T>(s: seq<T>, lo: nat, hi: int): (r: seq<T>)
    ensures |r| <= |s|
    ensures forall i :: 0 <= i < |r| ==> lo + i < |s| && r[i] == s[lo + i]
    ensures lo < hi <= |s| ==> r == s[lo..hi]
    ensures 0 <= hi <= lo ==> r == []
    ensures hi < 0 && lo < |s| + hi ==> r == s[lo..|s| + hi]
    ensures hi < 0 && |s| + hi <= lo ==> r == []
    ensures |s| <= hi ==> r == s[if lo < |s| then lo else |s|..]
  {
    var stop := SliceStop(|s|, hi);
    if lo < stop then s[lo..stop] else []
  }

  /** max(0, len - w + 1): the length of `range(len(df) - window_size + 1)`. */
  function StartCount(len: nat, w: int): nat {
    if len - w + 1 > 0 then len - w + 1 else 0
  }

  /**
   * `generate_windows`. Whatever the window size, pair `start` is rows start .. start + 4
   * with target row start + 5. A window size from 0 to 5 makes the first block too short;
   * a negative one counts the block's stop from the end, so the block at start
   * -window_size is empty at the latest. Either way a window size below 6 raises.
   */
  method GenerateWindows<T>(df: seq<T>, windowSize: int) returns (r: Result<Samples<T>, WindowError>)
    ensures r.Failure? <==> windowSize < 6 && StartCount(|df|, windowSize) > 0
    ensures r.Success? ==>
      && |r.value.X| == |r.value.y| == StartCount(|df|, windowSize)
      && forall start :: 0 <= start < |r.value.X| ==>
           r.value.X[start] == df[start..start + 5] && r.value.y[start] == df[start + 5]
    ensures windowSize == 6 ==> r == Success(Samples(Windows(df, 5), Targets(df, 5)))
  {
    var X: seq<seq<T>> := [];
    var y: seq<T> := [];
    var start := 0;
    while start < |df| - windowSize + 1
      invariant 0 <= start <= StartCount(|df|, windowSize)
      invariant 0 <= windowSize < 6 ==> start == 0
      invariant windowSize < 0 ==> start <= -windowSize
      invariant |X| == start && |y| == start
      invariant start == 0 || start + 4 < |df|
      invariant forall k :: 0 <= k < start ==> X[k] == df[k..k + 5] && y[k] == df[k + 5]
    {
      var block := ILocSlice(df, start, start + windowSize);
      if |block| <= 5 {
        return Failure(BlockTooShort(start));
      }
      assert block[..5] == df[start..start + 5];
      X := X + [block[..5]];
      y := y + [block[5]];
      start := start + 1;
    }
    if windowSize == 6 {
      assert |X| == Count(|df|, 5);
      assert X == Windows(df, 5);
      assert y == Targets(df, 5);
    }
    r := Success(Samples(X, y));
  }
}
