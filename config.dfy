/**
 * The normalisation settings of app/core/config.py. MEAN and STD are either a list of
 * numbers or a text that is parsed as a Python literal; a text that does not parse
 * falls back to a fixed default vector. `ast.literal_eval` is the parameter `parse`.
 */
module Config {
  import opened Wrappers
  import opened Vectors
  import opened Normalization

  /** A setting given as text (from the environment) or as a list of numbers. */
  datatype Setting = Text(text: string) | Values(values: seq<real>)

  /** MEAN and STD as the settings object holds them. */
  datatype Settings = Settings(mean: Setting, std: Setting)

  /** A literal parser: the list of numbers the text denotes, or None when parsing raises. */
  type Parser = string -> Option<seq<real>>

  const DefaultMeanText: string := "[0.0, 0.0, 0.0]"
  const DefaultStdText: string := "[1.0, 1.0, 1.0]"

  /** The settings when neither MEAN nor STD is configured. */
  const Defaults: Settings := Settings(Text(DefaultMeanText), Text(DefaultStdText))

  const MeanFallback: seq<real> := [0.0, 0.0, 0.0]
  const StdFallback: seq<real> := [1.0, 1.0, 1.0]

  /** The array a setting denotes: its list as is, its parsed text, or `fallback` when parsing fails. */
  function ArrayOf(setting: Setting, fallback: seq<real>, parse: Parser): (r: seq<real>)
    ensures setting.Values? ==> r == setting.values
    ensures setting.Text? ==> r == (if parse(setting.text).Some? then parse(setting.text).value else fallback)
  {
    match setting
    case Values(vs) => vs
    case Text(text) =>
      match parse(text)
      case Some(vs) => vs
      case None => fallback
  }

  /** Settings.mean_array: the list, the parsed text, or [0, 0, 0] when the text does not parse. */
  function MeanArray(s: Settings, parse: Parser): (r: seq<real>)
    ensures s.mean.Values? ==> r == s.mean.values
    ensures s.mean.Text? && parse(s.mean.text).Some? ==> r == parse(s.mean.text).value
    ensures s.mean.Text? && parse(s.mean.text).None? ==> r == [0.0, 0.0, 0.0]
  {
    ArrayOf(s.mean, MeanFallback, parse)
  }

  /** Settings.std_array: the list, the parsed text, or [1, 1, 1] when the text does not parse. */
  function StdArray(s: Settings, parse: Parser): (r: seq<real>)
    ensures s.std.Values? ==> r == s.std.values
    ensures s.std.Text? && parse(s.std.text).Some? ==> r == parse(s.std.text).value
    ensures s.std.Text? && parse(s.std.text).None? ==> r == [1.0, 1.0, 1.0]
  {
    ArrayOf(s.std, StdFallback, parse)
  }

  /**
   * The statistics that normalize and denormalize apply, when both arrays have one
   * entry per feature; None when numpy cannot broadcast them against a feature axis.
   */
  function StatsOf(s: Settings, parse: Parser): (r: Option<Stats>)
    ensures r.Some? <==> |MeanArray(s, parse)| == 3 && |StdArray(s, parse)| == 3
    ensures r.Some? ==> AsSeq(r.value.mean) == MeanArray(s, parse) && AsSeq(r.value.std) == StdArray(s, parse)
  {
    match (AsVec3(MeanArray(s, parse)), AsVec3(StdArray(s, parse)))
    case (Some(m), Some(d)) => Some(Stats(m, d))
    case _ => None
  }

  /** A list-valued MEAN or STD passes through both accessors unchanged. */
  lemma ListSettingsUnchanged(mean: seq<real>, std: seq<real>, parse: Parser)
    ensures MeanArray(Settings(Values(mean), Values(std)), parse) == mean
    ensures StdArray(Settings(Values(mean), Values(std)), parse) == std
  {
  }

  /** An unparseable MEAN text gives the zero vector. */
  lemma UnparseableMean(s: Settings, parse: Parser)
    requires s.mean.Text? && parse(s.mean.text).None?
    ensures MeanArray(s, parse) == [0.0, 0.0, 0.0]
  {
  }

  /** An unparseable STD text gives the vector of ones, which has no zero entry. */
  lemma UnparseableStd(s: Settings, parse: Parser)
    requires s.std.Text? && parse(s.std.text).None?
    ensures StdArray(s, parse) == [1.0, 1.0, 1.0]
    ensures NoZeroEntry(StdArray(s, parse))
  {
  }

  /**
   * std_array does not guard against zeros: a configured or parsed STD reaches the
   * normaliser as it is, zero entries included, so only the producer of the statistics
   * can rule them out.
   */
  lemma StdArrayKeepsZero(s: Settings, parse: Parser, vs: seq<real>)
    requires s.std == Values(vs) || (s.std.Text? && parse(s.std.text) == Some(vs))
    ensures StdArray(s, parse) == vs
  {
  }

  /**
   * With the default texts (read as the lists they spell, or not parsed at all) the
   * statistics are mean 0 and std 1, so normalize and denormalize change nothing.
   */
  lemma DefaultsAreIdentity(parse: Parser, v: Vec3)
    requires parse(DefaultMeanText) == Some(MeanFallback) || parse(DefaultMeanText) == None
    requires parse(DefaultStdText) == Some(StdFallback) || parse(DefaultStdText) == None
    ensures StatsOf(Defaults, parse) == Some(Identity)
    ensures Normalize(v, StatsOf(Defaults, parse).value) == v
    ensures Denormalize(v, StatsOf(Defaults, parse).value) == v
  {
    assert MeanArray(Defaults, parse) == MeanFallback;
    assert StdArray(Defaults, parse) == StdFallback;
  }
}
