/**
 * The rate controller: `mal_resampler_set_rate` and
 * `mal_resampler_set_rate_ratio` validate a new ratio against
 * [MIN_RATIO, MAX_RATIO] and commit it only when it passes.
 *
 * `set_rate` as written computes the ratio it checks and commits from the
 * rates already stored in the configuration, not from its arguments.
 * `SetRateConfig` keeps that behaviour; `IntendedSetRateConfig` is the
 * version that uses the arguments, for comparison.
 */
module RateControl {
  import opened Wrappers
  import opened ResamplerTypes

  /** The bounds test both functions apply: not below the minimum and not above the maximum. */
  predicate RatioInBounds(ratio: real)
    ensures RatioInBounds(ratio) <==> MIN_RATIO <= ratio <= MAX_RATIO
  {
    !(ratio < MIN_RATIO || ratio > MAX_RATIO)
  }

  /** For a positive `o`, `a / o` is below `m` exactly when `a` is below `m * o`. */
  lemma QuotientBelow(a: real, o: real, m: real)
    requires o > 0.0
    ensures a / o < m <==> a < m * o
  {
    var q := a / o;
    assert q * o == a;
    assert m * o - a == (m - q) * o;
  }

  /** For a positive `o`, `a / o` is above `m` exactly when `a` is above `m * o`. */
  lemma QuotientAbove(a: real, o: real, m: real)
    requires o > 0.0
    ensures a / o > m <==> a > m * o
  {
    var q := a / o;
    assert q * o == a;
    assert a - m * o == (q - m) * o;
  }

  /** For rates with a nonzero output rate, the bounds test on their quotient in whole numbers: 1000 * in >= out and in <= 100 * out. */
  lemma RatesInBounds(rateIn: nat, rateOut: nat)
    requires rateOut > 0
    ensures RatioInBounds(rateIn as real / rateOut as real) <==>
      1000 * rateIn >= rateOut && rateIn <= 100 * rateOut
  {
    var a, o := rateIn as real, rateOut as real;
    QuotientBelow(a, o, MIN_RATIO);
    QuotientAbove(a, o, MAX_RATIO);
    assert (1000 * rateIn) as real == 1000.0 * a;
    assert (100 * rateOut) as real == MAX_RATIO * o;
  }

  /**
   * The configuration `set_rate(rateIn, rateOut)` commits over `c`, or
   * `None` when it rejects. A stored output rate of 0 makes the C
   * division yield +infinity, which fails the upper bound; a stored pair
   * of zeros (0.0 / 0.0) is excluded when the arguments are nonzero, since
   * only then does the C code reach the division; see `SetRate`.
   */
  function SetRateConfig(c: Config, rateIn: u32, rateOut: u32): (s: Option<Config>)
    requires rateIn != 0 && rateOut != 0 ==> !(c.sampleRateIn == 0 && c.sampleRateOut == 0)
    ensures s.Some? <==>
      rateIn != 0 && rateOut != 0 && c.sampleRateOut != 0 &&
      RatioInBounds(c.sampleRateIn as real / c.sampleRateOut as real)
    ensures s.Some? <==>
      rateIn != 0 && rateOut != 0 && c.sampleRateOut != 0 &&
      1000 * c.sampleRateIn >= c.sampleRateOut && c.sampleRateIn <= 100 * c.sampleRateOut
    ensures s.Some? ==>
      s.value.sampleRateIn == rateIn && s.value.sampleRateOut == rateOut &&
      s.value.ratio * c.sampleRateOut as real == c.sampleRateIn as real &&
      RatioInBounds(s.value.ratio)
    ensures s.Some? ==>
      s.value.(sampleRateIn := c.sampleRateIn, sampleRateOut := c.sampleRateOut, ratio := c.ratio) == c
  {
    if rateIn == 0 || rateOut == 0 then None
    else if c.sampleRateOut == 0 then None
    else
      RatesInBounds(c.sampleRateIn, c.sampleRateOut);
      var ratio := c.sampleRateIn as real / c.sampleRateOut as real;
      if !RatioInBounds(ratio) then None
      else Some(c.(sampleRateIn := rateIn, sampleRateOut := rateOut, ratio := ratio))
  }

  /** What `set_rate` is meant to commit: the new rates and the ratio they make, when that is in bounds. */
  function IntendedSetRateConfig(c: Config, rateIn: u32, rateOut: u32): (s: Option<Config>)
    ensures s.Some? <==>
      rateIn != 0 && rateOut != 0 && RatioInBounds(rateIn as real / rateOut as real)
    ensures s.Some? <==>
      rateIn != 0 && rateOut != 0 && 1000 * rateIn >= rateOut && rateIn <= 100 * rateOut
    ensures s.Some? ==>
      s.value.sampleRateIn == rateIn && s.value.sampleRateOut == rateOut &&
      s.value.ratio * rateOut as real == rateIn as real &&
      RatioInBounds(s.value.ratio)
    ensures s.Some? ==>
      s.value.(sampleRateIn := c.sampleRateIn, sampleRateOut := c.sampleRateOut, ratio := c.ratio) == c
  {
    if rateIn == 0 || rateOut == 0 then None
    else
      RatesInBounds(rateIn, rateOut);
      var ratio := rateIn as real / rateOut as real;
      if !RatioInBounds(ratio) then None
      else Some(c.(sampleRateIn := rateIn, sampleRateOut := rateOut, ratio := ratio))
  }

  /**
   * As written, whether `set_rate` accepts and which ratio it commits do not
   * depend on the rates passed in, only on whether they are nonzero.
   */
  lemma SetRateIgnoresItsArguments(c: Config, in1: u32, out1: u32, in2: u32, out2: u32)
    requires !(c.sampleRateIn == 0 && c.sampleRateOut == 0)
    requires in1 != 0 && out1 != 0 && in2 != 0 && out2 != 0
    ensures SetRateConfig(c, in1, out1).Some? == SetRateConfig(c, in2, out2).Some?
    ensures SetRateConfig(c, in1, out1).Some? ==>
      SetRateConfig(c, in1, out1).value.ratio == SetRateConfig(c, in2, out2).value.ratio
  {
  }

  /** The resampler's configuration 44100 Hz to 44100 Hz at ratio 1. */
  const UNITY_CONFIG: Config :=
    Config(FormatF32, 2, 44100, 44100, 1.0, Linear, Consume, Some(ClientReadProc(1)))

  /**
   * As written, `set_rate(96000, 48000)` from 44100/44100 commits ratio 1
   * beside rates whose ratio is 2, and `set_rate(100000, 1)` is accepted
   * though its ratio 100000 is out of bounds; the intended version commits
   * ratio 2 for the first and rejects the second.
   */
  lemma SetRateAsWrittenCommitsStaleRatio()
    ensures SetRateConfig(UNITY_CONFIG, 96000, 48000).Some?
    ensures SetRateConfig(UNITY_CONFIG, 96000, 48000).value.ratio == 1.0
    ensures SetRateConfig(UNITY_CONFIG, 100000, 1).Some?
    ensures IntendedSetRateConfig(UNITY_CONFIG, 96000, 48000).Some?
    ensures IntendedSetRateConfig(UNITY_CONFIG, 96000, 48000).value.ratio == 2.0
    ensures IntendedSetRateConfig(UNITY_CONFIG, 100000, 1).None?
  {
  }

  /** After an intended `set_rate` the stored ratio agrees with the stored rates, whatever came before. */
  lemma IntendedSetRateKeepsRatesAndRatioConsistent(c: Config, rateIn: u32, rateOut: u32)
    requires rateIn != 0 && rateOut != 0 && 1000 * rateIn >= rateOut && rateIn <= 100 * rateOut
    ensures var s := IntendedSetRateConfig(c, rateIn, rateOut).value;
      s.sampleRateOut != 0 && s.ratio == s.sampleRateIn as real / s.sampleRateOut as real
  {
  }

  /**
   * `mal_resampler_set_rate`, as written. The stored rates may not both be 0
   * when the arguments are nonzero: C then computes 0.0 / 0.0, a NaN that
   * passes both bound comparisons, which real numbers cannot express.
   */
  method SetRate(r: Resampler?, rateIn: u32, rateOut: u32) returns (result: MalResult)
    requires r != null && rateIn != 0 && rateOut != 0 ==>
      !(r.config.sampleRateIn == 0 && r.config.sampleRateOut == 0)
    modifies r
    ensures r == null ==> result == InvalidArgs
    ensures r != null && (rateIn == 0 || rateOut == 0) ==> result == InvalidArgs && unchanged(r)
    ensures r != null && rateIn != 0 && rateOut != 0 ==>
      var s := SetRateConfig(old(r.config), rateIn, rateOut);
      (result == Success <==> s.Some?) &&
      (s.None? ==> result == InvalidArgs && unchanged(r)) &&
      (s.Some? ==> r.config == s.value)
    ensures r != null ==>
      r.firstCachedFrameOffset == old(r.firstCachedFrameOffset) &&
      r.cacheLengthInFrames == old(r.cacheLengthInFrames) &&
      r.windowLength == old(r.windowLength) && r.windowTime == old(r.windowTime) &&
      r.initProc == old(r.initProc) && r.readProc == old(r.readProc) && r.seekProc == old(r.seekProc)
    ensures r != null && old(r.Valid()) ==> r.Valid()
  {
    if r == null {
      return InvalidArgs;
    }
    if rateIn == 0 || rateOut == 0 {
      return InvalidArgs;
    }
    if r.config.sampleRateOut == 0 {
      return InvalidArgs;    // sampleRateIn / 0.0 is +infinity, above the maximum
    }
    var ratio := r.config.sampleRateIn as real / r.config.sampleRateOut as real;
    if ratio < MIN_RATIO || ratio > MAX_RATIO {
      return InvalidArgs;
    }
    r.config := r.config.(sampleRateIn := rateIn, sampleRateOut := rateOut, ratio := ratio);
    return Success;
  }

  /** `mal_resampler_set_rate_ratio`. */
  method SetRateRatio(r: Resampler?, ratio: real) returns (result: MalResult)
    modifies r
    ensures r == null ==> result == InvalidArgs
    ensures r != null && !RatioInBounds(ratio) ==> result == InvalidArgs && unchanged(r)
    ensures r != null && RatioInBounds(ratio) ==>
      result == Success && r.config == old(r.config).(ratio := ratio)
    ensures r != null ==>
      r.firstCachedFrameOffset == old(r.firstCachedFrameOffset) &&
      r.cacheLengthInFrames == old(r.cacheLengthInFrames) &&
      r.windowLength == old(r.windowLength) && r.windowTime == old(r.windowTime) &&
      r.initProc == old(r.initProc) && r.readProc == old(r.readProc) && r.seekProc == old(r.seekProc)
    ensures r != null && old(r.Valid()) ==> r.Valid()
  {
    if r == null {
      return InvalidArgs;
    }
    if ratio < MIN_RATIO || ratio > MAX_RATIO {
      return InvalidArgs;
    }
    r.config := r.config.(ratio := ratio);
    return Success;
  }

  /** The two values `set_rate_ratio`'s bounds test is documented to reject, and both bounds themselves accepted. */
  lemma RatioBoundsExamples()
    ensures !RatioInBounds(0.0001) && !RatioInBounds(500.0)
    ensures RatioInBounds(MIN_RATIO) && RatioInBounds(MAX_RATIO) && RatioInBounds(1.0)
  {
  }
}
