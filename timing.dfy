/**
 * Timing and queries: the fractional amount of input (and output) the
 * cache holds, its ceil/floor frame counts, and the two estimates that
 * relate input frames to output frames. All of these only read the
 * resampler.
 */
module Timing {
  import opened ResamplerTypes
  import opened RealMath

  /** How many frames of the window the cached input time leaves out: half of it (rounded down) when consuming, all of it otherwise. */
  function RetainedWindow(mode: EndOfInputMode, windowLength: u16): (w: nat)
    ensures w <= windowLength
    ensures mode == NoConsume ==> w == windowLength
    ensures mode == Consume ==> w * 2 <= windowLength < w * 2 + 2
  {
    if mode == Consume then windowLength / 2 else windowLength
  }

  /** The cached input time of a cache holding `cacheLength` frames with the window at `windowTime`. */
  function CachedInputTimeOf(mode: EndOfInputMode, cacheLength: u16, windowTime: real, windowLength: u16): (t: real)
    ensures t + windowTime + RetainedWindow(mode, windowLength) as real == cacheLength as real
  {
    cacheLength as real - (windowTime + RetainedWindow(mode, windowLength) as real)
  }

  /** Keeping the whole window never leaves more cached input time than consuming half of it; the difference is the window's upper half. */
  lemma NoConsumeAtMostConsume(cacheLength: u16, windowTime: real, windowLength: u16)
    ensures CachedInputTimeOf(NoConsume, cacheLength, windowTime, windowLength)
      + (windowLength - windowLength / 2) as real
      == CachedInputTimeOf(Consume, cacheLength, windowTime, windowLength)
    ensures CachedInputTimeOf(NoConsume, cacheLength, windowTime, windowLength)
      <= CachedInputTimeOf(Consume, cacheLength, windowTime, windowLength)
  {
  }

  /** A four-tap window over ten cached frames at time 0: six frames when keeping the window, eight when consuming. */
  lemma WindowRetentionExample()
    ensures CachedInputTimeOf(NoConsume, 10, 0.0, 4) == 6.0 && Ceil(6.0) == 6
    ensures CachedInputTimeOf(Consume, 10, 0.0, 4) == 8.0 && Ceil(8.0) == 8
  {
  }

  /** `mal_resampler__calculate_cached_input_time`. */
  function CalculateCachedInputTime(r: Resampler): (t: real)
    reads r
    ensures t == CachedInputTimeOf(r.config.endOfInputMode, r.cacheLengthInFrames, r.windowTime, r.windowLength)
    ensures t <= r.cacheLengthInFrames as real - r.windowTime
    ensures r.cacheLengthInFrames as real - r.windowTime - r.windowLength as real <= t
  {
    CachedInputTimeOf(r.config.endOfInputMode, r.cacheLengthInFrames, r.windowTime, r.windowLength)
  }

  /** `mal_resampler_get_cached_input_time`. */
  function GetCachedInputTime(r: Resampler?): (t: real)
    reads r
    ensures r == null ==> t == 0.0
    ensures r != null ==> t == CalculateCachedInputTime(r)
  {
    if r == null then 0.0 else CalculateCachedInputTime(r)
  }

  /** `mal_resampler__calculate_cached_output_time`: the cached input time in output-rate units. */
  function CalculateCachedOutputTime(r: Resampler): (t: real)
    reads r
    requires r.config.ratio != 0.0
    ensures t * r.config.ratio == CalculateCachedInputTime(r)
  {
    CalculateCachedInputTime(r) / r.config.ratio
  }

  /** `mal_resampler_get_cached_output_time`. */
  function GetCachedOutputTime(r: Resampler?): (t: real)
    reads r
    requires r != null ==> r.config.ratio != 0.0
    ensures r == null ==> t == 0.0
    ensures r != null ==> t * r.config.ratio == CalculateCachedInputTime(r)
  {
    if r == null then 0.0 else CalculateCachedOutputTime(r)
  }

  /** `mal_resampler_get_cached_input_frame_count`: the least whole number of frames covering the cached input time. */
  function GetCachedInputFrameCount(r: Resampler?): (k: u64)
    reads r
    requires CastableToU64(Ceil(GetCachedInputTime(r)))
    ensures k as real - 1.0 < GetCachedInputTime(r) <= k as real
  {
    Ceil(GetCachedInputTime(r))
  }

  /** `mal_resampler_get_cached_output_frame_count`: the whole output frames the cached input gives. */
  function GetCachedOutputFrameCount(r: Resampler?): (k: u64)
    reads r
    requires r != null ==> r.config.ratio != 0.0
    requires CastableToU64(Floor(GetCachedOutputTime(r)))
    ensures k as real <= GetCachedOutputTime(r) < k as real + 1.0
  {
    Floor(GetCachedOutputTime(r))
  }

  /** The input time still missing for `outputFrameCount` output frames: the output shortfall times the ratio. */
  function InputShortfall(r: Resampler, outputFrameCount: u64): real
    reads r
    requires r.config.ratio != 0.0
  {
    (outputFrameCount as real - CalculateCachedOutputTime(r)) * r.config.ratio
  }

  /** What `get_required_input_frame_count(r, outputFrameCount)` needs for its division and its cast to be defined. */
  predicate RequiredInputDefined(r: Resampler, outputFrameCount: u64)
    reads r
  {
    r.config.ratio != 0.0 &&
    (CalculateCachedOutputTime(r) < outputFrameCount as real ==>
      CastableToU64(Ceil(InputShortfall(r, outputFrameCount))))
  }

  /**
   * `mal_resampler_get_required_input_frame_count`: the input frames to read
   * beyond the cache for `outputFrameCount` output frames; positive, as the C
   * code asserts, whenever the cache falls short and the ratio is positive.
   */
  function GetRequiredInputFrameCount(r: Resampler?, outputFrameCount: u64): (k: u64)
    reads r
    requires r != null && outputFrameCount != 0 ==> RequiredInputDefined(r, outputFrameCount)
    ensures r == null || outputFrameCount == 0 ==> k == 0
    ensures r != null && outputFrameCount != 0 && CalculateCachedOutputTime(r) >= outputFrameCount as real ==> k == 0
    ensures r != null && outputFrameCount != 0 && CalculateCachedOutputTime(r) < outputFrameCount as real ==>
      k as real - 1.0 < InputShortfall(r, outputFrameCount) <= k as real
    ensures r != null && outputFrameCount != 0 && r.config.ratio > 0.0 ==>
      (k > 0 <==> CalculateCachedOutputTime(r) < outputFrameCount as real)
  {
    if r == null then 0
    else if outputFrameCount == 0 then 0
    else
      var cachedOutputTime := CalculateCachedOutputTime(r);
      if cachedOutputTime >= outputFrameCount as real then 0
      else
        var nonCachedOutputTime := outputFrameCount as real - cachedOutputTime;
        ShortfallSign(nonCachedOutputTime, r.config.ratio);
        Ceil(InputShortfall(r, outputFrameCount))
  }

  /** A positive output shortfall times a positive ratio is a positive input shortfall. */
  lemma ShortfallSign(shortfall: real, ratio: real)
    requires shortfall > 0.0
    ensures ratio > 0.0 ==> shortfall * ratio > 0.0
  {
  }

  /** What `get_expected_output_frame_count(r, inputFrameCount)` needs for its division and its cast to be defined. */
  predicate ExpectedOutputDefined(r: Resampler, inputFrameCount: u64)
    reads r
  {
    r.config.ratio != 0.0 &&
    CastableToU64(Floor((CalculateCachedInputTime(r) + inputFrameCount as real) / r.config.ratio))
  }

  /** `mal_resampler_get_expected_output_frame_count`: the whole output frames the cache plus `inputFrameCount` more input frames give. */
  function GetExpectedOutputFrameCount(r: Resampler?, inputFrameCount: u64): (k: u64)
    reads r
    requires r != null && inputFrameCount != 0 ==> ExpectedOutputDefined(r, inputFrameCount)
    ensures r == null || inputFrameCount == 0 ==> k == 0
    ensures r != null && inputFrameCount != 0 ==>
      var outputTime := (CalculateCachedInputTime(r) + inputFrameCount as real) / r.config.ratio;
      k as real <= outputTime < k as real + 1.0
  {
    if r == null then 0
    else if inputFrameCount == 0 then 0
    else Floor((CalculateCachedInputTime(r) + inputFrameCount as real) / r.config.ratio)
  }

  /** For a positive `q`, `a / q` reaches `n` exactly when `a` reaches `n * q`. */
  lemma DivisionReaches(a: real, q: real, n: real)
    requires q > 0.0
    ensures a / q >= n <==> a >= n * q
  {
    assert (a / q) * q == a;
    if a / q >= n {
      assert (a / q) * q >= n * q;
    } else {
      assert (a / q) * q < n * q;
    }
  }

  /**
   * The arithmetic behind `RequiredInputIsLeastSufficient`, on plain
   * numbers: `cit` is the cached input time, `cot` the cached output time,
   * `q` the ratio, `n` the output frames wanted and `k` the input frames added.
   */
  lemma EstimatesAgree(cit: real, cot: real, q: real, n: int, k: int)
    requires q > 0.0 && cot * q == cit && k > 0
    ensures Floor((cit + k as real) / q) >= n <==>
      k >= (if cot >= n as real then 0 else Ceil((n as real - cot) * q))
  {
    var a := cit + k as real;
    FloorIsGreatest(a / q, n);
    DivisionReaches(a, q, n as real);
    if cot >= n as real {
      assert cot * q >= n as real * q;
    } else {
      var shortfall := (n as real - cot) * q;
      assert shortfall == n as real * q - cit;
      CeilIsLeast(shortfall, k);
    }
  }

  /**
   * The two estimates are exact partners: with a positive ratio, a
   * nonzero number of input frames yields at least `outputFrameCount`
   * output frames exactly when it is at least the required input count.
   */
  lemma RequiredInputIsLeastSufficient(r: Resampler, outputFrameCount: u64, inputFrameCount: u64)
    requires r.config.ratio > 0.0
    requires outputFrameCount != 0 && inputFrameCount != 0
    requires RequiredInputDefined(r, outputFrameCount)
    requires ExpectedOutputDefined(r, inputFrameCount)
    ensures GetExpectedOutputFrameCount(r, inputFrameCount) >= outputFrameCount
      <==> inputFrameCount >= GetRequiredInputFrameCount(r, outputFrameCount)
  {
    var cit, cot, q := CalculateCachedInputTime(r), CalculateCachedOutputTime(r), r.config.ratio;
    assert GetExpectedOutputFrameCount(r, inputFrameCount) == Floor((cit + inputFrameCount as real) / q);
    assert GetRequiredInputFrameCount(r, outputFrameCount) ==
      if cot >= outputFrameCount as real then 0 else Ceil((outputFrameCount as real - cot) * q);
    EstimatesAgree(cit, cot, q, outputFrameCount, inputFrameCount);
  }

  /** Input rate 88200 to 44100 (ratio 2) over an empty cache and a zero-tap window: 500 output frames need 1000 input frames, and 1000 give 500. */
  lemma CleanRatioExample(r: Resampler)
    requires r.config.ratio == 2.0
    requires r.cacheLengthInFrames == 0 && r.windowLength == 0 && r.windowTime == 0.0
    ensures GetRequiredInputFrameCount(r, 500) == 1000
    ensures GetExpectedOutputFrameCount(r, 1000) == 500
  {
  }
}
