# mal_resampler control layer, in Dafny

A model of the research resampler of mini_al (`research/mal_resampler.h`):
the control layer around its two interpolation algorithms, linear and
windowed sinc, whose kernels are still unwritten stubs there.

- **Construction and dispatch** (`Dispatch`): `mal_resampler_init` zeroes the
  object, copies the configuration, validates it in a fixed order (format
  f32 or s16, channels nonzero, either a ratio or two nonzero rates, an
  `onRead` callback), derives `ratio = sampleRateIn / sampleRateOut` when
  the ratio is 0, binds the linear or sinc function pointers, and returns
  the sinc init hook's result unchanged.
- **Rate controller** (`RateControl`): `set_rate_ratio` and `set_rate`
  check a ratio against `[MIN_RATIO, MAX_RATIO] = [0.001, 100.0]` and change
  nothing when it fails. `set_rate` takes that ratio from the rates already
  stored, not from its arguments (see Findings).
- **Read/seek front door** (`ReadSeek`, `Backends`): a NULL resampler, an
  unbound backend or a zero frame count give 0; a read with NULL output
  buffers is a seek with no options; the backends return 0.
- **Timing and queries** (`Timing`): cached input time
  `cacheLengthInFrames - (windowTime + retained)`, where `retained` is
  `windowLength >> 1` when consuming the end of input and `windowLength`
  otherwise; cached output time is that divided by `ratio`; the ceil/floor
  frame counts; and the required-input and expected-output estimates.
  These two estimates are proved exact partners: for a positive ratio,
  `k > 0` input frames give at least `N` output frames exactly when
  `k >= required(N)` (`Timing.RequiredInputIsLeastSufficient`).

The C struct is the class `ResamplerTypes.Resampler`; its function
pointers are tags (`Kernel`, `InitProc`) in `Option` fields, `None` being
NULL. As in C, every entry point takes a possibly-null resampler, so the
entry points are module-level members over `Resampler?`. Doubles are
`real`; `ceil` and `floor` are `RealMath.Ceil` and `RealMath.Floor`, and
every `(mal_uint64)` cast of one of them requires its value to lie in
`[0, 2^64)`, since C leaves any other value undefined.

Behaviours of the code that the model keeps as they are:
- init reports an unsupported format as `MAL_INVALID_ARGS`, like every other failed check;
- a failed check leaves the zeroed fields plus the copied configuration
  (with a derived ratio if the derivation was reached), and never binds a backend;
- init accepts a nonzero supplied ratio without a bounds check, negative
  ones included, although the header's notes (research/mal_resampler.h:41)
  say ratios must lie between `MAL_RESAMPLER_MIN_RATIO` and `MAL_RESAMPLER_MAX_RATIO`;
- init leaves `windowLength` at 0 for both algorithms;
- an algorithm value outside the enum's two constants falls through the
  switch: init returns `MAL_SUCCESS` with nothing bound, and read/seek then return 0;
- an out-of-range ratio is rejected as `MAL_INVALID_ARGS`.

## Model

| member | source | states |
|---|---|---|
| `Dispatch.ValidateConfig` | research/mal_resampler.h:249-268 | configuration checks succeed exactly when the format is f32 or s16, channels > 0, the ratio is nonzero or both rates are, and onRead is set; otherwise `MAL_INVALID_ARGS` |
| `Dispatch.StoredConfig` | research/mal_resampler.h:253-265 | the stored configuration differs from the given one only in its ratio; the ratio is derived exactly when the format and channel checks pass, the given ratio is 0 and both rates are nonzero (even if the onRead check then fails); a derived ratio is positive and equals sampleRateIn / sampleRateOut; a nonzero ratio is kept as given |
| `ResamplerTypes.Resampler.Valid` | research/mal_resampler.h:266-284 | an object with nothing bound is valid; in a valid object a bound read or seek pointer implies an onRead callback, which the backends assert (lines 478, 492, 517, 531) |
| `Dispatch.Bind` | research/mal_resampler.h:270-284 | only sinc binds an init hook; read and seek come from the same algorithm; linear binds the linear pair; an unknown algorithm binds nothing |
| `Dispatch.StoredBinding` | research/mal_resampler.h:266-284 | when every check passed the algorithm's backend is bound; when one failed nothing is bound |
| `Dispatch.InitResult` | research/mal_resampler.h:286-293 | failed checks give `MAL_INVALID_ARGS`; with sinc the hook's result is returned unchanged; otherwise `MAL_SUCCESS` |
| `Dispatch.InitSucceedsExactlyWhenValid` | research/mal_resampler.h:242-293 | init succeeds iff all checks pass and, for sinc, the hook succeeds |
| `Dispatch.SuccessfulInitIsUsable` | research/mal_resampler.h:254-268 | after a successful init the ratio is nonzero, onRead is set, the format is supported and channels > 0 |
| `Dispatch.Init` | research/mal_resampler.h:242-294 | NULL resampler gives `MAL_INVALID_ARGS`; otherwise cache and window fields are zeroed; NULL config leaves the zero configuration and nothing bound; else stores `StoredConfig`, `StoredBinding` and returns `InitResult` with the stub hook's `MAL_SUCCESS` |
| `Backends.InitSinc` | research/mal_resampler.h:506-512 | the sinc init hook returns `MAL_SUCCESS` and changes nothing |
| `Backends.ReadLinear` | research/mal_resampler.h:475-487 | given a callback and a nonzero count, returns 0 and changes nothing |
| `Backends.SeekLinear` | research/mal_resampler.h:489-500 | given a callback and a nonzero count, returns 0 and changes nothing |
| `Backends.ReadSinc` | research/mal_resampler.h:514-526 | given a callback and a nonzero count, returns 0 and changes nothing |
| `Backends.SeekSinc` | research/mal_resampler.h:528-539 | given a callback and a nonzero count, returns 0 and changes nothing |
| `ReadSeek.Seek` | research/mal_resampler.h:357-369 | returns 0 (early on NULL resampler, unbound seek or zero count, else from the stub) and changes no state |
| `ReadSeek.Read` | research/mal_resampler.h:338-355 | returns 0 (early returns, the seek a NULL buffer routes to, or the stub) and changes no state |
| `RateControl.SetRateConfig` | research/mal_resampler.h:307-318 | set_rate as written accepts iff both arguments and the stored output rate are nonzero and the STORED ratio is in bounds (equivalently 1000 * storedIn >= storedOut and storedIn <= 100 * storedOut); it commits the new rates with the stored ratio and changes nothing else |
| `RateControl.SetRateIgnoresItsArguments` | research/mal_resampler.h:311-318 | for any two nonzero argument pairs, acceptance and the committed ratio are the same |
| `RateControl.SetRateAsWrittenCommitsStaleRatio` | research/mal_resampler.h:311-318 | from 44100/44100, set_rate(96000, 48000) commits ratio 1 and set_rate(100000, 1) is accepted; the intended version commits 2 and rejects |
| `RateControl.IntendedSetRateConfig` | research/mal_resampler.h:301-321 | the corrected rule: accepts iff the new rates are nonzero and their ratio is in bounds (1000 * in >= out and in <= 100 * out), and commits the rates with that ratio |
| `RateControl.IntendedSetRateKeepsRatesAndRatioConsistent` | research/mal_resampler.h:316-318 | after the corrected set_rate the stored ratio is the stored rates' quotient |
| `RateControl.SetRate` | research/mal_resampler.h:301-321 | NULL gives `MAL_INVALID_ARGS`; a zero argument or a rejected stored ratio leaves the object unchanged; success commits `SetRateConfig`; cache, window and bindings never change; validity is kept |
| `RateControl.SetRateRatio` | research/mal_resampler.h:323-336 | NULL gives `MAL_INVALID_ARGS`; a ratio outside [0.001, 100] leaves the object unchanged; otherwise only `config.ratio` changes |
| `RateControl.RatioInBounds` | research/mal_resampler.h:312 | the rejection test "below MIN_RATIO or above MAX_RATIO" (also line 329) lets a ratio through, over reals, exactly when 0.001 <= ratio <= 100 |
| `RateControl.RatesInBounds` | research/mal_resampler.h:311-313 | for a nonzero output rate, the quotient of two rates passes the bounds test iff 1000 * in >= out and in <= 100 * out |
| `RateControl.RatioBoundsExamples` | research/mal_resampler.h:204-208 | 0.0001 and 500 are out of bounds; 0.001, 100 and 1 are in |
| `Timing.RetainedWindow` | research/mal_resampler.h:390-394 | consume mode leaves out half the window rounded down, no-consume mode all of it |
| `Timing.CachedInputTimeOf` | research/mal_resampler.h:389-396 | cached input time, window time and the retained window add up to the cache length |
| `Timing.NoConsumeAtMostConsume` | research/mal_resampler.h:390-394 | no-consume time is consume time minus the window's upper half, so never larger |
| `Timing.WindowRetentionExample` | research/mal_resampler.h:389-396 | 10 frames, 4 taps, time 0: 6 without consuming, 8 when consuming |
| `Timing.CalculateCachedInputTime` | research/mal_resampler.h:382-397 | the struct's cached input time lies between cache length minus window time minus the whole window, and cache length minus window time |
| `Timing.GetCachedInputTime` | research/mal_resampler.h:399-406 | 0 for NULL, else the cached input time |
| `Timing.CalculateCachedOutputTime` | research/mal_resampler.h:408-411 | output time times ratio is the cached input time |
| `Timing.GetCachedOutputTime` | research/mal_resampler.h:413-420 | 0 for NULL, else output time times ratio is the cached input time |
| `Timing.GetCachedInputFrameCount` | research/mal_resampler.h:372-375 | the least whole frame count covering the cached input time |
| `Timing.GetCachedOutputFrameCount` | research/mal_resampler.h:377-380 | the greatest whole frame count within the cached output time |
| `Timing.GetRequiredInputFrameCount` | research/mal_resampler.h:423-455 | 0 for NULL, a zero count or a sufficient cache; else the ceiling of the output shortfall times the ratio, positive iff the cache falls short when the ratio is positive |
| `Timing.GetExpectedOutputFrameCount` | research/mal_resampler.h:457-469 | 0 for NULL or a zero count; else the floor of (cached input time + count) / ratio |
| `Timing.RequiredInputIsLeastSufficient` | research/mal_resampler.h:423-469 | with a positive ratio, k > 0 input frames give at least N output frames iff k >= the required input count for N |
| `Timing.CleanRatioExample` | research/mal_resampler.h:423-469 | ratio 2, empty cache, zero-tap window: 500 output frames need 1000 input frames, and 1000 give 500 |

## Left out

- The bytes of the frame cache and their reading as f32 or s16
  (research/mal_resampler.h:89-93): only the frame-count fields are modelled.
- The alignment macros `MAL_ALIGN_INT`, `MAL_ALIGN_PTR` and
  `MAL_DECLARE_ALIGNED_STACK_BUFFER`: pointer arithmetic with no behaviour at the level of this model.
- The interpolation kernels, the sinc table and the meaning of the seek
  options: the source has only stubs, which are modelled as they are.
  The "too many samples" rule in the header's notes has no code to check yet.
- Cache capacity in frames and its per-channel layout: the source neither
  computes nor checks it.
- `mal_resampler_uninit`: it does nothing.
- The `onRead` callback is an opaque handle that is never called; `pUserData` is left out.
- IEEE-754 rounding: doubles are reals, so `0.001` and every quotient are exact.
- RateControl.SetRateRatio, RateControl.RatioInBounds, Dispatch.StoredConfig:
  NaN and the infinities are outside the model, because a real holds
  neither. Every comparison with a NaN is false, so the C rejection test
  (lines 312, 329) accepts a NaN ratio and `set_rate_ratio(NaN)` returns
  `MAL_SUCCESS` with NaN committed as the ratio. `init` checks a supplied
  ratio only against 0 (line 260), so it keeps a NaN or infinite ratio.
- SetRate and SetRateConfig: require that the stored rates are not both 0
  when the arguments are nonzero. Ordinary use reaches that state: an init
  given only a ratio (both rates 0) succeeds and stores rates 0/0. There
  the code computes 0.0 / 0.0, a NaN that passes both bound comparisons and
  is committed as the ratio beside the new rates; a real cannot hold a NaN,
  so the model does not cover that call.
- Timing.CalculateCachedOutputTime, Timing.GetCachedOutputTime,
  Timing.GetCachedOutputFrameCount, Timing.GetRequiredInputFrameCount and
  Timing.GetExpectedOutputFrameCount: require a nonzero ratio (for a
  non-null resampler). The code divides by `config.ratio` unguarded
  (lines 410, 468); on the zero ratio that a NULL-config or early-failing
  init leaves, C yields an infinity or a NaN, which reals cannot express.
  Every successful init leaves a nonzero ratio (`Dispatch.SuccessfulInitIsUsable`),
  and so does every accepted rate change (`RateControl.SetRateConfig`, `RateControl.SetRateRatio`).
- Timing.GetRequiredInputFrameCount: states positivity only for a positive
  ratio. A successful init never leaves a zero ratio but can leave a
  negative one; then a product `nonCachedOutputTime * ratio` in (-1, 0)
  casts to 0 and `mal_assert(requiredInputFrames > 0)` fails, while a
  product of -1 or below makes the cast at line 451 undefined.
- Timing: every `(mal_uint64)` cast requires its value in `[0, 2^64)`; a
  negative or too large value is undefined in C and not modelled.
- Concurrency: the resampler is single-threaded; nothing is modelled.

## Findings

| source | as written | input that shows it | evidently intended | confidence | as-written member | corrected member |
|---|---|---|---|---|---|---|
| research/mal_resampler.h:311 | the ratio checked and committed is `config.sampleRateIn / config.sampleRateOut`, the rates already stored | stored 44100/44100 with ratio 1: `set_rate(96000, 48000)` returns success with rates 96000/48000 and ratio 1; `set_rate(100000, 1)` is accepted although 100000 is out of bounds; worst, after an init given only a ratio (stored rates 0/0), `set_rate(44100, 48000)` computes 0.0 / 0.0 = NaN, which passes the bounds test and is committed as the ratio (not representable over reals, see Left out) | the ratio of the new `sampleRateIn / sampleRateOut`, checked and then committed with them | high; not executed | `RateControl.SetRateAsWrittenCommitsStaleRatio` | `RateControl.IntendedSetRateConfig` |

`RateControl.SetRate` keeps the code as written, since that is what the
resampler does today; `RateControl.IntendedSetRateConfig` and
`RateControl.IntendedSetRateKeepsRatesAndRatioConsistent` state the fix.
