/**
 * The data of research/mal_resampler.h: the integer widths it uses, its
 * enums, the configuration record and the resampler object itself.
 */
module ResamplerTypes {
  import opened Wrappers

  type u16 = x: int | 0 <= x < 0x1_0000
  type u32 = x: int | 0 <= x < 0x1_0000_0000
  type u64 = x: int | 0 <= x < 0x1_0000_0000_0000_0000

  /** `MAL_RESAMPLER_MIN_RATIO` and `MAL_RESAMPLER_MAX_RATIO`. */
  const MIN_RATIO: real := 0.001
  const MAX_RATIO: real := 100.0

  /**
   * The seek option bits of lines 47-48, recorded for reference only: the
   * stub backends ignore `options`, so no member of the model reads them.
   */
  const SEEK_NO_CLIENT_READ: u32 := 1
  const SEEK_INPUT_RATE: u32 := 2

  /**
   * `mal_result`: the two codes this file returns itself, and any other code
   * a backend hook may return. An `OtherError` code stands for a value
   * different from those of MAL_SUCCESS and MAL_INVALID_ARGS; their numeric
   * values come from mini_al.h, which is not part of this model, so the
   * constructor's tag, not the number, is what distinguishes them.
   */
  datatype MalResult = Success | InvalidArgs | OtherError(code: int)

  /**
   * `mal_format`: the two supported formats, and any other value. An
   * `OtherFormat` code stands for a value different from those of f32 and
   * s16 (defined in mini_al.h, which is not part of this model); code 0,
   * the value zeroing leaves, is taken to be one of them.
   */
  datatype Format = FormatF32 | FormatS16 | OtherFormat(code: int)

  /**
   * `mal_resampler_algorithm`. The C enum can hold a value outside its two
   * constants; `init`'s switch has no default case for it. Lines 64-65 fix
   * sinc at 0 and linear at 1, so an unknown code is neither.
   */
  datatype Algorithm = Sinc | Linear | UnknownAlgorithm(code: UnlistedAlgorithmCode)

  /** The values of `mal_resampler_algorithm` other than its two constants. */
  type UnlistedAlgorithmCode = c: int | c != 0 && c != 1 witness 2

  /**
   * `mal_resampler_end_of_input_mode`. The timing code only tests for
   * `consume`, so every other value behaves as `NoConsume`.
   */
  datatype EndOfInputMode = Consume | NoConsume

  /** The client's `onRead` callback, as an opaque, non-null handle. */
  datatype ClientReadProc = ClientReadProc(address: nat)

  /** `mal_resampler_config`, without `pUserData`. */
  datatype Config = Config(
    format: Format,
    channels: u32,
    sampleRateIn: u32,
    sampleRateOut: u32,
    ratio: real,
    algorithm: Algorithm,
    endOfInputMode: EndOfInputMode,
    onRead: Option<ClientReadProc>)

  /** The configuration `mal_zero_object` leaves: every field 0 or NULL. */
  const ZERO_CONFIG: Config := Config(OtherFormat(0), 0, 0, 0, 0.0, Sinc, Consume, None)

  /** Which algorithm's function a read or seek function pointer points to. */
  datatype Kernel = LinearKernel | SincKernel

  /** The only init hook there is, `mal_resampler_init__sinc`. */
  datatype InitProc = SincInit

  /** The `mal_resampler` struct, less the bytes of its frame cache. */
  class Resampler {
    var firstCachedFrameOffset: u16
    var cacheLengthInFrames: u16
    var windowLength: u16
    var windowTime: real
    var config: Config
    var initProc: Option<InitProc>
    var readProc: Option<Kernel>
    var seekProc: Option<Kernel>

    /** Backends are bound only over a configuration with a client callback: their asserts rely on it. */
    ghost predicate Valid()
      reads this
      ensures initProc.None? && readProc.None? && seekProc.None? ==> Valid()
      ensures Valid() && (readProc.Some? || seekProc.Some?) ==> config.onRead.Some?
    {
      (initProc.Some? || readProc.Some? || seekProc.Some?) ==> config.onRead.Some?
    }

    /** The cache and window fields as `mal_zero_object` leaves them. */
    predicate CacheAndWindowZero()
      reads this
    {
      firstCachedFrameOffset == 0 && cacheLengthInFrames == 0 && windowLength == 0 && windowTime == 0.0
    }

    /** Storage for a resampler, zeroed; `mal_resampler_init` zeroes it again anyway. */
    constructor ()
      ensures Valid() && CacheAndWindowZero()
      ensures config == ZERO_CONFIG && initProc.None? && readProc.None? && seekProc.None?
    {
      firstCachedFrameOffset, cacheLengthInFrames, windowLength, windowTime := 0, 0, 0, 0.0;
      config := ZERO_CONFIG;
      initProc, readProc, seekProc := None, None, None;
    }
  }
}
