/**
 * Construction and dispatch: `mal_resampler_init` validates a
 * configuration, derives the ratio when none is given and binds the
 * linear or the sinc backend, running the backend's init hook if it has one.
 */
module Dispatch {
  import opened Wrappers
  import opened ResamplerTypes
  import Backends

  /** The two formats with a pipeline. */
  predicate SupportedFormat(f: Format) {
    f == FormatF32 || f == FormatS16
  }

  /** What `init` decides from the configuration alone, before it binds a backend. */
  function ValidateConfig(c: Config): (res: MalResult)
    ensures res == Success || res == InvalidArgs
    ensures res == Success <==>
      SupportedFormat(c.format) && c.channels > 0 &&
      (c.ratio != 0.0 || (c.sampleRateIn > 0 && c.sampleRateOut > 0)) &&
      c.onRead.Some?
  {
    if !SupportedFormat(c.format) then InvalidArgs
    else if c.channels == 0 then InvalidArgs
    else if c.ratio == 0.0 && (c.sampleRateIn == 0 || c.sampleRateOut == 0) then InvalidArgs
    else if c.onRead.None? then InvalidArgs
    else Success
  }

  /**
   * The configuration `init` leaves in the resampler. The ratio is derived
   * once the format and channel checks have passed, so it is derived even
   * when the later `onRead` check then fails.
   */
  function StoredConfig(c: Config): (s: Config)
    ensures s.(ratio := c.ratio) == c
    ensures c.ratio != 0.0 ==> s == c
    ensures ValidateConfig(c) == Success ==> s.ratio != 0.0
    ensures ValidateConfig(c) == Success && c.ratio == 0.0 ==>
      s.ratio > 0.0 && s.ratio * c.sampleRateOut as real == c.sampleRateIn as real
    ensures s.ratio != c.ratio <==>
      SupportedFormat(c.format) && c.channels > 0 && c.ratio == 0.0 &&
      c.sampleRateIn > 0 && c.sampleRateOut > 0
    ensures s.ratio != c.ratio ==> s.ratio * c.sampleRateOut as real == c.sampleRateIn as real
  {
    if SupportedFormat(c.format) && c.channels > 0 && c.ratio == 0.0 &&
       c.sampleRateIn > 0 && c.sampleRateOut > 0
    then c.(ratio := c.sampleRateIn as real / c.sampleRateOut as real)
    else c
  }

  /** The three function pointers `init` assigns. */
  datatype Binding = Binding(initProc: Option<InitProc>, readProc: Option<Kernel>, seekProc: Option<Kernel>)

  /** Nothing bound: what zeroing leaves. */
  const UNBOUND: Binding := Binding(None, None, None)

  /** The backend `init`'s switch binds for an algorithm. */
  function Bind(a: Algorithm): (b: Binding)
    ensures b.initProc.Some? <==> a == Sinc
    ensures b.readProc == b.seekProc
    ensures b.readProc.Some? <==> !a.UnknownAlgorithm?
    ensures b.readProc == Some(LinearKernel) <==> a == Linear
  {
    match a
    case Linear => Binding(None, Some(LinearKernel), Some(LinearKernel))
    case Sinc => Binding(Some(SincInit), Some(SincKernel), Some(SincKernel))
    case UnknownAlgorithm(_) => UNBOUND
  }

  /** The result of `init` for a non-null configuration, given what the bound init hook returns. */
  function InitResult(c: Config, hookResult: MalResult): (res: MalResult)
    ensures ValidateConfig(c) != Success ==> res == InvalidArgs
    ensures ValidateConfig(c) == Success && c.algorithm == Sinc ==> res == hookResult
    ensures ValidateConfig(c) == Success && c.algorithm != Sinc ==> res == Success
  {
    if ValidateConfig(c) != Success then InvalidArgs
    else if Bind(c.algorithm).initProc.Some? then hookResult
    else Success
  }

  /** The binding `init` leaves for a non-null configuration. */
  function StoredBinding(c: Config): (b: Binding)
    ensures b.readProc.Some? ==> ValidateConfig(c) == Success
    ensures ValidateConfig(c) == Success ==> b == Bind(c.algorithm)
    ensures ValidateConfig(c) != Success ==> b == UNBOUND
  {
    if ValidateConfig(c) == Success then Bind(c.algorithm) else UNBOUND
  }

  /** `init` succeeds exactly when every check passes and the hook, where there is one, succeeds. */
  lemma InitSucceedsExactlyWhenValid(c: Config, hookResult: MalResult)
    ensures InitResult(c, hookResult) == Success <==>
      ValidateConfig(c) == Success && (c.algorithm == Sinc ==> hookResult == Success)
  {
  }

  /** Whatever the resampler's fields held before, a successful `init` leaves a usable resampler. */
  lemma SuccessfulInitIsUsable(c: Config, hookResult: MalResult)
    requires InitResult(c, hookResult) == Success
    ensures StoredConfig(c).ratio != 0.0 && StoredConfig(c).onRead.Some?
    ensures StoredConfig(c).format == FormatF32 || StoredConfig(c).format == FormatS16
    ensures StoredConfig(c).channels > 0
  {
  }

  /** `mal_resampler_init(pConfig, pResampler)`; NULL pointers are `None` and `null`. */
  method Init(cfg: Option<Config>, r: Resampler?) returns (result: MalResult)
    modifies r
    ensures r == null ==> result == InvalidArgs
    ensures r != null ==> r.Valid() && r.CacheAndWindowZero()
    ensures r != null && cfg.None? ==>
      result == InvalidArgs && r.config == ZERO_CONFIG &&
      Binding(r.initProc, r.readProc, r.seekProc) == UNBOUND
    ensures r != null && cfg.Some? ==>
      r.config == StoredConfig(cfg.value) &&
      Binding(r.initProc, r.readProc, r.seekProc) == StoredBinding(cfg.value) &&
      result == InitResult(cfg.value, Success)
  {
    if r == null {
      return InvalidArgs;
    }
    r.firstCachedFrameOffset, r.cacheLengthInFrames, r.windowLength, r.windowTime := 0, 0, 0, 0.0;
    r.config := ZERO_CONFIG;
    r.initProc, r.readProc, r.seekProc := None, None, None;

    if cfg.None? {
      return InvalidArgs;
    }

    r.config := cfg.value;
    if !SupportedFormat(r.config.format) {
      return InvalidArgs;
    }
    if r.config.channels == 0 {
      return InvalidArgs;
    }
    if r.config.ratio == 0.0 {
      if r.config.sampleRateIn == 0 || r.config.sampleRateOut == 0 {
        return InvalidArgs;
      }
      r.config := r.config.(ratio := r.config.sampleRateIn as real / r.config.sampleRateOut as real);
    }
    if r.config.onRead.None? {
      return InvalidArgs;
    }

    match r.config.algorithm {
      case Linear =>
        r.initProc, r.readProc, r.seekProc := None, Some(LinearKernel), Some(LinearKernel);
      case Sinc =>
        r.initProc, r.readProc, r.seekProc := Some(SincInit), Some(SincKernel), Some(SincKernel);
      case UnknownAlgorithm(_) =>
    }

    if r.initProc.Some? {
      var hookResult := Backends.InitSinc(r);
      if hookResult != Success {
        return hookResult;
      }
    }
    return Success;
  }
}
