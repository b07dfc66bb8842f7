/**
 * The read/seek front door: `mal_resampler_read` and `mal_resampler_seek`
 * reject a missing resampler, a missing backend and a zero frame count
 * with 0, route a read without output buffers to a seek with no options,
 * and otherwise call the bound backend. Every backend is still a stub
 * returning 0, so every call returns 0; having no `modifies` clause, none
 * changes any state.
 */
module ReadSeek {
  import opened Wrappers
  import opened ResamplerTypes
  import Backends

  /** `mal_resampler_seek(pResampler, frameCount, options)`. */
  method Seek(r: Resampler?, frameCount: u64, options: u32) returns (n: u64)
    requires r != null ==> r.Valid()
    ensures n == 0
  {
    if r == null || r.seekProc.None? {
      return 0;
    }
    if frameCount == 0 {
      return 0;
    }
    match r.seekProc.value {
      case LinearKernel => n := Backends.SeekLinear(r, frameCount, options);
      case SincKernel => n := Backends.SeekSinc(r, frameCount, options);
    }
  }

  /** `mal_resampler_read(pResampler, frameCount, ppFrames)`; a NULL `ppFrames` is `None`. */
  method Read(r: Resampler?, frameCount: u64, frames: Option<Backends.OutputBuffers>) returns (n: u64)
    requires r != null ==> r.Valid()
    ensures n == 0
  {
    if r == null || r.readProc.None? {
      return 0;
    }
    if frameCount == 0 {
      return 0;
    }
    if frames.None? {
      n := Seek(r, frameCount, 0);
      return;
    }
    match r.readProc.value {
      case LinearKernel => n := Backends.ReadLinear(r, frameCount, frames.value);
      case SincKernel => n := Backends.ReadSinc(r, frameCount, frames.value);
    }
  }
}
