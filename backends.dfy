/**
 * The per-algorithm functions that `mal_resampler_init` binds. Their
 * interpolation is not written yet: each one checks its asserts and
 * returns 0 (or `MAL_SUCCESS`), touching nothing.
 */
module Backends {
  import opened Wrappers
  import opened ResamplerTypes

  /** Stands for the `ppFrames` array of per-channel output pointers; its contents are never looked at. */
  datatype OutputBuffers = OutputBuffers(address: nat)

  /** `mal_resampler_read__linear`: a stub. */
  method ReadLinear(r: Resampler, frameCount: u64, frames: OutputBuffers) returns (n: u64)
    requires r.config.onRead.Some? && frameCount > 0
    ensures n == 0
  {
    n := 0;
  }

  /** `mal_resampler_seek__linear`: a stub. */
  method SeekLinear(r: Resampler, frameCount: u64, options: u32) returns (n: u64)
    requires r.config.onRead.Some? && frameCount > 0
    ensures n == 0
  {
    n := 0;
  }

  /** `mal_resampler_init__sinc`: a stub; the sinc table is not built yet. */
  method InitSinc(r: Resampler) returns (result: MalResult)
    ensures result == Success
  {
    result := Success;
  }

  /** `mal_resampler_read__sinc`: a stub. */
  method ReadSinc(r: Resampler, frameCount: u64, frames: OutputBuffers) returns (n: u64)
    requires r.config.onRead.Some? && frameCount > 0
    ensures n == 0
  {
    n := 0;
  }

  /** `mal_resampler_seek__sinc`: a stub. */
  method SeekSinc(r: Resampler, frameCount: u64, options: u32) returns (n: u64)
    requires r.config.onRead.Some? && frameCount > 0
    ensures n == 0
  {
    n := 0;
  }
}
