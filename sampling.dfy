/**
 * The logs sampler a bridge handler carries. Its random draw is a parameter:
 * a value in [0, 100), admitted when it falls below the sampling rate.
 */
module Sampling {

  datatype Sampler = Sampler(samplingRate: real)

  predicate IsDraw(draw: real) {
    0.0 <= draw < 100.0
  }

  /** Whether the event drawn as `draw` is kept. */
  predicate Sample(s: Sampler, draw: real)
    requires IsDraw(draw)
  {
    draw < s.samplingRate
  }

  /** A rate of 100 admits every event: the only setting the bridge tests rely on. */
  lemma FullRateAdmitsAll(s: Sampler, draw: real)
    requires s.samplingRate >= 100.0 && IsDraw(draw)
    ensures Sample(s, draw)
  {
  }
}
