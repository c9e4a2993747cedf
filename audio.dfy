/**
 * The sample buffer every effect works on, and the small numeric helpers
 * (Rust's float-to-integer casts, `f32::clamp`, the even-length padding).
 */
module Audio {

  datatype SampleFormat = Int | Float

  /** The WAV format descriptor, fixed at decode time. */
  datatype WavSpec = WavSpec(sampleRate: nat, channels: nat, bitsPerSample: nat, sampleFormat: SampleFormat)

  /** The decoded audio: a format and the normalized, channel-interleaved samples. */
  class AudioBuffer {
    const spec: WavSpec
    var samples: seq<real>

    constructor (spec: WavSpec, samples: seq<real>)
      ensures this.spec == spec && this.samples == samples
    {
      this.spec := spec;
      this.samples := samples;
    }
  }

  /** Why an effect aborts the process (`unwrap`, `expect`, `panic!`). */
  datatype Panic =
    | MissingArgument(key: string)
    | EmptyArgument(key: string)
    | UnparsableArgument(key: string)
    | UnboundedFeedback
    | ZeroCapacityLine

  /**
   * How applying an effect ends: normally; `Unfinished` when an energy-driven
   * tail loop was still running after the `fuel` iterations the model allows
   * it (the samples then end with the tail emitted so far); or by a panic
   * before any sample is touched.
   */
  datatype Applied = Applied | Unfinished | Panicked(cause: Panic)

  /** `x as i32` for a float: truncation toward zero (saturation at the i32 range is not modelled). */
  function TruncToInt(x: real): (n: int)
    ensures x >= 0.0 ==> n as real <= x < n as real + 1.0
    ensures x < 0.0 ==> n as real - 1.0 < x <= n as real
  {
    if x >= 0.0 then x.Floor else -((-x).Floor)
  }

  /** `x as usize` for a float: truncation, with negative values saturating at 0. */
  function TruncToNat(x: real): (n: nat)
    ensures x <= 0.0 ==> n == 0
    ensures x > 0.0 ==> n as real <= x < n as real + 1.0
  {
    if x <= 0.0 then 0 else x.Floor
  }

  /** A sample scaled by a gain. */
  function Scale(x: real, gain: real): real {
    x * gain
  }

  /** `x.clamp(-1.0, 1.0)`. */
  function Clamp(x: real): (r: real)
    ensures -1.0 <= r <= 1.0
    ensures -1.0 <= x <= 1.0 ==> r == x
    ensures x < -1.0 ==> r == -1.0
    ensures x > 1.0 ==> r == 1.0
  {
    if x < -1.0 then -1.0 else if x > 1.0 then 1.0 else x
  }

  /**
   * The final step of both delay effects: one `0.0` is appended when the
   * sample count is odd. The padding is to an even count, whatever the
   * channel count.
   */
  function PaddedToEven(s: seq<real>): (r: seq<real>)
    ensures |r| % 2 == 0
    ensures |s| <= |r| <= |s| + 1 && r[..|s|] == s
    ensures |r| == |s| <==> |s| % 2 == 0
    ensures forall i :: |s| <= i < |r| ==> r[i] == 0.0
  {
    if |s| % 2 != 0 then s + [0.0] else s
  }
}
