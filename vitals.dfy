/**
 The two vital-sign estimators of the monitor: the respiratory rate derived
 from three accelerometer axes and the heart rate derived from a video.
 Both are placeholders in the app; the model keeps their arithmetic exactly,
 including the integer division in the per-minute scaling factor.
 */
module Vitals {

  /** One accelerometer reading (a 32-bit float in the app). The estimator
      never looks at the values, only at how many there are. */
  type Sample = real

  /** Samples that make up one breath window. */
  const SamplesPerBreath: nat := 200
  /** Numerator and denominator of the per-minute scaling `60 / 45`. */
  const SecondsPerMinute: nat := 60
  const WindowSeconds: nat := 45

  /** The value the heart-rate placeholder always reports. */
  const PlaceholderHeartRate: nat := 75

  /** `minOf(a, b, c)`: the smallest of three lengths. */
  function Min3(a: nat, b: nat, c: nat): (m: nat)
    ensures m <= a && m <= b && m <= c
    ensures m == a || m == b || m == c
  {
    if a <= b && a <= c then a else if b <= c then b else c
  }

  /** `getRespRateFromCsv`: the number of whole 200-sample windows that all
      three axes fill, scaled by the integer quotient `60 / 45`. */
  function RespRateFromCsv(x: seq<Sample>, y: seq<Sample>, z: seq<Sample>): (bpm: nat)
    // every axis holds bpm full windows ...
    ensures bpm * SamplesPerBreath <= |x|
    ensures bpm * SamplesPerBreath <= |y|
    ensures bpm * SamplesPerBreath <= |z|
    // ... and some axis does not hold one more
    ensures |x| < (bpm + 1) * SamplesPerBreath
         || |y| < (bpm + 1) * SamplesPerBreath
         || |z| < (bpm + 1) * SamplesPerBreath
    // a short (or empty) axis gives zero, never an error
    ensures bpm == 0 <==> |x| < SamplesPerBreath || |y| < SamplesPerBreath || |z| < SamplesPerBreath
  {
    var totalSamples := Min3(|x|, |y|, |z|);
    var breaths := totalSamples / SamplesPerBreath;
    breaths * (SecondsPerMinute / WindowSeconds)
  }

  /** `getHeartRateFromVideo`: the placeholder ignores the context and the
      video location it is given. */
  function HeartRateFromVideo<Context, Location>(context: Context, uri: Location): (bpm: nat)
    ensures bpm == PlaceholderHeartRate
  {
    PlaceholderHeartRate
  }

  /** The integer scaling factor `60 / 45` is exactly one, so the rate is the
      window count of the shortest axis. */
  lemma RespRateIsWindowCount(x: seq<Sample>, y: seq<Sample>, z: seq<Sample>)
    ensures RespRateFromCsv(x, y, z) == Min3(|x|, |y|, |z|) / SamplesPerBreath
  {
  }

  /** Only the lengths of the axes matter, never the sample values. */
  lemma RespRateDependsOnlyOnLengths(x: seq<Sample>, y: seq<Sample>, z: seq<Sample>,
                                     x': seq<Sample>, y': seq<Sample>, z': seq<Sample>)
    requires |x| == |x'| && |y| == |y'| && |z| == |z'|
    ensures RespRateFromCsv(x, y, z) == RespRateFromCsv(x', y', z')
  {
  }

  /** More samples on every axis never lower the rate. */
  lemma RespRateMonotone(x: seq<Sample>, y: seq<Sample>, z: seq<Sample>,
                         x': seq<Sample>, y': seq<Sample>, z': seq<Sample>)
    requires |x| <= |x'| && |y| <= |y'| && |z| <= |z'|
    ensures RespRateFromCsv(x, y, z) <= RespRateFromCsv(x', y', z')
  {
  }

  /** The truncated factor `60 / 45` agrees with scaling the window count by
      the exact ratio (and rounding down) only for fewer than three windows:
      from three windows on, the per-minute scaling is lost. */
  lemma TruncatedScalingAgreesBelowThree(breaths: nat)
    ensures breaths * (SecondsPerMinute / WindowSeconds) == breaths * SecondsPerMinute / WindowSeconds
            <==> breaths < 3
  {
  }

  /** Lengths 450, 500 and 480 give two breaths per minute. */
  lemma RespRateExampleTwo()
    ensures RespRateFromCsv(seq(450, _ => 0.0), seq(500, _ => 0.0), seq(480, _ => 0.0)) == 2
  {
  }

  /** Three axes of 199 samples each give zero. */
  lemma RespRateExampleShort()
    ensures RespRateFromCsv(seq(199, _ => 0.0), seq(199, _ => 0.0), seq(199, _ => 0.0)) == 0
  {
  }

  /** Whatever it is given, the heart-rate placeholder reports the same value. */
  lemma HeartRateIgnoresInput<C, U>(c1: C, u1: U, c2: C, u2: U)
    ensures HeartRateFromVideo(c1, u1) == HeartRateFromVideo(c2, u2)
  {
  }
}
