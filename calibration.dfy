/**
 * Per-scale calibration parameters and the linear map from a raw voltage
 * ratio to a calibrated weight, `raw * gain - offset`.
 */
module Calibration {
  import opened Wrappers
  import opened Errors

  /** The parts of the scale's configuration that the core reads. */
  datatype Config = Config(gain: real, offset: real, bufferLength: nat, maxNoise: real)

  function Calibrate(c: Config, raw: real): (w: real)
    ensures c.gain != 0.0 ==> (w + c.offset) / c.gain == raw
  {
    raw * c.gain - c.offset
  }

  /** Recovers the raw ratio from a calibrated weight; defined when the gain is not zero. */
  function Uncalibrate(c: Config, w: real): (raw: real)
    requires c.gain != 0.0
  {
    (w + c.offset) / c.gain
  }

  /**
   * With a non-zero gain every weight is reached: `Uncalibrate` gives the raw
   * ratio that calibrates to it. (`Calibrate`'s own contract gives the other
   * direction: the raw ratio can be recovered from its weight.)
   */
  lemma UncalibrateRoundTrip(c: Config, w: real)
    requires c.gain != 0.0
    ensures Calibrate(c, Uncalibrate(c, w)) == w
  {
    calc {
      Calibrate(c, Uncalibrate(c, w));
      (w + c.offset) / c.gain * c.gain - c.offset;
      w + c.offset - c.offset;
    }
  }

  /**
   * One calibrated reading from the result of one sensor read: a fault passes
   * through unchanged, a ratio is calibrated. Also the map that turns the settle
   * loop's result into a weight.
   */
  function Reading(c: Config, raw: Result<real, Error>): (r: Result<real, Error>)
    ensures r.Err? <==> raw.Err?
    ensures raw.Err? ==> r.error == raw.error
    ensures raw.Ok? && c.gain != 0.0 ==> Uncalibrate(c, r.value) == raw.value
  {
    match raw
    case Err(e) => Err(e)
    case Ok(v) => Ok(Calibrate(c, v))
  }

  /** The stream of calibrated readings a sensor stream yields, read by read. */
  function CalibratedStream(c: Config, sensor: nat -> Result<real, Error>): (stream: nat -> Result<real, Error>) {
    (i: nat) => Reading(c, sensor(i))
  }
}
