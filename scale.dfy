/**
 * The connected scale: its calibration, the rolling window of calibrated
 * readings and the remembered stable weight, with the polling, classifying,
 * restarting and settling operations that act on them.
 *
 * The sensor channel is not modelled as an object: each operation receives
 * what the channel answered (a raw ratio or a fault) as a parameter, and the
 * settle loop receives the stream of answers it will get.
 */
module Scales {
  import opened Wrappers
  import opened Reals
  import opened Errors
  import opened Calibration
  import opened StabilityWindow
  import opened EventClassifier
  import opened SettleMeasure

  /** One polled weight, tagged with the window's verdict after the poll. */
  datatype Weight = Stable(value: real) | Unstable(value: real) {

    /** The weight itself, whichever the tag. */
    function Amount(): (a: real)
      ensures this == Stable(a) || this == Unstable(a)
    {
      match this
      case Stable(v) => v
      case Unstable(v) => v
    }
  }

  class Scale {
    const config: Config
    /** The rolling window, oldest reading first. */
    var buffer: seq<real>
    /** The classifier's baseline. */
    var lastStable: Option<real>
    /** Every reading pushed since the scale was connected or last restarted. */
    ghost var history: seq<real>

    /** The window never outgrows its capacity and is always the newest readings of the history. */
    ghost predicate Valid()
      reads this
    {
      && 0 < config.bufferLength
      && |buffer| <= config.bufferLength
      && buffer == Newest(history, config.bufferLength)
    }

    /**
     * A freshly connected scale: empty window, no baseline. A capacity of zero
     * is excluded, because the source then removes from an empty vector and panics.
     */
    constructor (config: Config)
      requires 0 < config.bufferLength
      ensures Valid() && this.config == config
      ensures buffer == [] && lastStable == None && history == []
    {
      this.config := config;
      buffer := [];
      lastStable := None;
      history := [];
      new;
      assert Newest([], config.bufferLength) == [];
    }

    /**
     * Resets the history once the channel has been closed and reopened. A
     * failure of either is returned and leaves the window and baseline as they were.
     */
    method Restart(closed: Result<(), Error>, reopened: Result<(), Error>) returns (r: Result<(), Error>)
      requires Valid()
      modifies this`buffer, this`lastStable, this`history
      ensures Valid()
      ensures closed.Err? ==> r == closed
      ensures closed.Ok? && reopened.Err? ==> r == reopened
      ensures r.Err? ==> buffer == old(buffer) && lastStable == old(lastStable) && history == old(history)
      ensures r.Ok? <==> closed.Ok? && reopened.Ok?
      ensures r.Ok? ==> buffer == [] && lastStable == None && history == [] && !IsStable()
    {
      var _ :- closed;
      var _ :- reopened;
      buffer := [];
      lastStable := None;
      history := [];
      r := Ok(());
    }

    /** Pushes a reading: appends below capacity, otherwise drops the oldest first. */
    method UpdateBuffer(weight: real)
      requires Valid()
      modifies this`buffer, this`history
      ensures Valid()
      ensures history == old(history) + [weight]
      ensures buffer == Push(old(buffer), config.bufferLength, weight)
      ensures |old(buffer)| < config.bufferLength ==> buffer == old(buffer) + [weight]
      ensures |old(buffer)| == config.bufferLength ==> buffer == old(buffer)[1..] + [weight]
    {
      if |buffer| < config.bufferLength {
        buffer := buffer + [weight];
      } else {
        buffer := buffer[1..];
        buffer := buffer + [weight];
      }
      history := history + [weight];
      NewestAppend(old(history), [weight], config.bufferLength);
    }

    /** Whether the window is full and its spread is below the noise threshold. */
    function IsStable(): (r: bool)
      reads this
      ensures r ==> |buffer| == config.bufferLength
    {
      StableWindow(buffer, config.bufferLength, config.maxNoise)
    }

    /**
     * Polls once: calibrates the channel's answer, pushes it and returns that
     * same reading tagged with the window's verdict. A fault is returned
     * before anything is pushed.
     */
    method GetWeight(raw: Result<real, Error>) returns (r: Result<Weight, Error>)
      requires Valid()
      modifies this`buffer, this`history
      ensures Valid() && lastStable == old(lastStable)
      ensures raw.Err? ==> r == Err(raw.error) && buffer == old(buffer) && history == old(history)
      ensures raw.Ok? ==>
                var x := Calibrate(config, raw.value);
                && history == old(history) + [x]
                && buffer == Push(old(buffer), config.bufferLength, x)
                && r.Ok? && r.value.Amount() == x
                && (r.value.Stable? <==> IsStable())
    {
      var reading :- Reading(config, raw);
      UpdateBuffer(reading);
      if IsStable() {
        r := Ok(Stable(reading));
      } else {
        r := Ok(Unstable(reading));
      }
    }

    /**
     * Runs the classifier on the current window; only the baseline changes.
     */
    method CheckForAction() returns (r: Option<Event>)
      requires Valid()
      modifies this`lastStable
      ensures Valid()
      ensures Verdict(r, lastStable) == Classify(buffer, config.bufferLength, config.maxNoise, old(lastStable))
    {
      ghost var verdict := Classify(buffer, config.bufferLength, config.maxNoise, lastStable);
      if IsStable() {
        var last := buffer[|buffer| - 1];
        if lastStable.Some? {
          var delta := last - lastStable.value;
          if Abs(delta) > config.maxNoise {
            lastStable := Some(last);
            var action := if delta > 0.0 then Refilled else Served;
            assert verdict == Verdict(Some(Event(action, delta)), lastStable);
            return Some(Event(action, delta));
          }
        }
        lastStable := Some(last);
        assert verdict == Verdict(None, lastStable);
      } else {
        assert verdict == Verdict(None, lastStable);
      }
      return None;
    }

    /**
     * The settle loop as the source writes it: despite its name it settles on
     * calibrated readings. `sensor(k)` is the channel's answer to read `k`,
     * `dur(i)` the length of iteration `i`.
     */
    method RawReadOnceSettled(sensor: nat -> Result<real, Error>, dur: nat -> Tick, stableSamples: nat,
                              timeout: nat, maxNoiseRatio: real) returns (r: Result<real, Error>)
      ensures r == Settled(CalibratedStream(config, sensor), dur, stableSamples, timeout, maxNoiseRatio)
    {
      ghost var stream := CalibratedStream(config, sensor);
      var elapsed := 0;
      var k := 0;
      var stableCount := 0;
      var startingReading :- Reading(config, sensor(0));
      while stableCount < stableSamples
        invariant elapsed == Elapsed(dur, k) <= timeout
        invariant Run(stream, dur, stableSamples, timeout, maxNoiseRatio, k, Progress(stableCount, startingReading))
                  == Settled(stream, dur, stableSamples, timeout, maxNoiseRatio)
        decreases timeout - elapsed
      {
        var currReading :- Reading(config, sensor(k + 1));
        var maxNoise := Abs(maxNoiseRatio * startingReading);
        if Abs(currReading - startingReading) < maxNoise {
          stableCount := stableCount + 1;
        } else {
          stableCount := 0;
          startingReading := currReading;
        }
        elapsed := elapsed + dur(k);
        k := k + 1;
        if elapsed > timeout {
          return Err(Timeout);
        }
      }
      return Ok(startingReading);
    }

    /** The settled value mapped through the calibration once more, as the source does. */
    method WeighOnceSettled(sensor: nat -> Result<real, Error>, dur: nat -> Tick, stableSamples: nat,
                            timeout: nat, maxNoiseRatio: real) returns (r: Result<real, Error>)
      ensures r == Reading(config, Settled(CalibratedStream(config, sensor), dur, stableSamples, timeout, maxNoiseRatio))
    {
      var settled := RawReadOnceSettled(sensor, dur, stableSamples, timeout, maxNoiseRatio);
      r := Reading(config, settled);
    }
  }

  /**
   * Calibration passes a read fault through unchanged, so when the channel
   * only reports sensor faults, `Timeout` from `RawReadOnceSettled` means
   * the deadline was passed after reads that all succeeded.
   */
  lemma CalibratedTimeoutIsLate(config: Config, sensor: nat -> Result<real, Error>, dur: nat -> Tick,
                                stableSamples: nat, timeout: nat, maxNoiseRatio: real)
    requires SensorFaultsOnly(sensor)
    requires Settled(CalibratedStream(config, sensor), dur, stableSamples, timeout, maxNoiseRatio) == Err(Timeout)
    ensures exists n: nat :: timeout < Elapsed(dur, n) && ReadsOk(sensor, n)
  {
    var stream := CalibratedStream(config, sensor);
    assert SensorFaultsOnly(stream) by {
      forall i ensures stream(i).Err? ==> stream(i).error.Phidget? {
        assert stream(i) == Reading(config, sensor(i));
      }
    }
    SettledTimeoutIsLate(stream, dur, stableSamples, timeout, maxNoiseRatio);
    var n: nat :| timeout < Elapsed(dur, n) && ReadsOk(stream, n);
    forall i: nat | i <= n ensures sensor(i).Ok? {
      assert stream(i) == Reading(config, sensor(i));
    }
  }

  /**
   * What `weigh_once_settled` evidently means: settle on the raw ratios and
   * calibrate the settled ratio once. On success the weight is the calibration
   * of a ratio the loop read, followed by `stableSamples` reads within its
   * band, all taken before the deadline.
   */
  function IntendedWeighOnceSettled(config: Config, sensor: nat -> Result<real, Error>, dur: nat -> Tick,
                                    stableSamples: nat, timeout: nat, maxNoiseRatio: real): (r: Result<real, Error>)
    ensures r.Ok? ==> exists j: nat, v :: && r.value == Calibrate(config, v)
                                         && Elapsed(dur, j + stableSamples) <= timeout
                                         && Converged(sensor, j, stableSamples, v, maxNoiseRatio)
                                         && ReadsOk(sensor, j + stableSamples)
  {
    var settled := Settled(sensor, dur, stableSamples, timeout, maxNoiseRatio);
    if settled.Ok? then
      SettledConverged(sensor, dur, stableSamples, timeout, maxNoiseRatio, settled.value);
      Reading(config, settled)
    else Reading(config, settled)
  }

  /** The intended version weighs a steady non-zero ratio `raw` as `Calibrate(config, raw)`. */
  lemma IntendedWeighsSteadyRatio(config: Config, sensor: nat -> Result<real, Error>, dur: nat -> Tick,
                                  stableSamples: nat, timeout: nat, maxNoiseRatio: real, raw: real)
    requires forall i :: sensor(i) == Ok(raw)
    requires raw != 0.0 && maxNoiseRatio != 0.0
    requires Elapsed(dur, stableSamples) <= timeout
    ensures IntendedWeighOnceSettled(config, sensor, dur, stableSamples, timeout, maxNoiseRatio)
            == Ok(Calibrate(config, raw))
  {
    ConstantSettles(sensor, dur, stableSamples, timeout, maxNoiseRatio, raw);
  }

  /**
   * As written, `weigh_once_settled` weighs a steady ratio `raw` (whose
   * calibrated value is not zero) as `Calibrate(config, Calibrate(config, raw))`:
   * the calibration is applied twice.
   */
  lemma AsWrittenCalibratesTwice(config: Config, sensor: nat -> Result<real, Error>, dur: nat -> Tick,
                                 stableSamples: nat, timeout: nat, maxNoiseRatio: real, raw: real)
    requires forall i :: sensor(i) == Ok(raw)
    requires Calibrate(config, raw) != 0.0 && maxNoiseRatio != 0.0
    requires Elapsed(dur, stableSamples) <= timeout
    ensures Reading(config, Settled(CalibratedStream(config, sensor), dur, stableSamples, timeout, maxNoiseRatio))
            == Ok(Calibrate(config, Calibrate(config, raw)))
  {
    var stream := CalibratedStream(config, sensor);
    ConstantSettles(stream, dur, stableSamples, timeout, maxNoiseRatio, Calibrate(config, raw));
  }

  /**
   * A concrete case: gain 2, offset 0, a steady ratio of 1.0, three samples
   * required, one tick per iteration and a deadline of ten ticks. The weight
   * is 2.0, but the code as written returns 4.0.
   */
  lemma DoubleCalibrationExample()
    ensures var config := Config(2.0, 0.0, 1, 1.0);
            var sensor := (i: nat) => Ok(1.0);
            var dur := (i: nat) => 1 as Tick;
            && Reading(config, Settled(CalibratedStream(config, sensor), dur, 3, 10, 0.1)) == Ok(4.0)
            && IntendedWeighOnceSettled(config, sensor, dur, 3, 10, 0.1) == Ok(2.0)
  {
    var config := Config(2.0, 0.0, 1, 1.0);
    var sensor := (i: nat) => Ok(1.0);
    var dur := (i: nat) => 1 as Tick;
    assert Elapsed(dur, 3) == 3;
    AsWrittenCalibratesTwice(config, sensor, dur, 3, 10, 0.1, 1.0);
    IntendedWeighsSteadyRatio(config, sensor, dur, 3, 10, 0.1, 1.0);
  }
}
