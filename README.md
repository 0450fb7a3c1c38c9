# Load-cell scale: sampling and stability engine

A Dafny model of the sampling-and-stability engine of a load-cell scale driver
(`src/scale.rs`). The driver turns a raw voltage ratio from the sensor into a
calibrated weight (`raw * gain - offset`). It keeps a rolling window of the
newest `buffer_length` weights and calls the window stable when it is full and
its spread is strictly below `max_noise`. It tags every polled weight with that
verdict. When a new stable weight departs from the last stable weight by more
than `max_noise`, it reports the change as `Refilled` or `Served`. A separate
blocking loop, settle-and-measure, waits until a run of readings stays within
a band relative to a baseline and then returns that baseline.

Modules, one per component:

- `Wrappers` (`wrappers.dfy`): `Option` and `Result`. `Result` works with `:-`, which stands in for Rust's `?`.
- `Errors` (`errors.dfy`): the error type. `Phidget` is a sensor fault and `Timeout` is the settle loop's deadline.
- `Reals` (`reals.dfy`): `Abs`.
- `Calibration` (`calibration.dfy`): the configuration, the linear calibration and its inverse, and the calibrated reading of one sensor answer.
- `StabilityWindow` (`window.dfy`): the window as a value. It defines `Max`, `Min`, the stability predicate, `Push` (the source's `update_buffer`) and the reference definition `Newest` (the newest `n` readings of a history).
- `EventClassifier` (`classifier.dfy`): `Action` and `Classify`, the specification of `check_for_action`, with lemmas about it.
- `SettleMeasure` (`settle.dfy`): the settle loop as a function over a stream of readings and an abstract clock, with its convergence, timeout and fault properties.
- `Scales` (`scale.dfy`): `Weight` and the class `Scale`. The class holds the calibration, the window (a `seq`), the baseline and a ghost history of every pushed reading. Its methods update them in place, as the source's `&mut self` methods do. `Valid()` keeps the window within capacity and equal to the newest `buffer_length` readings of the history.

The sensor channel is not an object in the model. `GetWeight` receives the
channel's answer to its one read: a ratio or a fault. The settle loop receives
a stream `sensor: nat -> Result<real, Error>`. `sensor(0)` is the read taken
before the loop, and iteration `k` (counting from 0) reads `sensor(k + 1)`.
The channel's failed reads become `Phidget` faults (`src/scale.rs:105`), which
`SensorFaultsOnly` states; the type alone would let a read answer `Timeout`.
Wall-clock time becomes an abstract clock: iteration `k` lasts `dur(k) >= 1`
ticks, covering the read and the sleep, and the elapsed time is the sum. The
clock starts before the initial read (`src/scale.rs:172-174`), so `dur(0)` also
covers that read. Readings are mathematical reals.

The settle loop follows the code as written. Its name says
`raw_read_once_settled` settles on raw ratios, but the code calls the calibrated
`get_reading` (`src/scale.rs:174`, `src/scale.rs:176`), and
`weigh_once_settled` then calibrates the result again (`src/scale.rs:197`).
The model keeps both calibrations; see Findings.

The relative band also means that a baseline of exactly 0.0 has an empty band.
A sensor that reads a steady 0.0 therefore never settles (`ZeroNeverSettles`).

## Model

| member | source | states |
|---|---|---|
| `Calibration.Calibrate` | src/scale.rs:109 | The calibration `raw * gain - offset`. With a non-zero gain, `(w + offset) / gain` gives back the raw ratio. |
| `Calibration.Reading` | src/scale.rs:107-110 | A sensor fault is passed on unchanged. A ratio becomes `raw * gain - offset`, from which the ratio can be recovered when the gain is not zero. |
| `Calibration.UncalibrateRoundTrip` | src/scale.rs:109 | With a non-zero gain, every weight is the calibration of some raw ratio, the one `Uncalibrate` gives. `Calibrate`'s own contract states the other direction. |
| `StabilityWindow.Max` | src/scale.rs:123-126 | The fold with `max` yields an element of the window that is at least every element. |
| `StabilityWindow.Min` | src/scale.rs:127-130 | The fold with `min` yields an element of the window that is at most every element. |
| `StabilityWindow.Newest` | src/scale.rs:111-118 | The reference window: the last `min(n, len)` elements of a history, in order. |
| `StabilityWindow.Push` | src/scale.rs:111-118 | One `update_buffer` step equals the newest `cap` of window plus value. Length grows by one below capacity and stays `cap` at capacity. The new value is last. |
| `StabilityWindow.NewestAppend` | src/scale.rs:111-118 | FIFO: taking the newest `n` and then appending gives the same window as appending to the whole history. |
| `StabilityWindow.PushAll` | src/scale.rs:111-118 | Any sequence of pushes keeps the window within capacity. |
| `StabilityWindow.PushAllIsNewest` | src/scale.rs:111-118 | After any sequence of pushes the window is exactly the newest `cap` readings pushed, oldest first. |
| `StabilityWindow.StableWindow` | src/scale.rs:119-132 | Definition of `is_stable` on a window: exactly full, and `max - min < max_noise`. Its contract says it is false whenever the length differs from the capacity. `StableIffPairwise` characterises it fully. |
| `StabilityWindow.StableIffPairwise` | src/scale.rs:119-132 | The window is stable iff it is exactly full and every two readings differ by strictly less than `max_noise`. A spread equal to `max_noise` is not stable. |
| `StabilityWindow.StableNoisePositive` | src/scale.rs:131 | A stable non-empty window implies `max_noise > 0`. |
| `StabilityWindow.ExamplePushes` | src/scale.rs:111-118 | Capacity 3: pushing 10.0, 10.2, 10.9 fills the window in order. Pushing 12.0 next evicts 10.0 and leaves [10.2, 10.9, 12.0]. |
| `StabilityWindow.ExampleStability` | src/scale.rs:119-132 | Noise 1.0: [10.0, 10.2, 10.9] (spread 0.9) is stable; [10.2, 10.9, 12.0] (spread 1.8) is not. |
| `EventClassifier.Classify` | src/scale.rs:142-163 | Definition of one `check_for_action` step, giving the event and the new baseline. Its contract says an unstable window yields no event and keeps the baseline. It also says an event needs a baseline and is only ever `Served` or `Refilled`, never `RanOut`, `Starting`, `Heartbeat` or `Offline`. `EventRule`, `FirstStableSetsBaseline`, `RepeatIsQuiet` and `EventBaselineOutsideWindow` state the rest. |
| `EventClassifier.FirstStableSetsBaseline` | src/scale.rs:144-160 | With no baseline, a stable window sets it to the newest reading and reports nothing. |
| `EventClassifier.EventRule` | src/scale.rs:146-160 | With baseline `b`, an event is reported iff `abs(last - b) > max_noise`. Its delta is `last - b`. It is `Refilled` iff the delta is positive, else `Served`. The baseline becomes `last` either way. |
| `EventClassifier.EventBaselineOutsideWindow` | src/scale.rs:142-158 | When an event fires, the baseline differs from the newest reading and lies outside the current window. |
| `EventClassifier.RepeatIsQuiet` | src/scale.rs:142-162 | Classifying the same window a second time reports nothing. |
| `EventClassifier.ExampleEvents` | src/scale.rs:142-163 | With noise 1.0: 100 then 100 is quiet, 100 then 150 is `Refilled` 50, and 150 then 100 is `Served` -50. |
| `SettleMeasure.Elapsed` | src/scale.rs:184-185 | After `n` iterations at least `n` ticks have passed. |
| `SettleMeasure.ElapsedMonotone` | src/scale.rs:184-185 | Elapsed time never decreases. |
| `SettleMeasure.StepKeepsRun` | src/scale.rs:177-183 | One loop step (`Step`, the definition of the counter update) keeps the loop's meaning: the count is the number of consecutive in-band reads up to the current one, and the baseline is the read just before them. |
| `SettleMeasure.Within` | src/scale.rs:177-178 | The band test `abs(x - baseline) < abs(ratio * baseline)`. It can hold only for a non-zero baseline and ratio. |
| `SettleMeasure.Run` | src/scale.rs:175-189 | Definition of the loop from iteration `k` on: it stops with the baseline once the count is reached, with the fault of the read, or with `Timeout` after a late iteration. Any error it returns is `Timeout` or a fault read at or after iteration `k`. |
| `SettleMeasure.Settled` | src/scale.rs:171-189 | Definition of the whole loop from the initial read. Any error it returns is `Timeout` or a fault the sensor reported. `SettledConverged` gives the meaning of `Ok`, `SettledTimeoutIsLate` the meaning of `Timeout`, and `ConstantSettles` and `DivergingTimesOut` give outcomes for given streams. |
| `SettleMeasure.SettledConverged` | src/scale.rs:171-189 | On `Ok(v)`, some read `j` gave `v`. The `stable_samples` reads after it all lay strictly within `abs(ratio * v)` of `v`. The last of them (read `j + stable_samples`) came before the deadline: `Elapsed(j + stable_samples) <= timeout`. Every read up to and including that last one succeeded. |
| `SettleMeasure.SettledTimeoutIsLate` | src/scale.rs:171-189 | If the sensor's failed reads are all sensor faults, as `map_err(Error::Phidget)` makes them, then `Err(Timeout)` means the deadline was passed. After some iteration `n`, `timeout < Elapsed(n)`, and every read up to read `n` succeeded. |
| `SettleMeasure.FirstRead` | src/scale.rs:174-175 | A fault on the first read is returned as is. With `stable_samples = 0` the first reading is returned without looping. |
| `SettleMeasure.IterationExits` | src/scale.rs:175-187 | Within an unfinished loop, a read fault is returned at once. A reading taken after the deadline yields `Timeout`, even if it completes the run. |
| `SettleMeasure.ConstantSettles` | src/scale.rs:171-189 | A steady non-zero reading with a non-zero ratio settles on itself if `stable_samples` iterations fit before the deadline. |
| `SettleMeasure.DivergingTimesOut` | src/scale.rs:175-187 | If every reading is out of band of the one before, the loop ends in `Timeout`. |
| `SettleMeasure.ZeroNeverSettles` | src/scale.rs:177-178 | A steady reading of 0.0 has an empty band and always times out. |
| `Scales.Weight.Amount` | src/scale.rs:232-237 | The amount is the value carried by either tag. |
| `Scales.Scale.constructor` | src/scale.rs:82-89 | A connected scale starts with an empty window and no baseline. |
| `Scales.Scale.Restart` | src/scale.rs:91-100 | If close or open fails, that error is returned and nothing changes. If both succeed, the window and baseline are cleared and the scale is not stable. |
| `Scales.Scale.UpdateBuffer` | src/scale.rs:111-118 | Appends below capacity, otherwise drops index 0 then appends. The window stays the newest `buffer_length` of the history. |
| `Scales.Scale.IsStable` | src/scale.rs:119-122 | Stable only when the window length equals `buffer_length`. |
| `Scales.Scale.GetWeight` | src/scale.rs:133-141 | A fault is returned with the window untouched. Otherwise the calibrated reading is pushed and returned itself, tagged `Stable` iff the window is stable after the push. The baseline is untouched. |
| `Scales.Scale.CheckForAction` | src/scale.rs:142-163 | The event and the new baseline are those of `Classify` on the window and old baseline. The window is never modified. |
| `Scales.Scale.RawReadOnceSettled` | src/scale.rs:171-190 | The loop returns exactly `Settled` on the calibrated stream: read `k` is the calibration of the sensor's answer `k` (`CalibratedStream`), so the loop settles on calibrated readings. |
| `Scales.CalibratedTimeoutIsLate` | src/scale.rs:103-110 | Calibration passes faults through. So when the channel reports only sensor faults, `Timeout` from the loop over calibrated reads means the deadline was passed after reads that all succeeded. |
| `Scales.Scale.WeighOnceSettled` | src/scale.rs:191-198 | The settled result is mapped through `* gain - offset`. |
| `Scales.IntendedWeighOnceSettled` | src/scale.rs:191-198 | Corrected weighing: settles on raw ratios and calibrates once. On success it returns the calibration of a ratio `v` from some read `j`. The `stable_samples` reads after `j` lay in `v`'s band, all before the deadline, and every read up to the last of them succeeded. |
| `Scales.IntendedWeighsSteadyRatio` | src/scale.rs:191-198 | The corrected weighing of a steady ratio `raw` is `raw * gain - offset`. |
| `Scales.AsWrittenCalibratesTwice` | src/scale.rs:171-198 | As written, a steady ratio `raw` weighs as the calibration applied twice. |
| `Scales.DoubleCalibrationExample` | src/scale.rs:171-198 | Gain 2, offset 0, steady ratio 1.0: the code returns 4.0 where the weight is 2.0. |

## Left out

- Opening, configuring and closing the sensor channel (`Scale::new`, the channel part of `restart`, `disconnect`), and USB enumeration. This is foreign hardware I/O. The channel's answers are parameters of the operations.
- Loading the configuration from a file. The calibration is a given `Config` value.
- `sleep`, `Instant` and logging. Time is an abstract tick counter, and the sleeps in `new` and `restart` have no effect on the state.
- The `Display` implementations, including the float-to-integer cast.
- IEEE-754 behaviour: NaN, infinities and rounding. Readings are reals, so the empty window's infinite fold seeds become the case `w == []` of `StableWindow`.
- The error variants that do not concern this core (`Reqwest`, `SerdeJson`, `Menu`, `Initialization`, `Io`, `Rusb`, `ParseInt`). A sensor fault is `Phidget(code)` with an opaque code.
- A `buffer_length` of zero. The source would remove from an empty vector and panic, so the constructor requires a positive capacity.
- The model's `Error` adds a `Timeout` case. `src/error.rs:2-19` does not declare one, although `src/scale.rs:186` returns `Error::Timeout`; the model follows the use.
- The trait in `src/scale_trait.rs` and the empty HX711 driver. Neither is part of this model.

## Findings

| source | as written | input that shows it | evidently intended | confidence | as-written member | corrected member |
|---|---|---|---|---|---|---|
| src/scale.rs:171-198 | `raw_read_once_settled` settles on calibrated readings (`get_reading`), and `weigh_once_settled` applies `* gain - offset` to that result again | gain 2.0, offset 0.0, sensor steadily 1.0, 3 samples, ratio 0.1, deadline not reached: result 4.0 | settle on raw ratios and calibrate once, giving 2.0 | likely; not executed | `Scales.AsWrittenCalibratesTwice`, `Scales.DoubleCalibrationExample` (models `Scales.Scale.WeighOnceSettled`) | `Scales.IntendedWeighOnceSettled`, `Scales.IntendedWeighsSteadyRatio` |
