/**
 * Settle-and-measure: a convergence loop over a stream of readings. It keeps a
 * baseline and counts consecutive readings that fall strictly within the
 * relative band `|ratio * baseline|` of it; a reading outside the band becomes
 * the new baseline and resets the count. It succeeds with the baseline once
 * the count reaches the required number, and fails with `Timeout` when the
 * elapsed time, checked after every iteration, exceeds the deadline.
 *
 * The sensor is a stream: `stream(0)` is the read taken before the loop, and
 * iteration `k` (counting from 0) reads `stream(k + 1)`. Time is abstract:
 * iteration `k` lasts `dur(k)` ticks, at least one, covering the read and the
 * sleep. The clock starts before the initial read, so `dur(0)` covers it too.
 */
module SettleMeasure {
  import opened Wrappers
  import opened Reals
  import opened Errors

  /** A positive duration in abstract clock ticks. */
  type Tick = n: nat | 0 < n witness 1

  /** Ticks elapsed after the first `n` iterations. */
  function Elapsed(dur: nat -> Tick, n: nat): (t: nat)
    ensures n <= t
  {
    if n == 0 then 0 else Elapsed(dur, n - 1) + dur(n - 1)
  }

  /** Elapsed time never goes backwards. */
  lemma {:induction false} ElapsedMonotone(dur: nat -> Tick, m: nat, n: nat)
    requires m <= n
    ensures Elapsed(dur, m) <= Elapsed(dur, n)
    decreases n - m
  {
    if m < n {
      ElapsedMonotone(dur, m, n - 1);
    }
  }

  /** A reading is within the band of a baseline when it is strictly closer than `|ratio * baseline|`. */
  predicate Within(x: real, baseline: real, ratio: real)
    ensures Within(x, baseline, ratio) ==> baseline != 0.0 && ratio != 0.0
  {
    Abs(x - baseline) < Abs(ratio * baseline)
  }

  /** The loop's state: consecutive in-band readings so far, and the baseline. */
  datatype Progress = Progress(count: nat, baseline: real)

  /** One reading's effect: in band extends the run, out of band re-baselines on it. */
  function Step(p: Progress, x: real, ratio: real): Progress {
    if Within(x, p.baseline, ratio) then Progress(p.count + 1, p.baseline) else Progress(0, x)
  }

  /**
   * The loop from iteration `k` on, in state `p`. A read fault ends it with
   * that fault; the deadline is checked after each reading has been taken into
   * account, so even the reading that completes the run is lost if it comes late.
   */
  function Run(stream: nat -> Result<real, Error>, dur: nat -> Tick, required: nat, timeout: nat,
               ratio: real, k: nat, p: Progress): (r: Result<real, Error>)
    requires Elapsed(dur, k) <= timeout
    ensures r.Err? ==> r.error == Timeout || exists i :: k < i && stream(i) == Err(r.error)
    decreases timeout - Elapsed(dur, k)
  {
    if required <= p.count then Ok(p.baseline)
    else match stream(k + 1)
      case Err(e) => Err(e)
      case Ok(x) =>
        if Elapsed(dur, k + 1) > timeout then Err(Timeout)
        else Run(stream, dur, required, timeout, ratio, k + 1, Step(p, x, ratio))
  }

  /** The whole settle loop: the first read is the initial baseline. */
  function Settled(stream: nat -> Result<real, Error>, dur: nat -> Tick, required: nat, timeout: nat,
                   ratio: real): (r: Result<real, Error>)
    ensures r.Err? ==> r.error == Timeout || exists i :: stream(i) == Err(r.error)
  {
    match stream(0)
    case Err(e) => Err(e)
    case Ok(x) => Run(stream, dur, required, timeout, ratio, 0, Progress(0, x))
  }

  /**
   * The sensor's answers: a failed read is a sensor fault. `Timeout` is
   * produced only by the loop itself, never by a read.
   */
  ghost predicate SensorFaultsOnly(stream: nat -> Result<real, Error>) {
    forall i :: stream(i).Err? ==> stream(i).error.Phidget?
  }

  /** Reads `0` to `n` all succeeded. */
  ghost predicate ReadsOk(stream: nat -> Result<real, Error>, n: nat) {
    forall i: nat :: i <= n ==> stream(i).Ok?
  }

  /** Read `j` gave `v` and the `n` reads after it all succeeded within the band of `v`. */
  ghost predicate Converged(stream: nat -> Result<real, Error>, j: nat, n: nat, v: real, ratio: real) {
    && stream(j) == Ok(v)
    && forall i :: j < i <= j + n ==> stream(i).Ok? && Within(stream(i).value, v, ratio)
  }

  lemma {:induction false} RunConverged(stream: nat -> Result<real, Error>, dur: nat -> Tick, required: nat,
                                        timeout: nat, ratio: real, k: nat, p: Progress, v: real)
    requires Elapsed(dur, k) <= timeout && ReadsOk(stream, k)
    requires p.count <= k && p.count <= required
    requires Converged(stream, k - p.count, p.count, p.baseline, ratio)
    requires Run(stream, dur, required, timeout, ratio, k, p) == Ok(v)
    ensures exists j: nat :: && Elapsed(dur, j + required) <= timeout
                             && Converged(stream, j, required, v, ratio)
                             && ReadsOk(stream, j + required)
    decreases timeout - Elapsed(dur, k)
  {
    if required <= p.count {
      var j := k - p.count;
      assert Converged(stream, j, required, v, ratio) && j + required == k;
    } else {
      StepKeepsRun(stream, k, p, ratio);
      assert ReadsOk(stream, k + 1) by {
        forall i: nat | i <= k + 1 ensures stream(i).Ok? {
          if i <= k { assert ReadsOk(stream, k); }
        }
      }
      RunConverged(stream, dur, required, timeout, ratio, k + 1, Step(p, stream(k + 1).value, ratio), v);
    }
  }

  /**
   * What the loop state means: the count is the number of consecutive reads,
   * up to read `k`, that lay within the band of the baseline, and the
   * baseline is the read just before them. One step keeps this true of read `k + 1`.
   */
  lemma StepKeepsRun(stream: nat -> Result<real, Error>, k: nat, p: Progress, ratio: real)
    requires p.count <= k && Converged(stream, k - p.count, p.count, p.baseline, ratio)
    requires stream(k + 1).Ok?
    ensures var q := Step(p, stream(k + 1).value, ratio);
            q.count <= k + 1 && Converged(stream, k + 1 - q.count, q.count, q.baseline, ratio)
  {
    var x := stream(k + 1).value;
    if Within(x, p.baseline, ratio) {
      assert k + 1 - (p.count + 1) == k - p.count;
    } else {
      assert Converged(stream, k + 1, 0, x, ratio);
    }
  }

  /**
   * On success with `v`, `v` is a reading the loop took, and the `required`
   * reads right after it, all taken before the deadline, lay strictly within
   * `|ratio * v|` of it; every read up to the last of them succeeded.
   */
  lemma SettledConverged(stream: nat -> Result<real, Error>, dur: nat -> Tick, required: nat, timeout: nat,
                         ratio: real, v: real)
    requires Settled(stream, dur, required, timeout, ratio) == Ok(v)
    ensures exists j: nat :: && Elapsed(dur, j + required) <= timeout
                             && Converged(stream, j, required, v, ratio)
                             && ReadsOk(stream, j + required)
  {
    RunConverged(stream, dur, required, timeout, ratio, 0, Progress(0, stream(0).value), v);
  }

  lemma {:induction false} RunTimeoutIsLate(stream: nat -> Result<real, Error>, dur: nat -> Tick, required: nat,
                                            timeout: nat, ratio: real, k: nat, p: Progress)
    requires SensorFaultsOnly(stream)
    requires Elapsed(dur, k) <= timeout && ReadsOk(stream, k)
    requires Run(stream, dur, required, timeout, ratio, k, p) == Err(Timeout)
    ensures exists n: nat :: timeout < Elapsed(dur, n) && ReadsOk(stream, n)
    decreases timeout - Elapsed(dur, k)
  {
    assert stream(k + 1).Ok?;
    assert ReadsOk(stream, k + 1) by {
      forall i: nat | i <= k + 1 ensures stream(i).Ok? {
        if i <= k { assert ReadsOk(stream, k); }
      }
    }
    if Elapsed(dur, k + 1) <= timeout {
      RunTimeoutIsLate(stream, dur, required, timeout, ratio, k + 1, Step(p, stream(k + 1).value, ratio));
    }
  }

  /**
   * When the sensor's faults are sensor faults, `Timeout` means the deadline
   * was passed: after some iteration `n` the elapsed time exceeded it, and
   * every read up to that iteration's had succeeded.
   */
  lemma SettledTimeoutIsLate(stream: nat -> Result<real, Error>, dur: nat -> Tick, required: nat, timeout: nat,
                             ratio: real)
    requires SensorFaultsOnly(stream)
    requires Settled(stream, dur, required, timeout, ratio) == Err(Timeout)
    ensures exists n: nat :: timeout < Elapsed(dur, n) && ReadsOk(stream, n)
  {
    RunTimeoutIsLate(stream, dur, required, timeout, ratio, 0, Progress(0, stream(0).value));
  }

  /**
   * A fault on the first read is returned as it is; with no samples required
   * the first reading is returned without entering the loop.
   */
  lemma FirstRead(stream: nat -> Result<real, Error>, dur: nat -> Tick, required: nat, timeout: nat, ratio: real)
    ensures stream(0).Err? ==> Settled(stream, dur, required, timeout, ratio) == stream(0)
    ensures stream(0).Ok? && required == 0 ==> Settled(stream, dur, required, timeout, ratio) == stream(0)
  {
  }

  /**
   * How an unfinished iteration ends the loop: a fault on its read is
   * returned at once, and a reading taken after the deadline yields `Timeout`
   * even when it would have completed the run.
   */
  lemma IterationExits(stream: nat -> Result<real, Error>, dur: nat -> Tick, required: nat, timeout: nat,
                       ratio: real, k: nat, p: Progress)
    requires Elapsed(dur, k) <= timeout && p.count < required
    ensures stream(k + 1).Err? ==> Run(stream, dur, required, timeout, ratio, k, p) == stream(k + 1)
    ensures stream(k + 1).Ok? && timeout < Elapsed(dur, k + 1) ==>
              Run(stream, dur, required, timeout, ratio, k, p) == Err(Timeout)
  {
  }

  lemma {:induction false} RunConstant(stream: nat -> Result<real, Error>, dur: nat -> Tick, required: nat,
                                       timeout: nat, ratio: real, c: real, k: nat)
    requires forall i :: stream(i) == Ok(c)
    requires Within(c, c, ratio)
    requires k <= required && Elapsed(dur, required) <= timeout
    ensures Elapsed(dur, k) <= timeout
    ensures Run(stream, dur, required, timeout, ratio, k, Progress(k, c)) == Ok(c)
    decreases required - k
  {
    ElapsedMonotone(dur, k, required);
    if k < required {
      ElapsedMonotone(dur, k + 1, required);
      RunConstant(stream, dur, required, timeout, ratio, c, k + 1);
    }
  }

  /**
   * A sensor that keeps returning the same non-zero value `c`, with a non-zero
   * ratio, settles on `c` after exactly `required` further reads, provided the
   * deadline is not passed by then.
   */
  lemma ConstantSettles(stream: nat -> Result<real, Error>, dur: nat -> Tick, required: nat, timeout: nat,
                        ratio: real, c: real)
    requires forall i :: stream(i) == Ok(c)
    requires c != 0.0 && ratio != 0.0
    requires Elapsed(dur, required) <= timeout
    ensures Settled(stream, dur, required, timeout, ratio) == Ok(c)
  {
    assert Within(c, c, ratio);
    RunConstant(stream, dur, required, timeout, ratio, c, 0);
  }

  /** Read `i + 1` is out of the band of read `i`. */
  predicate Jumps(stream: nat -> Result<real, Error>, i: nat, ratio: real)
    requires stream(i).Ok? && stream(i + 1).Ok?
  {
    !Within(stream(i + 1).value, stream(i).value, ratio)
  }

  lemma {:induction false} RunDiverges(stream: nat -> Result<real, Error>, dur: nat -> Tick, required: nat,
                                       timeout: nat, ratio: real, k: nat)
    requires forall i :: stream(i).Ok?
    requires forall i: nat :: Jumps(stream, i, ratio)
    requires 0 < required && Elapsed(dur, k) <= timeout
    ensures Run(stream, dur, required, timeout, ratio, k, Progress(0, stream(k).value)) == Err(Timeout)
    decreases timeout - Elapsed(dur, k)
  {
    assert Jumps(stream, k, ratio);
    if Elapsed(dur, k + 1) <= timeout {
      RunDiverges(stream, dur, required, timeout, ratio, k + 1);
    }
  }

  /**
   * A sensor whose every reading leaves the band of the one before (for
   * instance one that rises faster than the band allows) never settles: the
   * loop re-baselines on every read and ends with `Timeout`.
   */
  lemma DivergingTimesOut(stream: nat -> Result<real, Error>, dur: nat -> Tick, required: nat, timeout: nat,
                          ratio: real)
    requires forall i :: stream(i).Ok?
    requires forall i: nat :: Jumps(stream, i, ratio)
    requires 0 < required
    ensures Settled(stream, dur, required, timeout, ratio) == Err(Timeout)
  {
    RunDiverges(stream, dur, required, timeout, ratio, 0);
  }

  /**
   * The band is relative to the baseline, so a baseline of exactly zero has an
   * empty band: a sensor that reads a steady 0.0 never settles and times out.
   */
  lemma ZeroNeverSettles(stream: nat -> Result<real, Error>, dur: nat -> Tick, required: nat, timeout: nat,
                         ratio: real)
    requires forall i :: stream(i) == Ok(0.0)
    requires 0 < required
    ensures Settled(stream, dur, required, timeout, ratio) == Err(Timeout)
  {
    forall i: nat ensures Jumps(stream, i, ratio) {
      assert stream(i) == Ok(0.0) && stream(i + 1) == Ok(0.0);
    }
    DivergingTimesOut(stream, dur, required, timeout, ratio);
  }
}
