/**
 * The event classifier: it remembers the last stable weight and, when a new
 * stable weight departs from it by more than the noise threshold, reports the
 * change as a refill (weight went up) or a serving (weight went down).
 */
module EventClassifier {
  import opened Wrappers
  import opened Reals
  import opened StabilityWindow

  /**
   * The inventory actions. Only `Served` and `Refilled` are derived by the
   * classifier; the other four are declared for callers that emit them.
   */
  datatype Action = Served | RanOut | Refilled | Starting | Heartbeat | Offline

  /** An emitted action with the weight change that caused it. */
  datatype Event = Event(action: Action, delta: real)

  /** What one classification step yields: an optional event and the new baseline. */
  datatype Verdict = Verdict(event: Option<Event>, baseline: Option<real>)

  /**
   * One step of the classifier on window `w`, given the remembered baseline.
   * An unstable window changes nothing. A stable window always moves the
   * baseline to its newest reading; when a baseline was already set and the
   * newest reading differs from it by more than `maxNoise`, the difference is
   * reported.
   */
  function Classify(w: seq<real>, cap: nat, maxNoise: real, baseline: Option<real>): (v: Verdict)
    requires 0 < cap
    ensures !StableWindow(w, cap, maxNoise) ==> v == Verdict(None, baseline)
    ensures v.event.Some? ==> baseline.Some? && v.event.value.action in {Served, Refilled}
  {
    if !StableWindow(w, cap, maxNoise) then Verdict(None, baseline)
    else
      var last := w[|w| - 1];
      match baseline
      case None => Verdict(None, Some(last))
      case Some(b) =>
        var delta := last - b;
        if Abs(delta) > maxNoise then
          Verdict(Some(Event(if delta > 0.0 then Refilled else Served, delta)), Some(last))
        else Verdict(None, Some(last))
  }

  /** The first stable observation sets the baseline to the newest reading and is never an event. */
  lemma FirstStableSetsBaseline(w: seq<real>, cap: nat, maxNoise: real)
    requires 0 < cap && StableWindow(w, cap, maxNoise)
    ensures Classify(w, cap, maxNoise, None) == Verdict(None, Some(w[|w| - 1]))
  {
  }

  /**
   * With a baseline `b`, a stable window reports an event exactly when the
   * newest reading is more than `maxNoise` away from `b`; the event carries
   * `delta = last - b` and is a refill exactly when `delta` is positive, a
   * serving otherwise. Either way the baseline becomes the newest reading.
   */
  lemma EventRule(w: seq<real>, cap: nat, maxNoise: real, b: real)
    requires 0 < cap && StableWindow(w, cap, maxNoise)
    ensures var v := Classify(w, cap, maxNoise, Some(b));
            var delta := w[|w| - 1] - b;
            && v.baseline == Some(w[|w| - 1])
            && (v.event.Some? <==> Abs(delta) > maxNoise)
            && (v.event.Some? ==> v.event.value.delta == delta)
            && (v.event.Some? ==> (v.event.value.action == Refilled <==> delta > 0.0))
            && (v.event.Some? ==> (v.event.value.action == Served <==> delta <= 0.0))
  {
  }

  /**
   * An event needs a real change: the newest reading differs from the
   * baseline, and in fact the baseline lies outside the current window (the
   * window's spread is below `maxNoise`, the jump is above it), so the whole
   * window has turned over since the baseline was taken.
   */
  lemma EventBaselineOutsideWindow(w: seq<real>, cap: nat, maxNoise: real, b: real)
    requires 0 < cap
    requires Classify(w, cap, maxNoise, Some(b)).event.Some?
    ensures w[|w| - 1] != b
    ensures b !in w
  {
    var last := w[|w| - 1];
    assert Min(w) <= last <= Max(w) by { assert last in w; }
    assert forall x :: x in w ==> Abs(last - x) < maxNoise;
  }

  /**
   * Classifying the same window twice in a row reports nothing the second
   * time: the first step moved the baseline onto the newest reading.
   */
  lemma RepeatIsQuiet(w: seq<real>, cap: nat, maxNoise: real, baseline: Option<real>)
    requires 0 < cap
    ensures var v := Classify(w, cap, maxNoise, baseline);
            Classify(w, cap, maxNoise, v.baseline) == Verdict(None, v.baseline)
  {
    if StableWindow(w, cap, maxNoise) {
      StableNoisePositive(w, cap, maxNoise);
    }
  }

  /**
   * Example: with capacity 1 and noise 1.0, 100.0 then 100.0
   * reports nothing, then 150.0 reports a refill of 50.0, then 100.0 reports a
   * serving of -50.0.
   */
  lemma ExampleEvents()
    ensures Classify([100.0], 1, 1.0, None) == Verdict(None, Some(100.0))
    ensures Classify([100.0], 1, 1.0, Some(100.0)) == Verdict(None, Some(100.0))
    ensures Classify([150.0], 1, 1.0, Some(100.0)) == Verdict(Some(Event(Refilled, 50.0)), Some(150.0))
    ensures Classify([100.0], 1, 1.0, Some(150.0)) == Verdict(Some(Event(Served, -50.0)), Some(100.0))
  {
  }
}
