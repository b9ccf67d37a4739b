/** `StatEstimator` of `src/common/utils.js`: a rate over a window of
    `(timestamp, cumulative value)` samples that rolls forward. Timestamps,
    values and the estimate are exact reals. */
module Stats {
  import opened Wire

  datatype Sample = Sample(timestamp: real, value: real)

  /** What `add` returns: `undefined`, a rate, or the `Infinity`/`NaN` that a
      zero-length interval gives. */
  datatype Estimate = Undefined | Rate(perSecond: real) | NonFinite

  /** The fields `_start`, `_nextStart` and `_end`. */
  datatype Window = Window(start: Option<Sample>, nextStart: Option<Sample>, end: Option<Sample>)

  const Empty := Window(None, None, None)

  /** The sample passes both of `add`'s guards against the window start. */
  predicate Monotone(start: Sample, s: Sample)
  {
    start.timestamp <= s.timestamp && start.value <= s.value
  }

  /** The rate between two samples: 1000 times the value gained per unit of
      time, or non-finite over an empty interval. */
  function RateBetween(start: Sample, s: Sample): (e: Estimate)
    ensures e.Undefined? == false
    ensures e.NonFinite? <==> s.timestamp == start.timestamp
    ensures e.Rate? ==> e.perSecond * (s.timestamp - start.timestamp) == 1000.0 * (s.value - start.value)
    ensures e.Rate? && Monotone(start, s) ==> e.perSecond >= 0.0
  {
    var interval := s.timestamp - start.timestamp;
    var count := s.value - start.value;
    if interval == 0.0 then NonFinite else Rate(1000.0 * count / interval)
  }

  /** What the fields keep: no pending or latest sample without a window
      start, and a pending sample lies at least a fifth of `maxHistory` after
      the start and is not below it. */
  predicate Consistent(w: Window, maxHistory: real)
  {
    && (w.start.None? ==> w.nextStart.None? && w.end.None?)
    && (w.nextStart.Some? ==> w.start.Some? && Monotone(w.start.value, w.nextStart.value)
                              && w.nextStart.value.timestamp - w.start.value.timestamp >= maxHistory / 5.0)
  }

  /** One call of `add(value, timestamp)` on the fields `w`. */
  function Step(w: Window, maxHistory: real, s: Sample): (r: (Window, Estimate))
    // the first sample only opens the window
    ensures w.start.None? ==> r == (w.(start := Some(s)), Undefined)
    // a sample earlier or smaller than the window start resets everything
    ensures w.start.Some? && !Monotone(w.start.value, s) ==> r == (Empty, Undefined)
    // otherwise: the rate against the window start, and `_end` is this sample
    ensures w.start.Some? && Monotone(w.start.value, s) ==>
              r.1 == RateBetween(w.start.value, s) && r.0.end == Some(s) && r.0.start.Some?
    // the window start only ever moves to the pending sample
    ensures w.start.Some? && Monotone(w.start.value, s) ==>
              r.0.start == w.start || r.0.start == w.nextStart || r.0.start == Some(s)
    ensures Consistent(w, maxHistory) ==> Consistent(r.0, maxHistory)
  {
    match w.start
    case None => (w.(start := Some(s)), Undefined)
    case Some(start) =>
      if start.timestamp > s.timestamp then (Empty, Undefined)
      else if start.value > s.value then (Empty, Undefined)
      else
        var interval := s.timestamp - start.timestamp;
        var estimate := RateBetween(start, s);
        var next := if interval >= maxHistory / 5.0 && w.nextStart.None? then Some(s) else w.nextStart;
        if interval >= maxHistory then (Window(next, None, Some(s)), estimate)
        else (Window(w.start, next, Some(s)), estimate)
  }

  class Estimator {
    const maxHistory: real
    var start: Option<Sample>
    var nextStart: Option<Sample>
    var end: Option<Sample>

    function Fields(): Window
      reads this
    {
      Window(start, nextStart, end)
    }

    constructor (maxHistory: real)
      ensures this.maxHistory == maxHistory && Fields() == Empty
    {
      this.maxHistory := maxHistory;
      start, nextStart, end := None, None, None;
    }

    /** `reset`: all three fields back to `undefined`. */
    method Reset()
      modifies this
      ensures Fields() == Empty
    {
      start := None;
      nextStart := None;
      end := None;
    }

    /** `add`: the fields move as `Step` says and the estimate is its result. */
    method Add(value: real, timestamp: real) returns (r: Estimate)
      modifies this
      ensures (Fields(), r) == Step(old(Fields()), maxHistory, Sample(timestamp, value))
    {
      if start.None? {
        start := Some(Sample(timestamp, value));
        return Undefined;
      }
      end := Some(Sample(timestamp, value));
      if start.value.timestamp > end.value.timestamp {
        Reset();
        return Undefined;
      }
      if start.value.value > end.value.value {
        Reset();
        return Undefined;
      }
      var interval := end.value.timestamp - start.value.timestamp;
      var count := end.value.value - start.value.value;
      var estimate := if interval == 0.0 then NonFinite else Rate(1000.0 * count / interval);
      if interval >= maxHistory / 5.0 && nextStart.None? {
        nextStart := Some(Sample(timestamp, value));
      }
      if interval >= maxHistory {
        start := nextStart;
        nextStart := None;
      }
      return estimate;
    }
  }

  /** Starting from an empty estimator, `(0, 0)` then `(1000, 10)` gives 10 and
      a further `(2000, 20)` gives 10 again. */
  lemma SteadyStream()
    ensures var (w1, e1) := Step(Empty, 5000.0, Sample(0.0, 0.0));
            var (w2, e2) := Step(w1, 5000.0, Sample(1000.0, 10.0));
            var (w3, e3) := Step(w2, 5000.0, Sample(2000.0, 20.0));
            e1 == Undefined && e2 == Rate(10.0) && e3 == Rate(10.0)
  {
  }

  /** With `maxHistory` 1000 and samples at 0, 200, 1000 and 1001, the third
      sample moves the window start to the one at 200, which is the baseline of
      the fourth estimate. */
  lemma WindowRollsForward()
    ensures var (w1, _) := Step(Empty, 1000.0, Sample(0.0, 0.0));
            var (w2, _) := Step(w1, 1000.0, Sample(200.0, 2.0));
            var (w3, e3) := Step(w2, 1000.0, Sample(1000.0, 10.0));
            var (w4, e4) := Step(w3, 1000.0, Sample(1001.0, 12.0));
            && w2.nextStart == Some(Sample(200.0, 2.0))
            && e3 == Rate(10.0)
            && w3.start == Some(Sample(200.0, 2.0)) && w3.nextStart.None?
            && e4 == Rate(1000.0 * 10.0 / 801.0)
  {
  }

  /** A decreasing timestamp (a track restarted on another clock) or a
      decreasing value discards the window; the next sample opens a new one. */
  lemma ResetOnRestart(w: Window, maxHistory: real, s: Sample, s': Sample)
    requires w.start.Some? && (s.timestamp < w.start.value.timestamp || s.value < w.start.value.value)
    ensures Step(w, maxHistory, s) == (Empty, Undefined)
    ensures Step(Step(w, maxHistory, s).0, maxHistory, s') == (Window(Some(s'), None, None), Undefined)
  {
  }

  /** `_nextStart` is taken at the first sample at least `maxHistory / 5` past
      the start and is kept, not overwritten, until the window rolls over. */
  lemma NextStartKept(w: Window, maxHistory: real, s: Sample)
    requires w.start.Some? && Monotone(w.start.value, s)
    requires s.timestamp - w.start.value.timestamp < maxHistory
    ensures w.nextStart.Some? ==> Step(w, maxHistory, s).0.nextStart == w.nextStart
    ensures w.nextStart.None? ==>
              (Step(w, maxHistory, s).0.nextStart == Some(s)
               <==> s.timestamp - w.start.value.timestamp >= maxHistory / 5.0)
    ensures Step(w, maxHistory, s).0.start == w.start
  {
  }

  /** Once the interval reaches `maxHistory` the pending sample, or this one if
      none was pending, becomes the start, and nothing stays pending. */
  lemma RollOver(w: Window, maxHistory: real, s: Sample)
    requires w.start.Some? && Monotone(w.start.value, s)
    requires s.timestamp - w.start.value.timestamp >= maxHistory
    ensures var w' := Step(w, maxHistory, s).0;
            w'.nextStart.None? && w'.start == (if w.nextStart.Some? then w.nextStart else Some(s))
  {
  }
}
