/** The timers that gate a channel switch in src/motion_detector_motion.cpp:
    motion must be present on every detection tick for at least
    motion_detect_min_ms before the channel follows it, and the zoom lingers
    for MOTION_DETECT_LINGER_MS after the last such tick.  Clock readings are
    integer milliseconds handed in with each tick. */
module Dwell {
  import opened Common

  const MotionDetectLingerMs: int := 3000
  const MotionDetectMinMsDefault: int := 1000

  /** One run of detect_largest_motion_area_set_channel: was a region
      selected, and the clock reading `now`. */
  datatype Tick = Tick(detected: bool, now: int)

  /** m_motion_detect_start_set, m_motion_detect_start,
      m_motion_detected_min_ms, m_motion_detect_linger and
      m_motion_detect_linger_start. */
  datatype DwellState = DwellState(startSet: bool, start: int, minMs: bool, linger: bool, lingerStart: int)

  const Initial: DwellState := DwellState(false, 0, false, false, 0)

  /** The state update of one tick (lines 158-213 of the detector). */
  function Step(s: DwellState, t: Tick, minMsParam: int): (s': DwellState)
    ensures !t.detected ==> !s'.startSet && !s'.minMs
    ensures t.detected ==> s'.startSet && s'.start == (if s.startSet then s.start else t.now)
    ensures s'.minMs <==> t.detected && t.now - s'.start >= minMsParam
    ensures s'.minMs ==> s'.linger && s'.lingerStart == t.now
    ensures !s'.minMs ==> (s'.lingerStart == s.lingerStart
                          && (s'.linger <==> s.linger && t.now - s.lingerStart < MotionDetectLingerMs))
  {
    Expire(Detect(s, t, minMsParam), t.now)
  }

  /** The first half of a tick: start or stop the dwell timer and raise the
      linger on a min-ms tick. */
  function Detect(s: DwellState, t: Tick, minMsParam: int): (d: DwellState)
    ensures d.startSet == t.detected
    ensures t.detected ==> d.start == (if s.startSet then s.start else t.now)
    ensures d.minMs <==> t.detected && t.now - d.start >= minMsParam
    ensures d.minMs ==> d.linger && d.lingerStart == t.now
    ensures !d.minMs ==> d.linger == s.linger && d.lingerStart == s.lingerStart
  {
    if t.detected then
      var start := if s.startSet then s.start else t.now;
      var minMs := t.now - start >= minMsParam;
      DwellState(true, start, minMs, minMs || s.linger, if minMs then t.now else s.lingerStart)
    else
      s.(startSet := false, minMs := false)
  }

  /** The second half: a linger older than the timeout ends. */
  function Expire(s: DwellState, now: int): (e: DwellState)
    ensures e.linger <==> s.linger && now - s.lingerStart < MotionDetectLingerMs
    ensures e.(linger := s.linger) == s
  {
    if s.linger && now - s.lingerStart >= MotionDetectLingerMs then s.(linger := false) else s
  }

  /** The state after a sequence of ticks. */
  function Run(s: DwellState, ticks: seq<Tick>, minMsParam: int): DwellState
  {
    if |ticks| == 0 then s else Step(Run(s, ticks[..|ticks| - 1], minMsParam), ticks[|ticks| - 1], minMsParam)
  }

  ghost predicate Monotonic(ticks: seq<Tick>)
  {
    forall i, j :: 0 <= i < j < |ticks| ==> ticks[i].now <= ticks[j].now
  }

  /** First tick of the unbroken run of motion ticks that ends at tick i. */
  function StreakStart(ticks: seq<Tick>, i: nat): (k: nat)
    requires i < |ticks|
    ensures k <= i
    ensures forall j :: k <= j < i ==> ticks[j].detected
    ensures k > 0 ==> !ticks[k - 1].detected
  {
    if i > 0 && ticks[i - 1].detected then StreakStart(ticks, i - 1) else i
  }

  /** Tick i is a motion tick that completes motion_detect_min_ms of
      uninterrupted motion. */
  predicate MinMsAt(ticks: seq<Tick>, i: nat, minMsParam: int)
    requires i < |ticks|
  {
    ticks[i].detected && ticks[i].now - ticks[StreakStart(ticks, i)].now >= minMsParam
  }

  /** The last min-ms tick among the first n. */
  function LastMinMs(ticks: seq<Tick>, n: nat, minMsParam: int): (r: Option<nat>)
    requires n <= |ticks|
    ensures r.Some? ==> r.value < n && MinMsAt(ticks, r.value, minMsParam)
    ensures r.Some? ==> forall j :: r.value < j < n ==> !MinMsAt(ticks, j, minMsParam)
    ensures r.None? ==> forall j :: 0 <= j < n ==> !MinMsAt(ticks, j, minMsParam)
  {
    if n == 0 then None
    else if MinMsAt(ticks, n - 1, minMsParam) then Some(n - 1)
    else LastMinMs(ticks, n - 1, minMsParam)
  }

  /** What the state means after the first n ticks from the initial state:
      start_set tracks the current tick, start is the streak's first clock
      reading, min_ms is MinMsAt, and linger holds exactly when the last
      min-ms tick is less than MOTION_DETECT_LINGER_MS old. */
  ghost predicate Explains(s: DwellState, ticks: seq<Tick>, n: nat, minMsParam: int)
    requires n <= |ticks|
  {
    && (s.startSet <==> n > 0 && ticks[n - 1].detected)
    && (s.startSet ==> s.start == ticks[StreakStart(ticks, n - 1)].now)
    && (s.minMs <==> n > 0 && MinMsAt(ticks, n - 1, minMsParam))
    && (LastMinMs(ticks, n, minMsParam).Some? ==> s.lingerStart == ticks[LastMinMs(ticks, n, minMsParam).value].now)
    && (s.linger <==> (LastMinMs(ticks, n, minMsParam).Some?
                      && ticks[n - 1].now - ticks[LastMinMs(ticks, n, minMsParam).value].now < MotionDetectLingerMs))
  }

  lemma {:induction false} RunExplained(ticks: seq<Tick>, n: nat, minMsParam: int)
    requires n <= |ticks| && Monotonic(ticks)
    ensures Explains(Run(Initial, ticks[..n], minMsParam), ticks, n, minMsParam)
  {
    if n > 0 {
      RunExplained(ticks, n - 1, minMsParam);
      assert ticks[..n][..n - 1] == ticks[..n - 1];
      var prev := Run(Initial, ticks[..n - 1], minMsParam);
      var t := ticks[n - 1];
      var s := Step(prev, t, minMsParam);
      assert s == Run(Initial, ticks[..n], minMsParam);
      if t.detected && n > 1 && ticks[n - 2].detected {
        assert StreakStart(ticks, n - 1) == StreakStart(ticks, n - 2);
      }
      if !MinMsAt(ticks, n - 1, minMsParam) && !prev.linger && LastMinMs(ticks, n - 1, minMsParam).Some? {
        assert ticks[n - 2].now <= t.now;
      }
    }
  }

  /** The channel follows motion only after it has been seen on every tick
      for motion_detect_min_ms: at a min-ms tick, every tick since the
      streak began reported motion, and the streak spans at least that long. */
  lemma MinMsMeansSustainedMotion(ticks: seq<Tick>, minMsParam: int)
    requires |ticks| > 0 && Monotonic(ticks)
    ensures Run(Initial, ticks, minMsParam).minMs ==>
      exists k :: 0 <= k < |ticks| && ticks[|ticks| - 1].now - ticks[k].now >= minMsParam
                  && forall j :: k <= j < |ticks| ==> ticks[j].detected
  {
    RunExplained(ticks, |ticks|, minMsParam);
    assert ticks[..|ticks|] == ticks;
    if Run(Initial, ticks, minMsParam).minMs {
      var k := StreakStart(ticks, |ticks| - 1);
      assert forall j :: k <= j < |ticks| ==> ticks[j].detected;
    }
  }

  /** A tick without motion clears start_set and min_ms, whatever came before. */
  lemma NoMotionResets(s: DwellState, now: int, minMsParam: int)
    ensures !Step(s, Tick(false, now), minMsParam).startSet
    ensures !Step(s, Tick(false, now), minMsParam).minMs
    ensures Step(s, Tick(false, now), minMsParam).linger ==> s.linger
  {
  }

  /** Linger ends: MOTION_DETECT_LINGER_MS after the last min-ms tick, with no
      new one, linger is off. */
  lemma LingerExpires(ticks: seq<Tick>, minMsParam: int)
    requires |ticks| > 0 && Monotonic(ticks)
    ensures var last := LastMinMs(ticks, |ticks|, minMsParam);
      last.Some? && ticks[|ticks| - 1].now - ticks[last.value].now >= MotionDetectLingerMs
      ==> !Run(Initial, ticks, minMsParam).linger
    ensures LastMinMs(ticks, |ticks|, minMsParam).None? ==> !Run(Initial, ticks, minMsParam).linger
  {
    RunExplained(ticks, |ticks|, minMsParam);
    assert ticks[..|ticks|] == ticks;
  }
}
