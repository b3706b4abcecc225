/**
  The clock behind the direction-flipping animation.  Each tick turns a
  timestamp into a progress u through the current direction; when u passes 1 the
  tick only flips the direction and resets the start-time sentinel, otherwise it
  blends with the eased progress.  Versions 2 and 4 keep a bare start time
  (`currTime`); version 5 adds `timeDiff` so that pausing and resuming keeps the
  elapsed time.
*/
module Timeline {
  import opened Geometry
  import opened Easing

  /** `(timestamp - start) / 1000 * speed`: the progress through one direction. */
  function Progress(elapsed: real, speed: real): real
  {
    elapsed / 1000.0 * speed
  }

  /** What a tick does: flip the direction, or blend the snapshots with a weight. */
  datatype Step = Flip | Blend(weight: real)

  /** `Math.min(u, 1)`: progress capped at the end of the leg. */
  function Clamp(u: real): (c: real)
    ensures c <= 1.0
    ensures u <= 1.0 ==> c == u
    ensures u > 1.0 ==> c == 1.0
  {
    if u < 1.0 then u else 1.0
  }

  /**
    The tick's decision at progress u: the weight is computed from the clamped
    progress, then a progress past 1 flips instead of blending.
  */
  function Decide(u: real): (s: Step)
    ensures s.Flip? <==> u > 1.0
    ensures s.Blend? ==> s.weight == Ease(u)
    ensures s.Blend? && 0.0 <= u ==> 0.0 <= s.weight <= 1.0
  {
    var eased := Ease(Clamp(u));
    if u > 1.0 then Flip else Blend(eased)
  }

  /** Versions 2 and 4: a start time of 0 means "not started", and the tick re-anchors it. */
  function Anchor(currTime: real, timestamp: real): real
  {
    if currTime == 0.0 then timestamp else currTime
  }

  /**
    One version-2/4 tick from start time `currTime`: the start time it leaves
    behind (back to the sentinel 0 on a flip) and what it does to the lattice.
  */
  function Tick(currTime: real, timestamp: real, speed: real): (real, Step)
  {
    var start := Anchor(currTime, timestamp);
    var step := Decide(Progress(timestamp - start, speed));
    (if step.Flip? then 0.0 else start, step)
  }

  /**
    The first tick after a flip (or at start-up) re-anchors at its own timestamp,
    so its progress is 0 and it blends with weight 0: the lattice lands exactly on
    the snapshot the new direction starts from.
  */
  lemma FirstTickStartsAtSource(timestamp: real, speed: real)
    ensures Tick(0.0, timestamp, speed) == (timestamp, Blend(0.0))
  {
    ProgressZero(speed);
    DecideZero();
  }

  /**
    An anchored tick keeps its start time while it blends, measures the progress
    from that start, and flips exactly when that progress passes 1, leaving the
    sentinel 0 behind.
  */
  lemma AnchoredTick(currTime: real, timestamp: real, speed: real)
    requires currTime != 0.0
    ensures var (next, step) := Tick(currTime, timestamp, speed);
      step == Decide(Progress(timestamp - currTime, speed)) &&
      (step.Flip? <==> Progress(timestamp - currTime, speed) > 1.0) &&
      next == (if step.Flip? then 0.0 else currTime)
  {
  }

  lemma ProgressZero(speed: real)
    ensures Progress(0.0, speed) == 0.0
  {
  }

  lemma DecideZero()
    ensures Decide(0.0) == Blend(0.0)
  {
    EaseFixedPoints();
  }

  /** Once anchored, the progress grows with the timestamp for a positive speed. */
  lemma ProgressMonotone(start: real, t1: real, t2: real, speed: real)
    requires t1 <= t2 && speed >= 0.0
    ensures Progress(t1 - start, speed) <= Progress(t2 - start, speed)
  {
    var d1, d2 := (t1 - start) / 1000.0, (t2 - start) / 1000.0;
    assert d1 <= d2;
    assert d2 * speed - d1 * speed == (d2 - d1) * speed;
    MulNonneg(d2 - d1, speed);
  }

  /** Version 5's clock: `startTime` (0 = not started) and the last elapsed time `timeDiff`. */
  datatype Clock = Clock(startTime: real, timeDiff: real)

  /**
    The start time a version-5 tick settles on: re-anchor when unset; after a
    pause (negative `timeDiff`) restart so that the elapsed time picks up where
    it stopped; otherwise keep it.
  */
  function Restart(c: Clock, timestamp: real): real
  {
    if c.startTime == 0.0 then timestamp
    else if c.timeDiff < 0.0 then timestamp + c.timeDiff
    else c.startTime
  }

  /**
    One version-5 tick: `timeDiff` becomes the elapsed time since the settled
    start; a flip resets the start to the sentinel 0 and keeps `timeDiff`.
  */
  function ClockTick(c: Clock, timestamp: real, speed: real): (Clock, Step)
  {
    var start := Restart(c, timestamp);
    var diff := timestamp - start;
    var step := Decide(Progress(diff, speed));
    (Clock(if step.Flip? then 0.0 else start, diff), step)
  }

  /** Turning the animation off negates `timeDiff`. */
  function Pause(c: Clock): (r: Clock)
    ensures r.startTime == c.startTime && r.timeDiff == -c.timeDiff
  {
    c.(timeDiff := -c.timeDiff)
  }

  /** A running clock that has started measures the time since its start. */
  lemma RunningTickMeasuresFromStart(c: Clock, timestamp: real, speed: real)
    requires c.startTime != 0.0 && c.timeDiff >= 0.0
    ensures ClockTick(c, timestamp, speed).0.timeDiff == timestamp - c.startTime
  {
  }

  /**
    Pausing after a tick that measured a positive elapsed time D and resuming at
    any later timestamp t: the first tick after resuming measures D again and
    takes the same step, and the start moves to t − D.  (The start the first tick
    settled on must not be the sentinel 0, or the resume would re-anchor.)
  */
  lemma PauseResumeKeepsElapsed(c: Clock, t1: real, t2: real, speed: real)
    requires var (c1, s1) := ClockTick(c, t1, speed); s1.Blend? && c1.timeDiff > 0.0 && c1.startTime != 0.0
    ensures var (c1, s1) := ClockTick(c, t1, speed);
      var (c3, s3) := ClockTick(Pause(c1), t2, speed);
      c3.timeDiff == c1.timeDiff && s3 == s1 && c3.startTime == t2 - c1.timeDiff
  {
  }

  /**
    After resuming, the clock runs on from the resumed elapsed time: a later
    tick at t3 measures D + (t3 − t2), as if the paused interval never happened.
  */
  lemma ResumedClockRunsOn(c1: Clock, t2: real, t3: real, speed: real)
    requires c1.startTime != 0.0 && c1.timeDiff > 0.0
    requires var (c3, s3) := ClockTick(Pause(c1), t2, speed); s3.Blend? && c3.startTime != 0.0
    ensures var (c3, s3) := ClockTick(Pause(c1), t2, speed);
      ClockTick(c3, t3, speed).0.timeDiff == c1.timeDiff + (t3 - t2)
  {
  }

  /**
    Pausing on the tick that anchored the clock (elapsed time exactly 0): the
    negated `timeDiff` is not negative, so resuming does not restart the clock
    and the paused interval is counted as elapsed time.
  */
  lemma PauseOnAnchorTickCountsPause(c1: Clock, t2: real, speed: real)
    requires c1.startTime != 0.0 && c1.timeDiff == 0.0
    ensures ClockTick(Pause(c1), t2, speed).0.timeDiff == t2 - c1.startTime
  {
  }

  /** Version 5 shares the restart rule: the first tick after a flip blends with weight 0. */
  lemma FirstClockTickStartsAtSource(c: Clock, timestamp: real, speed: real)
    requires c.startTime == 0.0
    ensures ClockTick(c, timestamp, speed) == (Clock(timestamp, 0.0), Blend(0.0))
  {
    ProgressZero(speed);
    DecideZero();
  }
}
