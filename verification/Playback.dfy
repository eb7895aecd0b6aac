/** The room timeline as a value: the playback state, the server's integer clock arithmetic on it
    and the browser's real-valued arithmetic on it. */
module Playback {
  import opened Basics

  datatype Phase = NoMedia | Loading | Paused | Playing | Buffering | Ended

  datatype PlaybackState = PlaybackState(
    mediaId: string,
    revision: int,
    epoch: int,
    phase: Phase,
    anchorPos: int,
    anchorTime: int,
    rate: real,
    duration: int,
    resumeIntent: Option<Phase>)

  /** How far ahead of the server's clock a start of playback is scheduled. */
  const SCHEDULE_LEAD_MS := 350
  const TIMELINE_JUMP_MS := 1000

  /** Conversion of a float to an int64, which truncates toward zero. */
  function Trunc(x: real): int {
    if x >= 0.0 then x.Floor else -((-x).Floor)
  }

  /** Clamping a position to [0, duration]; a duration of zero means that none is known. */
  function Clamp(p: int, duration: int): int {
    if p < 0 then 0 else if duration > 0 && p > duration then duration else p
  }

  /** How far the timeline runs in `dt` milliseconds. */
  function Span(dt: int, rate: real): real { dt as real * rate }

  /** The server's position of the timeline at `now`. */
  function Expected(s: PlaybackState, now: int): int {
    var p := if s.phase.Playing? && now > s.anchorTime
             then s.anchorPos + Trunc(Span(now - s.anchorTime, s.rate))
             else s.anchorPos;
    Clamp(p, s.duration)
  }

  /** The browser's position of the timeline at a (fractional) server time. */
  function ExpectedPosition(s: PlaybackState, serverNow: real): real {
    ClampReal(UnclampedReal(s, serverNow), s.duration)
  }

  function UnclampedReal(s: PlaybackState, serverNow: real): real {
    if s.phase.Playing? && serverNow > s.anchorTime as real
    then s.anchorPos as real + (serverNow - s.anchorTime as real) * s.rate
    else s.anchorPos as real
  }

  function ClampReal(p: real, duration: int): real {
    MaxReal(0.0, if duration != 0 then MinReal(p, duration as real) else p)
  }

  /** The rates a room may play at, each with the tolerance the server grants. */
  const ROOM_RATES := [0.5, 0.75, 1.0, 1.25, 1.5, 2.0]

  predicate ValidRate(v: real) {
    exists i | 0 <= i < |ROOM_RATES| :: AbsReal(v - ROOM_RATES[i]) < 0.0001
  }

  /** The browser takes a state only when its revision is newer than the last one it took. */
  predicate AcceptRevision(last: int, next: int) {
    next > last
  }

  /** Whether moving from `previous` to `next` is a discontinuity of the timeline. */
  predicate IsTimelineJump(previous: Option<PlaybackState>, next: PlaybackState) {
    if previous.None? || previous.value.mediaId != next.mediaId then true
    else if previous.value.epoch != next.epoch then true
    else if previous.value.phase.Playing? && next.phase.Playing? then false
    else previous.value.phase == next.phase && Abs(previous.value.anchorPos - next.anchorPos) >= TIMELINE_JUMP_MS
  }

  /** What every reachable playback state satisfies. */
  ghost predicate Sane(s: PlaybackState) {
    s.anchorPos >= 0 && s.duration >= 0 && ValidRate(s.rate)
  }

  lemma ValidRateBounds(v: real)
    requires ValidRate(v)
    ensures 0.4999 < v < 2.0001
  {
  }

  lemma UnitRateIsValid()
    ensures ValidRate(1.0)
  {
    assert ROOM_RATES[2] == 1.0;
  }

  // ---------------------------------------------------------------- arithmetic

  lemma FloorMonotone(x: real, y: real)
    requires x <= y
    ensures x.Floor <= y.Floor
  {
  }

  lemma FloorShift(n: int, x: real)
    ensures (n as real + x).Floor == n + x.Floor
  {
    var f := (n as real + x).Floor;
    assert f as real <= n as real + x < (f + 1) as real;
    assert (f - n) as real <= x < (f - n + 1) as real;
  }

  /** Truncation commutes with the clamp to an integral duration. */
  lemma FloorOfClamp(p: real, duration: int)
    requires p >= 0.0 && duration >= 0
    ensures Clamp(p.Floor, duration)
         == ClampReal(p, duration).Floor
  {
    FloorShift(duration, 0.0);
    if p > duration as real {
      FloorMonotone(duration as real, p);
    }
  }

  lemma ClampMonotone(p: int, q: int, duration: int)
    requires p <= q
    ensures 0 <= Clamp(p, duration) || duration < 0
    ensures Clamp(p, duration) <= Clamp(q, duration) <= Clamp(p, duration) + (q - p)
  {
  }

  lemma SpanAdvance(dt0: int, dt1: int, rate: real)
    requires rate >= 0.0 && 0 <= dt0 <= dt1
    ensures 0.0 <= Span(dt0, rate) <= Span(dt1, rate) == Span(dt0, rate) + Span(dt1 - dt0, rate)
  {
    ProductNonNegative(dt0 as real, rate);
    ProductMonotone(dt0 as real, dt1 as real, rate);
    assert (dt1 - dt0) as real == dt1 as real - dt0 as real;
  }

  lemma FloorOfSum(x: real, y: real)
    ensures ((x + y).Floor - x.Floor) as real < y + 1.0
  {
  }

  /** The unclamped position of a state whose rate is not negative. */
  function Unclamped(s: PlaybackState, now: int): int {
    if s.phase.Playing? && now > s.anchorTime
    then s.anchorPos + Span(now - s.anchorTime, s.rate).Floor
    else s.anchorPos
  }

  lemma ExpectedIsClamped(s: PlaybackState, now: int)
    requires s.rate >= 0.0
    ensures Expected(s, now) == Clamp(Unclamped(s, now), s.duration)
  {
    if now > s.anchorTime {
      SpanAdvance(0, now - s.anchorTime, s.rate);
    }
  }

  /** What the unclamped position gains between two instants. */
  lemma UnclampedAdvance(s: PlaybackState, t0: int, t1: int)
    requires s.rate >= 0.0
    requires t0 <= t1
    ensures Unclamped(s, t0) <= Unclamped(s, t1)
    ensures (Unclamped(s, t1) - Unclamped(s, t0)) as real < Span(t1 - t0, s.rate) + 1.0
  {
    SpanAdvance(0, t1 - t0, s.rate);
    if s.phase.Playing? && t1 > s.anchorTime {
      var x1 := Span(t1 - s.anchorTime, s.rate);
      if t0 > s.anchorTime {
        var x0 := Span(t0 - s.anchorTime, s.rate);
        SpanAdvance(t0 - s.anchorTime, t1 - s.anchorTime, s.rate);
        assert t1 - s.anchorTime - (t0 - s.anchorTime) == t1 - t0;
        FloorMonotone(x0, x1);
        FloorOfSum(x0, Span(t1 - t0, s.rate));
      } else {
        SpanAdvance(t1 - s.anchorTime, t1 - t0, s.rate);
      }
    }
  }

  lemma ExpectedIgnoresRevision(s: PlaybackState, revision: int, t: int)
    ensures Expected(s.(revision := revision), t) == Expected(s, t)
  {
  }

  // ---------------------------------------------------------------- theorems

  lemma UnclampedFloor(s: PlaybackState, now: int)
    requires s.rate >= 0.0 && s.anchorPos >= 0
    ensures UnclampedReal(s, now as real) >= 0.0
    ensures Unclamped(s, now) == UnclampedReal(s, now as real).Floor
  {
    FloorShift(s.anchorPos, 0.0);
    if s.phase.Playing? && now > s.anchorTime {
      var dt := (now - s.anchorTime) as real;
      assert now as real - s.anchorTime as real == dt;
      ProductNonNegative(dt, s.rate);
      FloorShift(s.anchorPos, dt * s.rate);
      assert Span(now - s.anchorTime, s.rate) == dt * s.rate;
      assert UnclampedReal(s, now as real) == s.anchorPos as real + dt * s.rate;
    } else {
      assert UnclampedReal(s, now as real) == s.anchorPos as real + 0.0;
    }
  }

  lemma UnclampedRealMonotone(s: PlaybackState, t0: real, t1: real)
    requires s.rate >= 0.0 && t0 <= t1
    ensures UnclampedReal(s, t0) <= UnclampedReal(s, t1)
  {
    var a := s.anchorTime as real;
    if s.phase.Playing? && t1 > a {
      ProductNonNegative(t1 - a, s.rate);
      if t0 > a {
        ProductMonotone(t0 - a, t1 - a, s.rate);
      }
    }
  }

  /** The two implementations of the timeline agree: at every server millisecond the server's
      position is the integer part of the browser's. */
  lemma TimelinesAgree(s: PlaybackState, now: int)
    requires Sane(s)
    ensures Expected(s, now) == ExpectedPosition(s, now as real).Floor
  {
    ValidRateBounds(s.rate);
    ExpectedIsClamped(s, now);
    UnclampedFloor(s, now);
    FloorOfClamp(UnclampedReal(s, now as real), s.duration);
  }

  /** The timeline in one formula: from the anchor on it runs at the rate, in whole milliseconds, up to a
      known end; before the anchor, and while it does not play, it stands there. */
  lemma TimelineFormula(s: PlaybackState, now: int)
    requires Sane(s)
    ensures var p := s.anchorPos + (if s.phase == Playing && now >= s.anchorTime
                                    then ((now - s.anchorTime) as real * s.rate).Floor else 0);
      Expected(s, now) == if s.duration > 0 && p > s.duration then s.duration else p
  {
    ValidRateBounds(s.rate);
    ExpectedIsClamped(s, now);
    UnclampedFloor(s, now);
    assert Span(now - s.anchorTime, s.rate) == (now - s.anchorTime) as real * s.rate;
    if now == s.anchorTime {
      assert Span(0, s.rate) == 0.0;
    } else if now > s.anchorTime {
      SpanAdvance(0, now - s.anchorTime, s.rate);
    }
  }

  /** The browser's timeline never runs backwards. */
  lemma ExpectedPositionMonotone(s: PlaybackState, t0: real, t1: real)
    requires Sane(s)
    requires t0 <= t1
    ensures 0.0 <= ExpectedPosition(s, t0) <= ExpectedPosition(s, t1)
  {
    ValidRateBounds(s.rate);
    UnclampedRealMonotone(s, t0, t1);
  }

  /** How far the browser's timeline runs in `dt` milliseconds. */
  function Reach(dt: real, rate: real): real { dt * rate }

  lemma ReachMonotone(dt0: real, dt1: real, rate: real)
    requires rate >= 0.0 && dt0 <= dt1
    ensures Reach(dt0, rate) <= Reach(dt1, rate)
    ensures dt0 >= 0.0 ==> Reach(dt0, rate) >= 0.0
  {
    ProductMonotone(dt0, dt1, rate);
    if dt0 >= 0.0 {
      ProductNonNegative(dt0, rate);
    }
  }

  lemma UnclampedRealAdvance(s: PlaybackState, t0: real, t1: real)
    requires s.rate >= 0.0 && t0 <= t1
    ensures 0.0 <= UnclampedReal(s, t1) - UnclampedReal(s, t0) <= Reach(t1 - t0, s.rate)
    ensures s.phase.Playing? && s.anchorTime as real <= t0 ==>
      UnclampedReal(s, t1) == UnclampedReal(s, t0) + Reach(t1 - t0, s.rate)
  {
    var a := s.anchorTime as real;
    ReachMonotone(0.0, t1 - t0, s.rate);
    if s.phase.Playing? && t1 > a {
      if t0 > a {
        ProductMonotone(t0 - a, t1 - a, s.rate);
      } else {
        ReachMonotone(t1 - a, t1 - t0, s.rate);
      }
    }
  }

  lemma UnclampedRealNonNegative(s: PlaybackState, t: real)
    requires Sane(s)
    ensures UnclampedReal(s, t) >= 0.0
  {
    ValidRateBounds(s.rate);
    UnclampedRealAdvance(s, if t < s.anchorTime as real then t else s.anchorTime as real, t);
  }

  lemma ClampRealContracts(p: real, q: real, duration: int)
    requires p <= q
    ensures 0.0 <= ClampReal(q, duration) - ClampReal(p, duration) <= q - p
  {
  }

  /** Reading the browser's timeline at a wrong time is off by at most the rate times the error. */
  lemma ExpectedPositionContracts(s: PlaybackState, t0: real, t1: real, error: real)
    requires Sane(s) && t0 <= t1 <= t0 + error
    ensures 0.0 <= ExpectedPosition(s, t1) - ExpectedPosition(s, t0) <= Reach(error, s.rate)
  {
    ValidRateBounds(s.rate);
    UnclampedRealAdvance(s, t0, t1);
    ReachMonotone(t1 - t0, error, s.rate);
    ClampRealContracts(UnclampedReal(s, t0), UnclampedReal(s, t1), s.duration);
  }

  /** Between two instants the server's timeline never runs backwards, and it gains less
      than the scaled elapsed time plus the millisecond lost to truncation. */
  lemma ExpectedAdvance(s: PlaybackState, t0: int, t1: int)
    requires Sane(s)
    requires t0 <= t1
    ensures 0 <= Expected(s, t0) <= Expected(s, t1)
    ensures Expected(s, t1) as real < Expected(s, t0) as real + Span(t1 - t0, s.rate) + 1.0
  {
    ValidRateBounds(s.rate);
    ExpectedIsClamped(s, t0);
    ExpectedIsClamped(s, t1);
    UnclampedAdvance(s, t0, t1);
    ClampMonotone(Unclamped(s, t0), Unclamped(s, t1), s.duration);
  }

  /** Re-anchoring a state at its own expected position keeps the position at that instant,
      whatever phase and rate it continues with. */
  lemma ReanchorKeepsPosition(s: PlaybackState, now: int, phase: Phase, rate: real)
    ensures var s' := s.(anchorPos := Expected(s, now), anchorTime := now, phase := phase, rate := rate);
            Expected(s', now) == Expected(s, now)
  {
  }
}
