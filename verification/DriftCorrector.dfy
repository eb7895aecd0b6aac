/** The browser's drift controller: a hysteresis loop that adjusts the playback rate, and seeks only
    after large drift has been confirmed. */
module DriftCorrector {
  import opened Basics
  import opened Playback

  const DRIFT_RELEASE_MS := 220.0
  const SOFT_CORRECTION_THRESHOLD_MS := 420.0
  const HARD_SEEK_THRESHOLD_MS := 2400.0
  const HARD_SEEK_CONFIRM_MS := 1800.0
  const HARD_SEEK_COOLDOWN_MS := 12000.0
  const POST_SEEK_SETTLE_MS := 3500.0
  const SYNC_CHECK_INTERVAL_MS := 750.0

  datatype Correction =
    | Noop(rate: real, drift: real)
    | SpeedUp(rate: real, drift: real)
    | SlowDown(rate: real, drift: real)
    | HardSeek(rate: real, drift: real, target: real)

  /** `since` and `direction` describe the current candidate for a hard seek. */
  datatype Drift = Drift(
    correcting: bool,
    since: Option<real>,
    direction: int,
    lastHardSeekAt: Option<real>,
    holdUntil: real)

  const FRESH := Drift(false, None, 0, None, 0.0)

  function Sign(x: real): int { if x < 0.0 then -1 else if x > 0.0 then 1 else 0 }

  function Forget(d: Drift): Drift { d.(since := None, direction := 0) }

  /** How strongly to correct, between 0 at the release threshold and 1 at the seek threshold. */
  function Scale(magnitude: real): real {
    MinReal(1.0, MaxReal(0.0, (magnitude - DRIFT_RELEASE_MS) / (HARD_SEEK_THRESHOLD_MS - DRIFT_RELEASE_MS)))
  }

  function SpeedUpFactor(magnitude: real): real { 0.008 + Scale(magnitude) * 0.042 }

  function SlowDownFactor(magnitude: real): real { 0.006 + Scale(magnitude) * 0.024 }

  function Soft(drift: real, roomRate: real): Correction {
    if drift < 0.0
    then SpeedUp(roomRate * (1.0 + SpeedUpFactor(AbsReal(drift))), drift)
    else SlowDown(roomRate * (1.0 - SlowDownFactor(AbsReal(drift))), drift)
  }

  /** The candidate after a large drift is seen. */
  function Watch(d: Drift, drift: real, now: real): Drift {
    var d1 := d.(correcting := true);
    if Sign(drift) != d.direction then d1.(direction := Sign(drift), since := Some(now)) else d1
  }

  predicate Ripe(d: Drift, now: real) {
    && d.since.Some? && now - d.since.value >= HARD_SEEK_CONFIRM_MS
    && (d.lastHardSeekAt.Some? ==> now - d.lastHardSeekAt.value >= HARD_SEEK_COOLDOWN_MS)
  }

  function Corrected(d: Drift, expected: real, actual: real, roomRate: real, now: real): (Drift, Correction) {
    var drift := actual - expected;
    var magnitude := AbsReal(drift);
    if now < d.holdUntil then (d, Noop(roomRate, drift))
    else if magnitude <= DRIFT_RELEASE_MS then (Forget(d.(correcting := false)), Noop(roomRate, drift))
    else if !d.correcting && magnitude < SOFT_CORRECTION_THRESHOLD_MS then (Forget(d), Noop(roomRate, drift))
    else if magnitude >= HARD_SEEK_THRESHOLD_MS then
      var watched := Watch(d, drift, now);
      if Ripe(watched, now)
      then (Drift(false, None, 0, Some(now), now + POST_SEEK_SETTLE_MS), HardSeek(roomRate, drift, expected))
      else (watched, Soft(drift, roomRate))
    else (Forget(d.(correcting := true)), Soft(drift, roomRate))
  }

  function Restarted(d: Drift, now: real, settle: real): Drift {
    Forget(d.(correcting := false, holdUntil := MaxReal(d.holdUntil, now + settle)))
  }

  class Corrector {
    var correcting: bool
    var hardCandidateSince: Option<real>
    var hardCandidateDirection: int
    var lastHardSeekAt: Option<real>  // None is minus infinity
    var holdUntil: real

    constructor ()
      ensures View() == FRESH
    {
      correcting, hardCandidateSince, hardCandidateDirection := false, None, 0;
      lastHardSeekAt, holdUntil := None, 0.0;
    }

    ghost function View(): Drift
      reads this
    {
      Drift(correcting, hardCandidateSince, hardCandidateDirection, lastHardSeekAt, holdUntil)
    }

    method ClearHardCandidate()
      modifies this`hardCandidateSince, this`hardCandidateDirection
      ensures View() == Forget(old(View()))
    {
      hardCandidateSince := None;
      hardCandidateDirection := 0;
    }

    method Correct(expectedMs: real, actualMs: real, roomRate: real, nowMs: real) returns (c: Correction)
      modifies this
      ensures (View(), c) == Corrected(old(View()), expectedMs, actualMs, roomRate, nowMs)
    {
      var driftMs := actualMs - expectedMs;
      var absoluteDrift := AbsReal(driftMs);
      if nowMs < holdUntil {
        return Noop(roomRate, driftMs);
      }
      if absoluteDrift <= DRIFT_RELEASE_MS {
        correcting := false;
        ClearHardCandidate();
        return Noop(roomRate, driftMs);
      }
      if !correcting && absoluteDrift < SOFT_CORRECTION_THRESHOLD_MS {
        ClearHardCandidate();
        return Noop(roomRate, driftMs);
      }
      correcting := true;
      if absoluteDrift >= HARD_SEEK_THRESHOLD_MS {
        var direction := Sign(driftMs);
        if direction != hardCandidateDirection {
          hardCandidateDirection := direction;
          hardCandidateSince := Some(nowMs);
        }
        if hardCandidateSince.Some? && nowMs - hardCandidateSince.value >= HARD_SEEK_CONFIRM_MS
           && (lastHardSeekAt.Some? ==> nowMs - lastHardSeekAt.value >= HARD_SEEK_COOLDOWN_MS)
        {
          lastHardSeekAt := Some(nowMs);
          holdUntil := nowMs + POST_SEEK_SETTLE_MS;
          correcting := false;
          ClearHardCandidate();
          return HardSeek(roomRate, driftMs, expectedMs);
        }
      } else {
        ClearHardCandidate();
      }
      var scale := Scale(absoluteDrift);
      if driftMs < 0.0 {
        var factor := 0.008 + scale * 0.042;
        c := SpeedUp(roomRate * (1.0 + factor), driftMs);
        assert c == Soft(driftMs, roomRate);
        return;
      }
      var factor := 0.006 + scale * 0.024;
      c := SlowDown(roomRate * (1.0 - factor), driftMs);
      assert c == Soft(driftMs, roomRate);
    }

    method Reset(nowMs: real, settleMs: real)
      modifies this
      ensures View() == Restarted(old(View()), nowMs, settleMs)
    {
      correcting := false;
      ClearHardCandidate();
      holdUntil := MaxReal(holdUntil, nowMs + settleMs);
    }
  }

  // ---------------------------------------------------------------- what is answered when

  /** How fast a client plays that is `m` milliseconds behind, relative to the room: from 0.8 percent
      faster at 220 ms to 5 percent at 2400 ms and beyond. */
  function CatchUp(m: real): real {
    if m >= 2400.0 then 1.05 else 1.008 + (m - 220.0) / 2180.0 * 0.042
  }

  /** How fast one plays that is `m` milliseconds ahead: from 0.6 percent slower to 3 percent. */
  function HoldBack(m: real): real {
    if m >= 2400.0 then 0.97 else 0.994 - (m - 220.0) / 2180.0 * 0.024
  }

  /** Catching up is always the stronger correction. */
  lemma CatchUpIsStronger(m: real)
    requires m >= 220.0
    ensures CatchUp(m) - 1.0 > 1.0 - HoldBack(m) > 0.0
    ensures 1.008 <= CatchUp(m) <= 1.05 && 0.97 <= HoldBack(m) <= 0.994
  {
  }

  lemma SoftAnswer(x: real, roomRate: real)
    requires AbsReal(x) >= 220.0
    ensures Soft(x, roomRate) ==
      if x < 0.0 then SpeedUp(roomRate * CatchUp(-x), x) else SlowDown(roomRate * HoldBack(x), x)
  {
    var m := AbsReal(x);
    assert Scale(m) == if m >= 2400.0 then 1.0 else (m - 220.0) / 2180.0;
    if x < 0.0 {
      assert 1.0 + SpeedUpFactor(m) == CatchUp(m);
    } else {
      assert 1.0 - SlowDownFactor(m) == HoldBack(m);
    }
  }

  /** Nothing is corrected inside a settle window, within 220 ms, and below 420 ms unless already correcting. */
  predicate Quiet(d: Drift, x: real, now: real) {
    now < d.holdUntil || AbsReal(x) <= 220.0 || (!d.correcting && AbsReal(x) < 420.0)
  }

  /** A seek is due after 1800 ms of at least 2400 ms in this direction, twelve seconds after the last. */
  predicate SeekDue(d: Drift, x: real, now: real) {
    && AbsReal(x) >= 2400.0 && d.direction == (if x < 0.0 then -1 else 1) && d.since.Some? && now - d.since.value >= 1800.0
    && (d.lastHardSeekAt.None? || now - d.lastHardSeekAt.value >= 12000.0)
  }

  /** The answer to every sample. */
  lemma AnswerTable(d: Drift, expected: real, actual: real, roomRate: real, now: real)
    ensures var x := actual - expected;
      Corrected(d, expected, actual, roomRate, now).1 ==
        if Quiet(d, x, now) then Noop(roomRate, x)
        else if SeekDue(d, x, now) then HardSeek(roomRate, x, expected)
        else if x < 0.0 then SpeedUp(roomRate * CatchUp(-x), x)
        else SlowDown(roomRate * HoldBack(x), x)
  {
    if !Quiet(d, actual - expected, now) {
      SoftAnswer(actual - expected, roomRate);
    }
  }

  /** What the controller remembers after it: whether it is correcting, since when it has been far off
      in which direction, and after a seek the seek and a settle window of 3500 ms. */
  lemma MemoryTable(d: Drift, expected: real, actual: real, roomRate: real, now: real)
    ensures var x, d' := actual - expected, Corrected(d, expected, actual, roomRate, now).0;
            var sign := if x < 0.0 then -1 else 1;
      if now < d.holdUntil then d' == d
      else if Quiet(d, x, now) then d' == Drift(false, None, 0, d.lastHardSeekAt, d.holdUntil)
      else if SeekDue(d, x, now) then d' == Drift(false, None, 0, Some(now), now + 3500.0)
      else if AbsReal(x) < 2400.0 then d' == Drift(true, None, 0, d.lastHardSeekAt, d.holdUntil)
      else d' == Drift(true, if d.direction == sign then d.since else Some(now), sign, d.lastHardSeekAt, d.holdUntil)
  {
  }

  /** A reset forgets the correction and the candidate, and never shortens a settle window. */
  lemma RestartTable(d: Drift, now: real, settle: real)
    ensures var d' := Restarted(d, now, settle);
      && d' == Drift(false, None, 0, d.lastHardSeekAt, d'.holdUntil)
      && d'.holdUntil >= d.holdUntil && d'.holdUntil >= now + settle && (d'.holdUntil == d.holdUntil || d'.holdUntil == now + settle)
  {
  }

  // ---------------------------------------------------------------- runs

  datatype Event =
    | Sample(expected: real, actual: real, roomRate: real, now: real)
    | Restart(now: real, settle: real)

  function Handle(d: Drift, e: Event): Drift {
    match e
    case Sample(expected, actual, roomRate, now) => Corrected(d, expected, actual, roomRate, now).0
    case Restart(now, settle) => Restarted(d, now, settle)
  }

  /** The controller just before event `k`. */
  function At(events: seq<Event>, k: nat): Drift
    requires k <= |events|
  {
    if k == 0 then FRESH else Handle(At(events, k - 1), events[k - 1])
  }

  function Answer(events: seq<Event>, k: nat): Correction
    requires k < |events| && events[k].Sample?
  {
    Corrected(At(events, k), events[k].expected, events[k].actual, events[k].roomRate, events[k].now).1
  }

  ghost predicate ClockForward(events: seq<Event>) {
    forall i, j | 0 <= i < j < |events| :: events[i].now <= events[j].now
  }

  ghost predicate SeeksAt(events: seq<Event>, k: nat) {
    k < |events| && events[k].Sample? && Answer(events, k).HardSeek?
  }

  /** A sample that is far off in `direction`. */
  predicate FarOff(e: Event, direction: int) {
    && e.Sample?
    && AbsReal(e.actual - e.expected) >= HARD_SEEK_THRESHOLD_MS
    && Sign(e.actual - e.expected) == direction
  }

  /** From event `j` up to event `k` there were only samples far off in one direction, none of them
      inside a settle window. */
  ghost predicate Sustained(events: seq<Event>, j: nat, k: nat, direction: int) {
    j <= k <= |events| && forall m | j <= m < k :: FarOff(events[m], direction) && At(events, m).holdUntil <= events[m].now
  }

  /** A candidate is backed by an unbroken stretch of samples that started when it says it did. */
  ghost predicate CandidateBacked(events: seq<Event>, k: nat)
    requires k <= |events|
  {
    var d := At(events, k);
    && (d.since.None? <==> d.direction == 0)
    && (d.since.Some? ==>
          && d.since.value >= d.holdUntil
          && exists j | 0 <= j < k :: Sustained(events, j, k, d.direction) && events[j].now == d.since.value)
  }

  /** A candidate that survives an event was seen again by it, or begins with it, or is just held. */
  lemma CandidateAfter(d: Drift, e: Event)
    requires d.since.None? <==> d.direction == 0
    ensures var d' := Handle(d, e);
      && (d'.since.None? <==> d'.direction == 0)
      && (d'.since.Some? && d.holdUntil <= e.now ==>
            && FarOff(e, d'.direction) && d'.holdUntil == d.holdUntil
            && ((d'.since == d.since && d'.direction == d.direction) || d'.since == Some(e.now)))
      && (d'.since.Some? && e.now < d.holdUntil ==> d' == d)
  {
  }

  lemma SustainedMore(events: seq<Event>, j: nat, k: nat, direction: int)
    requires k < |events| && Sustained(events, j, k, direction)
    requires FarOff(events[k], direction) && At(events, k).holdUntil <= events[k].now
    ensures Sustained(events, j, k + 1, direction)
  {
  }

  lemma CandidateStep(events: seq<Event>, k: nat)
    requires k < |events| && ClockForward(events)
    requires CandidateBacked(events, k)
    ensures CandidateBacked(events, k + 1)
  {
    var d, d', e := At(events, k), At(events, k + 1), events[k];
    CandidateAfter(d, e);
    if d'.since.Some? {
      if e.now < d.holdUntil || (d'.since == d.since && d'.direction == d.direction) {
        var j :| 0 <= j < k && Sustained(events, j, k, d.direction) && events[j].now == d.since.value;
        assert events[j].now <= e.now;
        SustainedMore(events, j, k, d.direction);
      } else {
        SustainedMore(events, k, k, d'.direction);
      }
    }
  }

  lemma {:induction false} CandidateAlwaysBacked(events: seq<Event>, k: nat)
    requires k <= |events| && ClockForward(events)
    ensures CandidateBacked(events, k)
  {
    if k > 0 {
      CandidateAlwaysBacked(events, k - 1);
      CandidateStep(events, k - 1);
    }
  }

  /** A hard seek is always the end of an unbroken stretch of samples, without a reset, that were all
      far off in the same direction and that began at least 1800 ms ago. */
  lemma HardSeekIsConfirmed(events: seq<Event>, k: nat)
    requires ClockForward(events) && SeeksAt(events, k)
    ensures exists j | 0 <= j < k ::
      && Sustained(events, j, k + 1, Sign(events[k].actual - events[k].expected))
      && events[j].now <= events[k].now - HARD_SEEK_CONFIRM_MS
  {
    CandidateAlwaysBacked(events, k);
    var d, e := At(events, k), events[k];
    AnswerTable(d, e.expected, e.actual, e.roomRate, e.now);
    assert SeekDue(d, e.actual - e.expected, e.now) && d.holdUntil <= e.now;
    var j :| 0 <= j < k && Sustained(events, j, k, d.direction) && events[j].now == d.since.value;
    SustainedMore(events, j, k, d.direction);
  }

  /** While a stretch of far-off samples lasts without a seek, its candidate runs at least since its start. */
  lemma {:induction false} CandidateRuns(events: seq<Event>, j: nat, k: nat, direction: int)
    requires j < k <= |events| && ClockForward(events) && Sustained(events, j, k, direction)
    requires forall m | j <= m < k :: !SeeksAt(events, m)
    ensures var d := At(events, k);
      d.direction == direction && d.since.Some? && d.since.value <= events[j].now
      && d.lastHardSeekAt == At(events, j).lastHardSeekAt
    decreases k
  {
    CandidateAlwaysBacked(events, k - 1);
    var d, e := At(events, k - 1), events[k - 1];
    assert FarOff(e, direction) && d.holdUntil <= e.now && !SeeksAt(events, k - 1);
    MemoryTable(d, e.expected, e.actual, e.roomRate, e.now);
    AnswerTable(d, e.expected, e.actual, e.roomRate, e.now);
    if j < k - 1 {
      CandidateRuns(events, j, k - 1, direction);
    } else if d.since.Some? {
      var i :| 0 <= i < k - 1 && Sustained(events, i, k - 1, d.direction) && events[i].now == d.since.value;
      assert events[i].now <= e.now;
    }
  }

  /** Large drift that lasts is sought: of the samples of a stretch far off in one direction and outside
      every settle window, lasting 1800 ms and ending 12 seconds after the last seek before it, one is
      answered with a seek. */
  lemma LongDriftIsSought(events: seq<Event>, j: nat, k: nat, direction: int)
    requires j < k < |events| && ClockForward(events) && Sustained(events, j, k + 1, direction)
    requires events[k].now - events[j].now >= 1800.0
    requires var last := At(events, j).lastHardSeekAt; last.Some? ==> events[k].now - last.value >= 12000.0
    ensures exists m | j <= m <= k :: SeeksAt(events, m)
  {
    if forall m | j <= m < k :: !SeeksAt(events, m) {
      CandidateRuns(events, j, k, direction);
      var d, e := At(events, k), events[k];
      assert FarOff(e, direction) && d.holdUntil <= e.now;
      AnswerTable(d, e.expected, e.actual, e.roomRate, e.now);
      assert SeeksAt(events, k);
    }
  }

  lemma {:induction false} LastSeekKept(events: seq<Event>, j: nat, k: nat)
    requires ClockForward(events) && SeeksAt(events, j) && j < k <= |events|
    ensures At(events, k).lastHardSeekAt.Some? && At(events, k).lastHardSeekAt.value >= events[j].now
    decreases k
  {
    if j < k - 1 {
      LastSeekKept(events, j, k - 1);
    }
  }

  /** Any two hard seeks are at least twelve seconds apart. */
  lemma HardSeekCooldown(events: seq<Event>, j: nat, k: nat)
    requires ClockForward(events) && SeeksAt(events, j) && SeeksAt(events, k) && j < k
    ensures events[k].now - events[j].now >= HARD_SEEK_COOLDOWN_MS
  {
    LastSeekKept(events, j, k);
  }

  /** When event `j` asked for quiet until some moment: a seek, or a reset with a settle time. */
  ghost function QuietUntil(events: seq<Event>, j: nat): Option<real>
    requires j < |events|
  {
    if SeeksAt(events, j) then Some(events[j].now + POST_SEEK_SETTLE_MS)
    else if events[j].Restart? then Some(events[j].now + events[j].settle)
    else None
  }

  lemma {:induction false} HoldKept(events: seq<Event>, j: nat, k: nat)
    requires j < k <= |events|
    requires QuietUntil(events, j).Some?
    requires forall i | j < i < k :: events[i].now < QuietUntil(events, j).value
    ensures At(events, k).holdUntil >= QuietUntil(events, j).value
    decreases k
  {
    if j < k - 1 {
      HoldKept(events, j, k - 1);
    }
  }

  /** Inside a settle window, whichever event opened it, every answer is to play at the room's rate. */
  lemma SettleWindowIsQuiet(events: seq<Event>, j: nat, k: nat)
    requires ClockForward(events) && j < k < |events| && events[k].Sample?
    requires QuietUntil(events, j).Some? && events[k].now < QuietUntil(events, j).value
    ensures Answer(events, k) == Noop(events[k].roomRate, events[k].actual - events[k].expected)
  {
    forall i | j < i < k
      ensures events[i].now < QuietUntil(events, j).value
    {
      assert events[i].now <= events[k].now;
    }
    HoldKept(events, j, k);
  }

  // ---------------------------------------------------------------- the closed loop

  /** The controller together with an ideal player, checked every 750 ms. */
  datatype Loop = Loop(d: Drift, expected: real, actual: real, now: real) {
    function Error(): real { actual - expected }
  }

  function TickAnswer(l: Loop, roomRate: real): Correction {
    Corrected(l.d, l.expected, l.actual, roomRate, l.now).1
  }

  /** The timeline advances at the room's rate; the player seeks if told to and advances at the
      rate it was given. */
  function Tick(l: Loop, roomRate: real): Loop {
    var c := TickAnswer(l, roomRate);
    Loop(Corrected(l.d, l.expected, l.actual, roomRate, l.now).0,
         l.expected + SYNC_CHECK_INTERVAL_MS * roomRate,
         (if c.HardSeek? then c.target else l.actual) + SYNC_CHECK_INTERVAL_MS * c.rate,
         l.now + SYNC_CHECK_INTERVAL_MS)
  }

  function LoopAt(l: Loop, roomRate: real, n: nat): Loop {
    if n == 0 then l else Tick(LoopAt(l, roomRate, n - 1), roomRate)
  }

  lemma TickAdvances(l: Loop, roomRate: real)
    ensures var l' := Tick(l, roomRate);
      l'.now == l.now + SYNC_CHECK_INTERVAL_MS && l'.expected == l.expected + SYNC_CHECK_INTERVAL_MS * roomRate
  {
  }

  lemma ScaleBounds(magnitude: real)
    ensures 0.0 <= Scale(magnitude) <= 1.0
  {
  }

  /** The gain over one tick of playing `factor` faster or slower, at least `least`. */
  lemma GainBounds(roomRate: real, factor: real, least: real)
    requires 0.4999 < roomRate < 2.0001
    requires 0.0 < least <= factor <= 0.05
    ensures 374.925 * least < SYNC_CHECK_INTERVAL_MS * (roomRate * factor) < 76.0
  {
    var gain, low := roomRate * factor, roomRate * least;
    assert gain >= low by { Products(roomRate, roomRate, least, factor); }
    assert low > 0.4999 * least by { assert (roomRate - 0.4999) * least > 0.0; }
    assert gain <= 2.0001 * 0.05 by { Products(roomRate, 2.0001, factor, 0.05); }
    assert 750.0 * gain > 374.925 * least;
  }

  lemma Products(a: real, b: real, c: real, d: real)
    requires 0.0 <= a <= b && 0.0 <= c <= d
    ensures a * c <= b * d
  {
    ProductMonotone(a, b, c);
    ProductMonotone(c, d, b);
    assert b * c == c * b && b * d == d * b;
  }

  /** What a rate correction makes good in one tick at least: more for who is behind. */
  function Pace(x: real): real { if x < 0.0 then 2.9994 else 2.2495 }

  lemma SoftGain(x: real, roomRate: real) returns (gain: real)
    requires 0.4999 < roomRate < 2.0001 && x != 0.0
    ensures Pace(x) < gain < 76.0
    ensures SYNC_CHECK_INTERVAL_MS * Soft(x, roomRate).rate
         == SYNC_CHECK_INTERVAL_MS * roomRate + (if x < 0.0 then gain else -gain)
  {
    ScaleBounds(AbsReal(x));
    var factor := if x < 0.0 then SpeedUpFactor(AbsReal(x)) else SlowDownFactor(AbsReal(x));
    GainBounds(roomRate, factor, if x < 0.0 then 0.008 else 0.006);
    gain := SYNC_CHECK_INTERVAL_MS * (roomRate * factor);
    assert roomRate * (1.0 + factor) == roomRate + roomRate * factor;
    assert roomRate * (1.0 - factor) == roomRate - roomRate * factor;
  }

  /** A corrected tick moves the drift toward zero, by more than 2.9994 ms from behind and by more than
      2.2495 ms from ahead, and never past it. */
  lemma SoftTickShrinks(l: Loop, roomRate: real)
    requires ValidRate(roomRate)
    requires TickAnswer(l, roomRate).SpeedUp? || TickAnswer(l, roomRate).SlowDown?
    ensures var x, x' := l.Error(), Tick(l, roomRate).Error();
      && Sign(x') == Sign(x) != 0
      && AbsReal(x') < AbsReal(x) - (if x < 0.0 then 2.9994 else 2.2495)
  {
    ValidRateBounds(roomRate);
    var x := l.Error();
    assert TickAnswer(l, roomRate) == Soft(x, roomRate) && AbsReal(x) > DRIFT_RELEASE_MS;
    var gain := SoftGain(x, roomRate);
    assert Tick(l, roomRate).Error() == if x < 0.0 then x + gain else x - gain;
  }

  /** Within the dead band the controller answers nothing, and stays there. */
  ghost predicate Settled(l: Loop) {
    AbsReal(l.Error()) <= DRIFT_RELEASE_MS || (!l.d.correcting && AbsReal(l.Error()) < SOFT_CORRECTION_THRESHOLD_MS)
  }

  lemma SettledTick(l: Loop, roomRate: real)
    requires Settled(l)
    ensures TickAnswer(l, roomRate) == Noop(roomRate, l.Error())
    ensures Settled(Tick(l, roomRate)) && Tick(l, roomRate).Error() == l.Error()
  {
  }

  lemma {:induction false} SettledForever(l: Loop, roomRate: real, m: nat, n: nat)
    requires m <= n && Settled(LoopAt(l, roomRate, m))
    ensures Settled(LoopAt(l, roomRate, n)) && LoopAt(l, roomRate, n).Error() == LoopAt(l, roomRate, m).Error()
    decreases n
  {
    if m < n {
      SettledForever(l, roomRate, m, n - 1);
      SettledTick(LoopAt(l, roomRate, n - 1), roomRate);
    }
  }

  /** Near enough for rate changes alone, and not held back by a settle window. */
  ghost predicate Closing(l: Loop) {
    l.d.holdUntil <= l.now && AbsReal(l.Error()) < HARD_SEEK_THRESHOLD_MS
  }

  lemma ClosingTick(l: Loop, roomRate: real)
    requires ValidRate(roomRate) && Closing(l) && !Settled(l)
    ensures Closing(Tick(l, roomRate)) && Sign(Tick(l, roomRate).Error()) == Sign(l.Error())
    ensures AbsReal(Tick(l, roomRate).Error()) < AbsReal(l.Error()) - Pace(l.Error())
  {
    SoftTickShrinks(l, roomRate);
  }

  /** Near enough to be settled after `n` corrected ticks. */
  predicate WithinReach(x: real, n: nat) {
    if x < 0.0 then -x <= 220.0 + 2.9994 * n as real else x <= 220.0 + 2.2495 * n as real
  }

  lemma ReachShrinks(x: real, x': real, n: nat)
    requires WithinReach(x, n) && AbsReal(x) > 220.0 && Sign(x') == Sign(x) && AbsReal(x') < AbsReal(x) - Pace(x)
    ensures n > 0 && WithinReach(x', n - 1)
  {
    assert n as real - 1.0 == (n - 1) as real;
  }

  lemma {:induction false} ClosingSettles(l: Loop, roomRate: real, m: nat, n: nat)
    requires ValidRate(roomRate) && m <= n && Closing(LoopAt(l, roomRate, m))
    requires WithinReach(LoopAt(l, roomRate, m).Error(), n - m)
    ensures Settled(LoopAt(l, roomRate, n))
    decreases n - m
  {
    if Settled(LoopAt(l, roomRate, m)) {
      SettledForever(l, roomRate, m, n);
    } else {
      var before, after := LoopAt(l, roomRate, m), LoopAt(l, roomRate, m + 1);
      ClosingTick(before, roomRate);
      ReachShrinks(before.Error(), after.Error(), n - m);
      ClosingSettles(l, roomRate, m + 1, n);
    }
  }

  /** A controller that is free by `first`, will then have its candidate running if it is far off, and
      may seek from `ripe` on. */
  ghost predicate Due(l: Loop, first: real, ripe: real) {
    && (l.d.holdUntil <= l.now || l.d.holdUntil + SYNC_CHECK_INTERVAL_MS <= first)
    && first + HARD_SEEK_CONFIRM_MS <= ripe
    && (l.d.lastHardSeekAt.Some? ==> l.d.lastHardSeekAt.value + HARD_SEEK_COOLDOWN_MS <= ripe)
    && (l.d.since.None? <==> l.d.direction == 0) && (l.d.since.Some? ==> l.d.since.value <= first)
    && (l.now > first ==> l.d.correcting && l.d.since.Some? && l.d.direction == Sign(l.Error()))
  }

  lemma DueTick(l: Loop, roomRate: real, first: real, ripe: real)
    requires ValidRate(roomRate) && Due(l, first, ripe) && !Closing(l) && !Settled(l)
    ensures var l' := Tick(l, roomRate);
      && (Closing(l') || Settled(l') || (l.now < ripe && Due(l', first, ripe)))
      && (Settled(l') || Sign(l'.Error()) == Sign(l.Error()))
  {
    if l.d.holdUntil <= l.now && !TickAnswer(l, roomRate).HardSeek? {
      SoftTickShrinks(l, roomRate);
    }
  }

  /** Within `n` ticks, where the `n`-th comes no earlier than `ripe`, and one more, the controller is
      settled or within reach of rate changes. */
  lemma Approach(l: Loop, roomRate: real, first: real, ripe: real, n: nat) returns (m: nat)
    requires ValidRate(roomRate) && Due(l, first, ripe) && ripe <= l.now + n as real * SYNC_CHECK_INTERVAL_MS
    ensures m <= n + 1 && (Closing(LoopAt(l, roomRate, m)) || Settled(LoopAt(l, roomRate, m)))
    ensures Settled(LoopAt(l, roomRate, m)) || Sign(LoopAt(l, roomRate, m).Error()) == Sign(l.Error())
  {
    m := 0;
    while !Closing(LoopAt(l, roomRate, m)) && !Settled(LoopAt(l, roomRate, m))
      invariant m <= n + 1
      invariant LoopAt(l, roomRate, m).now == l.now + m as real * SYNC_CHECK_INTERVAL_MS
      invariant || Closing(LoopAt(l, roomRate, m)) || Settled(LoopAt(l, roomRate, m))
                || (m <= n && Due(LoopAt(l, roomRate, m), first, ripe))
      invariant Settled(LoopAt(l, roomRate, m)) || Sign(LoopAt(l, roomRate, m).Error()) == Sign(l.Error())
      decreases n + 1 - m
    {
      DueTick(LoopAt(l, roomRate, m), roomRate, first, ripe);
      m := m + 1;
    }
  }

  /** Closing in from the seek threshold takes at most this many ticks: fewer from behind. */
  function TicksToClose(x: real): nat { if x < 0.0 then 727 else 970 }

  lemma SettlesInTime(l: Loop, roomRate: real, first: real, ripe: real, wait: nat, n: nat)
    requires ValidRate(roomRate) && Due(l, first, ripe) && ripe <= l.now + wait as real * SYNC_CHECK_INTERVAL_MS
    requires n >= wait + 1 + TicksToClose(l.Error())
    ensures Settled(LoopAt(l, roomRate, n))
  {
    var m := Approach(l, roomRate, first, ripe, wait);
    if Settled(LoopAt(l, roomRate, m)) {
      SettledForever(l, roomRate, m, n);
    } else {
      ClosingSettles(l, roomRate, m, n);
    }
  }

  lemma SettledSince(l: Loop, roomRate: real, m: nat, n: nat)
    requires m <= n && Settled(LoopAt(l, roomRate, m))
    ensures TickAnswer(LoopAt(l, roomRate, n), roomRate).Noop?
    ensures LoopAt(l, roomRate, n).Error() == LoopAt(l, roomRate, m).Error()
  {
    SettledForever(l, roomRate, m, n);
    SettledTick(LoopAt(l, roomRate, n), roomRate);
  }

  /** From tick `ticks` on the controller always answers to play at the room's rate, while the drift
      stays what it is, below the correction threshold. */
  ghost predicate SettlesAfter(l: Loop, roomRate: real, ticks: nat) {
    forall m, n | ticks <= m <= n ::
      && TickAnswer(LoopAt(l, roomRate, n), roomRate).Noop?
      && LoopAt(l, roomRate, n).Error() == LoopAt(l, roomRate, m).Error()
      && AbsReal(LoopAt(l, roomRate, n).Error()) < SOFT_CORRECTION_THRESHOLD_MS
  }

  lemma SettlesFrom(l: Loop, roomRate: real, first: real, ripe: real, wait: nat)
    requires ValidRate(roomRate) && Due(l, first, ripe) && ripe <= l.now + wait as real * SYNC_CHECK_INTERVAL_MS
    ensures SettlesAfter(l, roomRate, wait + 1 + TicksToClose(l.Error()))
  {
    forall m, n | wait + 1 + TicksToClose(l.Error()) <= m <= n
      ensures TickAnswer(LoopAt(l, roomRate, n), roomRate).Noop?
      ensures LoopAt(l, roomRate, n).Error() == LoopAt(l, roomRate, m).Error()
      ensures AbsReal(LoopAt(l, roomRate, n).Error()) < SOFT_CORRECTION_THRESHOLD_MS
    {
      SettlesInTime(l, roomRate, first, ripe, wait, m);
      SettledSince(l, roomRate, m, n);
    }
  }

  /** How many ticks it takes at most: three to confirm a large drift, or sixteen to let the cooldown
      of an earlier seek pass, one to seek, and the others to close in. */
  const TICKS_TO_SETTLE := 987

  /** A fresh controller settles from any drift and at any room rate, within 731 ticks from behind and
      within 974 from ahead. */
  lemma FreshLoopConverges(l: Loop, roomRate: real)
    requires ValidRate(roomRate) && l.d == FRESH && l.now >= 0.0
    ensures SettlesAfter(l, roomRate, if l.Error() < 0.0 then 731 else 974)
  {
    SettlesFrom(l, roomRate, l.now, l.now + HARD_SEEK_CONFIRM_MS, 3);
  }

  /** What every controller satisfies at any time after its last event. */
  ghost predicate Reached(d: Drift, now: real) {
    && (d.since.None? <==> d.direction == 0) && (d.since.Some? ==> d.since.value <= now)
    && (d.lastHardSeekAt.Some? ==> d.lastHardSeekAt.value <= now)
    && d.holdUntil <= now + POST_SEEK_SETTLE_MS
  }

  /** From any such state, any drift and at any room rate, the closed loop settles, within 744 ticks from
      behind and within 987 from ahead. */
  lemma LoopConverges(l: Loop, roomRate: real)
    requires ValidRate(roomRate) && Reached(l.d, l.now)
    ensures SettlesAfter(l, roomRate, if l.Error() < 0.0 then 744 else 987)
  {
    var first := if l.d.holdUntil <= l.now then l.now else l.d.holdUntil + SYNC_CHECK_INTERVAL_MS;
    SettlesFrom(l, roomRate, first, l.now + HARD_SEEK_COOLDOWN_MS, 16);
  }

  /** The controller is reset only with settle times of at most 3500 ms. */
  ghost predicate ShortResets(events: seq<Event>) {
    forall i | 0 <= i < |events| :: events[i].Restart? ==> events[i].settle <= POST_SEEK_SETTLE_MS
  }

  lemma {:induction false} AlwaysReached(events: seq<Event>, k: nat, now: real)
    requires k <= |events| && ClockForward(events) && ShortResets(events) && now >= 0.0
    requires k > 0 ==> events[k - 1].now <= now && events[0].now >= 0.0
    ensures Reached(At(events, k), now)
  {
    if k > 0 {
      if k > 1 {
        assert events[k - 2].now <= events[k - 1].now;
      }
      assert events[0].now <= events[k - 1].now || k == 1;
      AlwaysReached(events, k - 1, events[k - 1].now);
    }
  }

  /** Closed-loop convergence: whatever a controller has been through before (samples, seeks, resets,
      in any order on a forward clock), once the player follows it ideally it settles, from any
      drift and at any room rate, within 744 ticks from behind and within 987 from ahead. */
  lemma LoopConvergesFromAnyRun(events: seq<Event>, l: Loop, roomRate: real)
    requires ClockForward(events) && ShortResets(events)
    requires l.d == At(events, |events|) && l.now >= 0.0
    requires events != [] ==> events[0].now >= 0.0 && events[|events| - 1].now <= l.now
    requires ValidRate(roomRate)
    ensures SettlesAfter(l, roomRate, if l.Error() < 0.0 then 744 else 987)
  {
    AlwaysReached(events, |events|, l.now);
    LoopConverges(l, roomRate);
  }

  lemma HardSeekSettles(l: Loop, roomRate: real)
    requires TickAnswer(l, roomRate).HardSeek?
    ensures Tick(l, roomRate).Error() == 0.0
  {
  }

  /** In the closed loop a hard seek is the last word: the drift is zero from then on, so there is
      at most one, whatever the controller went through before. */
  lemma {:induction false} HardSeekIsFinal(l: Loop, roomRate: real, m: nat, n: nat)
    requires TickAnswer(LoopAt(l, roomRate, m), roomRate).HardSeek? && m < n
    ensures TickAnswer(LoopAt(l, roomRate, n), roomRate).Noop? && LoopAt(l, roomRate, n).Error() == 0.0
  {
    HardSeekSettles(LoopAt(l, roomRate, m), roomRate);
    SettledSince(l, roomRate, m + 1, n);
  }
}
