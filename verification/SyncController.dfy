/** The controller that drives a browser's video element from the room's playback state. What it does
    to the element and to the socket is recorded in `writes` (positions it assigned), `rate`, `plays`,
    `pauses` and `sent`; what the element reports is an input of every event. */
module SyncController {
  import opened Basics
  import opened Playback
  import DriftCorrector

  datatype SyncStatus = Synced | Correcting | LocalBuffering | HostBuffering | AutoplayBlocked

  datatype Outgoing =
    | PlayCommand | PauseCommand | SeekCommand | RateCommand(rate: real)
    | HostBufferingCommand | HostReadyCommand | EndedCommand
    | HostHeartbeat(paused: bool, readyState: int)
    | MemberTelemetry(buffering: bool)
    | ClientReady(mediaId: string, durationMs: Option<int>)

  datatype Message = Message(kind: Outgoing, positionMs: int)

  /** The state of the video element when an event is handled. `duration` is None while unknown;
      `seekThrows` says that assigning a position would fail. */
  datatype Reading = Reading(
    currentTime: real, paused: bool, readyState: int, duration: Option<real>,
    seekable: seq<(real, real)>, seekThrows: bool)

  const HAVE_METADATA := 1
  const HAVE_FUTURE_DATA := 3
  const BUFFER_RECOVERY_STABLE_MS := 600.0
  const BUFFER_CONFIRM_MS := 1800.0
  const PROGRAMMATIC_SEEK_BUFFER_GRACE_MS := 2500.0
  const ALIGN_ON_TRANSITION_MS := 750.0
  const CORRECTION_STATUS_DELAY_MS := 2000.0

  function Round(x: real): int { (x + 0.5).Floor }

  function PositionMs(v: Reading): int { Round(v.currentTime * 1000.0) }

  /** The length in milliseconds, if the element knows it. */
  function DurationMs(v: Reading): Option<int> {
    if v.duration.Some? then Some(Round(v.duration.value * 1000.0)) else None
  }

  /** A position in seconds for a target in milliseconds. */
  function Seconds(ms: real): real { MaxReal(0.0, ms / 1000.0) }

  predicate InSeekable(v: Reading, seconds: real) {
    exists i | 0 <= i < |v.seekable| :: v.seekable[i].0 - 0.05 <= seconds <= v.seekable[i].1 + 0.05
  }

  /** The element can take the position now. */
  predicate CanSeek(v: Reading, seconds: real) {
    && !v.seekThrows
    && (InSeekable(v, seconds)
        || (v.readyState >= HAVE_METADATA && v.duration.Some? && seconds <= v.duration.value))
  }

  /** Commands only a host may send. */
  predicate IsHostMessage(m: Outgoing) {
    !m.MemberTelemetry? && !m.ClientReady?
  }

  predicate MediaChanged(previous: Option<PlaybackState>, next: PlaybackState) {
    previous.Some? && previous.value.mediaId != next.mediaId
  }

  /** When a new room state makes the controller align the element with the timeline. */
  predicate Aligns(previous: Option<PlaybackState>, next: PlaybackState, force: bool, isHost: bool, v: Reading, target: real) {
    && (force || MediaChanged(previous, next) || (IsTimelineJump(previous, next) && !isHost))
    && !next.phase.Buffering? && !next.phase.Loading?
    && AbsReal(v.currentTime * 1000.0 - target) >= ALIGN_ON_TRANSITION_MS
  }

  /** What is told when a stall that was reported is over. */
  function Recovery(isHost: bool, reported: bool, v: Reading): seq<Message> {
    if !reported then [] else [Message(if isHost then HostReadyCommand else MemberTelemetry(false), PositionMs(v))]
  }

  class Controller {
    var attached: bool
    var isHost: bool
    var state: Option<PlaybackState>
    var lastRevision: int
    var playTimer: Option<real>  // when they are due
    var bufferConfirmTimer: Option<real>
    var recoveryTimer: Option<real>
    var pendingSeek: Option<real>
    var applyingRemoteState: bool
    var bufferSuspected: bool
    var confirmedBuffering: bool
    var hostBufferingReported: bool
    var memberBufferingReported: bool
    var ignoreBufferUntil: real
    var recoveryUntil: real
    var softCorrectionSince: Option<real>
    var autoplayBlocked: bool
    var currentStatus: Option<SyncStatus>
    var checking: bool  // the timers that repeat
    var heartbeating: bool
    const drift: DriftCorrector.Corrector

    var writes: seq<real>
    var rate: real
    var plays: nat
    var pauses: nat
    var sent: seq<Message>

    constructor (isHost: bool)
      ensures !attached && this.isHost == isHost && state.None? && lastRevision == -1 && !checking && !heartbeating
      ensures playTimer.None? && !applyingRemoteState && recoveryUntil == 0.0 && softCorrectionSince.None? && currentStatus.None?
      ensures pendingSeek.None? && writes == [] && sent == [] && plays == 0
      ensures bufferConfirmTimer.None? && recoveryTimer.None? && ignoreBufferUntil == 0.0
      ensures !bufferSuspected && !confirmedBuffering && !hostBufferingReported && !memberBufferingReported && !autoplayBlocked
      ensures drift.View() == DriftCorrector.FRESH && fresh(drift)
    {
      attached, this.isHost, state, lastRevision := false, isHost, None, -1;
      playTimer, bufferConfirmTimer, recoveryTimer, pendingSeek := None, None, None, None;
      checking, heartbeating := false, false;
      applyingRemoteState, bufferSuspected, confirmedBuffering := false, false, false;
      hostBufferingReported, memberBufferingReported := false, false;
      ignoreBufferUntil, recoveryUntil, softCorrectionSince := 0.0, 0.0, None;
      autoplayBlocked, currentStatus := false, None;
      writes, rate, plays, pauses, sent := [], 1.0, 0, 0, [];
      drift := new DriftCorrector.Corrector();
    }

    // -------------------------------------------------------------- what every event keeps

    /** No position is written, and what is kept for later stays what it was. */
    twostate predicate PositionUntouched()
      reads this
    {
      writes == old(writes) && pendingSeek == old(pendingSeek)
    }

    /** Every position that is written opens a grace period in which stalls are not confirmed, and nothing
        else does. */
    twostate predicate GraceFollowsWrites(now: real)
      reads this
    {
      ignoreBufferUntil == if writes == old(writes) then old(ignoreBufferUntil) else now + 2500.0
    }

    /** A host that has reported a stall and holds its element until it is over. */
    predicate Held()
      reads this
    {
      isHost && hostBufferingReported && confirmedBuffering
    }

    /** The room is buffering. */
    predicate InBuffering()
      reads this
    {
      state.Some? && state.value.phase.Buffering?
    }

    /** Exactly if the change of state calls for it, the position is set to the timeline's, now or as
        soon as the element can take it. */
    twostate predicate AlignedFor(previous: Option<PlaybackState>, force: bool, v: Reading, serverNow: real)
      requires state.Some?
      reads this
    {
      var target := ExpectedPosition(state.value, serverNow);
      if !Aligns(previous, state.value, force, isHost, v, target) then PositionUntouched()
      else if CanSeek(v, Seconds(target)) then writes == old(writes) + [Seconds(target)] && pendingSeek.None?
      else writes == old(writes) && pendingSeek == Some(target)
    }

    /** A seek to `ms` is dropped when the element is there already, done when it can be, and otherwise
        kept for later. Only a seek that is done opens the windows in which stalls and drift are ignored. */
    twostate predicate SeekHandled(ms: real, v: Reading, now: real)
      reads this, drift
    {
      if attached && AbsReal(v.currentTime - Seconds(ms)) >= 0.05 && CanSeek(v, Seconds(ms)) then
        && writes == old(writes) + [Seconds(ms)] && pendingSeek.None?
        && ignoreBufferUntil == now + 2500.0 && recoveryUntil == now + 3500.0
        && drift.View() == DriftCorrector.Restarted(old(drift.View()), now, 3500.0)
      else
        && writes == old(writes) && ignoreBufferUntil == old(ignoreBufferUntil) && recoveryUntil == old(recoveryUntil)
        && drift.View() == old(drift.View())
        && pendingSeek == if !attached then old(pendingSeek)
                          else if AbsReal(v.currentTime - Seconds(ms)) < 0.05 then None else Some(ms)
    }

    /** The element plays at the room's rate, is scheduled to start or is stopped as the phase demands, and
        drift is ignored for a while when playing has just begun. */
    twostate predicate TransportedFor(previous: Option<PlaybackState>, force: bool, v: Reading, now: real, serverNow: real)
      requires state.Some?
      reads this, drift
    {
      var s := state.value;
      var phaseChanged := previous.None? || previous.value.phase != s.phase;
      var scheduled := phaseChanged || force || IsTimelineJump(previous, s);
      && rate == s.rate
      && (s.phase.Playing? ==>
            && playTimer == (if scheduled then Some(now + MaxReal(0.0, s.anchorTime as real - serverNow)) else old(playTimer))
            && pauses == old(pauses) + (if scheduled && s.anchorTime as real - serverNow > 20.0 && !v.paused then 1 else 0)
            && currentStatus == old(currentStatus) && recoveryTimer == old(recoveryTimer)
            && softCorrectionSince == old(softCorrectionSince))
      && (!s.phase.Playing? ==>
            && playTimer.None? && pauses == old(pauses) + 1 && softCorrectionSince.None?
            && currentStatus == Emitted(old(currentStatus), if !s.phase.Buffering? then Synced
                                                            else if isHost then LocalBuffering else HostBuffering)
            && recoveryTimer == if s.phase.Buffering? && isHost && hostBufferingReported && v.readyState >= 3
                                then Some(now + 600.0) else old(recoveryTimer))
    }

    /** Drift is ignored for 3500 ms after the position was written and after playing has just begun, and the
        drift controller starts over whenever the room does not play. */
    twostate predicate SettlesFor(previous: Option<PlaybackState>, now: real)
      requires state.Some?
      reads this, drift
    {
      var s := state.value;
      var phaseChanged := previous.None? || previous.value.phase != s.phase;
      var aligned := if writes == old(writes) then old(drift.View()) else DriftCorrector.Restarted(old(drift.View()), now, 3500.0);
      && recoveryUntil == (if writes != old(writes) || (s.phase.Playing? && phaseChanged) then now + 3500.0 else old(recoveryUntil))
      && drift.View() ==
           if !s.phase.Playing? then DriftCorrector.Restarted(aligned, now, 0.0)
           else if phaseChanged then DriftCorrector.Restarted(aligned, now, 3500.0)
           else aligned
    }

    /** The status shown after `next` is announced; while autoplay is blocked nothing else is shown. */
    function Emitted(current: Option<SyncStatus>, next: SyncStatus): Option<SyncStatus>
      reads this`autoplayBlocked
    {
      if autoplayBlocked && !next.AutoplayBlocked? then current else Some(next)
    }

    /** The room plays, past its anchor, and the element knows its medium. */
    predicate Live(v: Reading, serverNow: real)
      reads this
    {
      && attached && state.Some? && state.value.phase.Playing? && v.readyState >= 1
      && serverNow + 20.0 >= state.value.anchorTime as real
    }

    /** It has data, and nothing is known of a stall (`suspected` says whether one is suspected). */
    predicate Undisturbed(v: Reading, suspected: bool)
      reads this
    {
      v.readyState >= 3 && !suspected && !confirmedBuffering
    }

    /** A check of an element that stands still although it should play: it is to be started, unless the
        browser has blocked that, or a host is just applying a state. */
    predicate Idle(v: Reading, serverNow: real, suspected: bool)
      reads this
    {
      && Live(v, serverNow) && Undisturbed(v, suspected)
      && v.paused && !autoplayBlocked && (isHost ==> !applyingRemoteState)
    }

    /** The check compares the element with the timeline: a member that is playing undisturbed. */
    predicate Compares(v: Reading, now: real, serverNow: real, suspected: bool)
      reads this
    {
      !isHost && Live(v, serverNow) && Undisturbed(v, suspected) && now >= recoveryUntil
    }

    /** The drift controller has been asked, and exactly if it decides to seek the position is set to the
        timeline's, now or as soon as the element can take it. A correction that lasts for two seconds
        is shown. */
    twostate predicate ComparedAt(v: Reading, now: real, serverNow: real)
      requires state.Some?
      reads this, drift
    {
      var target := ExpectedPosition(state.value, serverNow);
      var (asked, action) := DriftCorrector.Corrected(old(drift.View()), target, v.currentTime * 1000.0, state.value.rate, now);
      && rate == action.rate
      && (if !action.HardSeek? then PositionUntouched()
          else if CanSeek(v, Seconds(target)) then writes == old(writes) + [Seconds(target)] && pendingSeek.None?
          else writes == old(writes) && pendingSeek == Some(target))
      && recoveryUntil == (if writes == old(writes) then old(recoveryUntil) else now + 3500.0)
      && drift.View() == (if writes == old(writes) then asked else DriftCorrector.Restarted(asked, now, 3500.0))
      && softCorrectionSince == (if action.Noop? || action.HardSeek? then None
                                 else if old(softCorrectionSince).None? then Some(now) else old(softCorrectionSince))
      && currentStatus == Emitted(old(currentStatus),
           if action.HardSeek? then Correcting
           else if action.Noop? || now - softCorrectionSince.value < 2000.0 then Synced else Correcting)
    }

    /** What a check does: nothing unless the room plays past its anchor; the room's rate while the element
        is disturbed, a host's, or settling; and otherwise what the drift controller answers. An idle
        element is started. */
    twostate predicate Checked(v: Reading, now: real, serverNow: real, suspected: bool)
      reads this, drift
    {
      && plays == old(plays) + (if old(Idle(v, serverNow, suspected)) then 1 else 0)
      && (if old(Compares(v, now, serverNow, suspected)) then state.Some? && ComparedAt(v, now, serverNow)
          else
            && PositionUntouched() && drift.View() == old(drift.View()) && softCorrectionSince == old(softCorrectionSince)
            && recoveryUntil == old(recoveryUntil)
            && rate == (if old(Live(v, serverNow)) && state.Some? then state.value.rate else old(rate))
            && currentStatus == (if old(Live(v, serverNow)) && Undisturbed(v, suspected)
                                 then Emitted(old(currentStatus), Synced) else old(currentStatus)))
    }

    /** A stall that has lasted: the room plays and the element has no data. */
    predicate Starved(v: Reading)
      reads this
    {
      attached && state.Some? && state.value.phase.Playing? && v.readyState < 3
    }

    /** Either the drift controller has not decided to seek, and the position is left alone, or it has
        decided to seek now, twelve seconds after the last time, and the position is written at most
        once, or kept for later in place of what was kept before. */
    twostate predicate SoughtOrNot(now: real)
      reads this, drift
    {
      || (PositionUntouched() && drift.lastHardSeekAt == old(drift.lastHardSeekAt))
      || (&& drift.lastHardSeekAt == Some(now)
          && (old(drift.lastHardSeekAt).Some? ==> now - old(drift.lastHardSeekAt).value >= 12000.0)
          && |writes| + Kept() <= |old(writes)| + 1)
    }

    /** One if a seek is kept for later. */
    ghost function Kept(): nat
      reads this
    {
      if pendingSeek.Some? then 1 else 0
    }

    /** What every event keeps that is neither a state nor a check nor meant to move the position: a
        position is written only if a kept seek is retried. */
    twostate predicate LeftInPlace(now: real)
      reads this, drift
    {
      && isHost == old(isHost) && state == old(state) && lastRevision == old(lastRevision)
      && drift.lastHardSeekAt == old(drift.lastHardSeekAt)
      && (old(pendingSeek).None? ==> pendingSeek.None? && writes == old(writes))
      && |writes| + Kept() <= |old(writes)| + old(Kept())
      && GraceFollowsWrites(now) && plays >= old(plays)
    }

    /** Only hosts send what only hosts may send. */
    twostate predicate SendsProperly()
      reads this
    {
      && old(sent) <= sent
      && forall i | |old(sent)| <= i < |sent| :: IsHostMessage(sent[i].kind) ==> isHost
    }

    // -------------------------------------------------------------- small pieces

    method EmitStatus(next: SyncStatus)
      modifies this`currentStatus
      ensures currentStatus == Emitted(old(currentStatus), next)
    {
      if autoplayBlocked && !next.AutoplayBlocked? {
        return;
      }
      currentStatus := Some(next);
    }

    method TryPlay()
      modifies this`plays
      ensures plays == old(plays) + if attached && !autoplayBlocked && !confirmedBuffering then 1 else 0
    {
      if attached && !autoplayBlocked && !confirmedBuffering {
        plays := plays + 1;
      }
    }

    method PauseVideo()
      modifies this`pauses
      ensures pauses == old(pauses) + 1
    {
      pauses := pauses + 1;
    }

    method Post(kind: Outgoing, positionMs: int)
      modifies this`sent
      ensures sent == old(sent) + [Message(kind, positionMs)]
    {
      sent := sent + [Message(kind, positionMs)];
    }

    method CancelScheduledPlay()
      modifies this`playTimer
      ensures playTimer.None?
    {
      playTimer := None;
    }

    method SchedulePlay(anchorServerTimeMs: int, v: Reading, now: real, serverNow: real)
      requires attached
      modifies this`playTimer, this`pauses
      ensures playTimer == Some(now + MaxReal(0.0, anchorServerTimeMs as real - serverNow))
      ensures pauses == old(pauses) + if anchorServerTimeMs as real - serverNow > 20.0 && !v.paused then 1 else 0
    {
      CancelScheduledPlay();
      var delay := MaxReal(0.0, anchorServerTimeMs as real - serverNow);
      if delay > 20.0 && attached && !v.paused {
        PauseVideo();
      }
      playTimer := Some(now + delay);
    }

    // -------------------------------------------------------------- seeking

    /** Assigns the position, or keeps it for later when the element refuses. */
    method Perform(ms: real, v: Reading, now: real)
      modifies this`writes, this`pendingSeek, this`ignoreBufferUntil, this`recoveryUntil, drift
      ensures if v.seekThrows then
          && pendingSeek == Some(ms) && writes == old(writes) && ignoreBufferUntil == old(ignoreBufferUntil)
          && recoveryUntil == old(recoveryUntil) && drift.View() == old(drift.View())
        else
          && writes == old(writes) + [Seconds(ms)] && pendingSeek.None?
          && ignoreBufferUntil == now + PROGRAMMATIC_SEEK_BUFFER_GRACE_MS
          && recoveryUntil == now + DriftCorrector.POST_SEEK_SETTLE_MS
          && drift.View() == DriftCorrector.Restarted(old(drift.View()), now, DriftCorrector.POST_SEEK_SETTLE_MS)
    {
      if v.seekThrows {
        pendingSeek := Some(ms);
      } else {
        writes := writes + [Seconds(ms)];
        pendingSeek := None;
        ignoreBufferUntil := now + PROGRAMMATIC_SEEK_BUFFER_GRACE_MS;
        recoveryUntil := now + DriftCorrector.POST_SEEK_SETTLE_MS;
        drift.Reset(now, DriftCorrector.POST_SEEK_SETTLE_MS);
      }
    }

    method Seek(ms: real, v: Reading, now: real)
      modifies this`writes, this`pendingSeek, this`ignoreBufferUntil, this`recoveryUntil, drift
      ensures SeekHandled(ms, v, now)
      ensures drift.lastHardSeekAt == old(drift.lastHardSeekAt)
    {
      if !attached {
        return;
      }
      var seconds := Seconds(ms);
      if AbsReal(v.currentTime - seconds) < 0.05 {
        pendingSeek := None;
        return;
      }
      var i := 0;
      while i < |v.seekable|
        invariant 0 <= i <= |v.seekable|
        invariant forall j | 0 <= j < i :: !(v.seekable[j].0 - 0.05 <= seconds <= v.seekable[j].1 + 0.05)
        invariant writes == old(writes) && pendingSeek == old(pendingSeek) && drift.View() == old(drift.View())
        invariant ignoreBufferUntil == old(ignoreBufferUntil) && recoveryUntil == old(recoveryUntil)
      {
        if seconds >= v.seekable[i].0 - 0.05 && seconds <= v.seekable[i].1 + 0.05 {
          Perform(ms, v, now);
          return;
        }
        i := i + 1;
      }
      pendingSeek := Some(ms);
      if v.readyState >= HAVE_METADATA && v.duration.Some? && seconds <= v.duration.value {
        Perform(ms, v, now);
      }
    }

    method RetrySeek(v: Reading, now: real)
      modifies this`writes, this`pendingSeek, this`ignoreBufferUntil, this`recoveryUntil, drift
      ensures old(pendingSeek).None? ==> PositionUntouched() && drift.View() == old(drift.View())
      ensures old(pendingSeek).Some? ==> SeekHandled(old(pendingSeek).value, v, now)
      ensures |writes| + Kept() <= |old(writes)| + old(Kept())
      ensures GraceFollowsWrites(now)
      ensures drift.lastHardSeekAt == old(drift.lastHardSeekAt)
    {
      if pendingSeek.Some? {
        Seek(pendingSeek.value, v, now);
      }
    }

    // -------------------------------------------------------------- room states

    /** Seeks to the timeline's position if the change of state calls for it. */
    method Align(previous: Option<PlaybackState>, force: bool, v: Reading, now: real, serverNow: real)
      requires attached && state.Some?
      modifies this`writes, this`pendingSeek, this`ignoreBufferUntil, this`recoveryUntil, drift
      ensures AlignedFor(previous, force, v, serverNow) && GraceFollowsWrites(now)
      ensures recoveryUntil == if writes == old(writes) then old(recoveryUntil) else now + 3500.0
      ensures drift.View() == if writes == old(writes) then old(drift.View()) else DriftCorrector.Restarted(old(drift.View()), now, 3500.0)
      ensures drift.lastHardSeekAt == old(drift.lastHardSeekAt)
    {
      var s := state.value;
      var target := ExpectedPosition(s, serverNow);
      var mediaChanged := MediaChanged(previous, s);
      var shouldAlign := force || mediaChanged || IsTimelineJump(previous, s);
      if shouldAlign && (!isHost || force || mediaChanged) && !s.phase.Buffering? && !s.phase.Loading?
         && AbsReal(v.currentTime * 1000.0 - target) >= ALIGN_ON_TRANSITION_MS
      {
        FarIsNotNear(v.currentTime, target);
        Seek(target, v, now);
      }
    }

    /** Starts or stops the element as the phase demands. */
    method Transport(previous: Option<PlaybackState>, force: bool, v: Reading, now: real, serverNow: real)
      requires attached && state.Some?
      modifies this`recoveryUntil, drift, this`rate, this`playTimer, this`pauses, this`softCorrectionSince
      modifies this`recoveryTimer, this`currentStatus
      requires rate == state.value.rate
      ensures TransportedFor(previous, force, v, now, serverNow)
      ensures var phaseChanged := previous.None? || previous.value.phase != state.value.phase;
        && recoveryUntil == (if state.value.phase.Playing? && phaseChanged then now + 3500.0 else old(recoveryUntil))
        && drift.View() ==
             if !state.value.phase.Playing? then DriftCorrector.Restarted(old(drift.View()), now, 0.0)
             else if phaseChanged then DriftCorrector.Restarted(old(drift.View()), now, 3500.0)
             else old(drift.View())
      ensures drift.lastHardSeekAt == old(drift.lastHardSeekAt)
    {
      var s := state.value;
      var phaseChanged := previous.None? || previous.value.phase != s.phase;
      if s.phase.Playing? {
        if phaseChanged || force || IsTimelineJump(previous, s) {
          SchedulePlay(s.anchorTime, v, now, serverNow);
        }
        if phaseChanged {
          recoveryUntil := now + DriftCorrector.POST_SEEK_SETTLE_MS;
          drift.Reset(now, DriftCorrector.POST_SEEK_SETTLE_MS);
        }
      } else {
        CancelScheduledPlay();
        PauseVideo();
        rate := s.rate;
        softCorrectionSince := None;
        drift.Reset(now, 0.0);
        if s.phase.Buffering? {
          EmitStatus(if isHost then LocalBuffering else HostBuffering);
          if isHost && hostBufferingReported && v.readyState >= HAVE_FUTURE_DATA {
            ScheduleRecovery(now);
          }
        } else {
          EmitStatus(Synced);
        }
      }
    }

    /** Brings the element in line with the current state. */
    method Apply(previous: Option<PlaybackState>, force: bool, v: Reading, now: real, serverNow: real)
      modifies this`writes, this`pendingSeek, this`ignoreBufferUntil, this`recoveryUntil, drift
      modifies this`applyingRemoteState, this`rate, this`playTimer, this`pauses, this`softCorrectionSince
      modifies this`recoveryTimer, this`currentStatus
      ensures !attached || state.None? ==> unchanged(this) && unchanged(drift)
      ensures attached && state.Some? ==>
        && AlignedFor(previous, force, v, serverNow) && TransportedFor(previous, force, v, now, serverNow)
        && SettlesFor(previous, now) && applyingRemoteState
      ensures GraceFollowsWrites(now)
      ensures drift.lastHardSeekAt == old(drift.lastHardSeekAt)
    {
      if !attached || state.None? {
        return;
      }
      applyingRemoteState := true;
      rate := state.value.rate;
      Align(previous, force, v, now, serverNow);
      Transport(previous, force, v, now, serverNow);
    }

    /** A state from the room: a forced one always counts, another only if its revision is newer. */
    method SetRoomState(next: PlaybackState, force: bool, v: Reading, now: real, serverNow: real)
      modifies this`state, this`lastRevision
      modifies this`writes, this`pendingSeek, this`ignoreBufferUntil, this`recoveryUntil, drift
      modifies this`applyingRemoteState, this`rate, this`playTimer, this`pauses, this`softCorrectionSince
      modifies this`recoveryTimer, this`currentStatus
      ensures var taken := force || AcceptRevision(old(lastRevision), next.revision);
        && (if taken then state == Some(next) && lastRevision == next.revision
            else state == old(state) && lastRevision == old(lastRevision))
        && (if taken && attached
            then && AlignedFor(old(state), force, v, serverNow) && TransportedFor(old(state), force, v, now, serverNow)
                 && SettlesFor(old(state), now) && applyingRemoteState
            else PositionUntouched())
      ensures GraceFollowsWrites(now)
      ensures drift.lastHardSeekAt == old(drift.lastHardSeekAt)
    {
      if !force && !AcceptRevision(lastRevision, next.revision) {
        return;
      }
      var previous := state;
      lastRevision := next.revision;
      state := Some(next);
      Apply(previous, force, v, now, serverNow);
    }

    /** Heartbeats are sent by a host that has its element. */
    method UpdateHeartbeat()
      modifies this`heartbeating
      ensures heartbeating == (isHost && attached)
    {
      heartbeating := isHost && attached;
    }

    /** Binding the element, changing role, and realigning apply the current state by force. */
    method Attach(v: Reading, now: real, serverNow: real)
      modifies this`attached, this`checking, this`heartbeating
      modifies this`writes, this`pendingSeek, this`ignoreBufferUntil, this`recoveryUntil, drift
      modifies this`applyingRemoteState, this`rate, this`playTimer, this`pauses, this`softCorrectionSince
      modifies this`recoveryTimer, this`currentStatus
      ensures attached && checking && heartbeating == isHost && GraceFollowsWrites(now)
      ensures if state.Some? then AlignedFor(None, true, v, serverNow) && TransportedFor(None, true, v, now, serverNow)
              else PositionUntouched()
    {
      attached := true;
      checking := true;
      UpdateHeartbeat();
      Apply(None, true, v, now, serverNow);
    }

    method Realign(v: Reading, now: real, serverNow: real)
      modifies this`writes, this`pendingSeek, this`ignoreBufferUntil, this`recoveryUntil, drift
      modifies this`applyingRemoteState, this`rate, this`playTimer, this`pauses, this`softCorrectionSince
      modifies this`recoveryTimer, this`currentStatus
      ensures GraceFollowsWrites(now)
      ensures if attached && state.Some? then AlignedFor(None, true, v, serverNow) && TransportedFor(None, true, v, now, serverNow)
              else PositionUntouched()
    {
      Apply(None, true, v, now, serverNow);
    }

    method SetHost(value: bool, v: Reading, now: real, serverNow: real)
      modifies this`isHost, this`heartbeating
      modifies this`writes, this`pendingSeek, this`ignoreBufferUntil, this`recoveryUntil, drift
      modifies this`applyingRemoteState, this`rate, this`playTimer, this`pauses, this`softCorrectionSince
      modifies this`recoveryTimer, this`currentStatus
      ensures isHost == value && GraceFollowsWrites(now)
      ensures value == old(isHost) ==> unchanged(this) && unchanged(drift)
      ensures value != old(isHost) ==> heartbeating == (isHost && attached) && drift.holdUntil >= now + 3500.0
      ensures value != old(isHost) && attached && state.Some? ==>
        AlignedFor(None, true, v, serverNow) && (state.value.phase.Playing? ==> playTimer.Some?)
      ensures value != old(isHost) && !(attached && state.Some?) ==> PositionUntouched() && softCorrectionSince.None?
    {
      if isHost == value {
        return;
      }
      isHost := value;
      drift.Reset(now, DriftCorrector.POST_SEEK_SETTLE_MS);
      softCorrectionSince := None;
      UpdateHeartbeat();
      Apply(None, true, v, now, serverNow);
    }

    // -------------------------------------------------------------- the periodic check

    /** Carries out a correction; only a hard seek touches the position. */
    method ApplyCorrection(action: DriftCorrector.Correction, v: Reading, now: real)
      requires attached
      modifies this`writes, this`pendingSeek, this`ignoreBufferUntil, this`recoveryUntil, drift
      modifies this`rate, this`softCorrectionSince, this`currentStatus
      ensures !action.HardSeek? ==>
        PositionUntouched() && drift.View() == old(drift.View()) && recoveryUntil == old(recoveryUntil)
      ensures action.HardSeek? ==> SeekHandled(action.target, v, now)
      ensures rate == action.rate && GraceFollowsWrites(now)
      ensures softCorrectionSince == (if action.Noop? || action.HardSeek? then None
                                      else if old(softCorrectionSince).None? then Some(now) else old(softCorrectionSince))
      ensures currentStatus == Emitted(old(currentStatus),
        if action.HardSeek? then Correcting
        else if action.Noop? || now - softCorrectionSince.value < 2000.0 then Synced else Correcting)
      ensures drift.lastHardSeekAt == old(drift.lastHardSeekAt)
    {
      rate := action.rate;
      if action.HardSeek? {
        softCorrectionSince := None;
        EmitStatus(Correcting);
        Seek(action.target, v, now);
        return;
      }
      if action.Noop? {
        softCorrectionSince := None;
        EmitStatus(Synced);
        return;
      }
      if softCorrectionSince.None? {
        softCorrectionSince := Some(now);
      }
      EmitStatus(if now - softCorrectionSince.value >= CORRECTION_STATUS_DELAY_MS then Correcting else Synced);
    }

    method CompareAndCorrect(v: Reading, now: real, serverNow: real)
      requires attached && state.Some?
      modifies this`writes, this`pendingSeek, this`ignoreBufferUntil, this`recoveryUntil, drift
      modifies this`rate, this`softCorrectionSince, this`currentStatus
      ensures ComparedAt(v, now, serverNow) && SoughtOrNot(now) && GraceFollowsWrites(now)
    {
      var s := state.value;
      var expected := ExpectedPosition(s, serverNow);
      var action := drift.Correct(expected, v.currentTime * 1000.0, s.rate, now);
      if action.HardSeek? {
        FarIsNotNear(v.currentTime, expected);
      }
      ApplyCorrection(action, v, now);
    }

    /** The check every 750 ms. */
    method Tick(v: Reading, now: real, serverNow: real)
      modifies this`writes, this`pendingSeek, this`ignoreBufferUntil, this`recoveryUntil, drift
      modifies this`rate, this`softCorrectionSince, this`currentStatus, this`plays
      ensures Checked(v, now, serverNow, bufferSuspected)
      ensures SoughtOrNot(now) && GraceFollowsWrites(now)
    {
      if !attached || state.None? || v.readyState < HAVE_METADATA {
        return;
      }
      var s := state.value;
      if !s.phase.Playing? {
        return;
      }
      if serverNow + 20.0 < s.anchorTime as real {
        return;
      }
      if bufferSuspected || confirmedBuffering || v.readyState < HAVE_FUTURE_DATA {
        rate := s.rate;
        return;
      }
      if isHost {
        rate := s.rate;
        EmitStatus(Synced);
        if v.paused && !applyingRemoteState {
          TryPlay();
        }
        return;
      }
      CheckMember(v, now, serverNow);
    }

    /** The check of a member that plays undisturbed. */
    method CheckMember(v: Reading, now: real, serverNow: real)
      requires !isHost && Live(v, serverNow) && Undisturbed(v, bufferSuspected)
      modifies this`writes, this`pendingSeek, this`ignoreBufferUntil, this`recoveryUntil, drift
      modifies this`rate, this`softCorrectionSince, this`currentStatus, this`plays
      ensures Checked(v, now, serverNow, bufferSuspected)
      ensures SoughtOrNot(now) && GraceFollowsWrites(now)
    {
      if now < recoveryUntil {
        rate := state.value.rate;
        EmitStatus(Synced);
        if v.paused {
          TryPlay();
        }
        return;
      }
      CompareAndCorrect(v, now, serverNow);
      if v.paused {
        TryPlay();
      }
    }

    // -------------------------------------------------------------- buffering

    /** A stall is only suspected at first; its confirmation is armed for 1800 ms later, or for the end of
        the grace period of an own seek that came before. A seek that comes after does not move it. */
    method Waiting(v: Reading, now: real)
      modifies this`bufferSuspected, this`rate, this`softCorrectionSince, this`recoveryTimer, this`bufferConfirmTimer, drift
      ensures if !Starved(v) then unchanged(this) && unchanged(drift)
        else
          && bufferSuspected && recoveryTimer.None? && bufferConfirmTimer.Some?
          && rate == state.value.rate && softCorrectionSince.None?
          && drift.View() == DriftCorrector.Restarted(old(drift.View()), now, 0.0)
          && (old(bufferConfirmTimer).Some? ==> bufferConfirmTimer == old(bufferConfirmTimer))
          && (old(bufferConfirmTimer).None? ==>
                bufferConfirmTimer.value == MaxReal(now + 1800.0, ignoreBufferUntil))
      ensures drift.lastHardSeekAt == old(drift.lastHardSeekAt)
    {
      if !attached || state.None? || !state.value.phase.Playing? || v.readyState >= HAVE_FUTURE_DATA {
        return;
      }
      bufferSuspected := true;
      rate := state.value.rate;
      softCorrectionSince := None;
      drift.Reset(now, 0.0);
      recoveryTimer := None;
      if bufferConfirmTimer.Some? {
        return;
      }
      var delay := MaxReal(BUFFER_CONFIRM_MS, ignoreBufferUntil - now);
      bufferConfirmTimer := Some(now + delay);
    }

    /** The wait has lasted: a host reports it to the room once, a member only as telemetry. */
    method BufferConfirmFires(v: Reading)
      requires bufferConfirmTimer.Some?
      modifies this`bufferConfirmTimer, this`bufferSuspected, this`confirmedBuffering, this`currentStatus
      modifies this`hostBufferingReported, this`memberBufferingReported, this`pauses, this`sent
      ensures SendsProperly() && bufferConfirmTimer.None?
      ensures !Starved(v) ==>
        && !bufferSuspected && sent == old(sent) && pauses == old(pauses) && confirmedBuffering == old(confirmedBuffering)
        && hostBufferingReported == old(hostBufferingReported) && memberBufferingReported == old(memberBufferingReported)
        && currentStatus == old(currentStatus)
      ensures Starved(v) ==> confirmedBuffering && bufferSuspected == old(bufferSuspected) && currentStatus == Emitted(old(currentStatus), LocalBuffering)
      ensures Starved(v) && isHost ==>
        && hostBufferingReported && memberBufferingReported == old(memberBufferingReported)
        && (if old(hostBufferingReported) then sent == old(sent) && pauses == old(pauses)
            else sent == old(sent) + [Message(HostBufferingCommand, PositionMs(v))] && pauses == old(pauses) + 1)
      ensures Starved(v) && !isHost ==>
        && memberBufferingReported && hostBufferingReported == old(hostBufferingReported) && pauses == old(pauses)
        && sent == if old(memberBufferingReported) then old(sent) else old(sent) + [Message(MemberTelemetry(true), PositionMs(v))]
    {
      bufferConfirmTimer := None;
      if !attached || state.None? || !state.value.phase.Playing? || v.readyState >= HAVE_FUTURE_DATA {
        bufferSuspected := false;
        return;
      }
      confirmedBuffering := true;
      EmitStatus(LocalBuffering);
      if isHost && !hostBufferingReported {
        hostBufferingReported := true;
        PauseVideo();
        Post(HostBufferingCommand, PositionMs(v));
      } else if !isHost && !memberBufferingReported {
        memberBufferingReported := true;
        Post(MemberTelemetry(true), PositionMs(v));
      }
    }

    method CanPlay(v: Reading, now: real, serverNow: real)
      modifies this`bufferConfirmTimer, this`bufferSuspected, this`recoveryTimer
      modifies this`writes, this`pendingSeek, this`ignoreBufferUntil, this`recoveryUntil, drift
      modifies this`rate, this`softCorrectionSince, this`currentStatus, this`plays
      ensures bufferConfirmTimer.None? && !bufferSuspected
      ensures SoughtOrNot(now) && GraceFollowsWrites(now)
      ensures !confirmedBuffering ==> Checked(v, now, serverNow, false) && recoveryTimer == old(recoveryTimer)
      ensures confirmedBuffering ==>
        PositionUntouched() && drift.View() == old(drift.View()) && plays == old(plays) && recoveryTimer == Some(now + 600.0)
    {
      bufferConfirmTimer := None;
      bufferSuspected := false;
      if !confirmedBuffering {
        Tick(v, now, serverNow);
        return;
      }
      ScheduleRecovery(now);
    }

    method ScheduleRecovery(now: real)
      modifies this`recoveryTimer
      ensures recoveryTimer == Some(now + 600.0)
    {
      recoveryTimer := Some(now + BUFFER_RECOVERY_STABLE_MS);
    }

    /** Says that a reported stall is over. */
    method ReportRecovery(v: Reading)
      requires state.Some? && (isHost && hostBufferingReported ==> state.value.phase.Buffering?)
      modifies this`memberBufferingReported, this`sent
      ensures sent == old(sent) + Recovery(isHost, if isHost then hostBufferingReported else old(memberBufferingReported), v)
      ensures if isHost then memberBufferingReported == old(memberBufferingReported) else !memberBufferingReported
      ensures SendsProperly()
    {
      if isHost && hostBufferingReported {
        if state.value.phase.Buffering? {
          Post(HostReadyCommand, PositionMs(v));
        }
      } else if !isHost && memberBufferingReported {
        memberBufferingReported := false;
        Post(MemberTelemetry(false), PositionMs(v));
      }
    }

    /** Ends the stall on this side; drift is ignored for a while. */
    method Resume(now: real)
      requires attached && state.Some?
      modifies this`confirmedBuffering, this`recoveryUntil, drift, this`currentStatus, this`plays
      ensures !confirmedBuffering && recoveryUntil == now + 3500.0
      ensures drift.View() == DriftCorrector.Restarted(old(drift.View()), now, 3500.0)
      ensures currentStatus == Emitted(old(currentStatus), if state.value.phase.Buffering? then HostBuffering else Synced)
      ensures plays == old(plays) + if state.value.phase.Playing? && !autoplayBlocked then 1 else 0
      ensures drift.lastHardSeekAt == old(drift.lastHardSeekAt)
    {
      confirmedBuffering := false;
      recoveryUntil := now + DriftCorrector.POST_SEEK_SETTLE_MS;
      drift.Reset(now, DriftCorrector.POST_SEEK_SETTLE_MS);
      EmitStatus(if state.value.phase.Buffering? then HostBuffering else Synced);
      if state.value.phase.Playing? {
        TryPlay();
      }
    }

    /** Data has been flowing again for a while. A host that reported buffering says that it is ready
        only once the room itself is buffering. */
    method RecoveryFires(v: Reading, now: real)
      requires recoveryTimer.Some?
      modifies this`recoveryTimer, this`confirmedBuffering, this`recoveryUntil, drift
      modifies this`memberBufferingReported, this`sent, this`currentStatus, this`plays
      ensures SendsProperly() && recoveryTimer.None?
      ensures var flowing := attached && state.Some? && !bufferSuspected && v.readyState >= 3;
        if !flowing then
          && sent == old(sent) && confirmedBuffering == old(confirmedBuffering) && plays == old(plays)
          && memberBufferingReported == old(memberBufferingReported)
        else if isHost && hostBufferingReported && !state.value.phase.Buffering? then
          && confirmedBuffering && sent == old(sent) && plays == old(plays)
          && memberBufferingReported == old(memberBufferingReported)
        else
          && !confirmedBuffering && recoveryUntil == now + 3500.0 <= drift.holdUntil
          && currentStatus == Emitted(old(currentStatus), if state.value.phase.Buffering? then HostBuffering else Synced)
          && sent == old(sent) + Recovery(isHost, if isHost then hostBufferingReported else old(memberBufferingReported), v)
          && (!isHost ==> !memberBufferingReported)
          && plays == old(plays) + if state.value.phase.Playing? && !autoplayBlocked then 1 else 0
      ensures drift.lastHardSeekAt == old(drift.lastHardSeekAt)
    {
      recoveryTimer := None;
      if !attached || state.None? || bufferSuspected || v.readyState < HAVE_FUTURE_DATA {
        return;
      }
      var s := state.value;
      if isHost && hostBufferingReported && !s.phase.Buffering? {
        confirmedBuffering := true;
        return;
      }
      ReportRecovery(v);
      Resume(now);
    }

    /** The element knows its medium: a kept seek is retried and the room is told. */
    method LoadedMetadata(v: Reading, now: real)
      modifies this`writes, this`pendingSeek, this`ignoreBufferUntil, this`recoveryUntil, drift, this`sent
      ensures SendsProperly() && GraceFollowsWrites(now)
      ensures old(pendingSeek).None? ==> PositionUntouched()
      ensures old(pendingSeek).Some? ==> SeekHandled(old(pendingSeek).value, v, now)
      ensures |writes| + Kept() <= |old(writes)| + old(Kept())
      ensures drift.lastHardSeekAt == old(drift.lastHardSeekAt)
      ensures sent == old(sent) + if attached && state.Some? && state.value.mediaId != ""
                                  then [Message(ClientReady(state.value.mediaId, DurationMs(v)), 0)] else []
    {
      RetrySeek(v, now);
      if attached && state.Some? && state.value.mediaId != "" {
        Post(ClientReady(state.value.mediaId, DurationMs(v)), 0);
      }
    }

    // -------------------------------------------------------------- timers, promises and user actions

    method PlayTimerFires()
      requires playTimer.Some?
      modifies this`playTimer, this`plays
      ensures playTimer.None?
      ensures plays == old(plays) +
        if attached && state.Some? && state.value.phase.Playing? && !confirmedBuffering && !autoplayBlocked then 1 else 0
    {
      playTimer := None;
      if !confirmedBuffering && state.Some? && state.value.phase.Playing? {
        TryPlay();
      }
    }

    method PlaySettles(ok: bool)
      modifies this`autoplayBlocked, this`currentStatus
      ensures autoplayBlocked == !ok && currentStatus == if ok then old(currentStatus) else Some(AutoplayBlocked)
    {
      autoplayBlocked := !ok;
      if !ok {
        EmitStatus(AutoplayBlocked);
      }
    }

    /** The server's answer to `host_buffering` or `host_ready`. */
    method ReportSettles(kind: Outgoing, ok: bool)
      modifies this`hostBufferingReported, this`confirmedBuffering
      ensures hostBufferingReported ==
        (old(hostBufferingReported) && !(kind.HostBufferingCommand? && !ok) && !(kind.HostReadyCommand? && ok))
      ensures confirmedBuffering == (old(confirmedBuffering) || (kind.HostReadyCommand? && !ok))
    {
      if kind.HostBufferingCommand? && !ok {
        hostBufferingReported := false;
      } else if kind.HostReadyCommand? {
        if ok {
          hostBufferingReported := false;
        } else {
          confirmedBuffering := true;
        }
      }
    }

    method MicrotaskRuns()
      modifies this`applyingRemoteState
      ensures !applyingRemoteState
    {
      applyingRemoteState := false;
    }

    method Heartbeat(v: Reading)
      requires isHost
      modifies this`sent
      ensures SendsProperly()
      ensures sent == old(sent) + if attached then [Message(HostHeartbeat(v.paused, v.readyState), PositionMs(v))] else []
    {
      if attached {
        Post(HostHeartbeat(v.paused, v.readyState), PositionMs(v));
      }
    }

    method NativePause()
      modifies this`plays
      ensures plays == old(plays) +
        if attached && !isHost && !applyingRemoteState && state.Some? && state.value.phase.Playing? && !confirmedBuffering && !autoplayBlocked
        then 1 else 0
    {
      if !isHost && !applyingRemoteState && !confirmedBuffering && state.Some? && state.value.phase.Playing? {
        TryPlay();
      }
    }

    method VideoEnds(v: Reading)
      modifies this`sent
      ensures SendsProperly()
      ensures sent == old(sent) +
        if isHost && attached && v.duration.Some? then [Message(EndedCommand, Round(v.duration.value * 1000.0))] else []
    {
      if isHost && attached && v.duration.Some? {
        Post(EndedCommand, Round(v.duration.value * 1000.0));
      }
    }

    method OnUserPlay(v: Reading)
      modifies this`autoplayBlocked, this`sent
      ensures SendsProperly()
      ensures sent == old(sent) + if isHost && attached then [Message(PlayCommand, PositionMs(v))] else []
      ensures autoplayBlocked == (old(autoplayBlocked) && !(isHost && attached))
    {
      if !isHost || !attached {
        return;
      }
      autoplayBlocked := false;
      Post(PlayCommand, PositionMs(v));
    }

    method OnUserPause(v: Reading)
      modifies this`playTimer, this`pauses, this`sent
      ensures SendsProperly()
      ensures sent == old(sent) + if isHost && attached then [Message(PauseCommand, PositionMs(v))] else []
      ensures if isHost && attached then playTimer.None? && pauses == old(pauses) + 1 else playTimer == old(playTimer) && pauses == old(pauses)
    {
      if !isHost || !attached {
        return;
      }
      CancelScheduledPlay();
      PauseVideo();
      Post(PauseCommand, PositionMs(v));
    }

    method OnUserRateChange(newRate: real, v: Reading)
      modifies this`rate, this`sent
      ensures SendsProperly()
      ensures rate == if isHost && attached then newRate else old(rate)
      ensures sent == old(sent) +
        if isHost then [Message(RateCommand(newRate), if attached then PositionMs(v) else 0)] else []
    {
      if !isHost {
        return;
      }
      if attached {
        rate := newRate;
      }
      Post(RateCommand(newRate), if attached then PositionMs(v) else 0);
    }

    /** The one user action that is meant to move the position; a member's has no effect. */
    method OnUserSeek(positionMs: real, v: Reading, now: real)
      modifies this`writes, this`pendingSeek, this`ignoreBufferUntil, this`recoveryUntil, drift, this`pauses, this`sent
      ensures SendsProperly() && GraceFollowsWrites(now)
      ensures !isHost ==> PositionUntouched() && sent == old(sent) && pauses == old(pauses)
      ensures isHost ==>
        && SeekHandled(positionMs, v, now) && sent == old(sent) + [Message(SeekCommand, Round(positionMs))]
        && pauses == old(pauses) + if attached && state.Some? && state.value.phase.Playing? then 1 else 0
    {
      if !isHost {
        return;
      }
      Seek(positionMs, v, now);
      if state.Some? && state.value.phase.Playing? && attached {
        PauseVideo();
      }
      Post(SeekCommand, Round(positionMs));
    }

    /** The user lets playing begin where the browser had blocked it. */
    method ResumeLocal()
      modifies this`autoplayBlocked, this`plays
      ensures !autoplayBlocked && plays == old(plays) + if attached && !confirmedBuffering then 1 else 0
    {
      autoplayBlocked := false;
      TryPlay();
    }

    /** Stops a member's element when the room is closed. */
    method Suspend()
      modifies this`pauses
      ensures pauses == old(pauses) + if attached && !isHost then 1 else 0
    {
      if !isHost && attached {
        PauseVideo();
      }
    }
  }

  /** Positions are sent to the nearest millisecond. */
  lemma SentPosition(v: Reading)
    ensures -0.5 <= PositionMs(v) as real - v.currentTime * 1000.0 <= 0.5
    ensures v.duration.Some? ==> DurationMs(v).Some? && -0.5 <= DurationMs(v).value as real - v.duration.value * 1000.0 <= 0.5
    ensures v.duration.None? ==> DurationMs(v).None?
  {
  }

  /** Where the element can be set to: into a seekable range, with a twentieth of a second of tolerance, or
      once its medium is known, up to the end; unless it refuses. */
  lemma SeekableIff(v: Reading, seconds: real)
    ensures CanSeek(v, seconds) <==>
      && !v.seekThrows
      && (|| (v.readyState >= 1 && v.duration.Some? && seconds <= v.duration.value)
          || exists i | 0 <= i < |v.seekable| :: v.seekable[i].0 <= seconds + 0.05 && seconds - 0.05 <= v.seekable[i].1)
  {
    if i :| 0 <= i < |v.seekable| && v.seekable[i].0 <= seconds + 0.05 && seconds - 0.05 <= v.seekable[i].1 {
      assert v.seekable[i].0 - 0.05 <= seconds <= v.seekable[i].1 + 0.05;
    }
  }

  /** When a state aligns the element: it is forced, or the medium has changed, or, for a member, the timeline
      has jumped; the room neither buffers nor loads; and the element is 750 ms away. */
  lemma AlignsIff(previous: Option<PlaybackState>, next: PlaybackState, force: bool, isHost: bool, v: Reading, target: real)
    ensures Aligns(previous, next, force, isHost, v, target) <==>
      && (|| force
          || (previous.Some? && previous.value.mediaId != next.mediaId)
          || (!isHost && (|| previous.None? || previous.value.epoch != next.epoch
                          || (previous.value.phase == next.phase != Playing
                              && (previous.value.anchorPos - next.anchorPos >= 1000 || next.anchorPos - previous.value.anchorPos >= 1000)))))
      && next.phase !in {Buffering, Loading}
      && (v.currentTime * 1000.0 - target >= 750.0 || target - v.currentTime * 1000.0 >= 750.0)
  {
  }

  /** A position 750 ms away is never taken for the current one. */
  lemma FarIsNotNear(currentTime: real, target: real)
    requires AbsReal(currentTime * 1000.0 - target) >= ALIGN_ON_TRANSITION_MS
    requires target >= 0.0
    ensures AbsReal(currentTime - Seconds(target)) >= 0.05
  {
  }

  // ---------------------------------------------------------------- runs of a controller

  /** Everything that happens to a controller. */
  datatype Event =
    | RoomState(next: PlaybackState) | Snapshot(next: PlaybackState)
    | Attached | RoleChanged(host: bool) | Realigned
    | Check | Stall | StallConfirmed | Playable | Recovered | Progress | MetadataLoaded
    | PlayDue | PlaySettled(ok: bool) | ReportSettled(kind: Outgoing, ok: bool) | Microtask
    | HeartbeatDue | Paused | Ended
    | UserPlay | UserPause | UserRate(rate: real) | UserSeeks(positionMs: real)
    | LocallyResumed | Suspended

  /** What is meant to move the position: forced states, binding the element, a change of role,
      realigning, and seeks by the user. */
  predicate Moves(e: Event) {
    e.Snapshot? || e.Attached? || e.RoleChanged? || e.Realigned? || e.UserSeeks?
  }

  datatype Moment = Moment(e: Event, v: Reading, now: real, serverNow: real)

  /** Answers after which a host no longer counts as having reported a stall. */
  predicate Releases(e: Event) {
    e.ReportSettled? && ((e.kind.HostBufferingCommand? && !e.ok) || (e.kind.HostReadyCommand? && e.ok))
  }

  /** Events that may touch the position: new states, checks, and those that are meant to. */
  predicate Positions(e: Event) {
    Moves(e) || e.RoomState? || e.Check? || e.Playable?
  }

  /** What the element and its timers report about stalls and data. */
  predicate Streams(e: Event) {
    e.Stall? || e.StallConfirmed? || e.Recovered? || e.Progress? || e.MetadataLoaded?
  }

  method DispatchStream(c: Controller, m: Moment)
    requires Streams(m.e)
    modifies c, c.drift
    ensures c.LeftInPlace(m.now)
    ensures !m.e.StallConfirmed? && (m.e.Stall? ==> old(c.bufferConfirmTimer).Some?) ==>
      c.bufferConfirmTimer == old(c.bufferConfirmTimer)
    ensures old(c.Held()) && !old(c.InBuffering()) ==> c.Held() && c.plays == old(c.plays)
  {
    match m.e
    case Stall => c.Waiting(m.v, m.now);
    case StallConfirmed =>
      if c.bufferConfirmTimer.Some? {
        c.BufferConfirmFires(m.v);
      }
    case Recovered =>
      if c.recoveryTimer.Some? {
        c.RecoveryFires(m.v, m.now);
      }
    case Progress => c.RetrySeek(m.v, m.now);
    case MetadataLoaded => c.LoadedMetadata(m.v, m.now);
    case _ => assert false;
  }

  /** What the user does, other than seeking, and the page on closing. */
  predicate Acts(e: Event) {
    e.UserPlay? || e.UserPause? || e.UserRate? || e.LocallyResumed? || e.Suspended?
  }

  method DispatchUser(c: Controller, m: Moment)
    requires Acts(m.e)
    modifies c, c.drift
    ensures c.LeftInPlace(m.now) && c.bufferConfirmTimer == old(c.bufferConfirmTimer)
    ensures old(c.Held()) ==> c.Held() && c.plays == old(c.plays)
  {
    match m.e
    case UserPlay => c.OnUserPlay(m.v);
    case UserPause => c.OnUserPause(m.v);
    case UserRate(rate) => c.OnUserRateChange(rate, m.v);
    case LocallyResumed => c.ResumeLocal();
    case Suspended => c.Suspend();
    case _ => assert false;
  }

  /** Any event that is no state, no check and not meant to move the position, at whatever moment and
      with whatever the element reports. */
  method DispatchOther(c: Controller, m: Moment)
    requires !Positions(m.e)
    modifies c, c.drift
    ensures c.LeftInPlace(m.now)
    ensures !m.e.StallConfirmed? && (m.e.Stall? ==> old(c.bufferConfirmTimer).Some?) ==>
      c.bufferConfirmTimer == old(c.bufferConfirmTimer)
    ensures old(c.Held()) && !old(c.InBuffering()) && !Releases(m.e) ==> c.Held() && c.plays == old(c.plays)
  {
    if Streams(m.e) {
      DispatchStream(c, m);
      return;
    }
    if Acts(m.e) {
      DispatchUser(c, m);
      return;
    }
    match m.e
    case PlayDue =>
      if c.playTimer.Some? {
        c.PlayTimerFires();
      }
    case PlaySettled(ok) => c.PlaySettles(ok);
    case ReportSettled(kind, ok) => c.ReportSettles(kind, ok);
    case Microtask => c.MicrotaskRuns();
    case HeartbeatDue =>
      if c.isHost {
        c.Heartbeat(m.v);
      }
    case Paused => c.NativePause();
    case Ended => c.VideoEnds(m.v);
    case _ => assert false;
  }

  /** A new state, or an event that is meant to move the position. */
  method DispatchMove(c: Controller, m: Moment)
    requires Moves(m.e) || m.e.RoomState?
    modifies c, c.drift
    ensures !m.e.RoleChanged? ==> c.isHost == old(c.isHost)
    ensures if (m.e.RoomState? && AcceptRevision(old(c.lastRevision), m.e.next.revision)) || m.e.Snapshot?
            then c.state == Some(m.e.next) && c.lastRevision == m.e.next.revision
            else c.state == old(c.state) && c.lastRevision == old(c.lastRevision)
    ensures c.GraceFollowsWrites(m.now) && c.plays == old(c.plays) && c.bufferConfirmTimer == old(c.bufferConfirmTimer)
    ensures old(c.Held()) && m.e != RoleChanged(false) ==> c.Held()
  {
    match m.e
    case RoomState(next) => c.SetRoomState(next, false, m.v, m.now, m.serverNow);
    case Snapshot(next) => c.SetRoomState(next, true, m.v, m.now, m.serverNow);
    case Attached => c.Attach(m.v, m.now, m.serverNow);
    case RoleChanged(host) => c.SetHost(host, m.v, m.now, m.serverNow);
    case Realigned => c.Realign(m.v, m.now, m.serverNow);
    case UserSeeks(positionMs) => c.OnUserSeek(positionMs, m.v, m.now);
    case _ => assert false;
  }

  /** An event that may touch the position. */
  method DispatchPositions(c: Controller, m: Moment)
    requires Positions(m.e)
    modifies c, c.drift
    ensures !m.e.RoleChanged? ==> c.isHost == old(c.isHost)
    ensures if (m.e.RoomState? && AcceptRevision(old(c.lastRevision), m.e.next.revision)) || m.e.Snapshot?
            then c.state == Some(m.e.next) && c.lastRevision == m.e.next.revision
            else c.state == old(c.state) && c.lastRevision == old(c.lastRevision)
    ensures c.GraceFollowsWrites(m.now) && c.plays >= old(c.plays)
    ensures !m.e.Playable? ==> c.bufferConfirmTimer == old(c.bufferConfirmTimer)
    ensures old(c.Held()) && m.e != RoleChanged(false) ==> c.Held() && c.plays == old(c.plays)
  {
    if m.e.Check? {
      c.Tick(m.v, m.now, m.serverNow);
    } else if m.e.Playable? {
      c.CanPlay(m.v, m.now, m.serverNow);
    } else {
      DispatchMove(c, m);
    }
  }

  /** After any run of events whatsoever the next check starts the element exactly if it is idle: it stands
      still although the room plays past its anchor, it has data, no stall is suspected or confirmed, the
      browser does not block it, and a host is not just applying a state. */
  method DriveThenCheck(c: Controller, moments: seq<Moment>, last: Moment) returns (before: nat)
    modifies c, c.drift
    ensures old(c.plays) <= before
    ensures c.plays == before + if c.Idle(last.v, last.serverNow, c.bufferSuspected) then 1 else 0
  {
    var i := 0;
    while i < |moments|
      invariant 0 <= i <= |moments| && c.plays >= old(c.plays)
    {
      if Positions(moments[i].e) {
        DispatchPositions(c, moments[i]);
      } else {
        DispatchOther(c, moments[i]);
      }
      i := i + 1;
    }
    before := c.plays;
    c.Tick(last.v, last.now, last.serverNow);
  }

  /** The host is never sought by its own echo: over any run of events that are not meant to move the
      position, with states of one medium, a host's controller does not write the position once. */
  method DriveHost(c: Controller, moments: seq<Moment>, mediaId: string)
    requires c.isHost && c.pendingSeek.None?
    requires c.state.Some? ==> c.state.value.mediaId == mediaId
    requires forall i | 0 <= i < |moments| :: !Moves(moments[i].e)
    requires forall i | 0 <= i < |moments| :: moments[i].e.RoomState? ==> moments[i].e.next.mediaId == mediaId
    modifies c, c.drift
    ensures c.isHost && c.pendingSeek.None? && c.writes == old(c.writes)
  {
    var i := 0;
    while i < |moments|
      invariant 0 <= i <= |moments|
      invariant c.isHost && c.pendingSeek.None? && c.writes == old(c.writes)
      invariant c.state.Some? ==> c.state.value.mediaId == mediaId
    {
      var m := moments[i];
      if m.e.RoomState? {
        c.SetRoomState(m.e.next, false, m.v, m.now, m.serverNow);
      } else if m.e.Check? {
        c.Tick(m.v, m.now, m.serverNow);
      } else if m.e.Playable? {
        c.CanPlay(m.v, m.now, m.serverNow);
      } else {
        DispatchOther(c, m);
      }
      i := i + 1;
    }
  }

  /** A state of the stretch of timeline with this medium and epoch, playing. */
  predicate OnStretch(s: PlaybackState, mediaId: string, epoch: int) {
    s.mediaId == mediaId && s.epoch == epoch && s.phase.Playing?
  }

  /** A check, or data that lets the element play on. */
  method LookAgain(c: Controller, m: Moment)
    requires m.e.Check? || m.e.Playable?
    modifies c, c.drift
    ensures c.isHost == old(c.isHost) && c.state == old(c.state) && c.SoughtOrNot(m.now)
  {
    if m.e.Check? {
      c.Tick(m.v, m.now, m.serverNow);
    } else {
      c.CanPlay(m.v, m.now, m.serverNow);
    }
  }

  /** While the room plays on without a discontinuity, whatever heartbeats and changes of rate arrive or
      are skipped, a member's position is written at most once for every decision of the drift
      controller to seek (and once for a seek kept from before), and those decisions are at least
      twelve seconds apart. */
  method DriveMember(c: Controller, moments: seq<Moment>, mediaId: string, epoch: int) returns (ghost seeks: seq<real>)
    requires !c.isHost && c.state.Some? && OnStretch(c.state.value, mediaId, epoch)
    requires forall i | 0 <= i < |moments| :: !Moves(moments[i].e)
    requires forall i | 0 <= i < |moments| :: moments[i].e.RoomState? ==> OnStretch(moments[i].e.next, mediaId, epoch)
    modifies c, c.drift
    ensures |c.writes| + c.Kept() <= |old(c.writes)| + old(c.Kept()) + |seeks|
    ensures forall i | 0 <= i < |seeks| - 1 :: seeks[i + 1] - seeks[i] >= DriftCorrector.HARD_SEEK_COOLDOWN_MS
    ensures forall i | 0 <= i < |seeks| :: exists k | 0 <= k < |moments| :: moments[k].now == seeks[i]
  {
    seeks := [];
    var i := 0;
    while i < |moments|
      invariant 0 <= i <= |moments|
      invariant !c.isHost && c.state.Some? && OnStretch(c.state.value, mediaId, epoch)
      invariant |c.writes| + c.Kept() <= |old(c.writes)| + old(c.Kept()) + |seeks|
      invariant forall j | 0 <= j < |seeks| - 1 :: seeks[j + 1] - seeks[j] >= DriftCorrector.HARD_SEEK_COOLDOWN_MS
      invariant forall j | 0 <= j < |seeks| :: exists k | 0 <= k < i :: moments[k].now == seeks[j]
      invariant seeks != [] ==> c.drift.lastHardSeekAt == Some(seeks[|seeks| - 1])
    {
      var m := moments[i];
      if m.e.Check? || m.e.Playable? {
        ghost var before := c.drift.lastHardSeekAt;
        ghost var writesBefore, keptBefore := c.writes, c.pendingSeek;
        LookAgain(c, m);
        if !(c.writes == writesBefore && c.pendingSeek == keptBefore && c.drift.lastHardSeekAt == before) {
          seeks := seeks + [m.now];
        }
      } else if m.e.RoomState? {
        c.SetRoomState(m.e.next, false, m.v, m.now, m.serverNow);
      } else {
        DispatchOther(c, m);
      }
      i := i + 1;
    }
  }

  // ---------------------------------------------------------------- a host that holds its element for good

  /** A host that has reported a stall while the room is not buffering never starts its element again,
      whatever happens, until the room buffers, its report is refused, its recovery is acknowledged,
      or it is no longer host. */
  method DriveHeldHost(c: Controller, moments: seq<Moment>)
    requires c.Held() && !c.InBuffering()
    requires forall i | 0 <= i < |moments| :: !Releases(moments[i].e) && moments[i].e != RoleChanged(false)
    requires forall i | 0 <= i < |moments| ::
      moments[i].e.RoomState? || moments[i].e.Snapshot? ==> !moments[i].e.next.phase.Buffering?
    modifies c, c.drift
    ensures c.Held() && c.plays == old(c.plays)
  {
    var i := 0;
    while i < |moments|
      invariant 0 <= i <= |moments|
      invariant c.Held() && !c.InBuffering() && c.plays == old(c.plays)
    {
      if Positions(moments[i].e) {
        DispatchPositions(c, moments[i]);
      } else {
        DispatchOther(c, moments[i]);
      }
      i := i + 1;
    }
  }

  const SOME_MEDIUM := PlaybackState("m", 1, 0, Playing, 0, 0, 1.0, 0, None)
  const FLOWING := Reading(0.0, false, 4, Some(100.0), [(0.0, 100.0)], false)
  const STARVED := FLOWING.(readyState := 2)

  /** A host with its element, before it has heard of the room. */
  method AttachedHost() returns (c: Controller)
    ensures fresh(c) && fresh(c.drift) && c.isHost && c.attached && c.state.None? && c.lastRevision == -1
    ensures c.writes == [] && c.sent == [] && c.ignoreBufferUntil == 0.0 && c.bufferConfirmTimer.None? && !c.hostBufferingReported
  {
    c := new Controller(true);
    c.Attach(FLOWING, 0.0, 0.0);
  }

  /** A host whose element plays along. */
  method PlayingHost() returns (c: Controller)
    ensures fresh(c) && fresh(c.drift) && c.isHost && c.attached && c.state == Some(SOME_MEDIUM) && c.lastRevision == 1
    ensures c.writes == [] && c.sent == [] && c.ignoreBufferUntil == 0.0 && c.bufferConfirmTimer.None? && !c.hostBufferingReported
  {
    c := AttachedHost();
    c.SetRoomState(SOME_MEDIUM, false, FLOWING, 0.0, 0.0);
  }

  /** It stalls and reports that. */
  method StalledHost() returns (c: Controller)
    ensures fresh(c) && fresh(c.drift) && c.Held() && c.attached && c.state == Some(SOME_MEDIUM) && c.lastRevision == 1
    ensures |c.sent| == 1 && c.sent[0].kind.HostBufferingCommand?
  {
    c := PlayingHost();
    c.Waiting(STARVED, 1000.0);
    c.BufferConfirmFires(STARVED);
  }

  /** It is sent a newer state, and goes on holding its element. */
  method TakeState(c: Controller, next: PlaybackState, now: real)
    requires c.Held() && AcceptRevision(c.lastRevision, next.revision)
    modifies c, c.drift
    ensures c.Held() && c.attached == old(c.attached) && c.sent == old(c.sent)
    ensures c.state == Some(next) && c.lastRevision == next.revision
  {
    c.SetRoomState(next, false, STARVED, now, now);
  }

  /** Such a host comes about by pausing during a reported stall: the room was playing, buffers upon the
      report, and is then paused. */
  method StallThenPause() returns (c: Controller)
    ensures c.Held() && c.state == Some(SOME_MEDIUM.(phase := Phase.Paused, revision := 3))
    ensures |c.sent| == 2 && c.sent[0].kind.HostBufferingCommand? && c.sent[1].kind.PauseCommand?
  {
    c := StalledHost();
    TakeState(c, SOME_MEDIUM.(phase := Buffering, revision := 2), 3000.0);
    c.OnUserPause(STARVED);
    TakeState(c, SOME_MEDIUM.(phase := Phase.Paused, revision := 3), 4000.0);
  }

  /** A buffering state that finds data flowing does release it: the recovery that it schedules ends the
      stall and says so. */
  method BufferingReleases(c: Controller, next: PlaybackState, v: Reading, now: real, serverNow: real, later: real)
    requires c.Held() && c.attached && !c.bufferSuspected
    requires next.phase.Buffering? && AcceptRevision(c.lastRevision, next.revision) && v.readyState >= HAVE_FUTURE_DATA
    modifies c, c.drift
    ensures !c.confirmedBuffering && c.sent == old(c.sent) + [Message(HostReadyCommand, PositionMs(v))]
  {
    c.SetRoomState(next, false, v, now, serverNow);
    c.RecoveryFires(v, later);
  }

  // ---------------------------------------------------------------- confirming a stall during a seek's grace

  /** Between arming a confirmation and its coming due, whatever else happens: it is due inside the grace
      period of an own seek if and only if such a seek was made since, less than 2500 ms before. */
  method DriveArmed(c: Controller, moments: seq<Moment>) returns (ghost lastSeek: Option<real>)
    requires c.bufferConfirmTimer.Some? && c.bufferConfirmTimer.value >= c.ignoreBufferUntil
    requires forall i | 0 <= i < |moments| :: !moments[i].e.Playable? && !moments[i].e.StallConfirmed?
    modifies c, c.drift
    ensures c.bufferConfirmTimer == old(c.bufferConfirmTimer)
    ensures lastSeek.Some? ==> exists k | 0 <= k < |moments| :: moments[k].now == lastSeek.value
    ensures lastSeek.None? ==> c.writes == old(c.writes)
    ensures c.bufferConfirmTimer.value < c.ignoreBufferUntil
       <==> lastSeek.Some? && c.bufferConfirmTimer.value < lastSeek.value + PROGRAMMATIC_SEEK_BUFFER_GRACE_MS
  {
    lastSeek := None;
    var i := 0;
    while i < |moments|
      invariant 0 <= i <= |moments|
      invariant c.bufferConfirmTimer == old(c.bufferConfirmTimer)
      invariant lastSeek.Some? ==> exists k | 0 <= k < i :: moments[k].now == lastSeek.value
      invariant lastSeek.None? ==> c.writes == old(c.writes)
      invariant c.ignoreBufferUntil == if lastSeek.None? then old(c.ignoreBufferUntil)
                                       else lastSeek.value + PROGRAMMATIC_SEEK_BUFFER_GRACE_MS
    {
      var m := moments[i];
      ghost var before := c.writes;
      if Positions(m.e) {
        DispatchPositions(c, m);
      } else {
        DispatchOther(c, m);
      }
      if c.writes != before {
        lastSeek := Some(m.now);
      }
      i := i + 1;
    }
  }

  /** For example a stall at 0, whose confirmation is due at 1800, and a seek by the host at 1000. */
  method SeekAfterStall() returns (c: Controller)
    ensures c.bufferConfirmTimer == Some(1800.0) && c.ignoreBufferUntil == 3500.0 && |c.writes| == 1
  {
    c := PlayingHost();
    c.Waiting(STARVED, 0.0);
    c.OnUserSeek(5000.0, STARVED, 1000.0);
  }
}
