/** What every run of the room protocol keeps of the timeline: its sanity, its continuity, and the
    epoch that tells a discontinuity from a refresh. */
module RoomTimeline {
  import opened Basics
  import opened Playback
  import opened RoomProtocol
  import opened Counting

  // ---------------------------------------------------------------- every change is published

  predicate Quiet(e: Envelope) {
    !e.Snapshot? && !e.State?
  }

  ghost predicate QuietEffect<C>(effect: Effect<C>) {
    effect.Close? || Quiet(effect.e)
  }

  /** The result `r` of message `m` either leaves the playback state alone and says nothing about
      it, except for the snapshot a joiner gets, or it counts the revision up by one and ends with
      broadcasting the new state to exactly the remaining members. */
  ghost predicate Published<C>(core: Core<C>, m: Message<C>, r: Result<C>) {
    if r.core.playback == core.playback
    then forall i | 0 <= i < |r.effects| ::
           QuietEffect(r.effects[i])
           || (m.Join? && r.effects[i] == Send({m.client}, Snapshot(r.core.room, core.playback)))
    else
      && r.core.playback.revision == core.playback.revision + 1
      && |r.effects| > 0
      && r.effects[|r.effects| - 1] == Broadcast(Clients(r.core.members), State(r.core.playback))
      && (forall i | 0 <= i < |r.effects| - 1 :: QuietEffect(r.effects[i]))
  }

  lemma RetimeKeepsRevision(s: PlaybackState, f: Filter, kind: Kind, p: Payload, now: int)
    ensures var retiming := Retime(s, f, kind, p, now).1;
      retiming.Retimed? ==> retiming.playback.revision == s.revision
  {
  }

  lemma PlaybackStepPublishes<C>(core: Core<C>, m: Message<C>, kind: Kind, p: Payload, now: int, db: Db)
    ensures Published(core, m, PlaybackStep(core, kind, p, now, db))
  {
    RetimeKeepsRevision(core.playback, core.filter, kind, p, now);
  }

  lemma AdminStepPublishes<C>(core: Core<C>, m: Message<C>, p: Payload, now: int, db: Db)
    ensures Published(core, m, TransferStep(core, p, db))
    ensures Published(core, m, KickStep(core, p))
    ensures Published(core, m, CloseStep(core, db))
    ensures Published(core, m, MediaStep(core, p, now, db))
  {
  }

  lemma ClientReadyPublishes<C>(core: Core<C>, m: Message<C>, i: Identity, payload: Option<Payload>)
    requires i.id in core.members
    ensures Published(core, m, ClientReadyStep(core, i, payload))
  {
  }

  lemma ApplyStepPublishes<C>(core: Core<C>, m: Message<C>, i: Identity, c: Command, now: int, db: Db)
    ensures Published(core, m, ApplyStep(core, i, c, now, db))
  {
    if i.id in core.members {
      ClientReadyPublishes(core, m, i, c.payload);
    }
    if c.payload.Some? {
      AdminStepPublishes(core, m, c.payload.value, now, db);
      PlaybackStepPublishes(core, m, c.kind, c.payload.value, now, db);
    }
  }

  lemma Publication<C>(core: Core<C>, input: Input<C>)
    ensures Published(core, input.msg, Step(core, input))
  {
    if input.msg.Do? {
      ApplyStepPublishes(core, input.msg, input.msg.identity, input.msg.command, input.now, input.db);
    }
  }

  // ---------------------------------------------------------------- sanity

  ghost predicate SaneCheckpoint(cp: Option<Checkpoint>) {
    cp.Some? ==> cp.value.position >= 0 && ValidRate(cp.value.rate)
  }

  ghost predicate SaneCore<C>(core: Core<C>) {
    Sane(core.playback) && SaneCheckpoint(core.saved)
  }

  lemma RetimeIsSane(s: PlaybackState, f: Filter, kind: Kind, p: Payload, now: int)
    requires Sane(s) && p.positionMs >= 0
    ensures var retiming := Retime(s, f, kind, p, now).1;
      retiming.Retimed? ==> Sane(retiming.playback)
  {
  }

  lemma PlaybackStepIsSane<C>(core: Core<C>, kind: Kind, p: Payload, now: int, db: Db)
    requires SaneCore(core)
    ensures SaneCore(PlaybackStep(core, kind, p, now, db).core)
  {
    if InRange(core.playback, p) {
      RetimeIsSane(core.playback, core.filter, kind, p, now);
    }
  }

  lemma AdminStepIsSane<C>(core: Core<C>, p: Payload, now: int, db: Db)
    requires SaneCore(core)
    ensures SaneCore(TransferStep(core, p, db).core)
    ensures SaneCore(KickStep(core, p).core)
    ensures SaneCore(CloseStep(core, db).core)
    ensures SaneCore(MediaStep(core, p, now, db).core)
  {
    UnitRateIsValid();
  }

  lemma ApplyStepIsSane<C>(core: Core<C>, i: Identity, c: Command, now: int, db: Db)
    requires SaneCore(core)
    ensures SaneCore(ApplyStep(core, i, c, now, db).core)
  {
    if c.payload.Some? {
      AdminStepIsSane(core, c.payload.value, now, db);
      PlaybackStepIsSane(core, c.kind, c.payload.value, now, db);
    }
  }

  lemma SaneStep<C>(core: Core<C>, input: Input<C>)
    requires SaneCore(core)
    ensures SaneCore(Step(core, input).core)
  {
    if input.msg.Do? {
      ApplyStepIsSane(core, input.msg.identity, input.msg.command, input.now, input.db);
    }
  }

  lemma {:induction false} SaneRun<C>(room: Room, cp: Option<Checkpoint>, inputs: seq<Input<C>>)
    requires SaneCheckpoint(cp)
    ensures SaneCore(Run(NewActor(room, cp), inputs))
  {
    if inputs == [] {
      UnitRateIsValid();
    } else {
      SaneRun(room, cp, inputs[..|inputs| - 1]);
      SaneStep(Run(NewActor(room, cp), inputs[..|inputs| - 1]), inputs[|inputs| - 1]);
    }
  }

  /** In every reachable room the two timelines agree at every millisecond and run forward only. */
  lemma ReachableTimelinesAgree<C>(room: Room, cp: Option<Checkpoint>, inputs: seq<Input<C>>, t0: int, t1: int)
    requires SaneCheckpoint(cp)
    requires t0 <= t1
    ensures var s := Run(NewActor<C>(room, cp), inputs).playback;
      && Expected(s, t0) == ExpectedPosition(s, t0 as real).Floor
      && 0 <= Expected(s, t0) <= Expected(s, t1)
      && ExpectedPosition(s, t0 as real) <= ExpectedPosition(s, t1 as real)
  {
    var s := Run(NewActor<C>(room, cp), inputs).playback;
    SaneRun(room, cp, inputs);
    TimelinesAgree(s, t0);
    ExpectedAdvance(s, t0, t1);
    ExpectedPositionMonotone(s, t0 as real, t1 as real);
  }

  // ---------------------------------------------------------------- continuity

  ghost predicate Performs<C>(core: Core<C>, input: Input<C>, kind: Kind) {
    input.msg.Do? && input.msg.command.kind == kind && Step(core, input).reply.Done?
  }

  /** The current host leaves, by an accepted farewell. */
  ghost predicate HostLeaves<C>(core: Core<C>, input: Input<C>) {
    && input.msg.Leave? && input.msg.id in core.members
    && (input.msg.only.Some? ==> core.members[input.msg.id].client == input.msg.only.value)
    && input.msg.id == core.room.host
  }

  /** The host leaves an open room, which is the only leave that pauses the timeline. */
  ghost predicate HostDeparts<C>(core: Core<C>, input: Input<C>) {
    HostLeaves(core, input) && core.room.status.Open?
  }

  /** The only messages that may move the timeline at the instant they are handled: those by which
      the host states a position, selects a medium, announces a medium's length, or gets the anchor
      refreshed by a confirmed heartbeat. */
  ghost predicate Repositions<C>(core: Core<C>, input: Input<C>) {
    || Performs(core, input, Play) || Performs(core, input, Pause) || Performs(core, input, Seek)
    || Performs(core, input, HostBuffering) || Performs(core, input, EndPlayback)
    || Performs(core, input, SetMedia)
    || (input.msg.Do? && input.msg.command.kind in {ClientReady, HostTelemetry} && Republishes(core, input))
  }

  ghost predicate Republishes<C>(core: Core<C>, input: Input<C>) {
    var reply := Step(core, input).reply;
    reply.Done? && reply.state.Some?
  }

  /** Everything else keeps the position, in particular a change of rate, the host's departure and
      the recovery from buffering, which also schedules the restart from the held anchor. */
  lemma PositionContinuity<C>(core: Core<C>, input: Input<C>)
    requires !Repositions(core, input)
    ensures Expected(Step(core, input).core.playback, input.now) == Expected(core.playback, input.now)
  {
    if HostDeparts(core, input) {
      ReanchorKeepsPosition(core.playback, input.now, Paused, core.playback.rate);
    } else if input.msg.Do? && input.msg.command.kind.Rate? && input.msg.command.payload.Some? {
      ReanchorKeepsPosition(core.playback, input.now, core.playback.phase, input.msg.command.payload.value.playbackRate);
    }
  }

  /** The phase a positioned command leaves the room in. */
  function PhaseAfter(kind: Kind, phase: Phase): Phase {
    match kind
    case Play => Playing
    case Pause => Paused
    case HostBuffering => Buffering
    case EndPlayback => Ended
    case _ => phase
  }

  lemma RetimedPosition(s: PlaybackState, f: Filter, kind: Kind, p: Payload, now: int, t: int)
    requires kind in {Play, Pause, Seek, HostBuffering, EndPlayback}
    ensures var retiming := Retime(s, f, kind, p, now).1;
      retiming.Retimed? && var s' := retiming.playback;
      && s'.phase == PhaseAfter(kind, s.phase) && s'.duration == s.duration && s'.rate == s.rate
      && Expected(s', t) == Clamp(
           if s'.phase.Playing? && t > now + SCHEDULE_LEAD_MS
           then p.positionMs + Trunc(Span(t - (now + SCHEDULE_LEAD_MS), s.rate)) else p.positionMs, s.duration)
  {
  }

  /** After a command that states a position the timeline stands at that position: for good unless
      it plays, and else until 350 ms later, from when on it advances at the room's rate. */
  lemma CommandedPosition<C>(core: Core<C>, input: Input<C>, t: int)
    requires input.msg.Do? && input.msg.command.kind in {Play, Pause, Seek, HostBuffering, EndPlayback}
    requires Performs(core, input, input.msg.command.kind)
    ensures input.msg.command.payload.Some?
    ensures var s, s' := core.playback, Step(core, input).core.playback;
            var position, start := input.msg.command.payload.value.positionMs, input.now + SCHEDULE_LEAD_MS;
      && s'.phase == PhaseAfter(input.msg.command.kind, s.phase) && s'.revision == s.revision + 1
      && Expected(s', t) == Clamp(
           if s'.phase.Playing? && t > start then position + Trunc(Span(t - start, s.rate)) else position, s.duration)
  {
    var c := input.msg.command;
    if c.payload.Some? {
      RetimedPosition(core.playback, core.filter, c.kind, c.payload.value, input.now, t);
      RetimeKeepsRevision(core.playback, core.filter, c.kind, c.payload.value, input.now);
      ExpectedIgnoresRevision(Retime(core.playback, core.filter, c.kind, c.payload.value, input.now).1.playback,
                              core.playback.revision + 1, t);
    }
  }

  // ---------------------------------------------------------------- discontinuities

  ghost predicate Discontinuity<C>(core: Core<C>, input: Input<C>) {
    Performs(core, input, Seek) || Performs(core, input, SetMedia)
  }

  /** Which messages of a run were discontinuities. */
  ghost function Discontinuities<C>(core: Core<C>, inputs: seq<Input<C>>): seq<bool> {
    seq(|inputs|, k requires 0 <= k < |inputs| => Discontinuity(At(core, inputs, k), inputs[k]))
  }

  lemma EpochStep<C>(core: Core<C>, input: Input<C>)
    ensures Step(core, input).core.playback.epoch
         == core.playback.epoch + (if Discontinuity(core, input) then 1 else 0)
  {
  }

  /** The epoch along a run. */
  ghost function Epochs<C>(core: Core<C>, inputs: seq<Input<C>>): seq<int> {
    seq(|inputs| + 1, k requires 0 <= k <= |inputs| => At(core, inputs, k).playback.epoch)
  }

  lemma EpochAt<C>(core: Core<C>, inputs: seq<Input<C>>, k: nat)
    requires k < |inputs|
    ensures UpBy(Epochs(core, inputs)[k], Epochs(core, inputs)[k + 1], Discontinuities(core, inputs)[k])
  {
    AtNext(core, inputs, k);
    EpochStep(At(core, inputs, k), inputs[k]);
  }

  lemma EpochCounts<C>(core: Core<C>, inputs: seq<Input<C>>, i: nat, j: nat)
    requires i <= j <= |inputs|
    ensures At(core, inputs, j).playback.epoch
         == At(core, inputs, i).playback.epoch + Count(Discontinuities(core, inputs), i, j)
  {
    forall k | 0 <= k < |inputs|
      ensures UpBy(Epochs(core, inputs)[k], Epochs(core, inputs)[k + 1], Discontinuities(core, inputs)[k])
    {
      EpochAt(core, inputs, k);
    }
    CountedUp(Epochs(core, inputs), Discontinuities(core, inputs), i, j);
    assert Epochs(core, inputs)[i] == At(core, inputs, i).playback.epoch;
    assert Epochs(core, inputs)[j] == At(core, inputs, j).playback.epoch;
  }

  /** However many states in between a browser has skipped, it reports a jump between two states of
      one run with the same medium exactly when a seek or a change of medium happened between them,
      or when both are in one phase that does not advance and their anchors are a second apart.
      Between two playing states only the former counts: heartbeats, changes of rate and lengths
      announced in between are never mistaken for a seek. */
  lemma JumpIffDiscontinuity<C>(core: Core<C>, inputs: seq<Input<C>>, i: nat, j: nat)
    requires i <= j <= |inputs|
    requires At(core, inputs, i).playback.mediaId == At(core, inputs, j).playback.mediaId
    ensures var earlier, later := At(core, inputs, i).playback, At(core, inputs, j).playback;
      IsTimelineJump(Some(earlier), later)
      <==>
      || (exists k | i <= k < j :: Discontinuities(core, inputs)[k])
      || (earlier.phase == later.phase != Playing && Abs(earlier.anchorPos - later.anchorPos) >= 1000)
  {
    EpochCounts(core, inputs, i, j);
    CountPositive(Discontinuities(core, inputs), i, j);
  }
}
