/** The heartbeat filter over whole runs: what it takes to refresh the anchor, and how often that
    can happen. */
module RoomHeartbeat {
  import opened Basics
  import opened Playback
  import opened RoomProtocol
  import opened Counting
  import RoomTimeline
  import RoomPresence
  import RoomCommands

  /** A heartbeat of the connected host that is let through to the filter. */
  ghost predicate Sampled<C>(core: Core<C>, input: Input<C>) {
    && input.msg.Do? && input.msg.command.kind.HostTelemetry?
    && input.msg.identity.id in core.members && input.msg.identity.id == core.room.host
    && input.msg.command.payload.Some?
    && InRange(core.playback, input.msg.command.payload.value)
  }

  /** A heartbeat that was answered with a new playback state. */
  ghost predicate Refresh<C>(core: Core<C>, input: Input<C>) {
    && input.msg.Do? && input.msg.command.kind.HostTelemetry?
    && RoomTimeline.Republishes(core, input)
  }

  /** A sample that speaks for moving the anchor in `direction`. */
  ghost predicate Evidence<C>(core: Core<C>, input: Input<C>, direction: int) {
    && Sampled(core, input)
    && var p := input.msg.command.payload.value;
    && Healthy(core.playback, p)
    && Abs(HostDrift(core.playback, p, input.now)) >= HOST_DRIFT_THRESHOLD_MS
    && Sign(HostDrift(core.playback, p, input.now)) == direction
  }

  /** Everything a drift is measured against, except the medium's length. */
  predicate SameReference(s: PlaybackState, t: PlaybackState) {
    && s.phase == t.phase && s.mediaId == t.mediaId && s.epoch == t.epoch
    && s.anchorPos == t.anchorPos && s.anchorTime == t.anchorTime && s.rate == t.rate
  }

  // ---------------------------------------------------------------- one message

  ghost predicate FilterOk(f: Filter) {
    f.samples >= 0 && f.direction in {-1, 0, 1} && (f.direction != 0 ==> f.samples >= 1)
  }

  /** A message that reaches the filter: it counts as evidence, or it clears the filter, or it
      refreshes the anchor, for which a sample in the same direction must already be held. */
  lemma SampleStep<C>(core: Core<C>, input: Input<C>)
    requires Sampled(core, input)
    requires FilterOk(core.filter)
    ensures var core' := Step(core, input).core;
      && FilterOk(core'.filter)
      && (Refresh(core, input) ==>
            && core.filter.samples >= 1 && Evidence(core, input, core.filter.direction)
            && core'.filter == Filter(0, 0, input.now)
            && (core.filter.lastUpdate > 0 ==> input.now - core.filter.lastUpdate >= HOST_ANCHOR_MIN_INTERVAL_MS))
      && (!Refresh(core, input) ==>
            && core'.playback == core.playback && core'.filter.lastUpdate == core.filter.lastUpdate
            && (core'.filter.samples >= 1 ==> Evidence(core, input, core'.filter.direction)))
  {
  }

  lemma RetimeFilter(s: PlaybackState, f: Filter, kind: Kind, p: Payload, now: int)
    requires !kind.HostTelemetry?
    ensures var (f', retiming) := Retime(s, f, kind, p, now);
      f' == Cleared(f) || (f' == f && retiming.Refused?)
  {
  }

  /** Any other message that leaves a playing room with evidence has kept the evidence and what it was
      measured against, except possibly the medium's length. */
  lemma OtherStep<C>(core: Core<C>, input: Input<C>)
    requires !Sampled(core, input)
    requires FilterOk(core.filter)
    ensures var core' := Step(core, input).core;
      && FilterOk(core'.filter)
      && !Refresh(core, input)
      && core'.filter.lastUpdate == core.filter.lastUpdate
      && (core'.filter.samples >= 1 && core'.playback.phase.Playing? ==>
            core'.filter == core.filter && SameReference(core'.playback, core.playback))
  {
    if input.msg.Do? && input.msg.command.payload.Some? && !input.msg.command.kind.HostTelemetry? {
      RetimeFilter(core.playback, core.filter, input.msg.command.kind, input.msg.command.payload.value, input.now);
    }
  }

  /** A sample taken while the host really plays, at least 750 ms away from the timeline. */
  predicate Telling(s: PlaybackState, p: Payload, now: int) {
    && s.phase == Playing && !p.paused && p.readyState >= 3
    && (p.positionMs - Expected(s, now) >= 750 || p.positionMs - Expected(s, now) <= -750)
  }

  function Direction(s: PlaybackState, p: Payload, now: int): int {
    if p.positionMs < Expected(s, now) then -1 else 1
  }

  /** A sample refreshes the anchor if and only if it is telling, a telling one in the same direction is
      held, and the last refresh, if any, is 15 seconds ago. It is held if it is telling and does not
      refresh; otherwise nothing is held any more. */
  lemma RefreshIff<C>(core: Core<C>, input: Input<C>)
    requires RoomCommands.Steers(core, input, HostTelemetry)
    ensures var s, f, p, now := core.playback, core.filter, input.msg.command.payload.value, input.now;
            var same := f.direction == Direction(s, p, now) && f.samples >= 1;
      && (Refresh(core, input) <==> Telling(s, p, now) && same && (f.lastUpdate <= 0 || now - f.lastUpdate >= 15000))
      && Step(core, input).core.filter ==
           if Refresh(core, input) then Filter(0, 0, now)
           else if !Telling(s, p, now) then Filter(0, 0, f.lastUpdate)
           else Filter(if f.direction == Direction(s, p, now) then f.samples + 1 else 1, Direction(s, p, now), f.lastUpdate)
  {
  }

  /** The timeline goes on from the refreshing sample, at the same rate; nothing else changes. */
  lemma RefreshMoves<C>(core: Core<C>, input: Input<C>)
    requires RoomCommands.Steers(core, input, HostTelemetry)
    ensures var s, s', p := core.playback, Step(core, input).core.playback, input.msg.command.payload.value;
      if Refresh(core, input) then
        && RoomCommands.RunsFrom(s', p.positionMs, input.now, s.rate) && RoomCommands.SameFilm(s, s')
        && s'.phase == s.phase && s'.rate == s.rate && s'.epoch == s.epoch && s'.resumeIntent == s.resumeIntent
      else s' == s
  {
    if Refresh(core, input) {
      RoomCommands.AnchoredRuns(Step(core, input).core.playback);
    }
  }

  // ---------------------------------------------------------------- confirmation

  /** Message `j` is the last sample before message `k`, and it is evidence in `direction`
      measured against the reference that still holds at `k`. */
  ghost predicate Confirms<C>(core: Core<C>, inputs: seq<Input<C>>, j: nat, k: nat, direction: int)
    requires j < k <= |inputs|
  {
    && Evidence(At(core, inputs, j), inputs[j], direction)
    && (forall m | j < m < k :: !Sampled(At(core, inputs, m), inputs[m]))
    && SameReference(At(core, inputs, j).playback, At(core, inputs, k).playback)
  }

  ghost predicate Held<C>(core: Core<C>, inputs: seq<Input<C>>, k: nat)
    requires k <= |inputs|
  {
    var now := At(core, inputs, k);
    && FilterOk(now.filter)
    && (now.filter.samples >= 1 && now.playback.phase.Playing? ==>
          exists j | 0 <= j < k :: Confirms(core, inputs, j, k, now.filter.direction))
  }

  lemma ConfirmsStep<C>(core: Core<C>, inputs: seq<Input<C>>, j: nat, k: nat, direction: int)
    requires j < k < |inputs|
    requires Confirms(core, inputs, j, k, direction) && !Sampled(At(core, inputs, k), inputs[k])
    requires SameReference(At(core, inputs, k).playback, At(core, inputs, k + 1).playback)
    ensures Confirms(core, inputs, j, k + 1, direction)
  {
  }

  lemma HeldStep<C>(core: Core<C>, inputs: seq<Input<C>>, k: nat)
    requires k < |inputs|
    requires Held(core, inputs, k)
    ensures Held(core, inputs, k + 1)
  {
    var before, after := At(core, inputs, k), At(core, inputs, k + 1);
    AtNext(core, inputs, k);
    if Sampled(before, inputs[k]) {
      SampleStep(before, inputs[k]);
      if after.filter.samples >= 1 {
        assert Confirms(core, inputs, k, k + 1, after.filter.direction);
      }
    } else {
      OtherStep(before, inputs[k]);
      if after.filter.samples >= 1 && after.playback.phase.Playing? {
        var j :| 0 <= j < k && Confirms(core, inputs, j, k, before.filter.direction);
        ConfirmsStep(core, inputs, j, k, before.filter.direction);
      }
    }
  }

  lemma {:induction false} AlwaysHeld<C>(room: Room, cp: Option<Checkpoint>, inputs: seq<Input<C>>, k: nat)
    requires k <= |inputs|
    ensures Held(NewActor(room, cp), inputs, k)
  {
    if k > 0 {
      AlwaysHeld(room, cp, inputs, k - 1);
      HeldStep(NewActor(room, cp), inputs, k - 1);
    }
  }

  /** The anchor is refreshed only by a sample that is evidence in the same direction as the sample
      immediately before it, both taken while playing and measured against the same medium, epoch,
      anchor position, anchor time and rate. */
  lemma RefreshIsConfirmed<C>(room: Room, cp: Option<Checkpoint>, inputs: seq<Input<C>>, k: nat)
    requires k < |inputs|
    requires Refresh(At(NewActor(room, cp), inputs, k), inputs[k])
    ensures exists j, direction | 0 <= j < k ::
      && Confirms(NewActor(room, cp), inputs, j, k, direction)
      && Evidence(At(NewActor(room, cp), inputs, k), inputs[k], direction)
  {
    var core := NewActor<C>(room, cp);
    var before := At(core, inputs, k);
    AlwaysHeld(room, cp, inputs, k);
    if !Sampled(before, inputs[k]) {
      OtherStep(before, inputs[k]);
    } else {
      SampleStep(before, inputs[k]);
      var j :| 0 <= j < k && Confirms(core, inputs, j, k, before.filter.direction);
    }
  }

  // ---------------------------------------------------------------- under which length it was measured

  /** A position that the length does not cut off; zero means that no length is known. */
  predicate Fits(position: int, length: int) { length == 0 || position <= length }

  /** For a timeline that has run to `position` it makes no difference which of the two lengths is known. */
  predicate LengthIrrelevant(position: int, before: int, after: int) {
    before == after || (Fits(position, before) && Fits(position, after))
  }

  lemma SameClamp(position: int, before: int, after: int)
    requires position >= 0 && before >= 0 && after >= 0
    ensures Clamp(position, before) == Clamp(position, after) <==> LengthIrrelevant(position, before, after)
  {
  }

  lemma SameUnclamped(s: PlaybackState, t: PlaybackState, now: int)
    requires SameReference(s, t) && Sane(s)
    ensures Unclamped(s, now) == Unclamped(t, now) >= 0
  {
    ValidRateBounds(s.rate);
    UnclampedAdvance(s, if now < s.anchorTime then now else s.anchorTime, now);
  }

  /** The length may have changed between the confirming sample and the refresh: the confirming sample
      has the same drift under the length that is known at the refresh if and only if that change
      makes no difference to where the timeline then was. */
  lemma ConfirmedUnderOneLength<C>(room: Room, cp: Option<Checkpoint>, inputs: seq<Input<C>>, j: nat, k: nat, direction: int)
    requires RoomTimeline.SaneCheckpoint(cp) && j < k <= |inputs|
    requires Confirms(NewActor<C>(room, cp), inputs, j, k, direction)
    ensures var s, t := At(NewActor<C>(room, cp), inputs, j).playback, At(NewActor<C>(room, cp), inputs, k).playback;
            var p, now := inputs[j].msg.command.payload.value, inputs[j].now;
      HostDrift(t, p, now) == HostDrift(s, p, now) <==> LengthIrrelevant(Unclamped(s, now), s.duration, t.duration)
  {
    var s, t := At(NewActor<C>(room, cp), inputs, j).playback, At(NewActor<C>(room, cp), inputs, k).playback;
    var now := inputs[j].now;
    RoomTimeline.SaneRun(room, cp, inputs[..j]);
    RoomTimeline.SaneRun(room, cp, inputs[..k]);
    ValidRateBounds(s.rate);
    ExpectedIsClamped(s, now);
    ExpectedIsClamped(t, now);
    SameUnclamped(s, t, now);
    SameClamp(Unclamped(s, now), s.duration, t.duration);
  }

  // ---------------------------------------------------------------- which messages touch the filter

  /** An accepted order of the host's, other than a heartbeat, that passes the range check. */
  ghost predicate Steers<C>(core: Core<C>, input: Input<C>) {
    && input.msg.Do?
    && input.msg.command.kind in {Play, Pause, Seek, Rate, HostBuffering, HostReady, EndPlayback}
    && Authorized(core, input.msg.identity, input.msg.command.kind)
    && input.msg.command.payload.Some? && InRange(core.playback, input.msg.command.payload.value)
  }

  /** Exactly the steering orders clear the held evidence, even those that have no consequence or are
      refused for their rate; exactly the samples update it. Everything else, in particular a change
      of medium, of the host, or of who is present, leaves the filter as it is. */
  lemma FilterStep<C>(core: Core<C>, input: Input<C>)
    ensures Step(core, input).core.filter ==
      if Steers(core, input) then Cleared(core.filter)
      else if Sampled(core, input)
      then AcceptSample(core.playback, core.filter, input.msg.command.payload.value, input.now).0
      else core.filter
  {
    if input.msg.Do? && input.msg.command.payload.Some? {
      var kind, p := input.msg.command.kind, input.msg.command.payload.value;
      if !IsAdmin(kind) || kind.UnknownAdmin? {
        PlaybackFilter(core, kind, p, input.now, input.db);
      }
    }
  }

  lemma PlaybackFilter<C>(core: Core<C>, kind: Kind, p: Payload, now: int, db: Db)
    ensures PlaybackStep(core, kind, p, now, db).core.filter ==
      if InRange(core.playback, p) then Retime(core.playback, core.filter, kind, p, now).0 else core.filter
  {
  }

  // ---------------------------------------------------------------- whose evidence it is

  /** Handing the role to somebody else who is present, with the store's consent, or a takeover after
      the grace period. */
  ghost predicate ChangesHost<C>(core: Core<C>, input: Input<C>) {
    match input.msg
    case Do(i, c) =>
      && c.kind.TransferHost? && Authorized(core, i, c.kind) && c.payload.Some? && input.db.transferOk
      && var target := c.payload.value.targetUserId;
         target != core.room.host && target in core.members && !core.members[target].identity.guest
    case ExpireHost(hostId) =>
      && core.room.status.HostDisconnected? && core.room.host == hostId
      && Successor(input.db.memberIds, core.members, hostId) != ""
    case _ => false
  }

  /** Who becomes host by such a message. */
  ghost function Appointee<C>(core: Core<C>, input: Input<C>): string
    requires ChangesHost(core, input)
  {
    match input.msg
    case Do(_, c) => c.payload.value.targetUserId
    case ExpireHost(hostId) => Successor(input.db.memberIds, core.members, hostId)
  }

  /** The host changes exactly by those messages, and to whom they appoint. */
  lemma HostStep<C>(core: Core<C>, input: Input<C>)
    ensures Step(core, input).core.room.host != core.room.host <==> ChangesHost(core, input)
    ensures ChangesHost(core, input) ==> Step(core, input).core.room.host == Appointee(core, input)
  {
    if input.msg.ExpireHost? {
      RoomPresence.SuccessorIsFirst(input.db.memberIds, core.members, input.msg.hostId);
    } else if input.msg.Do? && input.msg.command.payload.Some? {
      var kind := input.msg.command.kind;
      if !IsAdmin(kind) || kind.UnknownAdmin? {
        assert PlaybackStep(core, kind, input.msg.command.payload.value, input.now, input.db).core.room == core.room;
      }
    }
  }

  /** Which messages of a run changed the host. */
  ghost function HostChanges<C>(core: Core<C>, inputs: seq<Input<C>>): seq<bool> {
    seq(|inputs|, k requires 0 <= k < |inputs| => ChangesHost(At(core, inputs, k), inputs[k]))
  }

  /** The host along a run, and whom each change appoints. */
  ghost function Hosts<C>(core: Core<C>, inputs: seq<Input<C>>): seq<string> {
    seq(|inputs| + 1, k requires 0 <= k <= |inputs| => At(core, inputs, k).room.host)
  }

  lemma HostAt<C>(core: Core<C>, inputs: seq<Input<C>>, k: nat)
    requires k < |inputs|
    ensures Hosts(core, inputs)[k + 1] != Hosts(core, inputs)[k] <==> HostChanges(core, inputs)[k]
    ensures HostChanges(core, inputs)[k] ==> Hosts(core, inputs)[k + 1] == Appointee(At(core, inputs, k), inputs[k])
  {
    AtNext(core, inputs, k);
    HostStep(At(core, inputs, k), inputs[k]);
  }

  lemma HostsChange<C>(core: Core<C>, inputs: seq<Input<C>>)
    ensures ChangesAre(Hosts(core, inputs), HostChanges(core, inputs))
  {
    forall k | 0 <= k < |inputs|
      ensures Hosts(core, inputs)[k + 1] != Hosts(core, inputs)[k] <==> HostChanges(core, inputs)[k]
    {
      HostAt(core, inputs, k);
    }
  }

  lemma SampledByHost<C>(core: Core<C>, inputs: seq<Input<C>>, k: nat)
    requires k < |inputs| && Sampled(At(core, inputs, k), inputs[k])
    ensures inputs[k].msg.identity.id == Hosts(core, inputs)[k]
  {
  }

  /** When the evidence that confirms a refresh is the refreshing host's own: exactly if the host was
      not changed between the two samples, or last changed back to the host of the first. A single
      change in between therefore means that one host's sample has confirmed another's. */
  lemma ConfirmedByOneHost<C>(core: Core<C>, inputs: seq<Input<C>>, j: nat, k: nat, direction: int)
    requires j < k < |inputs|
    requires Confirms(core, inputs, j, k, direction) && Sampled(At(core, inputs, k), inputs[k])
    ensures var changes := HostChanges(core, inputs);
      inputs[j].msg.identity.id == inputs[k].msg.identity.id
      <==>
      || Count(changes, j, k) == 0
      || exists m | j <= m < k ::
           LastIs(changes, m, k) && Appointee(At(core, inputs, m), inputs[m]) == inputs[j].msg.identity.id
    ensures Count(HostChanges(core, inputs), j, k) == 1 ==> inputs[j].msg.identity.id != inputs[k].msg.identity.id
  {
    var hosts, changes := Hosts(core, inputs), HostChanges(core, inputs);
    SampledByHost(core, inputs, j);
    SampledByHost(core, inputs, k);
    HostsChange(core, inputs);
    if Count(changes, j, k) == 0 {
      KeptWithoutChange(hosts, changes, j, k);
    } else {
      var m := FindLast(changes, j, k);
      HostAt(core, inputs, m);
      CountEmpty(changes, m + 1, k);
      KeptWithoutChange(hosts, changes, m + 1, k);
      if Count(changes, j, m) == 0 {
        KeptWithoutChange(hosts, changes, j, m);
      }
    }
  }

  // ---------------------------------------------------------------- one host's sample confirms another's

  function Say(i: Identity, kind: Kind, positionMs: int, target: string, now: int): Input<nat> {
    Input(Do(i, Command(kind, Some(Payload(positionMs, 1.0, false, 4, target, "", 0, true)))), now, RoomPresence.STORE_OK)
  }

  /** The host plays and sends one sample that is 4000 ms ahead, hands the role over, and the new host
      sends one sample that is 4000 ms ahead. */
  function Handover(): seq<Input<nat>> {
    [Input(Join(0, RoomPresence.HOST), 1000, RoomPresence.STORE_OK),
     Input(Join(1, RoomPresence.MEMBER), 1000, RoomPresence.STORE_OK),
     Say(RoomPresence.HOST, Play, 0, "", 1000),
     Say(RoomPresence.HOST, HostTelemetry, 4650, "", 2000),
     Say(RoomPresence.HOST, TransferHost, 0, "member", 2500),
     Say(RoomPresence.MEMBER, HostTelemetry, 5650, "", 3000)]
  }

  const HANDOVER_ROOM := Room("host", Open, Some("m"), 5, "")

  /** The room while `host` holds the role and the timeline runs from 0 since 1350. */
  ghost predicate HandoverState(core: Core<nat>, host: string, samples: int) {
    && core.room == HANDOVER_ROOM.(host := host)
    && "host" in core.members && "member" in core.members && !core.members["member"].identity.guest
    && core.playback == PlaybackState("m", 1, 0, Playing, 0, 1350, 1.0, 0, None)
    && core.filter == Filter(samples, samples, 0)
  }

  lemma HandoverPlays(core: Core<nat>)
    requires RoomPresence.JustJoined(HANDOVER_ROOM, core)
    ensures HandoverState(Step(Step(core, Handover()[1]).core, Handover()[2]).core, "host", 0)
  {
    assert |core.members| == |{"host"}|;
    var second := Step(core, Handover()[1]).core;
    assert second.room == core.room && second.playback == core.playback && second.filter == core.filter;
    assert "host" in second.members && "member" in second.members;
  }

  lemma HandoverStart()
    ensures HandoverState(At(NewActor(HANDOVER_ROOM, None), Handover(), 3), "host", 0)
  {
    var core := NewActor<nat>(HANDOVER_ROOM, None);
    AtNext(core, Handover(), 0);
    RoomPresence.HostJoins(HANDOVER_ROOM, Handover()[0]);
    AtNext(core, Handover(), 1);
    AtNext(core, Handover(), 2);
    HandoverPlays(At(core, Handover(), 1));
  }

  lemma HandoverSample(core: Core<nat>, host: string, input: Input<nat>)
    requires (input == Handover()[3] && host == "host") || (input == Handover()[5] && host == "member")
    requires HandoverState(core, host, if host == "host" then 0 else 1)
    ensures Evidence(core, input, 1)
    ensures host == "host" ==> HandoverState(Step(core, input).core, "host", 1)
    ensures host == "member" ==> Refresh(core, input)
  {
    var p := input.msg.command.payload.value;
    assert Expected(core.playback, 2000) == 650 && Expected(core.playback, 3000) == 1650;
    assert HostDrift(core.playback, p, input.now) == 4000;
  }

  lemma HandoverTransfer(core: Core<nat>)
    requires HandoverState(core, "host", 1)
    ensures HandoverState(Step(core, Handover()[4]).core, "member", 1)
    ensures !Sampled(core, Handover()[4])
  {
  }

  lemma HandoverTrace()
    ensures var core := NewActor<nat>(HANDOVER_ROOM, None);
      && HandoverState(At(core, Handover(), 3), "host", 0)
      && HandoverState(At(core, Handover(), 4), "host", 1)
      && HandoverState(At(core, Handover(), 5), "member", 1)
  {
    var core := NewActor<nat>(HANDOVER_ROOM, None);
    HandoverStart();
    HandoverSample(At(core, Handover(), 3), "host", Handover()[3]);
    AtNext(core, Handover(), 3);
    HandoverTransfer(At(core, Handover(), 4));
    AtNext(core, Handover(), 4);
  }

  /** A refresh may rest on the word of two different hosts. */
  lemma EvidenceOutlivesHost()
    ensures var core := NewActor<nat>(HANDOVER_ROOM, None);
      && Refresh(At(core, Handover(), 5), Handover()[5])
      && Confirms(core, Handover(), 3, 5, 1)
      && Handover()[3].msg.identity.id == "host" && Handover()[5].msg.identity.id == "member"
  {
    var core := NewActor<nat>(HANDOVER_ROOM, None);
    HandoverTrace();
    HandoverSample(At(core, Handover(), 3), "host", Handover()[3]);
    HandoverTransfer(At(core, Handover(), 4));
    HandoverSample(At(core, Handover(), 5), "member", Handover()[5]);
  }

  // ---------------------------------------------------------------- evidence under a length that was too short

  function AnnounceLength(durationMs: int, now: int): Input<nat> {
    Input(Do(RoomPresence.HOST, Command(ClientReady, Some(Payload(0, 1.0, false, 4, "", "m", durationMs, true)))), now,
          RoomPresence.STORE_OK)
  }

  /** The host announces a length of five seconds, plays past it, sends a sample a second past the end,
      corrects the length, and sends a sample that is ahead of the timeline. */
  function LengthCorrected(): seq<Input<nat>> {
    [Input(Join(0, RoomPresence.HOST), 1000, RoomPresence.STORE_OK), AnnounceLength(5000, 1000),
     Say(RoomPresence.HOST, Play, 0, "", 1000),
     Say(RoomPresence.HOST, HostTelemetry, 6000, "", 20000),
     AnnounceLength(100000, 20500),
     Say(RoomPresence.HOST, HostTelemetry, 20450, "", 21000)]
  }

  /** The timeline runs from 0 since 1350 in a medium of the given length. */
  ghost predicate RunningWith(core: Core<nat>, length: int, samples: int) {
    && core.room == HANDOVER_ROOM && "host" in core.members
    && core.playback == PlaybackState("m", core.playback.revision, 0, Playing, 0, 1350, 1.0, length, None)
    && core.filter == Filter(samples, samples, 0)
  }

  lemma LengthPlays(core: Core<nat>)
    requires RoomPresence.JustJoined(HANDOVER_ROOM, core)
    ensures RunningWith(Step(Step(core, LengthCorrected()[1]).core, LengthCorrected()[2]).core, 5000, 0)
  {
    var second := Step(core, LengthCorrected()[1]).core;
    assert second.room == core.room && second.playback == core.playback.(duration := 5000, revision := 1);
    assert "host" in second.members && second.filter == core.filter;
  }

  lemma LengthStart()
    ensures RunningWith(At(NewActor(HANDOVER_ROOM, None), LengthCorrected(), 3), 5000, 0)
  {
    var core := NewActor<nat>(HANDOVER_ROOM, None);
    AtNext(core, LengthCorrected(), 0);
    RoomPresence.HostJoins(HANDOVER_ROOM, LengthCorrected()[0]);
    AtNext(core, LengthCorrected(), 1);
    AtNext(core, LengthCorrected(), 2);
    LengthPlays(At(core, LengthCorrected(), 1));
  }

  lemma LengthSample(core: Core<nat>)
    requires RunningWith(core, 5000, 0)
    ensures Evidence(core, LengthCorrected()[3], 1) && RunningWith(Step(core, LengthCorrected()[3]).core, 5000, 1)
  {
    assert Expected(core.playback, 20000) == 5000;
  }

  lemma LengthAnnounced(core: Core<nat>)
    requires RunningWith(core, 5000, 1)
    ensures !Sampled(core, LengthCorrected()[4]) && RunningWith(Step(core, LengthCorrected()[4]).core, 100000, 1)
  {
  }

  lemma LengthRefresh(core: Core<nat>)
    requires RunningWith(core, 100000, 1)
    ensures Refresh(core, LengthCorrected()[5])
    ensures HostDrift(core.playback, LengthCorrected()[3].msg.command.payload.value, 20000) == -12650
  {
    assert Expected(core.playback, 21000) == 19650 && Expected(core.playback, 20000) == 18650;
  }

  lemma LengthTrace()
    ensures var core := NewActor<nat>(HANDOVER_ROOM, None);
      && RunningWith(At(core, LengthCorrected(), 3), 5000, 0)
      && RunningWith(At(core, LengthCorrected(), 4), 5000, 1)
      && RunningWith(At(core, LengthCorrected(), 5), 100000, 1)
  {
    var core := NewActor<nat>(HANDOVER_ROOM, None);
    LengthStart();
    LengthSample(At(core, LengthCorrected(), 3));
    AtNext(core, LengthCorrected(), 3);
    LengthAnnounced(At(core, LengthCorrected(), 4));
    AtNext(core, LengthCorrected(), 4);
  }

  /** A sample that was ahead only because the length was taken to be too short confirms a refresh,
      although under the length known by then it was 12650 ms behind. */
  lemma EvidenceOutlivesLength()
    ensures var core := NewActor<nat>(HANDOVER_ROOM, None);
      && Refresh(At(core, LengthCorrected(), 5), LengthCorrected()[5])
      && Confirms(core, LengthCorrected(), 3, 5, 1)
      && HostDrift(At(core, LengthCorrected(), 5).playback, LengthCorrected()[3].msg.command.payload.value, 20000) == -12650
  {
    var core := NewActor<nat>(HANDOVER_ROOM, None);
    LengthTrace();
    LengthSample(At(core, LengthCorrected(), 3));
    LengthAnnounced(At(core, LengthCorrected(), 4));
    LengthRefresh(At(core, LengthCorrected(), 5));
  }

  // ---------------------------------------------------------------- rate limit

  /** Which messages of a run were refreshes. */
  ghost function Refreshes<C>(core: Core<C>, inputs: seq<Input<C>>): seq<bool> {
    seq(|inputs|, k requires 0 <= k < |inputs| => Refresh(At(core, inputs, k), inputs[k]))
  }

  lemma LastUpdateStep<C>(core: Core<C>, input: Input<C>)
    requires FilterOk(core.filter)
    ensures var core' := Step(core, input).core;
      if Refresh(core, input) then
        && core'.filter.lastUpdate == input.now
        && (core.filter.lastUpdate > 0 ==> input.now >= core.filter.lastUpdate + HOST_ANCHOR_MIN_INTERVAL_MS)
      else core'.filter.lastUpdate == core.filter.lastUpdate
  {
    if Sampled(core, input) {
      SampleStep(core, input);
    } else {
      OtherStep(core, input);
    }
  }

  ghost function Times<C>(inputs: seq<Input<C>>): seq<int> {
    seq(|inputs|, k requires 0 <= k < |inputs| => inputs[k].now)
  }

  /** The time of the last refresh as the filter remembers it, along a run. */
  ghost function LastUpdates<C>(core: Core<C>, inputs: seq<Input<C>>): seq<int> {
    seq(|inputs| + 1, k requires 0 <= k <= |inputs| => At(core, inputs, k).filter.lastUpdate)
  }

  lemma PacedAt<C>(room: Room, cp: Option<Checkpoint>, inputs: seq<Input<C>>, k: nat)
    requires k < |inputs|
    ensures var core := NewActor<C>(room, cp);
      PacedStep(Refreshes(core, inputs)[k], Times(inputs)[k], LastUpdates(core, inputs)[k], LastUpdates(core, inputs)[k + 1],
                HOST_ANCHOR_MIN_INTERVAL_MS)
  {
    var core := NewActor<C>(room, cp);
    AlwaysHeld(room, cp, inputs, k);
    AtNext(core, inputs, k);
    LastUpdateStep(At(core, inputs, k), inputs[k]);
  }

  lemma RefreshesArePaced<C>(room: Room, cp: Option<Checkpoint>, inputs: seq<Input<C>>)
    ensures var core := NewActor<C>(room, cp);
      Paced(Refreshes(core, inputs), Times(inputs), LastUpdates(core, inputs), HOST_ANCHOR_MIN_INTERVAL_MS)
  {
    forall k | 0 <= k < |inputs|
      ensures var core := NewActor<C>(room, cp);
        PacedStep(Refreshes(core, inputs)[k], Times(inputs)[k], LastUpdates(core, inputs)[k], LastUpdates(core, inputs)[k + 1],
                  HOST_ANCHOR_MIN_INTERVAL_MS)
    {
      PacedAt(room, cp, inputs, k);
    }
  }

  /** Any two refreshes of a run are at least fifteen seconds apart. */
  lemma RefreshSpacing<C>(room: Room, cp: Option<Checkpoint>, inputs: seq<Input<C>>, j: nat, k: nat)
    requires j < k < |inputs|
    requires Refreshes(NewActor(room, cp), inputs)[j] && Refreshes(NewActor(room, cp), inputs)[k]
    requires inputs[j].now > 0
    ensures inputs[k].now - inputs[j].now >= 15000
  {
    var core := NewActor<C>(room, cp);
    var flags, times, last := Refreshes(core, inputs), Times(inputs), LastUpdates(core, inputs);
    RefreshesArePaced(room, cp, inputs);
    PacedKept(flags, times, last, HOST_ANCHOR_MIN_INTERVAL_MS, j, k);
    assert times[j] == inputs[j].now && times[k] == inputs[k].now;
  }

  /** In any stretch of any run whose refreshes all fall into a window of `w` milliseconds there are
      at most `w / 15000 + 1` refreshes. */
  lemma RefreshRateLimit<C>(room: Room, cp: Option<Checkpoint>, inputs: seq<Input<C>>, i: nat, j: nat, t: int, w: nat)
    requires i <= j <= |inputs| && t > 0
    requires forall k | i <= k < j && Refreshes(NewActor(room, cp), inputs)[k] :: t <= inputs[k].now <= t + w
    ensures Count(Refreshes(NewActor(room, cp), inputs), i, j) <= w / 15000 + 1
  {
    var core := NewActor<C>(room, cp);
    RefreshesArePaced(room, cp, inputs);
    PacedRateLimit(Refreshes(core, inputs), Times(inputs), LastUpdates(core, inputs), HOST_ANCHOR_MIN_INTERVAL_MS, i, j, t, w);
  }

  // ---------------------------------------------------------------- a refresh at time zero is forgotten

  /** Two pairs of samples that are five seconds ahead; the first pair is complete at time zero. */
  function AroundZero(): seq<Input<nat>> {
    [Input(Join(0, RoomPresence.HOST), -20000, RoomPresence.STORE_OK),
     Say(RoomPresence.HOST, Play, 0, "", -10350),
     Say(RoomPresence.HOST, HostTelemetry, 14000, "", -1000),
     Say(RoomPresence.HOST, HostTelemetry, 15000, "", 0),
     Say(RoomPresence.HOST, HostTelemetry, 21000, "", 1000),
     Say(RoomPresence.HOST, HostTelemetry, 22000, "", 2000)]
  }

  ghost predicate RunningFrom(core: Core<nat>, position: int, time: int, samples: int) {
    && core.room == HANDOVER_ROOM && "host" in core.members
    && core.playback == PlaybackState("m", core.playback.revision, 0, Playing, position, time, 1.0, 0, None)
    && core.filter == Filter(samples, samples, 0)
  }

  lemma AheadSample(core: Core<nat>, position: int, time: int, samples: int, input: Input<nat>, sample: int, now: int)
    requires RunningFrom(core, position, time, samples) && 0 <= position && time < now && 0 <= samples <= 1
    requires input == Say(RoomPresence.HOST, HostTelemetry, sample, "", now) && sample == position + (now - time) + 5000
    ensures samples == 0 ==> RunningFrom(Step(core, input).core, position, time, 1)
    ensures samples == 1 ==> Refresh(core, input) && (now == 0 ==> RunningFrom(Step(core, input).core, sample, 0, 0))
  {
    assert Span(now - time, 1.0) == (now - time) as real;
    assert Expected(core.playback, now) == position + (now - time);
  }

  lemma AroundZeroPlays(core: Core<nat>)
    requires RoomPresence.JustJoined(HANDOVER_ROOM, core)
    ensures RunningFrom(Step(core, AroundZero()[1]).core, 0, -10000, 0)
  {
  }

  lemma AroundZeroStart()
    ensures RunningFrom(At(NewActor(HANDOVER_ROOM, None), AroundZero(), 2), 0, -10000, 0)
  {
    var core := NewActor<nat>(HANDOVER_ROOM, None);
    AtNext(core, AroundZero(), 0);
    RoomPresence.HostJoins(HANDOVER_ROOM, AroundZero()[0]);
    AtNext(core, AroundZero(), 1);
    AroundZeroPlays(At(core, AroundZero(), 1));
  }

  lemma PairRefreshes(core: Core<nat>, position: int, time: int, a: Input<nat>, b: Input<nat>, first: int, second: int)
    requires RunningFrom(core, position, time, 0) && 0 <= position && time < a.now <= b.now
    requires a == Say(RoomPresence.HOST, HostTelemetry, first, "", a.now) && first == position + (a.now - time) + 5000
    requires b == Say(RoomPresence.HOST, HostTelemetry, second, "", b.now) && second == position + (b.now - time) + 5000
    ensures Refresh(Step(core, a).core, b)
    ensures b.now == 0 ==> RunningFrom(Step(Step(core, a).core, b).core, second, 0, 0)
  {
    AheadSample(core, position, time, 0, a, first, a.now);
    AheadSample(Step(core, a).core, position, time, 1, b, second, b.now);
  }

  lemma PairAt(core: Core<nat>, inputs: seq<Input<nat>>, k: nat, position: int, time: int, first: int, second: int)
    requires k + 1 < |inputs| && RunningFrom(At(core, inputs, k), position, time, 0) && 0 <= position
    requires var a, b := inputs[k], inputs[k + 1];
      && time < a.now <= b.now
      && a == Say(RoomPresence.HOST, HostTelemetry, first, "", a.now) && first == position + (a.now - time) + 5000
      && b == Say(RoomPresence.HOST, HostTelemetry, second, "", b.now) && second == position + (b.now - time) + 5000
    ensures Refresh(At(core, inputs, k + 1), inputs[k + 1])
    ensures inputs[k + 1].now == 0 ==> RunningFrom(At(core, inputs, k + 2), second, 0, 0)
  {
    AtNext(core, inputs, k);
    AtNext(core, inputs, k + 1);
    PairRefreshes(At(core, inputs, k), position, time, inputs[k], inputs[k + 1], first, second);
  }

  /** A last refresh at time 0 counts as none, so the next one can follow two seconds later: the spacing
      of refreshes needs a clock that is positive. */
  lemma RefreshAtZeroIsForgotten()
    ensures var core := NewActor<nat>(HANDOVER_ROOM, None);
      && Refresh(At(core, AroundZero(), 3), AroundZero()[3]) && AroundZero()[3].now == 0
      && Refresh(At(core, AroundZero(), 5), AroundZero()[5]) && AroundZero()[5].now == 2000
  {
    var core := NewActor<nat>(HANDOVER_ROOM, None);
    AroundZeroStart();
    PairAt(core, AroundZero(), 2, 0, -10000, 14000, 15000);
    PairAt(core, AroundZero(), 4, 15000, 0, 21000, 22000);
  }
}
