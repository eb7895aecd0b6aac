/** What each message of the room protocol does, said in terms of positions, members, refusals and
    connections, and with the numbers of the design written out. */
module RoomCommands {
  import opened Basics
  import opened Playback
  import opened RoomProtocol
  import opened RoomTimeline
  import RoomPresence

  // ---------------------------------------------------------------- who may order what

  predicate IsRoomOrder(kind: Kind) {
    kind in {TransferHost, Kick, CloseRoom, SetMedia, UnknownAdmin}
  }

  /** Commands that every member may send. */
  predicate IsOpenToMembers(kind: Kind) {
    kind in {ClientReady, MemberTelemetry, Typing}
  }

  /** The host, or for orders about the room a super administrator who is no guest. */
  ghost predicate MayOrder<C>(core: Core<C>, i: Identity, kind: Kind) {
    i.id == core.room.host || (IsRoomOrder(kind) && i.superAdmin && !i.guest)
  }

  /** The position lies in the medium, with a second of tolerance at a known end. */
  predicate PositionAccepted(s: PlaybackState, position: int) {
    0 <= position && (s.duration <= 0 || position <= s.duration + 1000)
  }

  /** Exactly strangers, those who are not the host, and positions outside the medium are refused as
      such, in this order. */
  lemma Refusals<C>(core: Core<C>, input: Input<C>)
    requires input.msg.Do?
    ensures var i, c, reply := input.msg.identity, input.msg.command, Step(core, input).reply;
            var stranger := i.id !in core.members && !IsRoomOrder(c.kind);
            var powerless := !IsOpenToMembers(c.kind) && !MayOrder(core, i, c.kind);
      && (reply == Failed(NotMember) <==> stranger)
      && (reply == Failed(NotHost) <==> !stranger && powerless)
      && (reply == Failed(InvalidPosition) <==>
            && !stranger && !powerless && !IsOpenToMembers(c.kind) && (!IsRoomOrder(c.kind) || c.kind.UnknownAdmin?)
            && c.payload.Some? && !PositionAccepted(core.playback, c.payload.value.positionMs))
      && (reply.Failed? && (stranger || powerless) ==> Step(core, input).core == core && Step(core, input).effects == [])
  {
    var c := input.msg.command;
    if c.payload.Some? && (!IsRoomOrder(c.kind) || c.kind.UnknownAdmin?) {
      PlaybackRefusals(core, c.kind, c.payload.value, input.now, input.db);
    }
  }

  lemma PlaybackRefusals<C>(core: Core<C>, kind: Kind, p: Payload, now: int, db: Db)
    ensures var reply := PlaybackStep(core, kind, p, now, db).reply;
      && (reply == Failed(InvalidPosition) <==> !PositionAccepted(core.playback, p.positionMs))
      && reply != Failed(NotHost) && reply != Failed(NotMember)
  {
  }

  /** Those are the checks the room makes. */
  lemma AuthorizedIff<C>(core: Core<C>, i: Identity, kind: Kind)
    ensures Authorized(core, i, kind) <==> (IsRoomOrder(kind) || i.id in core.members) && MayOrder(core, i, kind)
  {
  }

  /** What is refused as invalid once its sender may send it: what does not decode, a rate that is none,
      a target that is not there, is a guest where a host is wanted, or is the host where somebody is
      to be removed, a medium without a name or with a negative length, and what nobody knows. */
  lemma InvalidCommands<C>(core: Core<C>, input: Input<C>)
    requires input.msg.Do? && (input.msg.identity.id in core.members || IsRoomOrder(input.msg.command.kind))
    requires IsOpenToMembers(input.msg.command.kind) || MayOrder(core, input.msg.identity, input.msg.command.kind)
    ensures var c, reply := input.msg.command, Step(core, input).reply;
      if c.payload.None? then reply == (if c.kind.MemberTelemetry? || c.kind.Typing? then Done(None) else Failed(InvalidCommand))
      else
        var p := c.payload.value;
        var target := p.targetUserId;
        reply == Failed(InvalidCommand) <==>
          match c.kind
          case TransferHost => target !in core.members || core.members[target].identity.guest
          case Kick => target !in core.members || target == core.room.host
          case SetMedia => p.mediaId == "" || p.durationMs < 0
          case Rate => PositionAccepted(core.playback, p.positionMs) && !IsRoomRate(p.playbackRate)
          case UnknownAdmin => PositionAccepted(core.playback, p.positionMs)
          case Unknown => PositionAccepted(core.playback, p.positionMs)
          case _ => false
  {
    var c := input.msg.command;
    if c.payload.Some? {
      RoomRates(c.payload.value.playbackRate);
      if !IsOpenToMembers(c.kind) && (!IsRoomOrder(c.kind) || c.kind.UnknownAdmin?) {
        InvalidPlayback(core, c.kind, c.payload.value, input.now, input.db);
      }
    }
  }

  lemma InvalidPlayback<C>(core: Core<C>, kind: Kind, p: Payload, now: int, db: Db)
    requires !IsOpenToMembers(kind) && (!IsRoomOrder(kind) || kind.UnknownAdmin?)
    ensures PlaybackStep(core, kind, p, now, db).reply == Failed(InvalidCommand) <==>
      && PositionAccepted(core.playback, p.positionMs)
      && ((kind.Rate? && !ValidRate(p.playbackRate)) || kind.UnknownAdmin? || kind.Unknown?)
  {
  }

  /** A playback command that passes all those checks. */
  ghost predicate Steers<C>(core: Core<C>, input: Input<C>, kind: Kind) {
    && input.msg.Do? && input.msg.command.kind == kind
    && input.msg.identity.id in core.members && input.msg.identity.id == core.room.host
    && input.msg.command.payload.Some? && PositionAccepted(core.playback, input.msg.command.payload.value.positionMs)
  }

  // ---------------------------------------------------------------- rates

  /** The rates a room may play at. */
  predicate IsRoomRate(rate: real) {
    || AbsReal(rate - 0.5) < 0.0001 || AbsReal(rate - 0.75) < 0.0001 || AbsReal(rate - 1.0) < 0.0001
    || AbsReal(rate - 1.25) < 0.0001 || AbsReal(rate - 1.5) < 0.0001 || AbsReal(rate - 2.0) < 0.0001
  }

  lemma RoomRates(rate: real)
    ensures ValidRate(rate) <==> IsRoomRate(rate)
  {
    assert ROOM_RATES == [0.5, 0.75, 1.0, 1.25, 1.5, 2.0];
    if IsRoomRate(rate) {
      assert exists i | 0 <= i < 6 :: AbsReal(rate - ROOM_RATES[i]) < 0.0001 by {
        assert ROOM_RATES[0] == 0.5 && ROOM_RATES[1] == 0.75 && ROOM_RATES[2] == 1.0;
        assert ROOM_RATES[3] == 1.25 && ROOM_RATES[4] == 1.5 && ROOM_RATES[5] == 2.0;
      }
    }
  }

  /** What a command keeps of a timeline, apart from its anchor, phase, rate and epoch. */
  predicate SameFilm(s: PlaybackState, s': PlaybackState) {
    s'.mediaId == s.mediaId && s'.duration == s.duration && s'.revision == s.revision + 1
  }

  /** The timeline runs from `position` at `from` on. */
  ghost predicate RunsFrom(s: PlaybackState, position: int, from: int, rate: real) {
    forall t: int :: t >= from ==> Expected(s, t) == Clamp(position + Trunc(Span(t - from, rate)), s.duration)
  }

  ghost predicate StandsAt(s: PlaybackState, position: int) {
    forall t: int :: Expected(s, t) == Clamp(position, s.duration)
  }

  lemma AnchoredRuns(s: PlaybackState)
    requires s.phase.Playing?
    ensures RunsFrom(s, s.anchorPos, s.anchorTime, s.rate)
    ensures forall t: int :: t <= s.anchorTime ==> Expected(s, t) == Clamp(s.anchorPos, s.duration)
  {
    assert Span(s.anchorTime - s.anchorTime, s.rate) == 0.0;
  }

  /** An accepted rate command sets exactly that rate: from the instant it is handled the timeline goes
      on from where it is, at the new rate. */
  lemma RateAccepted<C>(core: Core<C>, input: Input<C>)
    requires Performs(core, input, Rate)
    ensures input.msg.command.payload.Some?
    ensures var s, s' := core.playback, Step(core, input).core.playback;
            var rate := input.msg.command.payload.value.playbackRate;
      && IsRoomRate(rate) && s'.rate == rate
      && SameFilm(s, s') && s'.phase == s.phase && s'.epoch == s.epoch && s'.resumeIntent == s.resumeIntent
      && (if s.phase.Playing? then RunsFrom(s', Expected(s, input.now), input.now, rate)
          else StandsAt(s', Expected(s, input.now)))
  {
    var s' := Step(core, input).core.playback;
    RoomRates(input.msg.command.payload.value.playbackRate);
    if s'.phase.Playing? {
      AnchoredRuns(s');
    }
  }

  /** A rate is refused exactly if it is none of the six. */
  lemma RateRefusedIff<C>(core: Core<C>, input: Input<C>)
    requires Steers(core, input, Rate)
    ensures Step(core, input).reply == Failed(InvalidCommand) <==> !IsRoomRate(input.msg.command.payload.value.playbackRate)
    ensures Step(core, input).reply.Failed? ==> Step(core, input).core.playback == core.playback
  {
    RoomRates(input.msg.command.payload.value.playbackRate);
  }

  // ---------------------------------------------------------------- positions

  /** An accepted play, pause, seek, stall or end changes the position, the phase, for a seek the epoch
      and for a stall the intent to resume, and nothing else. */
  lemma PositionedCommand<C>(core: Core<C>, input: Input<C>, kind: Kind)
    requires kind in {Play, Pause, Seek, HostBuffering, EndPlayback} && Steers(core, input, kind)
    ensures Step(core, input).reply == Done(Some(Step(core, input).core.playback))
    ensures var s, s' := core.playback, Step(core, input).core.playback;
            var position := input.msg.command.payload.value.positionMs;
      && SameFilm(s, s') && s'.rate == s.rate
      && s'.epoch == s.epoch + (if kind.Seek? then 1 else 0)
      && s'.resumeIntent == (if kind.HostBuffering? then Some(Playing) else s.resumeIntent)
      && s'.phase == (match kind
                      case Play => Playing
                      case Pause => Paused
                      case HostBuffering => Buffering
                      case EndPlayback => Ended
                      case _ => s.phase)
      && (if s'.phase.Playing?
          then && RunsFrom(s', position, input.now + 350, s.rate)
               && forall t: int :: t <= input.now + 350 ==> Expected(s', t) == Clamp(position, s.duration)
          else StandsAt(s', position))
  {
    var s' := Step(core, input).core.playback;
    if s'.phase.Playing? {
      AnchoredRuns(s');
    }
  }

  /** The host's report that it is ready resumes exactly a buffering room that means to play: from the
      held anchor, 350 ms ahead; otherwise it has no consequence. */
  lemma ReadyResumes<C>(core: Core<C>, input: Input<C>)
    requires Steers(core, input, HostReady)
    ensures var s, s' := core.playback, Step(core, input).core.playback;
      if s.phase.Buffering? && s.resumeIntent == Some(Playing) then
        && s'.phase.Playing? && SameFilm(s, s') && s'.rate == s.rate && s'.epoch == s.epoch && s'.resumeIntent == s.resumeIntent
        && RunsFrom(s', s.anchorPos, input.now + 350, s.rate)
        && Step(core, input).reply == Done(Some(s'))
      else s' == s && Step(core, input).reply == Done(None)
  {
    var s' := Step(core, input).core.playback;
    if s'.phase.Playing? {
      AnchoredRuns(s');
    }
  }

  /** When the host leaves an open room the timeline stops where it stands, and nothing else of it changes. */
  lemma DeparturePauses<C>(core: Core<C>, input: Input<C>)
    requires HostDeparts(core, input)
    ensures var s, s' := core.playback, Step(core, input).core.playback;
      && s'.phase == Paused && StandsAt(s', Expected(s, input.now))
      && SameFilm(s, s') && s'.rate == s.rate && s'.epoch == s.epoch && s'.resumeIntent == s.resumeIntent
  {
  }

  /** After an accepted change of medium the timeline stands at the beginning of the new one, at the
      normal rate, in a new epoch. */
  lemma MediaAccepted<C>(core: Core<C>, input: Input<C>)
    requires Performs(core, input, SetMedia)
    ensures input.msg.command.payload.Some?
    ensures var s, core' := core.playback, Step(core, input).core;
            var p, s' := input.msg.command.payload.value, core'.playback;
      && s'.mediaId == p.mediaId != "" && core'.room.mediaId == Some(p.mediaId)
      && s'.duration == p.durationMs >= 0 && s'.rate == 1.0 && s'.phase.Loading?
      && s'.epoch == s.epoch + 1 && s'.revision == s.revision + 1
      && forall t: int :: Expected(s', t) == 0
  {
  }

  /** It is refused exactly for a medium without a name, a negative length, or by the store. */
  lemma MediaRefusedIff<C>(core: Core<C>, input: Input<C>)
    requires input.msg.Do? && input.msg.command.kind.SetMedia? && input.msg.command.payload.Some?
    requires MayOrder(core, input.msg.identity, SetMedia)
    ensures var p, reply := input.msg.command.payload.value, Step(core, input).reply;
      && (reply == Failed(InvalidCommand) <==> p.mediaId == "" || p.durationMs < 0)
      && (reply == Failed(StoreError) <==> p.mediaId != "" && p.durationMs >= 0 && !input.db.setMediaOk)
      && (reply.Failed? ==> Step(core, input).core == core)
  {
  }

  /** The length of a medium changes only with the medium, or by the host who is ready with it and
      announces a length of at most a week. */
  lemma LengthStep<C>(core: Core<C>, input: Input<C>)
    ensures Step(core, input).core.playback.duration ==
      if Performs(core, input, SetMedia) && input.msg.command.payload.Some? then input.msg.command.payload.value.durationMs
      else if AnnouncesLength(core, input) then input.msg.command.payload.value.durationMs
      else core.playback.duration
  {
    if input.msg.Do? && input.msg.command.payload.Some? {
      var kind := input.msg.command.kind;
      if !kind.ClientReady? && (!IsRoomOrder(kind) || kind.UnknownAdmin?) {
        PlaybackKeepsLength(core, kind, input.msg.command.payload.value, input.now, input.db);
      }
    }
  }

  lemma PlaybackKeepsLength<C>(core: Core<C>, kind: Kind, p: Payload, now: int, db: Db)
    ensures PlaybackStep(core, kind, p, now, db).core.playback.duration == core.playback.duration
  {
  }

  ghost predicate AnnouncesLength<C>(core: Core<C>, input: Input<C>) {
    && input.msg.Do? && input.msg.command.kind.ClientReady? && input.msg.command.payload.Some?
    && input.msg.identity.id in core.members && input.msg.identity.id == core.room.host
    && var p := input.msg.command.payload.value;
       p.ready && p.mediaId == core.playback.mediaId && 0 < p.durationMs <= 604800000
  }

  // ---------------------------------------------------------------- members, readiness, status

  /** An accepted farewell. */
  ghost predicate Leaves<C>(core: Core<C>, input: Input<C>, id: string) {
    && input.msg.Leave? && input.msg.id == id && id in core.members
    && (input.msg.only.None? || input.msg.only.value == core.members[id].client)
  }

  /** An order about the room that passes all checks of its sender. */
  ghost predicate Orders<C>(core: Core<C>, input: Input<C>, kind: Kind) {
    && input.msg.Do? && input.msg.command.kind == kind && input.msg.command.payload.Some?
    && MayOrder(core, input.msg.identity, kind)
  }

  /** The host cannot be kicked. */
  ghost predicate Kicks<C>(core: Core<C>, input: Input<C>, id: string) {
    && Orders(core, input, Kick) && input.msg.command.payload.value.targetUserId == id
    && id in core.members && id != core.room.host
  }

  ghost predicate ClosesRoom<C>(core: Core<C>, input: Input<C>) {
    Orders(core, input, CloseRoom) && input.db.closeOk
  }

  ghost predicate Enters<C>(core: Core<C>, input: Input<C>, id: string) {
    && input.msg.Join? && input.msg.identity.id == id && !core.room.status.Closed?
    && (id in core.members || |core.members| < core.room.maxMembers)
  }

  lemma ApplyMembers<C>(core: Core<C>, input: Input<C>, id: string)
    requires input.msg.Do?
    ensures id in Step(core, input).core.members <==>
      id in core.members && !Kicks(core, input, id) && !ClosesRoom(core, input)
  {
    var c := input.msg.command;
    if c.payload.Some? && !c.kind.ClientReady? && (!IsRoomOrder(c.kind) || c.kind.UnknownAdmin? || c.kind.SetMedia?) {
      RoomPresence.MembersUntouched(core, c.kind, c.payload.value, input.now, input.db);
    }
  }

  /** Who is in the room after a message: whoever entered by it, and whoever was in and did not leave,
      was not kicked and was not sent out with the closing room. */
  lemma MembersStep<C>(core: Core<C>, input: Input<C>, id: string)
    ensures id in Step(core, input).core.members <==>
      || Enters(core, input, id)
      || (id in core.members && !Leaves(core, input, id) && !Kicks(core, input, id) && !ClosesRoom(core, input))
  {
    if input.msg.Do? {
      ApplyMembers(core, input, id);
    } else if input.msg.Join? {
    } else if input.msg.Leave? {
    }
  }

  /** A join is refused exactly by a closed room, or by a full one to somebody new. */
  lemma JoinRefusals<C>(core: Core<C>, input: Input<C>)
    requires input.msg.Join?
    ensures var reply, id := Step(core, input).reply, input.msg.identity.id;
      && (reply == Failed(RoomIsClosed) <==> core.room.status.Closed?)
      && (reply == Failed(RoomFull) <==>
            !core.room.status.Closed? && id !in core.members && |core.members| >= core.room.maxMembers)
      && (reply.Failed? ==> Step(core, input).core == core && Step(core, input).effects == [])
      && (!reply.Failed? ==> Enters(core, input, id))
  {
  }

  /** Somebody's readiness is what they last said, and nothing for who just came. */
  lemma ReadinessStep<C>(core: Core<C>, input: Input<C>, id: string)
    requires id in Step(core, input).core.members
    ensures Step(core, input).core.members[id].ready ==
      if Enters(core, input, id) then false
      else if input.msg.SetReady? && input.msg.id == id then input.msg.ready
      else if input.msg.Do? && input.msg.identity.id == id && input.msg.command.kind.ClientReady? && input.msg.command.payload.Some?
      then input.msg.command.payload.value.ready
      else id in core.members && core.members[id].ready
  {
    MembersStep(core, input, id);
    if input.msg.Do? {
      var c := input.msg.command;
      if c.payload.Some? && !c.kind.ClientReady? && (!IsRoomOrder(c.kind) || c.kind.UnknownAdmin? || c.kind.SetMedia?) {
        RoomPresence.MembersUntouched(core, c.kind, c.payload.value, input.now, input.db);
      }
    } else if input.msg.Join? {
    } else if input.msg.Leave? {
    }
  }

  lemma ApplyStatus<C>(core: Core<C>, input: Input<C>)
    requires input.msg.Do?
    ensures Step(core, input).core.room.status == if Orders(core, input, CloseRoom) then Closed else core.room.status
  {
    var c := input.msg.command;
    if c.payload.Some? && !c.kind.ClientReady? && (!IsRoomOrder(c.kind) || c.kind.UnknownAdmin?) {
      RoomPresence.MembersUntouched(core, c.kind, c.payload.value, input.now, input.db);
    }
  }

  /** How the status changes: a close order closes, even if the store refuses; an open room whose host
      leaves waits for it; a waiting room opens when its host enters or somebody takes over; a closed
      one that is reopened waits for its host. */
  lemma StatusStep<C>(core: Core<C>, input: Input<C>)
    ensures Step(core, input).core.room.status ==
      if Orders(core, input, CloseRoom) then Closed
      else if core.room.status.Open? && Leaves(core, input, core.room.host) then HostDisconnected
      else if core.room.status.HostDisconnected? && Enters(core, input, core.room.host) then Open
      else if core.room.status.HostDisconnected? && input.msg == ExpireHost(core.room.host)
              && Successor(input.db.memberIds, core.members, core.room.host) != "" then Open
      else if core.room.status.Closed? && input.msg.Reopen? && input.db.reopenOk then HostDisconnected
      else core.room.status
  {
    if input.msg.Do? {
      ApplyStatus(core, input);
    } else if input.msg.Join? {
    } else if input.msg.Leave? {
    }
  }

  /** Reopening is refused exactly if the store refuses to reopen a closed room. */
  lemma ReopenRefused<C>(core: Core<C>, input: Input<C>)
    requires input.msg.Reopen?
    ensures Step(core, input).reply ==
      if core.room.status.Closed? && !input.db.reopenOk then Failed(StoreError) else Done(None)
    ensures Step(core, input).reply.Failed? ==> Step(core, input).core == core
  {
  }

  lemma OrderKeepsTitle<C>(core: Core<C>, input: Input<C>)
    requires input.msg.Do?
    ensures Step(core, input).core.room.title == core.room.title
  {
    var command := input.msg.command;
    if command.payload.Some? {
      var k := command.kind;
      if !k.SetMedia? && !k.Kick? && !k.CloseRoom? && !k.TransferHost? && !k.ClientReady? {
        RoomPresence.MembersUntouched(core, command.kind, command.payload.value, input.now, input.db);
      }
    }
  }

  /** The title changes exactly by a rename that the store takes. */
  lemma TitleStep<C>(core: Core<C>, input: Input<C>)
    ensures Step(core, input).core.room.title ==
      if input.msg.Rename? && input.db.renameOk then input.msg.title else core.room.title
    ensures input.msg.Rename? ==> Step(core, input).reply == (if input.db.renameOk then Done(None) else Failed(StoreError))
  {
    if input.msg.Do? {
      OrderKeepsTitle(core, input);
    }
  }

  /** Who asks for a snapshot is shown the room and its timeline as they are. */
  lemma SnapshotShows<C>(core: Core<C>, input: Input<C>)
    requires input.msg.TakeSnapshot?
    ensures Step(core, input) == Result(core, [], Seen(core.room, core.playback))
  {
  }
}
