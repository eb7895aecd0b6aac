/** The room's message protocol as a transition function. `C` stands for the handle of a client
    connection; the functions below never look inside one. */
module RoomProtocol {
  import opened Basics
  import opened Playback

  // ---------------------------------------------------------------- data

  datatype Identity = Identity(id: string, guest: bool, superAdmin: bool)

  datatype Status = Open | HostDisconnected | Closed

  datatype Room = Room(host: string, status: Status, mediaId: Option<string>, maxMembers: int, title: string)

  datatype Checkpoint = Checkpoint(mediaId: Option<string>, position: int, rate: real, phase: Phase, updatedAt: int)

  datatype Member<+C> = Member(identity: Identity, client: C, joinedAt: int, ready: bool)

  /** The heartbeat filter: confirmations seen, their direction, and when the anchor was last refreshed. */
  datatype Filter = Filter(samples: int, direction: int, lastUpdate: int)

  datatype Core<+C> = Core(
    room: Room,
    playback: PlaybackState,
    members: map<string, Member<C>>,
    online: int,
    filter: Filter,
    saved: Option<Checkpoint>)

  datatype Kind =
    | ClientReady | MemberTelemetry | Typing
    | TransferHost | Kick | CloseRoom | SetMedia | UnknownAdmin
    | Play | Pause | Seek | Rate | HostBuffering | HostReady | HostTelemetry | EndPlayback
    | Unknown

  /** The fields a command's payload may carry; a payload that does not decode is `None`. */
  datatype Payload = Payload(
    positionMs: int, playbackRate: real, paused: bool, readyState: int,
    targetUserId: string, mediaId: string, durationMs: int, ready: bool)

  datatype Command = Command(kind: Kind, payload: Option<Payload>)

  datatype Message<+C> =
    | Join(client: C, identity: Identity)
    | Leave(id: string, only: Option<C>)
    | ExpireHost(hostId: string)
    | Do(identity: Identity, command: Command)
    | SetReady(id: string, ready: bool)
    | Announce
    | Tick
    | Reopen
    | Rename(title: string)
    | TakeSnapshot
    | Shutdown

  /** What the database answers to the calls one message may make. */
  datatype Db = Db(saveOk: bool, memberIds: seq<string>, transferOk: bool, closeOk: bool, reopenOk: bool, setMediaOk: bool,
                   renameOk: bool)

  datatype Input<+C> = Input(msg: Message<C>, now: int, db: Db)

  datatype Envelope =
    | Snapshot(room: Room, playback: PlaybackState)
    | State(playback: PlaybackState)
    | MemberJoined(member: Identity)
    | MemberLeft(memberId: string, kicked: bool)
    | HostChanged(hostUserId: string)
    | RoomUpdated(title: string)
    | RoomClosed
    | ServerShutdown
    | Other

  /** What a message does to connections. A `Send` ignores a full queue; a `Broadcast` closes a
      connection whose queue is full. */
  datatype Effect<C(==)> =
    | Send(to: set<C>, e: Envelope)
    | Broadcast(to: set<C>, e: Envelope)
    | Close(to: set<C>, code: int, reason: string)

  datatype Error = NotHost | RoomIsClosed | RoomFull | InvalidCommand | InvalidPosition | NotMember | StoreError

  datatype Reply = Done(state: Option<PlaybackState>) | Seen(room: Room, playback: PlaybackState) | Failed(error: Error)

  datatype Result<C(==)> = Result(core: Core<C>, effects: seq<Effect<C>>, reply: Reply)

  const HOST_DRIFT_THRESHOLD_MS := 750
  const HOST_DRIFT_CONFIRMATIONS := 2
  const HOST_ANCHOR_MIN_INTERVAL_MS := 15000
  const MAX_DURATION_MS := 7 * 24 * 60 * 60 * 1000
  const STATUS_SUPERSEDED := 4001
  const STATUS_SLOW_CONSUMER := 1013

  // ---------------------------------------------------------------- connections as values

  const QUEUE_CAPACITY := 64

  datatype Link = Link(out: seq<Envelope>, closed: Option<(int, string)>) {
    function Send(e: Envelope): Link {
      if |out| < QUEUE_CAPACITY then this.(out := out + [e]) else this
    }

    function Close(code: int, reason: string): Link {
      if closed.None? then this.(closed := Some((code, reason))) else this
    }

    function Broadcast(e: Envelope): Link {
      if |out| < QUEUE_CAPACITY then Send(e) else Close(STATUS_SLOW_CONSUMER, "slow consumer")
    }
  }

  /** What one effect, and then a list of them, does to the link of connection `c`. */
  function Affect<C(==)>(link: Link, c: C, effect: Effect<C>): Link {
    if c !in effect.to then link
    else match effect
      case Send(_, e) => link.Send(e)
      case Broadcast(_, e) => link.Broadcast(e)
      case Close(_, code, reason) => link.Close(code, reason)
  }

  function AffectAll<C(==)>(link: Link, c: C, effects: seq<Effect<C>>): Link {
    if effects == [] then link
    else Affect(AffectAll(link, c, effects[..|effects| - 1]), c, effects[|effects| - 1])
  }

  lemma AffectOne<C>(link: Link, c: C, x: Effect<C>)
    ensures AffectAll(link, c, [x]) == Affect(link, c, x)
  {
    assert [x][..0] == [];
  }

  lemma AffectMore<C>(link: Link, c: C, effects: seq<Effect<C>>, x: Effect<C>)
    ensures AffectAll(link, c, effects + [x]) == Affect(AffectAll(link, c, effects), c, x)
  {
    assert (effects + [x])[..|effects|] == effects;
  }

  lemma AffectTwoMore<C>(link: Link, c: C, effects: seq<Effect<C>>, x: Effect<C>, y: Effect<C>)
    ensures AffectAll(link, c, effects + [x, y]) == Affect(Affect(AffectAll(link, c, effects), c, x), c, y)
  {
    var one := effects + [x];
    AffectMore(link, c, effects, x);
    AffectMore(link, c, one, y);
    assert effects + [x, y] == one + [y];
  }

  function Clients<C(==)>(members: map<string, Member<C>>): set<C> {
    set id | id in members :: members[id].client
  }

  // ---------------------------------------------------------------- construction and checkpoints

  /** A freshly started room actor: always without members and never playing. */
  function NewActor<C>(room: Room, checkpoint: Option<Checkpoint>): Core<C> {
    var blank := PlaybackState("", 0, 0, NoMedia, 0, 0, 1.0, 0, None);
    var withMedia := if room.mediaId.Some? then blank.(mediaId := room.mediaId.value, phase := Paused) else blank;
    var playback := match checkpoint
      case None => withMedia
      case Some(cp) =>
        withMedia.(mediaId := if cp.mediaId.Some? then cp.mediaId.value else "",
                   anchorPos := cp.position, rate := cp.rate, phase := Paused);
    Core(room, playback, map[], 0, Filter(0, 0, 0), checkpoint)
  }

  function CheckpointOf(room: Room, s: PlaybackState, now: int): Checkpoint {
    Checkpoint(room.mediaId, if s.phase.Playing? then Expected(s, now) else s.anchorPos, s.rate, s.phase, now)
  }

  function Save<C>(core: Core<C>, now: int, ok: bool): Core<C> {
    if ok then core.(saved := Some(CheckpointOf(core.room, core.playback, now))) else core
  }

  // ---------------------------------------------------------------- membership messages

  function JoinStep<C(==)>(core: Core<C>, client: C, identity: Identity, now: int): Result<C> {
    var known := identity.id in core.members;
    if core.room.status.Closed? then Result(core, [], Failed(RoomIsClosed))
    else if !known && |core.members| >= core.room.maxMembers then Result(core, [], Failed(RoomFull))
    else
      var members := core.members[identity.id := Member(identity, client, now, false)];
      var back := identity.id == core.room.host && core.room.status.HostDisconnected?;
      var room := if back then core.room.(status := Open) else core.room;
      var superseded := if known
        then [Close({core.members[identity.id].client}, STATUS_SUPERSEDED, "replaced by reconnect")] else [];
      Result(
        core.(room := room, members := members, online := if known then core.online else core.online + 1),
        superseded + [Send({client}, Snapshot(room, core.playback)), Broadcast(Clients(members), MemberJoined(identity))],
        Done(None))
  }

  function HostDeparture(s: PlaybackState, now: int): PlaybackState {
    s.(anchorPos := Expected(s, now), anchorTime := now, phase := Paused, revision := s.revision + 1)
  }

  function LeaveStep<C(==)>(core: Core<C>, id: string, only: Option<C>, now: int, db: Db): Result<C> {
    if id !in core.members || (only.Some? && core.members[id].client != only.value) then Result(core, [], Done(None))
    else
      var members := core.members - {id};
      var left := core.(members := members, online := core.online - 1);
      var gone := Broadcast(Clients(members), MemberLeft(id, false));
      if id == core.room.host && core.room.status.Open? then
        var playback := HostDeparture(core.playback, now);
        Result(Save(left.(playback := playback, room := core.room.(status := HostDisconnected)), now, db.saveOk),
               [gone, Broadcast(Clients(members), State(playback))], Done(None))
      else
        Result(left, [gone], Done(None))
  }

  /** The first stored member, in the store's order, that may take over from `hostId`; "" if none may. */
  function Successor<C>(ids: seq<string>, members: map<string, Member<C>>, hostId: string): string {
    if ids == [] then ""
    else if ids[0] != hostId && ids[0] in members && !members[ids[0]].identity.guest then ids[0]
    else Successor(ids[1..], members, hostId)
  }

  function ExpireStep<C(==)>(core: Core<C>, hostId: string, db: Db): Result<C> {
    if !core.room.status.HostDisconnected? || core.room.host != hostId then Result(core, [], Done(None))
    else
      var next := Successor(db.memberIds, core.members, hostId);
      if next == "" then Result(core, [], Done(None))
      else Result(core.(room := core.room.(host := next, status := Open)),
                  [Broadcast(Clients(core.members), HostChanged(next))], Done(None))
  }

  function ReopenStep<C(==)>(core: Core<C>, db: Db): Result<C> {
    if !core.room.status.Closed? then Result(core, [], Done(None))
    else if !db.reopenOk then Result(core, [], Failed(StoreError))
    else Result(core.(room := core.room.(status := HostDisconnected)), [], Done(None))
  }

  function RenameStep<C(==)>(core: Core<C>, title: string, db: Db): Result<C> {
    if !db.renameOk then Result(core, [], Failed(StoreError))
    else Result(core.(room := core.room.(title := title)), [Broadcast(Clients(core.members), RoomUpdated(title))], Done(None))
  }

  function SetReadyStep<C(==)>(core: Core<C>, id: string, ready: bool): Result<C> {
    if id in core.members
    then Result(core.(members := core.members[id := core.members[id].(ready := ready)]), [], Done(None))
    else Result(core, [], Done(None))
  }

  /** The periodic checkpoint. */
  function TickStep<C(==)>(core: Core<C>, now: int, db: Db): Result<C> {
    Result(if core.playback.phase.Playing? then Save(core, now, db.saveOk) else core, [], Done(None))
  }

  function ShutdownStep<C(==)>(core: Core<C>, now: int, db: Db): Result<C> {
    Result(Save(core, now, db.saveOk),
           [Send(Clients(core.members), ServerShutdown), Close(Clients(core.members), 1001, "server shutdown")],
           Done(None))
  }

  // ---------------------------------------------------------------- the heartbeat filter

  function Cleared(f: Filter): Filter { f.(samples := 0, direction := 0) }

  function Sign(x: int): int { if x < 0 then -1 else 1 }

  /** A heartbeat taken while the host is really playing. */
  predicate Healthy(s: PlaybackState, p: Payload) {
    s.phase.Playing? && !p.paused && p.readyState >= 3
  }

  function HostDrift(s: PlaybackState, p: Payload, now: int): int {
    p.positionMs - Expected(s, now)
  }

  /** The filter after a heartbeat, and whether the heartbeat refreshes the anchor. */
  function AcceptSample(s: PlaybackState, f: Filter, p: Payload, now: int): (Filter, bool) {
    if !Healthy(s, p) then (Cleared(f), false)
    else
      var drift := HostDrift(s, p, now);
      if Abs(drift) < HOST_DRIFT_THRESHOLD_MS then (Cleared(f), false)
      else
        var samples := if Sign(drift) != f.direction then 1 else f.samples + 1;
        var f' := f.(samples := samples, direction := Sign(drift));
        if samples < HOST_DRIFT_CONFIRMATIONS then (f', false)
        else if f.lastUpdate > 0 && now - f.lastUpdate < HOST_ANCHOR_MIN_INTERVAL_MS then (f', false)
        else (Filter(0, 0, now), true)
  }

  // ---------------------------------------------------------------- commands

  predicate IsAdmin(kind: Kind) {
    kind.TransferHost? || kind.Kick? || kind.CloseRoom? || kind.SetMedia? || kind.UnknownAdmin?
  }

  /** Who may issue a command that steers the room. */
  predicate Authorized<C>(core: Core<C>, i: Identity, kind: Kind) {
    && (IsAdmin(kind) || i.id in core.members)
    && (i.id == core.room.host || (IsAdmin(kind) && !i.guest && i.superAdmin))
  }

  function Publish<C(==)>(core: Core<C>, playback: PlaybackState): (Core<C>, Effect<C>) {
    var next := playback.(revision := playback.revision + 1);
    (core.(playback := next), Broadcast(Clients(core.members), State(next)))
  }

  function ClientReadyStep<C(==)>(core: Core<C>, i: Identity, payload: Option<Payload>): Result<C>
    requires i.id in core.members
  {
    if payload.None? then Result(core, [], Failed(InvalidCommand))
    else
      var p := payload.value;
      var marked := core.(members := core.members[i.id := core.members[i.id].(ready := p.ready)]);
      if i.id == core.room.host && p.ready && p.mediaId == core.playback.mediaId && 0 < p.durationMs <= MAX_DURATION_MS then
        var (published, event) := Publish(marked, core.playback.(duration := p.durationMs));
        Result(published, [event], Done(Some(published.playback)))
      else
        Result(marked, [], Done(None))
  }

  function TransferStep<C(==)>(core: Core<C>, p: Payload, db: Db): Result<C> {
    if p.targetUserId !in core.members || core.members[p.targetUserId].identity.guest
    then Result(core, [], Failed(InvalidCommand))
    else if !db.transferOk then Result(core, [], Failed(StoreError))
    else Result(core.(room := core.room.(host := p.targetUserId)),
                [Broadcast(Clients(core.members), HostChanged(p.targetUserId))], Done(None))
  }

  function KickStep<C(==)>(core: Core<C>, p: Payload): Result<C> {
    if p.targetUserId !in core.members || p.targetUserId == core.room.host
    then Result(core, [], Failed(InvalidCommand))
    else
      var members := core.members - {p.targetUserId};
      Result(core.(members := members, online := core.online - 1),
             [Close({core.members[p.targetUserId].client}, 1008, "removed from room"),
              Broadcast(Clients(members), MemberLeft(p.targetUserId, true))],
             Done(None))
  }

  /** Closing sets the status before the store is asked, and leaves the playback phase as it is. */
  function CloseStep<C(==)>(core: Core<C>, db: Db): Result<C> {
    var closed := core.(room := core.room.(status := Closed));
    if !db.closeOk then Result(closed, [], Failed(StoreError))
    else Result(closed.(members := map[], online := 0),
                [Broadcast(Clients(core.members), RoomClosed), Close(Clients(core.members), 1000, "room closed")],
                Done(None))
  }

  function LoadMedia(s: PlaybackState, p: Payload, now: int): PlaybackState {
    s.(mediaId := p.mediaId, duration := p.durationMs, phase := Loading, anchorPos := 0, anchorTime := now,
       rate := 1.0, epoch := s.epoch + 1)
  }

  function MediaStep<C(==)>(core: Core<C>, p: Payload, now: int, db: Db): Result<C> {
    if p.mediaId == "" || p.durationMs < 0 then Result(core, [], Failed(InvalidCommand))
    else if !db.setMediaOk then Result(core, [], Failed(StoreError))
    else
      var loaded := core.(room := core.room.(mediaId := Some(p.mediaId)));
      var (published, event) := Publish(loaded, LoadMedia(core.playback, p, now));
      Result(Save(published, now, db.saveOk), [event], Done(Some(published.playback)))
  }

  /** The outcome of a playback command: refused, of no consequence, or a new playback state
      (whose revision is still to be counted up). */
  datatype Retiming = Refused | Unchanged | Retimed(playback: PlaybackState)

  function Retime(s: PlaybackState, f: Filter, kind: Kind, p: Payload, now: int): (Filter, Retiming) {
    match kind
    case Play => (Cleared(f),
      Retimed(s.(phase := Playing, anchorPos := p.positionMs, anchorTime := now + SCHEDULE_LEAD_MS)))
    case Pause => (Cleared(f), Retimed(s.(phase := Paused, anchorPos := p.positionMs, anchorTime := now)))
    case Seek => (Cleared(f),
      Retimed(s.(epoch := s.epoch + 1, anchorPos := p.positionMs,
                 anchorTime := if s.phase.Playing? then now + SCHEDULE_LEAD_MS else now)))
    case Rate =>
      (Cleared(f),
       if !ValidRate(p.playbackRate) then Refused
       else Retimed(s.(rate := p.playbackRate, anchorPos := Expected(s, now), anchorTime := now)))
    case HostBuffering => (Cleared(f),
      Retimed(s.(phase := Buffering, resumeIntent := Some(Playing), anchorPos := p.positionMs, anchorTime := now)))
    case HostReady =>
      (Cleared(f),
       if s.phase.Buffering? && s.resumeIntent == Some(Playing)
       then Retimed(s.(phase := Playing, anchorTime := now + SCHEDULE_LEAD_MS)) else Unchanged)
    case HostTelemetry =>
      var (f', refresh) := AcceptSample(s, f, p, now);
      (f', if refresh then Retimed(s.(anchorPos := p.positionMs, anchorTime := now)) else Unchanged)
    case EndPlayback => (Cleared(f), Retimed(s.(phase := Ended, anchorPos := p.positionMs, anchorTime := now)))
    case _ => (f, Refused)
  }

  predicate InRange(s: PlaybackState, p: Payload) {
    p.positionMs >= 0 && (s.duration > 0 ==> p.positionMs <= s.duration + 1000)
  }

  /** The answer to a playback command, once its effect on the timeline is known. */
  function SettleStep<C(==)>(core: Core<C>, retiming: Retiming, now: int, db: Db): Result<C> {
    match retiming
    case Refused => Result(core, [], Failed(InvalidCommand))
    case Unchanged => Result(core, [], Done(None))
    case Retimed(playback) =>
      var (published, event) := Publish(core, playback);
      Result(Save(published, now, db.saveOk), [event], Done(Some(published.playback)))
  }

  function PlaybackStep<C(==)>(core: Core<C>, kind: Kind, p: Payload, now: int, db: Db): Result<C> {
    if !InRange(core.playback, p) then Result(core, [], Failed(InvalidPosition))
    else
      var (filter, retiming) := Retime(core.playback, core.filter, kind, p, now);
      SettleStep(core.(filter := filter), retiming, now, db)
  }

  function ApplyStep<C(==)>(core: Core<C>, i: Identity, c: Command, now: int, db: Db): Result<C> {
    if i.id !in core.members && !IsAdmin(c.kind) then Result(core, [], Failed(NotMember))
    else if c.kind.ClientReady? then ClientReadyStep(core, i, c.payload)
    else if c.kind.MemberTelemetry? || c.kind.Typing? then Result(core, [], Done(None))
    else if !Authorized(core, i, c.kind) then Result(core, [], Failed(NotHost))
    else if c.payload.None? then Result(core, [], Failed(InvalidCommand))
    else
      var p := c.payload.value;
      match c.kind
      case TransferHost => TransferStep(core, p, db)
      case Kick => KickStep(core, p)
      case CloseRoom => CloseStep(core, db)
      case SetMedia => MediaStep(core, p, now, db)
      case _ => PlaybackStep(core, c.kind, p, now, db)
  }

  // ---------------------------------------------------------------- one message, and a run of them

  function Step<C(==)>(core: Core<C>, input: Input<C>): Result<C> {
    match input.msg
    case Join(client, identity) => JoinStep(core, client, identity, input.now)
    case Leave(id, only) => LeaveStep(core, id, only, input.now, input.db)
    case ExpireHost(hostId) => ExpireStep(core, hostId, input.db)
    case Do(identity, command) => ApplyStep(core, identity, command, input.now, input.db)
    case SetReady(id, ready) => SetReadyStep(core, id, ready)
    case Announce => Result(core, [Broadcast(Clients(core.members), Other)], Done(None))
    case Tick => TickStep(core, input.now, input.db)
    case Reopen => ReopenStep(core, input.db)
    case Rename(title) => RenameStep(core, title, input.db)
    case TakeSnapshot => Result(core, [], Seen(core.room, core.playback))
    case Shutdown => ShutdownStep(core, input.now, input.db)
  }

  /** The room after a run of messages. */
  function Run<C(==)>(core: Core<C>, inputs: seq<Input<C>>): Core<C> {
    if inputs == [] then core
    else Step(Run(core, inputs[..|inputs| - 1]), inputs[|inputs| - 1]).core
  }

  /** The room just before message `k` of a run. */
  function At<C(==)>(core: Core<C>, inputs: seq<Input<C>>, k: nat): Core<C>
    requires k <= |inputs|
  {
    Run(core, inputs[..k])
  }

  lemma AtNext<C>(core: Core<C>, inputs: seq<Input<C>>, k: nat)
    requires k < |inputs|
    ensures At(core, inputs, k + 1) == Step(At(core, inputs, k), inputs[k]).core
  {
    assert inputs[..k + 1][..k] == inputs[..k];
  }

  lemma RunMore<C>(core: Core<C>, inputs: seq<Input<C>>, a: Input<C>, b: Input<C>)
    ensures Run(core, inputs + [a, b]) == Step(Step(Run(core, inputs), a).core, b).core
  {
    assert (inputs + [a, b])[..|inputs| + 1] == inputs + [a];
    assert (inputs + [a])[..|inputs|] == inputs;
  }

  lemma RunFour<C>(core: Core<C>, a: Input<C>, b: Input<C>, c: Input<C>, d: Input<C>)
    ensures Run(core, [a, b, c, d]) == Step(Step(Step(Step(core, a).core, b).core, c).core, d).core
  {
    RunMore(core, [], a, b);
    RunMore(core, [a, b], c, d);
    assert [] + [a, b] == [a, b];
    assert [a, b] + [c, d] == [a, b, c, d];
  }
}
