/** Who is in the room and what their presence means for playback, over whole runs. */
module RoomPresence {
  import opened Basics
  import opened Playback
  import opened RoomProtocol
  import opened RoomTimeline
  import opened Counting

  // ---------------------------------------------------------------- membership bookkeeping

  ghost predicate MembershipOk<C>(core: Core<C>) {
    && core.online == |core.members| <= core.room.maxMembers
    && (forall id | id in core.members :: core.members[id].identity.id == id)
  }

  lemma MembersRemoved<C>(members: map<string, Member<C>>, id: string)
    requires id in members
    ensures |members - {id}| == |members| - 1
  {
    assert (members - {id}).Keys == members.Keys - {id};
  }

  lemma MembersReplaced<C>(members: map<string, Member<C>>, id: string, m: Member<C>)
    ensures |members[id := m]| == |members| + (if id in members then 0 else 1)
  {
    assert members[id := m].Keys == members.Keys + {id};
  }

  lemma MembershipKick<C>(core: Core<C>, p: Payload)
    requires MembershipOk(core)
    ensures MembershipOk(KickStep(core, p).core)
  {
    if p.targetUserId in core.members {
      MembersRemoved(core.members, p.targetUserId);
    }
  }

  lemma MembershipReady<C>(core: Core<C>, i: Identity, payload: Option<Payload>)
    requires MembershipOk(core) && i.id in core.members
    ensures MembershipOk(ClientReadyStep(core, i, payload).core)
  {
    if payload.Some? {
      MembersReplaced(core.members, i.id, core.members[i.id].(ready := payload.value.ready));
    }
  }

  lemma MembersUntouched<C>(core: Core<C>, kind: Kind, p: Payload, now: int, db: Db)
    ensures var core' := PlaybackStep(core, kind, p, now, db).core;
      core'.members == core.members && core'.online == core.online && core'.room == core.room
    ensures var core' := MediaStep(core, p, now, db).core;
      core'.members == core.members && core'.online == core.online && core'.room.maxMembers == core.room.maxMembers
  {
  }

  lemma MembershipApply<C>(core: Core<C>, i: Identity, c: Command, now: int, db: Db)
    requires MembershipOk(core)
    ensures MembershipOk(ApplyStep(core, i, c, now, db).core)
    ensures ApplyStep(core, i, c, now, db).core.room.maxMembers == core.room.maxMembers
  {
    if c.kind.ClientReady? {
      if i.id in core.members {
        MembershipReady(core, i, c.payload);
      }
    } else if c.payload.Some? {
      if c.kind.Kick? {
        MembershipKick(core, c.payload.value);
      } else if !c.kind.CloseRoom? && !c.kind.TransferHost? {
        MembersUntouched(core, c.kind, c.payload.value, now, db);
      }
    }
  }

  lemma MembershipJoin<C>(core: Core<C>, client: C, identity: Identity, now: int)
    requires MembershipOk(core)
    ensures MembershipOk(JoinStep(core, client, identity, now).core)
  {
    MembersReplaced(core.members, identity.id, Member(identity, client, now, false));
  }

  lemma MembershipLeave<C>(core: Core<C>, id: string, only: Option<C>, now: int, db: Db)
    requires MembershipOk(core)
    ensures MembershipOk(LeaveStep(core, id, only, now, db).core)
  {
    if id in core.members {
      MembersRemoved(core.members, id);
    }
  }

  lemma MembershipStep<C>(core: Core<C>, input: Input<C>)
    requires MembershipOk(core)
    ensures MembershipOk(Step(core, input).core)
    ensures Step(core, input).core.room.maxMembers == core.room.maxMembers
  {
    match input.msg
    case Join(client, identity) => MembershipJoin(core, client, identity, input.now);
    case Leave(id, only) => MembershipLeave(core, id, only, input.now, input.db);
    case SetReady(id, ready) =>
      if id in core.members {
        MembersReplaced(core.members, id, core.members[id].(ready := ready));
      }
    case Do(i, c) => MembershipApply(core, i, c, input.now, input.db);
    case _ =>
  }

  /** In every reachable room the online counter is the number of members, which never exceeds the
      room's limit, and every member is filed under its own id. */
  lemma {:induction false} MembershipRun<C>(room: Room, cp: Option<Checkpoint>, inputs: seq<Input<C>>)
    requires room.maxMembers >= 0
    ensures MembershipOk(Run(NewActor<C>(room, cp), inputs))
    ensures Run(NewActor<C>(room, cp), inputs).room.maxMembers == room.maxMembers
  {
    if inputs != [] {
      MembershipRun(room, cp, inputs[..|inputs| - 1]);
      MembershipStep(Run(NewActor<C>(room, cp), inputs[..|inputs| - 1]), inputs[|inputs| - 1]);
    }
  }

  ghost predicate JoinsAs<C>(core: Core<C>, input: Input<C>, id: string) {
    input.msg.Join? && input.msg.identity.id == id && Step(core, input).reply.Done?
  }

  /** Which messages of a run were accepted joins under `id`. */
  ghost function Joins<C>(core: Core<C>, inputs: seq<Input<C>>, id: string): seq<bool> {
    seq(|inputs|, k requires 0 <= k < |inputs| => JoinsAs(At(core, inputs, k), inputs[k], id))
  }

  /** Message `j` is the latest accepted join under `id` before message `k`. */
  ghost predicate LatestJoin<C>(core: Core<C>, inputs: seq<Input<C>>, j: nat, k: nat, id: string)
    requires j < k <= |inputs|
  {
    Since(Joins(core, inputs, id), Joins(core, inputs, id), j, k)
  }

  /** A message makes `id`'s client its own by joining, and no other message changes it. */
  lemma ClientStep<C>(core: Core<C>, input: Input<C>, id: string)
    ensures var members' := Step(core, input).core.members;
      id in members' ==>
        if JoinsAs(core, input, id) then members'[id].client == input.msg.client
        else id in core.members && members'[id].client == core.members[id].client
  {
  }

  /** Every member is served by the connection of the latest accepted join under its id. */
  lemma {:induction false} ClientIsLatestJoin<C>(room: Room, cp: Option<Checkpoint>, inputs: seq<Input<C>>, k: nat, id: string)
    requires k <= |inputs|
    requires id in At(NewActor<C>(room, cp), inputs, k).members
    ensures var core := NewActor<C>(room, cp);
      exists j | 0 <= j < k ::
        LatestJoin(core, inputs, j, k, id) && inputs[j].msg.client == At(core, inputs, k).members[id].client
  {
    var core := NewActor<C>(room, cp);
    assert k > 0;
    AtNext(core, inputs, k - 1);
    ClientStep(At(core, inputs, k - 1), inputs[k - 1], id);
    if JoinsAs(At(core, inputs, k - 1), inputs[k - 1], id) {
      assert LatestJoin(core, inputs, k - 1, k, id);
    } else {
      ClientIsLatestJoin(room, cp, inputs, k - 1, id);
      var j :| 0 <= j < k - 1 && LatestJoin(core, inputs, j, k - 1, id)
            && inputs[j].msg.client == At(core, inputs, k - 1).members[id].client;
      SinceStep(Joins(core, inputs, id), Joins(core, inputs, id), j, k - 1);
    }
  }

  ghost predicate Serves<C>(core: Core<C>, id: string, client: C) {
    id in core.members && core.members[id].client == client
  }

  lemma {:induction false} NeverServesAgain<C>(core: Core<C>, inputs: seq<Input<C>>, i: nat, j: nat, id: string, client: C)
    requires i <= j <= |inputs|
    requires !Serves(At(core, inputs, i), id, client)
    requires forall k | i <= k < j :: inputs[k].msg.Join? ==> inputs[k].msg.client != client
    ensures !Serves(At(core, inputs, j), id, client)
    decreases j
  {
    if i < j {
      NeverServesAgain(core, inputs, i, j - 1, id, client);
      AtNext(core, inputs, j - 1);
      ClientStep(At(core, inputs, j - 1), inputs[j - 1], id);
    }
  }

  /** Once a connection no longer serves its member, because it was replaced, kicked, or went away
      with the room, its own farewell changes nothing however late it arrives, provided that the
      connection does not join a second time. */
  lemma LateLeaveIsIgnored<C>(core: Core<C>, inputs: seq<Input<C>>, i: nat, j: nat, id: string, client: C, now: int, db: Db)
    requires i <= j <= |inputs|
    requires !Serves(At(core, inputs, i), id, client)
    requires forall k | i <= k < j :: inputs[k].msg.Join? ==> inputs[k].msg.client != client
    ensures var room := At(core, inputs, j);
      Step(room, Input(Leave(id, Some(client)), now, db)) == Result(room, [], Done(None))
  {
    NeverServesAgain(core, inputs, i, j, id, client);
  }

  // ---------------------------------------------------------------- provenance of playing

  /** Messages that end a buffering interval other than by resuming from it. A host who leaves while the
      room is not open does not interrupt it. */
  ghost predicate Interrupts<C>(core: Core<C>, input: Input<C>) {
    || Performs(core, input, Play) || Performs(core, input, Pause) || Performs(core, input, EndPlayback)
    || Performs(core, input, SetMedia) || HostDeparts(core, input)
  }

  ghost predicate ByConnectedHost<C>(core: Core<C>, input: Input<C>) {
    input.msg.Do? && input.msg.identity.id == core.room.host && input.msg.identity.id in core.members
  }

  ghost predicate Resumable(s: PlaybackState) {
    s.phase.Buffering? ==> s.resumeIntent == Some(Playing)
  }

  /** Resuming keeps the held anchor and schedules the restart 350 ms ahead. */
  predicate ResumesFrom(s: PlaybackState, s': PlaybackState, now: int) {
    s.phase.Buffering? && s'.anchorPos == s.anchorPos && s'.anchorTime == now + SCHEDULE_LEAD_MS
  }

  lemma RetimePhase(s: PlaybackState, f: Filter, kind: Kind, p: Payload, now: int)
    requires Resumable(s)
    ensures var retiming := Retime(s, f, kind, p, now).1;
      retiming.Retimed? ==>
        var s' := retiming.playback;
        && Resumable(s')
        && (s'.phase.Playing? && !s.phase.Playing? ==> kind.Play? || (kind.HostReady? && ResumesFrom(s, s', now)))
        && (s'.phase.Buffering? && !s.phase.Buffering? ==> kind.HostBuffering?)
        && (s'.phase.Buffering? ==> kind !in {Play, Pause, EndPlayback})
  {
  }

  /** How a message changes the phase to playing or to buffering. */
  lemma PhaseStep<C>(core: Core<C>, input: Input<C>)
    requires Resumable(core.playback)
    ensures var s, s' := core.playback, Step(core, input).core.playback;
      && Resumable(s')
      && (s'.phase.Playing? && !s.phase.Playing? ==>
            && ByConnectedHost(core, input)
            && (Performs(core, input, Play) || (Performs(core, input, HostReady) && ResumesFrom(s, s', input.now))))
      && (s'.phase.Buffering? && !s.phase.Buffering? ==>
            ByConnectedHost(core, input) && Performs(core, input, HostBuffering))
  {
    if input.msg.Do? && input.msg.command.payload.Some? {
      RetimePhase(core.playback, core.filter, input.msg.command.kind, input.msg.command.payload.value, input.now);
    }
  }

  lemma BufferingUninterrupted<C>(core: Core<C>, input: Input<C>)
    requires Resumable(core.playback)
    requires Step(core, input).core.playback.phase.Buffering?
    ensures !Interrupts(core, input)
  {
    if input.msg.Do? && input.msg.command.payload.Some? {
      RetimePhase(core.playback, core.filter, input.msg.command.kind, input.msg.command.payload.value, input.now);
    }
  }

  /** A buffering room goes on buffering when its host leaves if and only if it is not open. */
  lemma BufferingThroughLeave<C>(core: Core<C>, input: Input<C>)
    requires core.playback.phase.Buffering? && HostLeaves(core, input)
    ensures Step(core, input).core.playback.phase.Buffering? <==> !core.room.status.Open?
  {
  }

  /** Which messages of a run were reports of buffering by the connected host. */
  ghost function Openings<C>(core: Core<C>, inputs: seq<Input<C>>): seq<bool> {
    seq(|inputs|, k requires 0 <= k < |inputs| =>
      ByConnectedHost(At(core, inputs, k), inputs[k]) && Performs(At(core, inputs, k), inputs[k], HostBuffering))
  }

  /** Which messages of a run were interruptions. */
  ghost function Interruptions<C>(core: Core<C>, inputs: seq<Input<C>>): seq<bool> {
    seq(|inputs|, k requires 0 <= k < |inputs| => Interrupts(At(core, inputs, k), inputs[k]))
  }

  /** Message `j` opened the buffering interval that still holds at `k`. */
  ghost predicate Opens<C>(core: Core<C>, inputs: seq<Input<C>>, j: nat, k: nat)
    requires j < k <= |inputs|
  {
    Since(Openings(core, inputs), Interruptions(core, inputs), j, k)
  }

  ghost function Bufferings<C>(core: Core<C>, inputs: seq<Input<C>>): seq<bool> {
    seq(|inputs| + 1, k requires 0 <= k <= |inputs| => At(core, inputs, k).playback.phase.Buffering?)
  }

  /** Buffering always comes with the intent to resume playing. */
  lemma {:induction false} ResumableRun<C>(room: Room, cp: Option<Checkpoint>, inputs: seq<Input<C>>, k: nat)
    requires k <= |inputs|
    ensures Resumable(At(NewActor<C>(room, cp), inputs, k).playback)
  {
    if k > 0 {
      ResumableRun(room, cp, inputs, k - 1);
      AtNext(NewActor<C>(room, cp), inputs, k - 1);
      PhaseStep(At(NewActor<C>(room, cp), inputs, k - 1), inputs[k - 1]);
    }
  }

  lemma BufferingStep<C>(core: Core<C>, input: Input<C>)
    requires Resumable(core.playback) && Step(core, input).core.playback.phase.Buffering?
    ensures if core.playback.phase.Buffering? then !Interrupts(core, input)
            else ByConnectedHost(core, input) && Performs(core, input, HostBuffering)
  {
    if core.playback.phase.Buffering? {
      BufferingUninterrupted(core, input);
    } else {
      PhaseStep(core, input);
    }
  }

  lemma BufferingAt<C>(core: Core<C>, inputs: seq<Input<C>>, k: nat)
    requires k < |inputs| && Resumable(At(core, inputs, k).playback)
    ensures LastsStep(Bufferings(core, inputs)[k], Bufferings(core, inputs)[k + 1],
                      Openings(core, inputs)[k], Interruptions(core, inputs)[k])
  {
    AtNext(core, inputs, k);
    if Bufferings(core, inputs)[k + 1] {
      BufferingStep(At(core, inputs, k), inputs[k]);
    }
  }

  lemma BufferingsLast<C>(room: Room, cp: Option<Checkpoint>, inputs: seq<Input<C>>)
    ensures var core := NewActor<C>(room, cp);
      Lasts(Bufferings(core, inputs), Openings(core, inputs), Interruptions(core, inputs))
  {
    var core := NewActor<C>(room, cp);
    forall k | 0 <= k < |inputs|
      ensures LastsStep(Bufferings(core, inputs)[k], Bufferings(core, inputs)[k + 1],
                        Openings(core, inputs)[k], Interruptions(core, inputs)[k])
    {
      ResumableRun(room, cp, inputs, k);
      BufferingAt(core, inputs, k);
    }
  }

  lemma BufferingWasOpened<C>(room: Room, cp: Option<Checkpoint>, inputs: seq<Input<C>>, k: nat)
    requires k <= |inputs|
    ensures var core := NewActor<C>(room, cp);
            var s := At(core, inputs, k).playback;
      s.phase.Buffering? ==> s.resumeIntent == Some(Playing) && exists j | 0 <= j < k :: Opens(core, inputs, j, k)
  {
    var core := NewActor<C>(room, cp);
    if At(core, inputs, k).playback.phase.Buffering? {
      ResumableRun(room, cp, inputs, k);
      BufferingsLast(room, cp, inputs);
      HoldsSince(Bufferings(core, inputs), Openings(core, inputs), Interruptions(core, inputs), k);
      var j :| 0 <= j < k && Since(Openings(core, inputs), Interruptions(core, inputs), j, k);
      assert Opens(core, inputs, j, k);
    }
  }

  /** A room starts to play only by a `play` of the connected host, or by their `host_ready` ending
      a buffering interval that a connected host opened and nothing has interrupted since (in
      particular, the host has not left while the room was open); then it resumes from the held
      anchor, scheduled 350 ms ahead. */
  lemma PlayingProvenance<C>(room: Room, cp: Option<Checkpoint>, inputs: seq<Input<C>>, k: nat)
    requires k < |inputs|
    requires !At(NewActor<C>(room, cp), inputs, k).playback.phase.Playing?
    requires At(NewActor<C>(room, cp), inputs, k + 1).playback.phase.Playing?
    ensures var core := NewActor<C>(room, cp);
            var before, after := At(core, inputs, k), At(core, inputs, k + 1);
      && ByConnectedHost(before, inputs[k])
      && (|| Performs(before, inputs[k], Play)
          || (&& Performs(before, inputs[k], HostReady)
              && (exists j | 0 <= j < k :: Opens(core, inputs, j, k))
              && after.playback.anchorPos == before.playback.anchorPos
              && after.playback.anchorTime == inputs[k].now + SCHEDULE_LEAD_MS))
  {
    BufferingWasOpened(room, cp, inputs, k);
    AtNext(NewActor<C>(room, cp), inputs, k);
    PhaseStep(At(NewActor<C>(room, cp), inputs, k), inputs[k]);
  }

  // ---------------------------------------------------------------- host absence

  /** A room that waits for its host does not have it; a room without its host does not play; a
      closed room is empty. */
  ghost predicate HostPresence<C>(core: Core<C>) {
    && (core.room.status.HostDisconnected? ==> core.room.host !in core.members)
    && (core.room.host !in core.members ==> !core.playback.phase.Playing?)
    && (core.room.status.Closed? ==> core.members == map[])
  }

  /** The two orders that can break this: handing the host role to someone present while the room
      still counts as waiting for its host, and closing a room, if it is playing, or if the store
      fails to close it while it has members. */
  ghost predicate BreaksPresence<C>(core: Core<C>, input: Input<C>) {
    && input.msg.Do?
    && var kind, payload := input.msg.command.kind, input.msg.command.payload;
    && Authorized(core, input.msg.identity, kind) && payload.Some?
    && (|| (&& kind.TransferHost? && core.room.status.HostDisconnected? && input.db.transferOk
            && payload.value.targetUserId in core.members && !core.members[payload.value.targetUserId].identity.guest)
        || (kind.CloseRoom? && if input.db.closeOk then core.playback.phase.Playing? else core.members != map[]))
  }

  ghost predicate Eligible<C>(id: string, members: map<string, Member<C>>, hostId: string) {
    id in members && id != hostId && !members[id].identity.guest
  }

  /** Who takes over is the first in the store's order that is present, no guest and not the old host;
      nobody does only if there is none (or the first has no id). */
  lemma {:induction false} SuccessorIsFirst<C>(ids: seq<string>, members: map<string, Member<C>>, hostId: string)
    ensures var next := Successor(ids, members, hostId);
      || (exists i | 0 <= i < |ids| ::
            && next == ids[i] && Eligible(next, members, hostId)
            && forall j | 0 <= j < i :: !Eligible(ids[j], members, hostId))
      || (next == "" && forall i | 0 <= i < |ids| :: !Eligible(ids[i], members, hostId))
  {
    if ids != [] && !Eligible(ids[0], members, hostId) {
      SuccessorIsFirst(ids[1..], members, hostId);
      var next := Successor(ids[1..], members, hostId);
      if i: nat :| i < |ids| - 1 && next == ids[1..][i] && Eligible(next, members, hostId)
                   && forall j | 0 <= j < i :: !Eligible(ids[1..][j], members, hostId) {
        assert next == ids[i + 1];
        assert forall j | 0 < j < i + 1 :: ids[j] == ids[1..][j - 1];
      } else {
        assert forall j | 0 < j < |ids| :: ids[j] == ids[1..][j - 1];
      }
    } else if ids != [] {
      assert Successor(ids, members, hostId) == ids[0];
    }
  }

  lemma PresencePlayback<C>(core: Core<C>, kind: Kind, p: Payload, now: int, db: Db)
    requires HostPresence(core) && core.room.host in core.members
    ensures HostPresence(PlaybackStep(core, kind, p, now, db).core)
  {
  }

  lemma PresenceAdmin<C>(core: Core<C>, p: Payload, now: int, db: Db)
    requires HostPresence(core)
    ensures HostPresence(KickStep(core, p).core)
    ensures HostPresence(MediaStep(core, p, now, db).core)
    ensures HostPresence(CloseStep(core, db).core)
       <==> !(if db.closeOk then core.playback.phase.Playing? else core.members != map[])
  {
  }

  lemma PresenceApply<C>(core: Core<C>, input: Input<C>)
    requires HostPresence(core) && input.msg.Do?
    ensures HostPresence(Step(core, input).core) <==> !BreaksPresence(core, input)
  {
    var i, c := input.msg.identity, input.msg.command;
    if c.payload.Some? {
      if IsAdmin(c.kind) && !c.kind.UnknownAdmin? {
        PresenceAdmin(core, c.payload.value, input.now, input.db);
      } else if core.room.host in core.members {
        PresencePlayback(core, c.kind, c.payload.value, input.now, input.db);
      }
    }
  }

  /** A message keeps the rule if and only if it is not one of those orders. */
  lemma PresenceStep<C>(core: Core<C>, input: Input<C>)
    requires HostPresence(core)
    ensures HostPresence(Step(core, input).core) <==> !BreaksPresence(core, input)
  {
    if input.msg.Do? {
      PresenceApply(core, input);
    } else if input.msg.ExpireHost? {
      SuccessorIsFirst(input.db.memberIds, core.members, input.msg.hostId);
    }
  }

  /** Without those orders the rule holds throughout, whatever state the room was restored in. */
  lemma {:induction false} HostAbsenceStopsRoom<C>(room: Room, cp: Option<Checkpoint>, inputs: seq<Input<C>>)
    requires forall k | 0 <= k < |inputs| :: !BreaksPresence(At(NewActor(room, cp), inputs, k), inputs[k])
    ensures HostPresence(Run(NewActor<C>(room, cp), inputs))
  {
    if inputs != [] {
      var n := |inputs| - 1;
      var core := NewActor<C>(room, cp);
      assert forall k | 0 <= k < n :: inputs[..n][..k] == inputs[..k];
      HostAbsenceStopsRoom(room, cp, inputs[..n]);
      assert !BreaksPresence(At(core, inputs, n), inputs[n]);
      PresenceStep(Run(core, inputs[..n]), inputs[n]);
    }
  }

  // ---------------------------------------------------------------- leaves during a buffering interval

  /** While the rule holds, a host can only leave an open room. */
  lemma LeavesInOrder<C>(core: Core<C>, input: Input<C>)
    requires HostPresence(core) && HostLeaves(core, input)
    ensures HostDeparts(core, input)
  {
  }

  lemma PresenceAt<C>(room: Room, cp: Option<Checkpoint>, inputs: seq<Input<C>>, k: nat)
    requires k <= |inputs|
    requires forall m | 0 <= m < k :: !BreaksPresence(At(NewActor(room, cp), inputs, m), inputs[m])
    ensures HostPresence(At(NewActor<C>(room, cp), inputs, k))
  {
    forall m | 0 <= m < k
      ensures !BreaksPresence(At(NewActor(room, cp), inputs[..k], m), inputs[..k][m])
    {
      assert inputs[..k][..m] == inputs[..m];
    }
    HostAbsenceStopsRoom(room, cp, inputs[..k]);
  }

  /** Since a buffering interval was opened every leave of the host came while the room was not open;
      and there was none at all if none of the orders above was given before. */
  lemma HostLeavesWhileBuffering<C>(room: Room, cp: Option<Checkpoint>, inputs: seq<Input<C>>, j: nat, k: nat, m: nat)
    requires j < m < k <= |inputs|
    requires Opens(NewActor<C>(room, cp), inputs, j, k)
    requires HostLeaves(At(NewActor<C>(room, cp), inputs, m), inputs[m])
    ensures !At(NewActor<C>(room, cp), inputs, m).room.status.Open?
    ensures exists b | 0 <= b < m :: BreaksPresence(At(NewActor<C>(room, cp), inputs, b), inputs[b])
  {
    var core := NewActor<C>(room, cp);
    assert !Interruptions(core, inputs)[m];
    if forall b | 0 <= b < m :: !BreaksPresence(At(core, inputs, b), inputs[b]) {
      PresenceAt(room, cp, inputs, m);
      LeavesInOrder(At(core, inputs, m), inputs[m]);
    }
  }

  // ---------------------------------------------------------------- the orders do break it

  const HOST := Identity("host", false, false)
  const MEMBER := Identity("member", false, false)
  const ADMIN := Identity("admin", false, true)
  const STORE_OK := Db(true, [], true, true, true, true, true)

  function Order(i: Identity, kind: Kind, target: string): Input<nat> {
    Input(Do(i, Command(kind, Some(Payload(0, 1.0, false, 4, target, "", 0, true)))), 1000, STORE_OK)
  }

  function Tell(msg: Message<nat>): Input<nat> {
    Input(msg, 1000, STORE_OK)
  }

  /** A room that its host has just joined. */
  ghost predicate JustJoined(room: Room, core: Core<nat>) {
    && core.room == room && core.playback == NewActor<nat>(room, None).playback && core.filter == Filter(0, 0, 0)
    && core.members.Keys == {"host"}
  }

  lemma HostJoins(room: Room, input: Input<nat>)
    requires room.status.Open? && room.maxMembers > 0 && input.msg == Join(0, HOST)
    ensures JustJoined(room, Step(NewActor(room, None), input).core)
  {
  }

  /** Closed while playing and reopened, a room plays with nobody in it. */
  lemma ClosedWhilePlayingStillPlays()
    ensures var core := Run(NewActor<nat>(Room("host", Open, Some("m"), 5, ""), None),
                            [Tell(Join(0, HOST)), Order(HOST, Play, ""), Order(HOST, CloseRoom, ""), Tell(Reopen)]);
      core.room.status.HostDisconnected? && core.members == map[] && core.playback.phase.Playing?
  {
    var core := NewActor<nat>(Room("host", Open, Some("m"), 5, ""), None);
    RunFour(core, Tell(Join(0, HOST)), Order(HOST, Play, ""), Order(HOST, CloseRoom, ""), Tell(Reopen));
    var joined := Step(core, Tell(Join(0, HOST))).core;
    assert joined.room == core.room && "host" in joined.members && joined.playback == core.playback;
    var playing := Step(joined, Order(HOST, Play, "")).core;
    assert playing.playback.phase.Playing? && playing.room == core.room;
  }

  /** A close that the store refuses leaves a closed room with members in it. */
  lemma RefusedCloseKeepsMembers()
    ensures var refuses := STORE_OK.(closeOk := false);
            var core := Run(NewActor<nat>(Room("host", Open, Some("m"), 5, ""), None),
                            [Tell(Join(0, HOST)), Order(HOST, CloseRoom, "").(db := refuses)]);
      core.room.status.Closed? && "host" in core.members && !HostPresence(core)
  {
    var core := NewActor<nat>(Room("host", Open, Some("m"), 5, ""), None);
    var close := Order(HOST, CloseRoom, "").(db := STORE_OK.(closeOk := false));
    RunMore(core, [], Tell(Join(0, HOST)), close);
    assert [] + [Tell(Join(0, HOST)), close] == [Tell(Join(0, HOST)), close];
    var joined := Step(core, Tell(Join(0, HOST))).core;
    assert joined.room == core.room && "host" in joined.members;
  }

  /** The room after a member has been appointed host while the room waits for its host. */
  function Appointed(): Core<nat> {
    Core(Room("member", HostDisconnected, Some("m"), 5, ""),
         NewActor<nat>(Room("host", HostDisconnected, Some("m"), 5, ""), None).playback,
         map["member" := Member(MEMBER, 0, 1000, false)], 1, Filter(0, 0, 0), None)
  }

  lemma AppointingKeepsWaiting()
    ensures var core := NewActor<nat>(Room("host", HostDisconnected, Some("m"), 5, ""), None);
      Step(Step(core, Tell(Join(0, MEMBER))).core, Order(ADMIN, TransferHost, "member")).core == Appointed()
  {
    var core := NewActor<nat>(Room("host", HostDisconnected, Some("m"), 5, ""), None);
    var joined := Step(core, Tell(Join(0, MEMBER))).core;
    assert joined == core.(members := map["member" := Member(MEMBER, 0, 1000, false)], online := 1);
  }

  /** A host appointed while the room waits for one can leave it playing without a host. */
  lemma AppointedHostLeavesRoomPlaying()
    ensures var core := Run(NewActor<nat>(Room("host", HostDisconnected, Some("m"), 5, ""), None),
                            [Tell(Join(0, MEMBER)), Order(ADMIN, TransferHost, "member"),
                             Order(MEMBER, Play, ""), Tell(Leave("member", Some(0)))]);
      core.room.host == "member" && "member" !in core.members && core.playback.phase.Playing?
  {
    var core := NewActor<nat>(Room("host", HostDisconnected, Some("m"), 5, ""), None);
    RunFour(core, Tell(Join(0, MEMBER)), Order(ADMIN, TransferHost, "member"),
            Order(MEMBER, Play, ""), Tell(Leave("member", Some(0))));
    AppointingKeepsWaiting();
    var playing := Step(Appointed(), Order(MEMBER, Play, "")).core;
    assert playing.playback.phase.Playing? && playing.members == Appointed().members && playing.room == Appointed().room;
  }

  // ---------------------------------------------------------------- and let buffering outlive the host's leave

  const WAITING_ROOM := Room("host", HostDisconnected, Some("m"), 5, "")

  /** A host who was appointed while the room waited for one plays, stalls, leaves and comes back. */
  function LeaveAndReturn(): seq<Input<nat>> {
    [Tell(Join(0, MEMBER)), Order(ADMIN, TransferHost, "member"), Order(MEMBER, Play, ""), Order(MEMBER, HostBuffering, ""),
     Tell(Leave("member", Some(0))), Tell(Join(1, MEMBER)), Order(MEMBER, HostReady, "")]
  }

  /** The room with its appointed host, present or not. */
  ghost predicate AppointedRoom(core: Core<nat>, status: Status, present: bool, phase: Phase) {
    && core.room == WAITING_ROOM.(host := "member", status := status) && core.playback.phase == phase
    && core.members.Keys == (if present then {"member"} else {})
    && (present && status.HostDisconnected? ==> core.members["member"].client == 0)
    && (phase.Buffering? ==> core.playback.resumeIntent == Some(Playing) && core.playback.duration == 0)
    && (phase.Playing? || phase.Paused? ==> core.playback.duration == 0)
  }

  lemma LeaveAndReturnStart()
    ensures var core := NewActor<nat>(WAITING_ROOM, None);
      && AppointedRoom(At(core, LeaveAndReturn(), 2), HostDisconnected, true, Paused)
      && AppointedRoom(At(core, LeaveAndReturn(), 3), HostDisconnected, true, Playing)
  {
    var core := NewActor<nat>(WAITING_ROOM, None);
    AtNext(core, LeaveAndReturn(), 0);
    AtNext(core, LeaveAndReturn(), 1);
    AppointingKeepsWaiting();
    AtNext(core, LeaveAndReturn(), 2);
  }

  lemma AppointedStalls(core: Core<nat>)
    requires AppointedRoom(core, HostDisconnected, true, Playing)
    ensures AppointedRoom(Step(core, LeaveAndReturn()[3]).core, HostDisconnected, true, Buffering)
    ensures ByConnectedHost(core, LeaveAndReturn()[3]) && Performs(core, LeaveAndReturn()[3], HostBuffering)
  {
  }

  lemma AppointedLeaves(core: Core<nat>)
    requires AppointedRoom(core, HostDisconnected, true, Buffering)
    ensures HostLeaves(core, LeaveAndReturn()[4]) && !Interrupts(core, LeaveAndReturn()[4])
    ensures AppointedRoom(Step(core, LeaveAndReturn()[4]).core, HostDisconnected, false, Buffering)
  {
    assert (core.members - {"member"}).Keys == {};
  }

  lemma AppointedReturns(core: Core<nat>)
    requires AppointedRoom(core, HostDisconnected, false, Buffering)
    ensures !Interrupts(core, LeaveAndReturn()[5])
    ensures AppointedRoom(Step(core, LeaveAndReturn()[5]).core, Open, true, Buffering)
  {
    assert |core.members| == 0;
  }

  lemma AppointedResumes(core: Core<nat>)
    requires AppointedRoom(core, Open, true, Buffering)
    ensures Step(core, LeaveAndReturn()[6]).core.playback.phase.Playing?
  {
  }

  lemma LeaveAndReturnTrace()
    ensures var core, inputs := NewActor<nat>(WAITING_ROOM, None), LeaveAndReturn();
      && AppointedRoom(At(core, inputs, 3), HostDisconnected, true, Playing)
      && AppointedRoom(At(core, inputs, 4), HostDisconnected, true, Buffering)
      && AppointedRoom(At(core, inputs, 5), HostDisconnected, false, Buffering)
      && AppointedRoom(At(core, inputs, 6), Open, true, Buffering)
  {
    var core, inputs := NewActor<nat>(WAITING_ROOM, None), LeaveAndReturn();
    LeaveAndReturnStart();
    AppointedStalls(At(core, inputs, 3));
    AtNext(core, inputs, 3);
    AppointedLeaves(At(core, inputs, 4));
    AtNext(core, inputs, 4);
    AppointedReturns(At(core, inputs, 5));
    AtNext(core, inputs, 5);
  }

  lemma LeaveAndReturnOpens()
    ensures Opens(NewActor<nat>(WAITING_ROOM, None), LeaveAndReturn(), 3, 6)
  {
    var core, inputs := NewActor<nat>(WAITING_ROOM, None), LeaveAndReturn();
    LeaveAndReturnTrace();
    AppointedStalls(At(core, inputs, 3));
    AppointedLeaves(At(core, inputs, 4));
    AppointedReturns(At(core, inputs, 5));
    assert Opens(core, inputs, 3, 4);
    SinceStep(Openings(core, inputs), Interruptions(core, inputs), 3, 4);
    SinceStep(Openings(core, inputs), Interruptions(core, inputs), 3, 5);
  }

  lemma LeaveAndReturnLeaves()
    ensures var core, inputs := NewActor<nat>(WAITING_ROOM, None), LeaveAndReturn();
      HostLeaves(At(core, inputs, 4), inputs[4]) && At(core, inputs, 5).playback.phase.Buffering?
  {
    LeaveAndReturnTrace();
    AppointedLeaves(At(NewActor<nat>(WAITING_ROOM, None), LeaveAndReturn(), 4));
  }

  lemma LeaveAndReturnResumes()
    ensures var core, inputs := NewActor<nat>(WAITING_ROOM, None), LeaveAndReturn();
      At(core, inputs, 6).playback.phase.Buffering? && At(core, inputs, 7).playback.phase.Playing?
  {
    LeaveAndReturnTrace();
    AppointedResumes(At(NewActor<nat>(WAITING_ROOM, None), LeaveAndReturn(), 6));
    AtNext(NewActor<nat>(WAITING_ROOM, None), LeaveAndReturn(), 6);
  }

  /** The buffering interval outlives the leave of its host, and one `host_ready` resumes it. */
  lemma BufferingOutlivesHost()
    ensures var core, inputs := NewActor<nat>(WAITING_ROOM, None), LeaveAndReturn();
      && HostLeaves(At(core, inputs, 4), inputs[4]) && At(core, inputs, 5).playback.phase.Buffering?
      && Opens(core, inputs, 3, 6)
      && At(core, inputs, 6).playback.phase.Buffering? && At(core, inputs, 7).playback.phase.Playing?
  {
    LeaveAndReturnLeaves();
    LeaveAndReturnOpens();
    LeaveAndReturnResumes();
  }
}
