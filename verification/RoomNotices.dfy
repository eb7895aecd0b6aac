/** What a message of the room means to one connection: what it is told, and whether and why it is closed. */
module RoomNotices {
  import opened Basics
  import opened Playback
  import opened RoomProtocol
  import opened RoomTimeline
  import opened RoomCommands
  import Replication
  import RoomPresence

  /** What is queued for a connection, and the code and reason it is closed with. */
  datatype Notice = Notice(told: seq<Envelope>, closed: Option<(int, string)>)

  const NOTHING := Notice([], None)

  function Tell(e: Envelope): Notice { Notice([e], None) }

  ghost predicate ServedBy(core: Core<nat>, id: string, c: nat) {
    id in core.members && core.members[id].client == c
  }

  /** What a join means to the connection `c`: the joiner gets the room as it is now and its own news,
      an older connection of theirs is superseded, everybody else gets the news. */
  ghost function JoinNotice(core: Core<nat>, input: Input<nat>, c: nat): Notice
    requires input.msg.Join?
  {
    var id := input.msg.identity.id;
    if !Enters(core, input, id) then NOTHING
    else if c == input.msg.client
    then Notice([Snapshot(Step(core, input).core.room, core.playback), MemberJoined(input.msg.identity)], None)
    else if ServedBy(core, id, c) then Notice([], Some((4001, "replaced by reconnect")))
    else Tell(MemberJoined(input.msg.identity))
  }

  /** What a leave means to a connection that stays. */
  ghost function LeaveNotice(core: Core<nat>, input: Input<nat>, c: nat): Notice
    requires input.msg.Leave?
  {
    var id := input.msg.id;
    if !Leaves(core, input, id) || ServedBy(core, id, c) then NOTHING
    else if HostDeparts(core, input) then Notice([MemberLeft(id, false), State(Step(core, input).core.playback)], None)
    else Tell(MemberLeft(id, false))
  }

  /** What a command means to the connection of a member. */
  ghost function CommandNotice(core: Core<nat>, input: Input<nat>, c: nat): Notice
    requires input.msg.Do?
  {
    var command, playback' := input.msg.command, Step(core, input).core.playback;
    if playback' != core.playback then Tell(State(playback'))
    else if ClosesRoom(core, input) then Notice([RoomClosed], Some((1000, "room closed")))
    else if command.payload.None? then NOTHING
    else
      var target := command.payload.value.targetUserId;
      if Kicks(core, input, target)
      then if ServedBy(core, target, c) then Notice([], Some((1008, "removed from room"))) else Tell(MemberLeft(target, true))
      else if Performs(core, input, TransferHost) then Tell(HostChanged(target))
      else NOTHING
  }

  ghost function NoticeFor(core: Core<nat>, input: Input<nat>, c: nat): Notice {
    match input.msg
    case Join(_, _) => JoinNotice(core, input, c)
    case Leave(_, _) => LeaveNotice(core, input, c)
    case ExpireHost(_) =>
      if Step(core, input).core.room.host == core.room.host then NOTHING else Tell(HostChanged(Step(core, input).core.room.host))
    case Do(_, _) => CommandNotice(core, input, c)
    case Rename(title) => if input.db.renameOk then Tell(RoomUpdated(title)) else NOTHING
    case Announce => Tell(Other)
    case Shutdown => Notice([ServerShutdown], Some((1001, "server shutdown")))
    case _ => NOTHING
  }

  /** An open connection with room for two more envelopes. */
  predicate HasRoom(link: Link) { link.closed.None? && |link.out| <= 62 }

  ghost predicate Noticed(link: Link, link': Link, notice: Notice) {
    link'.out == link.out + notice.told && link'.closed == notice.closed
  }

  ghost predicate Concerned(core: Core<nat>, input: Input<nat>, c: nat) {
    (exists id :: ServedBy(core, id, c)) || (input.msg.Join? && input.msg.client == c)
  }

  lemma Untouched(link: Link, c: nat, effects: seq<Effect<nat>>)
    requires effects == [] && link.closed.None?
    ensures Noticed(link, AffectAll(link, c, effects), NOTHING)
  {
    assert link.out + [] == link.out;
  }

  lemma OneBroadcast(link: Link, c: nat, to: set<nat>, e: Envelope)
    requires HasRoom(link) && c in to
    ensures Noticed(link, AffectAll(link, c, [Broadcast(to, e)]), Tell(e))
  {
    AffectOne(link, c, Broadcast(to, e));
  }

  lemma InClients(members: map<string, Member<nat>>, id: string)
    requires id in members
    ensures members[id].client in Clients(members)
  {
  }

  lemma NotInClients(members: map<string, Member<nat>>, c: nat)
    requires forall id | id in members :: members[id].client != c
    ensures c !in Clients(members)
  {
  }

  /** A joiner's snapshot and its news, after the farewell of the older connection. */
  lemma SupersededNoticed(link: Link, c: nat, client: nat, older: seq<nat>, to: set<nat>, snapshot: Envelope, news: Envelope)
    requires HasRoom(link) && |older| <= 1 && client in to && client !in older
    requires c in to <==> c !in older
    ensures var first := if older == [] then [] else [Close({older[0]}, 4001, "replaced by reconnect")];
      Noticed(link, AffectAll(link, c, first + [Send({client}, snapshot), Broadcast(to, news)]),
              if c == client then Notice([snapshot, news], None)
              else if c in older then Notice([], Some((4001, "replaced by reconnect")))
              else Tell(news))
  {
    var first: seq<Effect<nat>> := if older == [] then [] else [Close({older[0]}, 4001, "replaced by reconnect")];
    AffectTwoMore(link, c, first, Send({client}, snapshot), Broadcast(to, news));
    if older != [] {
      AffectOne(link, c, first[0]);
    }
  }

  lemma JoinNoticed(core: Core<nat>, input: Input<nat>, c: nat, link: Link)
    requires input.msg.Join? && Replication.DistinctClients(core) && Replication.Stranger(core, input.msg.client)
    requires Concerned(core, input, c) && HasRoom(link)
    ensures Noticed(link, AffectAll(link, c, Step(core, input).effects), JoinNotice(core, input, c))
  {
    var r, id, client := Step(core, input), input.msg.identity.id, input.msg.client;
    JoinRefusals(core, input);
    if !Enters(core, input, id) {
      Untouched(link, c, r.effects);
    } else {
      var older := if id in core.members then [core.members[id].client] else [];
      InClients(r.core.members, id);
      if c != client {
        var other :| ServedBy(core, other, c);
        if other == id {
          NotInClients(r.core.members, c);
        } else {
          InClients(r.core.members, other);
        }
      }
      SupersededNoticed(link, c, client, older, Clients(r.core.members),
                        Snapshot(r.core.room, core.playback), MemberJoined(input.msg.identity));
    }
  }

  lemma LeaveNoticed(core: Core<nat>, input: Input<nat>, c: nat, link: Link)
    requires input.msg.Leave? && Replication.DistinctClients(core) && Concerned(core, input, c) && HasRoom(link)
    ensures Noticed(link, AffectAll(link, c, Step(core, input).effects), LeaveNotice(core, input, c))
  {
    var r, id := Step(core, input), input.msg.id;
    var other :| ServedBy(core, other, c);
    if !Leaves(core, input, id) {
      Untouched(link, c, r.effects);
    } else {
      if other == id {
        NotInClients(r.core.members, c);
      } else {
        InClients(r.core.members, other);
      }
      if HostDeparts(core, input) {
        assert r.effects == [] + [r.effects[0], r.effects[1]];
        AffectTwoMore(link, c, [], r.effects[0], r.effects[1]);
      } else {
        AffectOne(link, c, r.effects[0]);
      }
    }
  }

  lemma PlaybackNoticed(core: Core<nat>, kind: Kind, p: Payload, now: int, db: Db, c: nat, link: Link)
    requires HasRoom(link) && c in Clients(core.members)
    ensures var r := PlaybackStep(core, kind, p, now, db);
      Noticed(link, AffectAll(link, c, r.effects),
              if r.core.playback != core.playback then Tell(State(r.core.playback)) else NOTHING)
  {
    var r := PlaybackStep(core, kind, p, now, db);
    PlaybackStepPublishes(core, Announce, kind, p, now, db);
    if r.effects == [] {
      Untouched(link, c, r.effects);
    } else {
      OneBroadcast(link, c, Clients(core.members), State(r.core.playback));
    }
  }

  lemma KickNoticed(core: Core<nat>, p: Payload, c: nat, link: Link, id: string)
    requires Replication.DistinctClients(core) && ServedBy(core, id, c) && HasRoom(link)
    requires p.targetUserId in core.members && p.targetUserId != core.room.host
    ensures Noticed(link, AffectAll(link, c, KickStep(core, p).effects),
                    if id == p.targetUserId then Notice([], Some((1008, "removed from room")))
                    else Tell(MemberLeft(p.targetUserId, true)))
  {
    var r := KickStep(core, p);
    if p.targetUserId == id {
      NotInClients(r.core.members, c);
    } else {
      InClients(r.core.members, id);
    }
    assert r.effects == [] + [r.effects[0], r.effects[1]];
    AffectTwoMore(link, c, [], r.effects[0], r.effects[1]);
  }

  lemma CloseNoticed(core: Core<nat>, db: Db, c: nat, link: Link)
    requires c in Clients(core.members) && HasRoom(link) && db.closeOk
    ensures Noticed(link, AffectAll(link, c, CloseStep(core, db).effects), Notice([RoomClosed], Some((1000, "room closed"))))
  {
    var r := CloseStep(core, db);
    assert r.effects == [] + [r.effects[0], r.effects[1]];
    AffectTwoMore(link, c, [], r.effects[0], r.effects[1]);
  }

  lemma OrderNoticed(core: Core<nat>, input: Input<nat>, c: nat, link: Link, id: string)
    requires input.msg.Do? && Replication.DistinctClients(core) && ServedBy(core, id, c) && HasRoom(link)
    requires IsRoomOrder(input.msg.command.kind) && !input.msg.command.kind.UnknownAdmin?
    requires Step(core, input).effects != []
    ensures Noticed(link, AffectAll(link, c, Step(core, input).effects), CommandNotice(core, input, c))
  {
    var kind, p := input.msg.command.kind, input.msg.command.payload.value;
    InClients(core.members, id);
    if kind.Kick? {
      KickNoticed(core, p, c, link, id);
      assert ServedBy(core, p.targetUserId, c) <==> p.targetUserId == id;
    } else if kind.CloseRoom? {
      CloseNoticed(core, input.db, c, link);
    } else if kind.TransferHost? {
      OneBroadcast(link, c, Clients(core.members), HostChanged(p.targetUserId));
    } else {
      OneBroadcast(link, c, Clients(core.members), State(Step(core, input).core.playback));
    }
  }

  lemma CommandNoticed(core: Core<nat>, input: Input<nat>, c: nat, link: Link)
    requires input.msg.Do? && Replication.DistinctClients(core) && Concerned(core, input, c) && HasRoom(link)
    ensures Noticed(link, AffectAll(link, c, Step(core, input).effects), CommandNotice(core, input, c))
  {
    var r, command := Step(core, input), input.msg.command;
    var id :| ServedBy(core, id, c);
    InClients(core.members, id);
    if r.effects == [] {
      Untouched(link, c, r.effects);
      Publication(core, input);
    } else if IsRoomOrder(command.kind) && !command.kind.UnknownAdmin? {
      OrderNoticed(core, input, c, link, id);
    } else if command.kind.ClientReady? {
      InClients(r.core.members, id);
      OneBroadcast(link, c, Clients(r.core.members), State(r.core.playback));
    } else {
      PlaybackNoticed(core, command.kind, command.payload.value, input.now, input.db, c, link);
    }
  }

  /** Every message tells and closes exactly whom it concerns, with exactly these words, codes and
      reasons, as long as the connection has room for what it is told. */
  lemma NoticeStep(core: Core<nat>, input: Input<nat>, c: nat, link: Link)
    requires Replication.DistinctClients(core) && (input.msg.Join? ==> Replication.Stranger(core, input.msg.client))
    requires Concerned(core, input, c) && HasRoom(link)
    ensures Noticed(link, AffectAll(link, c, Step(core, input).effects), NoticeFor(core, input, c))
  {
    var r := Step(core, input);
    match input.msg
    case Join(_, _) => JoinNoticed(core, input, c, link);
    case Leave(_, _) => LeaveNoticed(core, input, c, link);
    case Do(_, _) => CommandNoticed(core, input, c, link);
    case Shutdown =>
      var id :| ServedBy(core, id, c);
      InClients(core.members, id);
      assert r.effects == [] + [r.effects[0], r.effects[1]];
      AffectTwoMore(link, c, [], r.effects[0], r.effects[1]);
    case ExpireHost(hostId) =>
      RoomPresence.SuccessorIsFirst(input.db.memberIds, core.members, hostId);
      var id :| ServedBy(core, id, c);
      InClients(core.members, id);
      if r.effects == [] {
        Untouched(link, c, r.effects);
      } else {
        OneBroadcast(link, c, Clients(core.members), HostChanged(r.core.room.host));
      }
    case Rename(title) =>
      var id :| ServedBy(core, id, c);
      InClients(core.members, id);
      if r.effects == [] {
        Untouched(link, c, r.effects);
      } else {
        OneBroadcast(link, c, Clients(core.members), RoomUpdated(title));
      }
    case Announce =>
      var id :| ServedBy(core, id, c);
      InClients(core.members, id);
      OneBroadcast(link, c, Clients(core.members), Other);
    case _ => Untouched(link, c, r.effects);
  }

  /** A connection whose queue of 64 is full is told nothing more; a broadcast closes it. */
  lemma FullQueue(link: Link, e: Envelope)
    requires link.closed.None?
    ensures |link.out| >= 64 ==> link.Broadcast(e) == Link(link.out, Some((1013, "slow consumer"))) && link.Send(e) == link
    ensures |link.out| < 64 ==> link.Broadcast(e) == link.Send(e) == Link(link.out + [e], None)
  {
  }

  /** Only the first close counts: whatever follows, a closed connection keeps its code and reason. */
  lemma {:induction false} FirstCloseCounts(link: Link, c: nat, effects: seq<Effect<nat>>)
    requires link.closed.Some?
    ensures AffectAll(link, c, effects).closed == link.closed
  {
    if effects != [] {
      FirstCloseCounts(link, c, effects[..|effects| - 1]);
    }
  }
}
