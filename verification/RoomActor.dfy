/** The room actor and the connections it serves, as the objects that they are. Every message
    handler is proved to perform the protocol's transition: on the actor's own fields, on the reply,
    and on the queue of every connection it may touch. */
module RoomActor {
  import opened Basics
  import opened Playback
  import opened RoomProtocol

  class Connection {
    const identity: Identity
    var out: seq<Envelope>
    var closed: Option<(int, string)>

    constructor (identity: Identity)
      ensures this.identity == identity
      ensures Value() == Link([], None)
    {
      this.identity := identity;
      out, closed := [], None;
    }

    ghost function Value(): Link
      reads this
    {
      Link(out, closed)
    }

    /** Queues an envelope, or reports that there is no room for it. */
    method Send(e: Envelope) returns (ok: bool)
      modifies this`out
      ensures ok <==> |old(out)| < QUEUE_CAPACITY
      ensures Value() == old(Value()).Send(e)
    {
      ok := |out| < QUEUE_CAPACITY;
      if ok {
        out := out + [e];
      }
    }

    /** What a broadcast does to one connection: a slow consumer is closed. */
    method Offer(e: Envelope)
      modifies this
      ensures Value() == old(Value()).Broadcast(e)
    {
      var ok := Send(e);
      if !ok {
        Close(STATUS_SLOW_CONSUMER, "slow consumer");
      }
    }

    /** Only the first close counts. */
    method Close(code: int, reason: string)
      modifies this`closed
      ensures Value() == old(Value()).Close(code, reason)
    {
      if closed.None? {
        closed := Some((code, reason));
      }
    }
  }

  class Actor {
    var room: Room
    var playback: PlaybackState
    var members: map<string, Member<Connection>>
    var online: int
    var hostDriftSamples: int
    var hostDriftDirection: int
    var lastHostAnchorUpdateMs: int
    var saved: Option<Checkpoint>  // the persistence layer's copy

    constructor (room: Room, checkpoint: Option<Checkpoint>)
      ensures Valid() && View() == NewActor(room, checkpoint)
    {
      var pb := PlaybackState("", 0, 0, NoMedia, 0, 0, 1.0, 0, None);
      if room.mediaId.Some? {
        pb := pb.(mediaId := room.mediaId.value, phase := Paused);
      }
      if checkpoint.Some? {
        pb := pb.(mediaId := "");
        if checkpoint.value.mediaId.Some? {
          pb := pb.(mediaId := checkpoint.value.mediaId.value);
        }
        pb := pb.(anchorPos := checkpoint.value.position, rate := checkpoint.value.rate, phase := Paused);
      }
      this.room, playback, saved := room, pb, checkpoint;
      members, online := map[], 0;
      hostDriftSamples, hostDriftDirection, lastHostAnchorUpdateMs := 0, 0, 0;
    }

    ghost function View(): Core<Connection>
      reads this
    {
      Core(room, playback, members, online, Filter(hostDriftSamples, hostDriftDirection, lastHostAnchorUpdateMs), saved)
    }

    /** Members are filed under the id of their connection, so no two share one. */
    ghost predicate Valid()
      reads this
    {
      forall id | id in members :: members[id].client.identity.id == id
    }

    /** The actor and the connections in `touched` have taken the transition `r`. */
    twostate predicate Performed(r: Result<Connection>, reply: Reply, touched: set<Connection>)
      reads this, touched
    {
      && View() == r.core && reply == r.reply
      && forall c | c in touched :: c.Value() == AffectAll(old(c.Value()), c, r.effects)
    }

    // -------------------------------------------------------------- shared pieces

    method Broadcast(e: Envelope)
      requires Valid()
      modifies Clients(members)
      ensures forall c | c in Clients(members) :: c.Value() == old(c.Value()).Broadcast(e)
    {
      var ids := members.Keys;
      while ids != {}
        invariant ids <= members.Keys
        invariant forall id | id in members ::
          members[id].client.Value() ==
            if id in ids then old(members[id].client.Value()) else old(members[id].client.Value()).Broadcast(e)
        decreases |ids|
      {
        var id :| id in ids;
        members[id].client.Offer(e);
        ids := ids - {id};
      }
    }

    /** The same, seen from all connections that a message may touch. */
    method Tell(e: Envelope, ghost touched: set<Connection>)
      requires Valid() && Clients(members) <= touched
      modifies Clients(members)
      ensures forall c | c in touched ::
        c.Value() == Affect(old(c.Value()), c, RoomProtocol.Broadcast(Clients(members), e))
    {
      Broadcast(e);
    }

    /** Closes every member's connection. */
    method CloseAll(code: int, reason: string)
      requires Valid()
      modifies Clients(members)
      ensures forall c | c in Clients(members) :: c.Value() == old(c.Value()).Close(code, reason)
    {
      var ids := members.Keys;
      while ids != {}
        invariant ids <= members.Keys
        invariant forall id | id in members ::
          members[id].client.Value() ==
            if id in ids then old(members[id].client.Value()) else old(members[id].client.Value()).Close(code, reason)
        decreases |ids|
      {
        var id :| id in ids;
        members[id].client.Close(code, reason);
        ids := ids - {id};
      }
    }

    method PersistCheckpoint(now: int, ok: bool)
      modifies this`saved
      ensures View() == Save(old(View()), now, ok)
    {
      var position := playback.anchorPos;
      if playback.phase.Playing? {
        position := Expected(playback, now);
      }
      if ok {
        saved := Some(Checkpoint(room.mediaId, position, playback.rate, playback.phase, now));
      }
    }

    method ResetHostDriftTracking()
      modifies this`hostDriftSamples, this`hostDriftDirection
      ensures View() == old(View()).(filter := Cleared(old(View()).filter))
    {
      hostDriftSamples, hostDriftDirection := 0, 0;
    }

    method AcceptHostAnchorSample(now: int, p: Payload) returns (accepted: bool)
      modifies this`playback, this`hostDriftSamples, this`hostDriftDirection, this`lastHostAnchorUpdateMs
      ensures var (filter, refresh) := AcceptSample(old(playback), old(View()).filter, p, now);
        && accepted == refresh
        && View() == old(View()).(filter := filter,
             playback := if refresh then old(playback).(anchorPos := p.positionMs, anchorTime := now) else old(playback))
    {
      if !playback.phase.Playing? || p.paused || p.readyState < 3 {
        ResetHostDriftTracking();
        return false;
      }
      var drift := p.positionMs - Expected(playback, now);
      if Abs(drift) < HOST_DRIFT_THRESHOLD_MS {
        ResetHostDriftTracking();
        return false;
      }
      var direction := if drift < 0 then -1 else 1;
      if direction != hostDriftDirection {
        hostDriftDirection := direction;
        hostDriftSamples := 1;
      } else {
        hostDriftSamples := hostDriftSamples + 1;
      }
      if hostDriftSamples < HOST_DRIFT_CONFIRMATIONS {
        return false;
      }
      if lastHostAnchorUpdateMs > 0 && now - lastHostAnchorUpdateMs < HOST_ANCHOR_MIN_INTERVAL_MS {
        return false;
      }
      playback := playback.(anchorPos := p.positionMs, anchorTime := now);
      lastHostAnchorUpdateMs := now;
      ResetHostDriftTracking();
      accepted := true;
    }

    // -------------------------------------------------------------- membership messages

    /** Tells an older connection of the joiner's that it has been replaced. */
    method Supersede(client: Connection) returns (ghost effects: seq<Effect<Connection>>)
      requires Valid()
      modifies Clients(members)
      ensures effects == if client.identity.id in members
        then [RoomProtocol.Close({members[client.identity.id].client}, STATUS_SUPERSEDED, "replaced by reconnect")] else []
      ensures forall c | c in Clients(members) + {client} :: c.Value() == AffectAll(old(c.Value()), c, effects)
    {
      effects := [];
      if client.identity.id in members {
        var older := members[client.identity.id].client;
        older.Close(STATUS_SUPERSEDED, "replaced by reconnect");
        effects := [RoomProtocol.Close({older}, STATUS_SUPERSEDED, "replaced by reconnect")];
        forall c | c in Clients(members) + {client}
          ensures c.Value() == AffectAll(old(c.Value()), c, effects)
        {
          AffectOne(old(c.Value()), c, effects[0]);
        }
      }
    }

    /** Files the joiner as a member, and counts the host's return. */
    method Enroll(client: Connection, now: int)
      requires Valid()
      requires JoinStep(View(), client, client.identity, now).reply.Done?
      modifies this
      ensures Valid()
      ensures View() == JoinStep(old(View()), client, client.identity, now).core
    {
      var id := client.identity.id;
      if id !in members {
        online := online + 1;
      }
      members := members[id := Member(client.identity, client, now, false)];
      if id == room.host && room.status.HostDisconnected? {
        room := room.(status := Open);
      }
    }

    /** Sends the joiner its snapshot and everyone the news. */
    method Welcome(client: Connection, ghost touched: set<Connection>)
      requires Valid()
      requires client in Clients(members) && Clients(members) <= touched
      modifies Clients(members)
      ensures forall c | c in touched ::
        c.Value() == Affect(Affect(old(c.Value()), c, RoomProtocol.Send({client}, Snapshot(room, playback))), c,
                            RoomProtocol.Broadcast(Clients(members), MemberJoined(client.identity)))
    {
      var _ := client.Send(Snapshot(room, playback));
      Broadcast(MemberJoined(client.identity));
    }

    method Admit(client: Connection, now: int, ghost touched: set<Connection>)
      requires Valid() && touched == Clients(members) + {client}
      requires JoinStep(View(), client, client.identity, now).reply.Done?
      modifies this, touched
      ensures Valid()
      ensures var core := JoinStep(old(View()), client, client.identity, now).core;
        && View() == core
        && forall c | c in touched ::
             c.Value() == Affect(Affect(old(c.Value()), c, RoomProtocol.Send({client}, Snapshot(core.room, core.playback))), c,
                                 RoomProtocol.Broadcast(Clients(core.members), MemberJoined(client.identity)))
    {
      Enroll(client, now);
      assert members[client.identity.id].client == client;
      Welcome(client, touched);
    }

    method Join(client: Connection, now: int) returns (reply: Reply)
      requires Valid()
      modifies this, Clients(members), client
      ensures Valid()
      ensures Performed(JoinStep(old(View()), client, client.identity, now), reply, old(Clients(members)) + {client})
    {
      if room.status.Closed? {
        return Failed(RoomIsClosed);
      }
      if client.identity.id !in members && |members| >= room.maxMembers {
        return Failed(RoomFull);
      }
      ghost var r := JoinStep(View(), client, client.identity, now);
      ghost var touched := Clients(members) + {client};
      ghost var effects := Supersede(client);
      assert r.effects == effects + [r.effects[|effects|], r.effects[|effects| + 1]];
      Admit(client, now, touched);
      reply := Done(None);
      forall c | c in touched
        ensures c.Value() == AffectAll(old(c.Value()), c, r.effects)
      {
        AffectTwoMore(old(c.Value()), c, effects, r.effects[|effects|], r.effects[|effects| + 1]);
      }
    }

    /** The timeline stops where it stood when the host left. */
    method PauseForDeparture(now: int)
      modifies this`playback, this`room
      ensures View() == old(View()).(playback := HostDeparture(old(playback), now),
                                     room := old(room).(status := HostDisconnected))
    {
      playback := playback.(anchorPos := Expected(playback, now));
      playback := playback.(anchorTime := now, phase := Paused, revision := playback.revision + 1);
      room := room.(status := HostDisconnected);
    }

    method Unfile(id: string)
      requires Valid() && id in members
      modifies this`members, this`online
      ensures Valid() && Clients(members) <= old(Clients(members))
      ensures View() == old(View()).(members := old(members) - {id}, online := old(online) - 1)
    {
      members := members - {id};
      online := online - 1;
    }

    method Leave(id: string, only: Option<Connection>, now: int, db: Db) returns (reply: Reply)
      requires Valid()
      modifies this, Clients(members)
      ensures Valid()
      ensures Performed(LeaveStep(old(View()), id, only, now, db), reply, old(Clients(members)))
    {
      reply := Done(None);
      if id !in members {
        return;
      }
      if only.Some? && members[id].client != only.value {
        return;
      }
      ghost var r, touched := LeaveStep(View(), id, only, now, db), Clients(members);
      Unfile(id);
      Tell(MemberLeft(id, false), touched);
      if id == room.host && room.status.Open? {
        PauseForDeparture(now);
        Tell(State(playback), touched);
        PersistCheckpoint(now, db.saveOk);
        assert r.effects == [] + [r.effects[0], r.effects[1]];
        forall c | c in touched
          ensures c.Value() == AffectAll(old(c.Value()), c, r.effects)
        {
          AffectTwoMore(old(c.Value()), c, [], r.effects[0], r.effects[1]);
        }
      } else {
        forall c | c in touched
          ensures c.Value() == AffectAll(old(c.Value()), c, r.effects)
        {
          AffectOne(old(c.Value()), c, r.effects[0]);
        }
      }
    }

    /** The first stored member who is here and no guest takes over. */
    method FindSuccessor(ids: seq<string>, hostId: string) returns (next: string)
      ensures next == Successor(ids, members, hostId)
    {
      next := "";
      var k := 0;
      while k < |ids|
        invariant 0 <= k <= |ids|
        invariant Successor(ids, members, hostId) == Successor(ids[k..], members, hostId)
      {
        if ids[k] != hostId && ids[k] in members && !members[ids[k]].identity.guest {
          next := ids[k];
          return;
        }
        k := k + 1;
      }
    }

    method ExpireHost(hostId: string, db: Db) returns (reply: Reply)
      requires Valid()
      modifies this, Clients(members)
      ensures Valid()
      ensures Performed(ExpireStep(old(View()), hostId, db), reply, old(Clients(members)))
    {
      reply := Done(None);
      if !room.status.HostDisconnected? || room.host != hostId {
        return;
      }
      var next := FindSuccessor(db.memberIds, hostId);
      if next == "" {
        return;
      }
      ghost var r, touched := ExpireStep(View(), hostId, db), Clients(members);
      room := room.(host := next, status := Open);
      Tell(HostChanged(next), touched);
      forall c | c in touched
        ensures c.Value() == AffectAll(old(c.Value()), c, r.effects)
      {
        AffectOne(old(c.Value()), c, r.effects[0]);
      }
    }

    method SetReady(id: string, ready: bool) returns (reply: Reply)
      requires Valid()
      modifies this`members
      ensures Valid() && Clients(members) == old(Clients(members))
      ensures View() == SetReadyStep(old(View()), id, ready).core && reply == SetReadyStep(old(View()), id, ready).reply
    {
      reply := Done(None);
      if id in members {
        members := members[id := members[id].(ready := ready)];
        assert old(members[id]).client == members[id].client;
        assert forall m | m in members :: members[m].client == old(members)[m].client;
      }
    }

    method Reopen(db: Db) returns (reply: Reply)
      requires Valid()
      modifies this`room
      ensures Valid() && View() == ReopenStep(old(View()), db).core && reply == ReopenStep(old(View()), db).reply
    {
      if !room.status.Closed? {
        return Done(None);
      }
      if !db.reopenOk {
        return Failed(StoreError);
      }
      room := room.(status := HostDisconnected);
      reply := Done(None);
    }

    /** The title changes once the store has taken it. */
    method Rename(title: string, db: Db) returns (reply: Reply)
      requires Valid()
      modifies this`room, Clients(members)
      ensures Valid()
      ensures Performed(RenameStep(old(View()), title, db), reply, old(Clients(members)))
    {
      if !db.renameOk {
        return Failed(StoreError);
      }
      ghost var r, touched := RenameStep(View(), title, db), Clients(members);
      room := room.(title := title);
      Tell(RoomUpdated(title), touched);
      reply := Done(None);
      forall c | c in touched
        ensures c.Value() == AffectAll(old(c.Value()), c, r.effects)
      {
        AffectOne(old(c.Value()), c, r.effects[0]);
      }
    }

    method Tick(now: int, db: Db) returns (reply: Reply)
      modifies this`saved
      ensures View() == TickStep(old(View()), now, db).core && reply == TickStep(old(View()), now, db).reply
    {
      if playback.phase.Playing? {
        PersistCheckpoint(now, db.saveOk);
      }
      reply := Done(None);
    }

    /** Sends to every member without closing those whose queue is full. */
    method SendAll(e: Envelope)
      requires Valid()
      modifies Clients(members)
      ensures forall c | c in Clients(members) :: c.Value() == old(c.Value()).Send(e)
    {
      var ids := members.Keys;
      while ids != {}
        invariant ids <= members.Keys
        invariant forall id | id in members ::
          members[id].client.Value() ==
            if id in ids then old(members[id].client.Value()) else old(members[id].client.Value()).Send(e)
        decreases |ids|
      {
        var id :| id in ids;
        var _ := members[id].client.Send(e);
        ids := ids - {id};
      }
    }

    method Shutdown(now: int, db: Db) returns (reply: Reply)
      requires Valid()
      modifies this, Clients(members)
      ensures Valid()
      ensures Performed(ShutdownStep(old(View()), now, db), reply, old(Clients(members)))
    {
      ghost var r: Result<Connection>, touched: set<Connection> := ShutdownStep(View(), now, db), Clients(members);
      SendAll(ServerShutdown);
      CloseAll(1001, "server shutdown");
      PersistCheckpoint(now, db.saveOk);
      reply := Done(None);
      assert r.effects == [] + [r.effects[0], r.effects[1]];
      forall c | c in touched
        ensures c.Value() == AffectAll(old(c.Value()), c, r.effects)
      {
        AffectTwoMore(old(c.Value()), c, [], r.effects[0], r.effects[1]);
      }
    }

    // -------------------------------------------------------------- commands

    /** Counts the revision up and tells every member. */
    method Republish(ghost touched: set<Connection>)
      requires Valid() && Clients(members) <= touched
      modifies this`playback, Clients(members)
      ensures View() == Publish(old(View()), old(playback)).0
      ensures forall c | c in touched :: c.Value() == AffectAll(old(c.Value()), c, [Publish(old(View()), old(playback)).1])
    {
      playback := playback.(revision := playback.revision + 1);
      Tell(State(playback), touched);
      forall c | c in touched
        ensures c.Value() == AffectAll(old(c.Value()), c, [Publish(old(View()), old(playback)).1])
      {
        AffectOne(old(c.Value()), c, Publish(old(View()), old(playback)).1);
      }
    }

    /** Publishes and stores the playback state. */
    method Commit(now: int, db: Db)
      requires Valid()
      modifies this`playback, this`saved, Clients(members)
      ensures View() == Save(Publish(old(View()), old(playback)).0, now, db.saveOk)
      ensures forall c | c in Clients(members) :: c.Value() == AffectAll(old(c.Value()), c, [Publish(old(View()), old(playback)).1])
    {
      Republish(Clients(members));
      PersistCheckpoint(now, db.saveOk);
    }

    method ApplyClientReady(i: Identity, payload: Option<Payload>) returns (reply: Reply)
      requires Valid() && i.id in members
      modifies this, Clients(members)
      ensures Valid()
      ensures Performed(ClientReadyStep(old(View()), i, payload), reply, old(Clients(members)))
    {
      if payload.None? {
        return Failed(InvalidCommand);
      }
      var p := payload.value;
      var _ := SetReady(i.id, p.ready);
      reply := Done(None);
      if i.id == room.host && p.ready && p.mediaId == playback.mediaId && 0 < p.durationMs <= MAX_DURATION_MS {
        playback := playback.(duration := p.durationMs);
        Republish(Clients(members));
        reply := Done(Some(playback));
      }
    }

    method ApplyTransfer(p: Payload, db: Db) returns (reply: Reply)
      requires Valid()
      modifies this, Clients(members)
      ensures Valid()
      ensures Performed(TransferStep(old(View()), p, db), reply, old(Clients(members)))
    {
      if p.targetUserId !in members || members[p.targetUserId].identity.guest {
        return Failed(InvalidCommand);
      }
      if !db.transferOk {
        return Failed(StoreError);
      }
      ghost var r, touched := TransferStep(View(), p, db), Clients(members);
      room := room.(host := p.targetUserId);
      Tell(HostChanged(p.targetUserId), touched);
      reply := Done(None);
      forall c | c in touched
        ensures c.Value() == AffectAll(old(c.Value()), c, r.effects)
      {
        AffectOne(old(c.Value()), c, r.effects[0]);
      }
    }

    method ApplyKick(p: Payload) returns (reply: Reply)
      requires Valid()
      modifies this, Clients(members)
      ensures Valid()
      ensures Performed(KickStep(old(View()), p), reply, old(Clients(members)))
    {
      if p.targetUserId !in members || p.targetUserId == room.host {
        return Failed(InvalidCommand);
      }
      ghost var r, touched := KickStep(View(), p), Clients(members);
      var target := members[p.targetUserId].client;
      Unfile(p.targetUserId);
      target.Close(1008, "removed from room");
      Tell(MemberLeft(p.targetUserId, true), touched);
      reply := Done(None);
      assert r.effects == [] + [r.effects[0], r.effects[1]];
      forall c | c in touched
        ensures c.Value() == AffectAll(old(c.Value()), c, r.effects)
      {
        AffectTwoMore(old(c.Value()), c, [], r.effects[0], r.effects[1]);
      }
    }

    method ApplyClose(db: Db) returns (reply: Reply)
      requires Valid()
      modifies this, Clients(members)
      ensures Valid()
      ensures Performed(CloseStep(old(View()), db), reply, old(Clients(members)))
    {
      ghost var r, touched := CloseStep(View(), db), Clients(members);
      room := room.(status := Closed);
      if !db.closeOk {
        return Failed(StoreError);
      }
      Tell(RoomClosed, touched);
      CloseAll(1000, "room closed");
      members, online := map[], 0;
      reply := Done(None);
      assert r.effects == [] + [r.effects[0], r.effects[1]];
      forall c | c in touched
        ensures c.Value() == AffectAll(old(c.Value()), c, r.effects)
      {
        AffectTwoMore(old(c.Value()), c, [], r.effects[0], r.effects[1]);
      }
    }

    method ApplyMedia(p: Payload, now: int, db: Db) returns (reply: Reply)
      requires Valid()
      modifies this, Clients(members)
      ensures Valid()
      ensures Performed(MediaStep(old(View()), p, now, db), reply, old(Clients(members)))
    {
      if p.mediaId == "" || p.durationMs < 0 {
        return Failed(InvalidCommand);
      }
      if !db.setMediaOk {
        return Failed(StoreError);
      }
      room := room.(mediaId := Some(p.mediaId));
      playback := playback.(mediaId := p.mediaId, duration := p.durationMs, phase := Loading, anchorPos := 0,
                            anchorTime := now, rate := 1.0, epoch := playback.epoch + 1);
      Commit(now, db);
      reply := Done(Some(playback));
    }

    /** The switch over the playback commands; `changed` is false for one of no consequence. */
    method RetimePlayback(kind: Kind, p: Payload, now: int) returns (changed: bool, refused: bool)
      modifies this`playback, this`hostDriftSamples, this`hostDriftDirection, this`lastHostAnchorUpdateMs
      ensures var (filter, retiming) := Retime(old(playback), old(View()).filter, kind, p, now);
        && refused == retiming.Refused? && changed == retiming.Retimed?
        && View() == old(View()).(filter := filter,
                                  playback := if retiming.Retimed? then retiming.playback else old(playback))
    {
      changed, refused := true, false;
      match kind
      case Play =>
        ResetHostDriftTracking();
        playback := playback.(phase := Playing, anchorPos := p.positionMs, anchorTime := now + SCHEDULE_LEAD_MS);
      case Pause =>
        ResetHostDriftTracking();
        playback := playback.(phase := Paused, anchorPos := p.positionMs, anchorTime := now);
      case Seek =>
        ResetHostDriftTracking();
        playback := playback.(epoch := playback.epoch + 1, anchorPos := p.positionMs);
        if playback.phase.Playing? {
          playback := playback.(anchorTime := now + SCHEDULE_LEAD_MS);
        } else {
          playback := playback.(anchorTime := now);
        }
      case Rate =>
        ResetHostDriftTracking();
        if !ValidRate(p.playbackRate) {
          return false, true;
        }
        var pos := Expected(playback, now);
        playback := playback.(rate := p.playbackRate, anchorPos := pos, anchorTime := now);
      case HostBuffering =>
        ResetHostDriftTracking();
        playback := playback.(phase := Buffering, resumeIntent := Some(Playing), anchorPos := p.positionMs, anchorTime := now);
      case HostReady =>
        ResetHostDriftTracking();
        if playback.phase.Buffering? && playback.resumeIntent == Some(Playing) {
          playback := playback.(phase := Playing, anchorTime := now + SCHEDULE_LEAD_MS);
        } else {
          changed := false;
        }
      case HostTelemetry =>
        changed := AcceptHostAnchorSample(now, p);
      case EndPlayback =>
        ResetHostDriftTracking();
        playback := playback.(phase := Ended, anchorPos := p.positionMs, anchorTime := now);
      case _ =>
        return false, true;
    }

    method ApplyPlayback(kind: Kind, p: Payload, now: int, db: Db) returns (reply: Reply)
      requires Valid()
      modifies this, Clients(members)
      ensures Valid()
      ensures Performed(PlaybackStep(old(View()), kind, p, now, db), reply, old(Clients(members)))
    {
      if p.positionMs < 0 || (playback.duration > 0 && p.positionMs > playback.duration + 1000) {
        return Failed(InvalidPosition);
      }
      reply := RetimeAndSettle(kind, p, now, db);
    }

    method RetimeAndSettle(kind: Kind, p: Payload, now: int, db: Db) returns (reply: Reply)
      requires Valid()
      modifies this, Clients(members)
      ensures Valid()
      ensures var (filter, retiming) := Retime(old(playback), old(View()).filter, kind, p, now);
        Performed(SettleStep(old(View()).(filter := filter), retiming, now, db), reply, old(Clients(members)))
    {
      ghost var retiming := Retime(playback, View().filter, kind, p, now).1;
      var changed, refused := RetimePlayback(kind, p, now);
      reply := Settle(changed, refused, retiming, now, db);
    }

    /** Answers a playback command once its effect on the timeline is known. */
    method Settle(changed: bool, refused: bool, ghost retiming: Retiming, now: int, db: Db) returns (reply: Reply)
      requires Valid() && changed == retiming.Retimed? && refused == retiming.Refused?
      requires retiming.Retimed? ==> playback == retiming.playback
      modifies this`playback, this`saved, Clients(members)
      ensures Performed(SettleStep(old(View()), retiming, now, db), reply, Clients(members))
    {
      if refused {
        return Failed(InvalidCommand);
      }
      if !changed {
        return Done(None);
      }
      Commit(now, db);
      reply := Done(Some(playback));
    }

    method Apply(i: Identity, c: Command, now: int, db: Db) returns (reply: Reply)
      requires Valid()
      modifies this, Clients(members)
      ensures Valid()
      ensures Performed(ApplyStep(old(View()), i, c, now, db), reply, old(Clients(members)))
    {
      var isAdmin := IsAdmin(c.kind);
      if i.id !in members && !isAdmin {
        return Failed(NotMember);
      }
      if c.kind.ClientReady? {
        reply := ApplyClientReady(i, c.payload);
        return;
      }
      if c.kind.MemberTelemetry? || c.kind.Typing? {
        return Done(None);
      }
      if i.id != room.host && !(isAdmin && !i.guest && i.superAdmin) {
        return Failed(NotHost);
      }
      if c.payload.None? {
        return Failed(InvalidCommand);
      }
      var p := c.payload.value;
      if c.kind.TransferHost? {
        reply := ApplyTransfer(p, db);
      } else if c.kind.Kick? {
        reply := ApplyKick(p);
      } else if c.kind.CloseRoom? {
        reply := ApplyClose(db);
      } else if c.kind.SetMedia? {
        reply := ApplyMedia(p, now, db);
      } else {
        reply := ApplyPlayback(c.kind, p, now, db);
      }
    }

    // -------------------------------------------------------------- the message loop

    ghost function Touched(msg: Message<Connection>): set<Connection>
      reads this
    {
      Clients(members) + if msg.Join? then {msg.client} else {}
    }

    /** One turn of the message loop performs exactly one step of the protocol. */
    method Handle(input: Input<Connection>) returns (reply: Reply)
      requires Valid()
      requires input.msg.Join? ==> input.msg.identity == input.msg.client.identity
      modifies this, Touched(input.msg)
      ensures Valid()
      ensures Performed(Step(old(View()), input), reply, old(Touched(input.msg)))
    {
      match input.msg
      case Join(client, _) => reply := Join(client, input.now);
      case Leave(id, only) => reply := Leave(id, only, input.now, input.db);
      case ExpireHost(hostId) => reply := ExpireHost(hostId, input.db);
      case Do(identity, command) => reply := Apply(identity, command, input.now, input.db);
      case SetReady(id, ready) => reply := SetReady(id, ready);
      case Announce =>
        Broadcast(Other);
        reply := Done(None);
        forall c | c in old(Clients(members))
          ensures c.Value() == AffectAll(old(c.Value()), c, [RoomProtocol.Broadcast(Clients(members), Other)])
        {
          AffectOne(old(c.Value()), c, RoomProtocol.Broadcast(Clients(members), Other));
        }
      case Tick => reply := Tick(input.now, input.db);
      case Reopen => reply := Reopen(input.db);
      case Rename(title) => reply := Rename(title, input.db);
      case TakeSnapshot => reply := Seen(room, playback);
      case Shutdown => reply := Shutdown(input.now, input.db);
    }
  }
}
