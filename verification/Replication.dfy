/** The room and its browsers composed over bounded queues: whatever is lost, replaced, restarted or
    skipped on the way, a connected browser that has caught up holds exactly the server's state. */
module Replication {
  import opened Basics
  import opened Playback
  import opened RoomProtocol
  import opened RoomTimeline
  import opened RoomPresence

  // ---------------------------------------------------------------- a browser's copy of the state

  /** The page keeps the newest state it has seen and hands it to the playback controller, which
      keeps the last one it took. */
  datatype Page = Page(playback: Option<PlaybackState>, lastRevision: int, followed: Option<PlaybackState>)

  const BLANK_PAGE := Page(None, -1, None)

  /** A message from the current socket. A snapshot overrides everything, a state must be newer. */
  function Receive(page: Page, e: Envelope): Page {
    match e
    case Snapshot(_, s) => Page(Some(s), s.revision, Some(s))
    case State(s) =>
      if page.playback.None? || AcceptRevision(page.playback.value.revision, s.revision)
      then page.(playback := Some(s)) else page
    case _ => page
  }

  /** The page hands what it currently shows to the controller. */
  function Flush(page: Page): Page {
    if page.playback.Some? && AcceptRevision(page.lastRevision, page.playback.value.revision)
    then page.(lastRevision := page.playback.value.revision, followed := page.playback)
    else page
  }

  function Drain(page: Page, queue: seq<Envelope>): Page {
    if queue == [] then page else Receive(Drain(page, queue[..|queue| - 1]), queue[|queue| - 1])
  }

  /** The controller is never ahead of the page, and agrees with it when it is level. */
  ghost predicate PageOk(page: Page) {
    if page.playback.None? then page.lastRevision == -1
    else
      && page.lastRevision <= page.playback.value.revision
      && (page.lastRevision == page.playback.value.revision ==> page.followed == page.playback)
  }

  /** Revisions that travel are never negative. */
  predicate Sound(e: Envelope) {
    e.State? ==> e.playback.revision >= 0
  }

  lemma DrainAppend(page: Page, queue: seq<Envelope>, e: Envelope)
    ensures Drain(page, queue + [e]) == Receive(Drain(page, queue), e)
  {
    assert (queue + [e])[..|queue|] == queue;
  }

  lemma {:induction false} DrainFront(page: Page, queue: seq<Envelope>)
    requires queue != []
    ensures Drain(page, queue) == Drain(Receive(page, queue[0]), queue[1..])
    decreases |queue|
  {
    var n := |queue| - 1;
    if n > 0 {
      DrainFront(page, queue[..n]);
      assert queue[..n][1..] == queue[1..][..n - 1];
      assert queue[1..][n - 1] == queue[n];
    }
  }

  lemma {:induction false} DrainQuiet(page: Page, queue: seq<Envelope>)
    requires forall i | 0 <= i < |queue| :: Quiet(queue[i])
    ensures Drain(page, queue) == page
  {
    if queue != [] {
      DrainQuiet(page, queue[..|queue| - 1]);
    }
  }

  // ---------------------------------------------------------------- the system

  /** Connections and browsers are numbered. `joined` are the connections that have asked to join;
      `socket` is the connection a browser currently listens to. */
  datatype System = System(
    core: Core<nat>,
    links: map<nat, Link>,
    joined: set<nat>,
    owner: map<nat, nat>,
    socket: map<nat, nat>,
    pages: map<nat, Page>)

  datatype Action =
    | Serve(input: Input<nat>)            // the actor handles a message
    | Dial(browser: nat, conn: nat)       // a browser opens a socket, for the first time or again
    | Hangup(browser: nat)                // a browser gives up its socket
    | Respond(conn: nat)                  // an acknowledgement, error or pong is queued
    | Write(conn: nat)                    // the write loop delivers the head of a queue
    | Show(browser: nat)                  // the page hands its state to the controller
    | Drop(conn: nat)                     // the server closes a connection for any reason
    | Restart(room: Room, checkpoint: Option<Checkpoint>)  // a new server takes over

  function Start(room: Room, checkpoint: Option<Checkpoint>): System {
    System(NewActor(room, checkpoint), map[], {}, map[], map[], map[])
  }

  ghost predicate Enabled(sys: System, a: Action) {
    match a
    case Serve(input) => input.msg.Join? ==> input.msg.client in sys.links && input.msg.client !in sys.joined
    case Dial(_, conn) => conn !in sys.links && conn !in sys.joined
    case Respond(conn) => conn in sys.links && conn in sys.joined
    case Write(conn) => conn in sys.links && conn in sys.owner && sys.owner[conn] in sys.pages && sys.links[conn].out != []
    case Show(browser) => browser in sys.pages
    case Drop(conn) => conn in sys.links
    case _ => true
  }

  ghost predicate Listens(sys: System, conn: nat) {
    && conn in sys.owner && sys.owner[conn] in sys.pages
    && sys.owner[conn] in sys.socket && sys.socket[sys.owner[conn]] == conn
  }

  ghost function Next(sys: System, a: Action): System
    requires Enabled(sys, a)
  {
    match a
    case Serve(input) =>
      var r := Step(sys.core, input);
      sys.(core := r.core,
           links := map c | c in sys.links :: AffectAll(sys.links[c], c, r.effects),
           joined := if input.msg.Join? then sys.joined + {input.msg.client} else sys.joined)
    case Dial(browser, conn) =>
      sys.(links := sys.links[conn := Link([], None)], owner := sys.owner[conn := browser],
           socket := sys.socket[browser := conn],
           pages := if browser in sys.pages then sys.pages else sys.pages[browser := BLANK_PAGE])
    case Hangup(browser) => sys.(socket := sys.socket - {browser})
    case Respond(conn) => sys.(links := sys.links[conn := sys.links[conn].Send(Other)])
    case Write(conn) =>
      var link, browser := sys.links[conn], sys.owner[conn];
      sys.(links := sys.links[conn := link.(out := link.out[1..])],
           pages := if Listens(sys, conn) then sys.pages[browser := Receive(sys.pages[browser], link.out[0])] else sys.pages)
    case Show(browser) => sys.(pages := sys.pages[browser := Flush(sys.pages[browser])])
    case Drop(conn) => sys.(links := sys.links[conn := sys.links[conn].Close(1000, "connection closed")])
    case Restart(room, checkpoint) =>
      sys.(core := NewActor(room, checkpoint),
           links := map c | c in sys.links :: sys.links[c].Close(1001, "server shutdown"))
  }

  // ---------------------------------------------------------------- the invariant

  /** Connection `c` will bring its browser to the server's state, unless it has been closed or its
      browser has turned away from it. */
  ghost predicate Converges(sys: System, c: nat) {
    c in sys.links && sys.links[c].closed.None? && Listens(sys, c) ==>
      Drain(sys.pages[sys.owner[c]], sys.links[c].out).playback == Some(sys.core.playback)
  }

  ghost predicate Wired(sys: System) {
    && (forall id | id in sys.core.members :: sys.core.members[id].client in sys.links && sys.core.members[id].client in sys.joined)
    && (forall c | c in sys.links :: c in sys.owner && sys.owner[c] in sys.pages)
    && (forall c | c in sys.links && c !in sys.joined :: sys.links[c].out == [])
    && (forall b | b in sys.pages :: PageOk(sys.pages[b]))
    && DistinctClients(sys.core)
    && sys.core.playback.revision >= 0
    && (forall c | c in sys.links :: SoundQueue(sys.links[c].out))
  }

  /** No connection serves two members. */
  ghost predicate DistinctClients(core: Core<nat>) {
    forall a, b | a in core.members && b in core.members && a != b :: core.members[a].client != core.members[b].client
  }

  ghost predicate SoundQueue(queue: seq<Envelope>) {
    forall i | 0 <= i < |queue| :: Sound(queue[i])
  }

  ghost predicate Inv(sys: System) {
    Wired(sys) && forall id | id in sys.core.members :: Converges(sys, sys.core.members[id].client)
  }

  // ---------------------------------------------------------------- effects on one link

  lemma {:induction false} StaysClosed<C>(link: Link, c: C, effects: seq<Effect<C>>)
    ensures AffectAll(link, c, effects).closed.None? ==> link.closed.None?
  {
    if effects != [] {
      StaysClosed(link, c, effects[..|effects| - 1]);
    }
  }

  /** Effects that say nothing about playback to `c` do not change what `c` will arrive at. */
  lemma {:induction false} QuietEffects<C>(page: Page, link: Link, c: C, effects: seq<Effect<C>>)
    requires forall i | 0 <= i < |effects| :: QuietEffect(effects[i]) || c !in effects[i].to
    ensures Drain(page, AffectAll(link, c, effects).out) == Drain(page, link.out)
  {
    if effects != [] {
      var n := |effects| - 1;
      var before := AffectAll(link, c, effects[..n]);
      QuietEffects(page, link, c, effects[..n]);
      if !effects[n].Close? {
        DrainAppend(page, before.out, effects[n].e);
      }
    }
  }

  /** A connection that already follows the room keeps following it through any message of another. */
  lemma ServeFollower(core: Core<nat>, input: Input<nat>, page: Page, link: Link, c: nat)
    requires input.msg.Join? ==> input.msg.client != c
    requires Drain(page, link.out).playback == Some(core.playback)
    requires c in Clients(Step(core, input).core.members)
    requires AffectAll(link, c, Step(core, input).effects).closed.None?
    ensures Drain(page, AffectAll(link, c, Step(core, input).effects).out).playback
         == Some(Step(core, input).core.playback)
  {
    var r := Step(core, input);
    Publication(core, input);
    if r.core.playback == core.playback {
      QuietEffects(page, link, c, r.effects);
    } else {
      var n := |r.effects| - 1;
      var before := AffectAll(link, c, r.effects[..n]);
      QuietEffects(page, link, c, r.effects[..n]);
      DrainAppend(page, before.out, State(r.core.playback));
    }
  }

  /** The effects of an accepted join on the joiner's own, still empty, link. */
  lemma JoinerLink(core: Core<nat>, client: nat, identity: Identity, now: int)
    requires JoinStep(core, client, identity, now).reply.Done?
    requires identity.id in core.members ==> core.members[identity.id].client != client
    ensures var r := JoinStep(core, client, identity, now);
      AffectAll(Link([], None), client, r.effects).out == [Snapshot(r.core.room, core.playback), MemberJoined(identity)]
  {
    var r := JoinStep(core, client, identity, now);
    var n := |r.effects| - 2;
    var empty, snapshot := Link([], None), Snapshot(r.core.room, core.playback);
    assert AffectAll(empty, client, r.effects[..n]) == empty;
    assert r.effects[..n + 1][..n] == r.effects[..n];
    assert AffectAll(empty, client, r.effects[..n + 1]) == Link([snapshot], None);
    assert r.core.members[identity.id].client == client;
    assert client in Clients(r.core.members);
  }

  /** An accepted joiner gets the snapshot first, whatever its browser held before. */
  lemma ServeJoiner(core: Core<nat>, input: Input<nat>, page: Page)
    requires input.msg.Join? && Step(core, input).reply.Done?
    requires forall id | id in core.members :: core.members[id].client != input.msg.client
    ensures var r := Step(core, input);
      Drain(page, AffectAll(Link([], None), input.msg.client, r.effects).out).playback == Some(r.core.playback)
  {
    var r := JoinStep(core, input.msg.client, input.msg.identity, input.now);
    JoinerLink(core, input.msg.client, input.msg.identity, input.now);
    var snapshot, joined := Snapshot(r.core.room, core.playback), MemberJoined(input.msg.identity);
    DrainAppend(page, [], snapshot);
    DrainAppend(page, [snapshot], joined);
    assert [] + [snapshot] == [snapshot] && [snapshot] + [joined] == [snapshot, joined];
  }

  // ---------------------------------------------------------------- preservation

  ghost predicate Stranger(core: Core<nat>, c: nat) {
    forall id | id in core.members :: core.members[id].client != c
  }

  ghost predicate Spared(effects: seq<Effect<nat>>, c: nat) {
    forall i | 0 <= i < |effects| :: c !in effects[i].to
  }

  lemma {:induction false} SparedLink(link: Link, c: nat, effects: seq<Effect<nat>>)
    requires Spared(effects, c)
    ensures AffectAll(link, c, effects) == link
  {
    if effects != [] {
      SparedLink(link, c, effects[..|effects| - 1]);
    }
  }

  lemma ApplySparesStrangers(core: Core<nat>, i: Identity, cmd: Command, now: int, db: Db, c: nat)
    requires Stranger(core, c)
    ensures Spared(ApplyStep(core, i, cmd, now, db).effects, c)
  {
    if cmd.kind.ClientReady? {
    } else if cmd.payload.Some? {
      var p := cmd.payload.value;
      if cmd.kind.TransferHost? {
      } else if cmd.kind.Kick? {
      } else if cmd.kind.CloseRoom? {
      } else if cmd.kind.SetMedia? {
      } else {
        assert Spared(PlaybackStep(core, cmd.kind, p, now, db).effects, c);
      }
    }
  }

  /** A message reaches members and the joiner only. */
  lemma ServeSparesStrangers(core: Core<nat>, input: Input<nat>, c: nat)
    requires Stranger(core, c)
    requires input.msg.Join? ==> input.msg.client != c
    ensures Spared(Step(core, input).effects, c)
  {
    match input.msg
    case Do(i, cmd) => ApplySparesStrangers(core, i, cmd, input.now, input.db, c);
    case Join(_, _) =>
    case Leave(_, _) =>
    case _ =>
  }

  lemma {:induction false} SoundEffects(link: Link, c: nat, effects: seq<Effect<nat>>)
    requires SoundQueue(link.out)
    requires forall i | 0 <= i < |effects| :: effects[i].Close? || Sound(effects[i].e)
    ensures SoundQueue(AffectAll(link, c, effects).out)
  {
    if effects != [] {
      SoundEffects(link, c, effects[..|effects| - 1]);
    }
  }

  lemma ServeSound(core: Core<nat>, input: Input<nat>)
    requires core.playback.revision >= 0
    ensures var r := Step(core, input);
      r.core.playback.revision >= 0
      && forall i | 0 <= i < |r.effects| :: r.effects[i].Close? || Sound(r.effects[i].e)
  {
    Publication(core, input);
  }

  lemma ServeDistinct(core: Core<nat>, input: Input<nat>)
    requires DistinctClients(core)
    requires input.msg.Join? ==> Stranger(core, input.msg.client)
    ensures DistinctClients(Step(core, input).core)
  {
    var members' := Step(core, input).core.members;
    forall a, b | a in members' && b in members' && a != b
      ensures members'[a].client != members'[b].client
    {
      ClientStep(core, input, a);
      ClientStep(core, input, b);
    }
  }

  lemma ServeWired(sys: System, input: Input<nat>)
    requires Inv(sys) && Enabled(sys, Serve(input))
    ensures Wired(Next(sys, Serve(input)))
  {
    var sys' := Next(sys, Serve(input));
    forall id | id in sys'.core.members
      ensures sys'.core.members[id].client in sys'.links && sys'.core.members[id].client in sys'.joined
    {
      ClientStep(sys.core, input, id);
    }
    forall c | c in sys'.links && c !in sys'.joined
      ensures sys'.links[c].out == []
    {
      ServeSparesStrangers(sys.core, input, c);
      SparedLink(sys.links[c], c, Step(sys.core, input).effects);
    }
    ServeDistinct(sys.core, input);
    ServeSound(sys.core, input);
    forall c | c in sys'.links
      ensures SoundQueue(sys'.links[c].out)
    {
      SoundEffects(sys.links[c], c, Step(sys.core, input).effects);
    }
  }

  lemma ServeConverges(sys: System, input: Input<nat>, id: string)
    requires Inv(sys) && Enabled(sys, Serve(input))
    requires id in Step(sys.core, input).core.members
    ensures Converges(Next(sys, Serve(input)), Step(sys.core, input).core.members[id].client)
  {
    var r := Step(sys.core, input);
    var c := r.core.members[id].client;
    var sys' := Next(sys, Serve(input));
    if c in sys'.links && sys'.links[c].closed.None? && Listens(sys', c) {
      var page := sys.pages[sys.owner[c]];
      StaysClosed(sys.links[c], c, r.effects);
      ClientStep(sys.core, input, id);
      if JoinsAs(sys.core, input, id) {
        assert sys.links[c] == Link([], None);
        ServeJoiner(sys.core, input, page);
      } else {
        assert Converges(sys, sys.core.members[id].client);
        ServeFollower(sys.core, input, page, sys.links[c], c);
      }
    }
  }

  lemma ServeKeeps(sys: System, input: Input<nat>)
    requires Inv(sys) && Enabled(sys, Serve(input))
    ensures Inv(Next(sys, Serve(input)))
  {
    ServeWired(sys, input);
    forall id | id in Step(sys.core, input).core.members
      ensures Converges(Next(sys, Serve(input)), Step(sys.core, input).core.members[id].client)
    {
      ServeConverges(sys, input, id);
    }
  }

  lemma ReceiveKeepsPageOk(page: Page, e: Envelope)
    requires PageOk(page) && Sound(e)
    ensures PageOk(Receive(page, e))
  {
  }

  lemma WriteKeeps(sys: System, conn: nat)
    requires Inv(sys) && Enabled(sys, Write(conn))
    ensures Inv(Next(sys, Write(conn)))
  {
    var sys' := Next(sys, Write(conn));
    var link, browser := sys.links[conn], sys.owner[conn];
    ReceiveKeepsPageOk(sys.pages[browser], link.out[0]);
    forall id | id in sys'.core.members
      ensures Converges(sys', sys'.core.members[id].client)
    {
      var c := sys.core.members[id].client;
      assert Converges(sys, c);
      if c == conn {
        DrainFront(sys.pages[browser], link.out);
      } else if Listens(sys, conn) && Listens(sys, c) {
        assert sys.owner[c] != browser;
      }
    }
  }

  lemma {:induction false} ShowKeepsQueue(page: Page, queue: seq<Envelope>)
    ensures Drain(Flush(page), queue).playback == Drain(page, queue).playback
  {
    if queue != [] {
      ShowKeepsQueue(page, queue[..|queue| - 1]);
    }
  }

  lemma ShowKeeps(sys: System, browser: nat)
    requires Inv(sys) && Enabled(sys, Show(browser))
    ensures Inv(Next(sys, Show(browser)))
  {
    var sys' := Next(sys, Show(browser));
    forall id | id in sys'.core.members
      ensures Converges(sys', sys'.core.members[id].client)
    {
      var c := sys.core.members[id].client;
      assert Converges(sys, c);
      if Listens(sys, c) && sys.owner[c] == browser {
        ShowKeepsQueue(sys.pages[browser], sys.links[c].out);
      }
    }
  }

  lemma RespondKeeps(sys: System, conn: nat)
    requires Inv(sys) && Enabled(sys, Respond(conn))
    ensures Inv(Next(sys, Respond(conn)))
  {
    var sys' := Next(sys, Respond(conn));
    forall id | id in sys'.core.members
      ensures Converges(sys', sys'.core.members[id].client)
    {
      var c := sys.core.members[id].client;
      assert Converges(sys, c);
      if c == conn && Listens(sys, c) {
        DrainAppend(sys.pages[sys.owner[c]], sys.links[c].out, Other);
      }
    }
  }

  lemma DialKeeps(sys: System, browser: nat, conn: nat)
    requires Inv(sys) && Enabled(sys, Dial(browser, conn))
    ensures Inv(Next(sys, Dial(browser, conn)))
  {
    var sys' := Next(sys, Dial(browser, conn));
    forall id | id in sys'.core.members
      ensures Converges(sys', sys'.core.members[id].client)
    {
      assert Converges(sys, sys.core.members[id].client);
    }
  }

  lemma ConnectionKeeps(sys: System, a: Action)
    requires Inv(sys) && Enabled(sys, a)
    requires a.Hangup? || a.Drop? || a.Restart?
    ensures Inv(Next(sys, a))
  {
    var sys' := Next(sys, a);
    forall id | id in sys'.core.members
      ensures Converges(sys', sys'.core.members[id].client)
    {
      assert Converges(sys, sys.core.members[id].client);
    }
  }

  lemma StepKeeps(sys: System, a: Action)
    requires Inv(sys) && Enabled(sys, a)
    ensures Inv(Next(sys, a))
  {
    match a
    case Serve(input) => ServeKeeps(sys, input);
    case Write(conn) => WriteKeeps(sys, conn);
    case Show(browser) => ShowKeeps(sys, browser);
    case Respond(conn) => RespondKeeps(sys, conn);
    case Dial(browser, conn) => DialKeeps(sys, browser, conn);
    case _ => ConnectionKeeps(sys, a);
  }

  // ---------------------------------------------------------------- theorems

  /** `trace` is a run of the system that performs `actions`. */
  ghost predicate IsRun(trace: seq<System>, actions: seq<Action>) {
    && |trace| == |actions| + 1
    && (exists room, cp :: trace[0] == Start(room, cp))
    && forall i | 0 <= i < |actions| :: Enabled(trace[i], actions[i]) && trace[i + 1] == Next(trace[i], actions[i])
  }

  lemma {:induction false} ReachableInv(trace: seq<System>, actions: seq<Action>, k: nat)
    requires IsRun(trace, actions) && k < |trace|
    ensures Inv(trace[k])
  {
    if k > 0 {
      ReachableInv(trace, actions, k - 1);
      StepKeeps(trace[k - 1], actions[k - 1]);
    }
  }

  /** Replica convergence: in every state of every run, every member either has been closed, or is
      no longer listened to, or its queue leads its browser to exactly the server's state. Once
      nothing about playback is left in the queue the page shows that state, and once the page has
      handed it on, the controller follows it. */
  lemma ReplicaConvergence(trace: seq<System>, actions: seq<Action>, k: nat, id: string)
    requires IsRun(trace, actions) && k < |trace|
    requires id in trace[k].core.members
    ensures var sys := trace[k];
            var c := sys.core.members[id].client;
      && c in sys.links
      && (sys.links[c].closed.None? && Listens(sys, c) ==>
            var page := sys.pages[sys.owner[c]];
            && Drain(page, sys.links[c].out).playback == Some(sys.core.playback)
            && ((forall i | 0 <= i < |sys.links[c].out| :: Quiet(sys.links[c].out[i])) ==>
                  page.playback == Some(sys.core.playback) && Flush(page).followed == Some(sys.core.playback)))
  {
    ReachableInv(trace, actions, k);
    var sys := trace[k];
    var c := sys.core.members[id].client;
    assert Converges(sys, c);
    if Listens(sys, c) && forall i | 0 <= i < |sys.links[c].out| :: Quiet(sys.links[c].out[i]) {
      DrainQuiet(sys.pages[sys.owner[c]], sys.links[c].out);
    }
  }

  // ---------------------------------------------------------------- who gets closed

  ghost predicate NotClosedBy(effects: seq<Effect<nat>>, c: nat) {
    forall i | 0 <= i < |effects| :: effects[i].Close? ==> c !in effects[i].to
  }

  /** Without being addressed by a close, a link is closed only by a broadcast that found it full. */
  lemma {:induction false} ClosedWhenFull(link: Link, c: nat, effects: seq<Effect<nat>>)
    requires link.closed.None? && NotClosedBy(effects, c)
    ensures var after := AffectAll(link, c, effects);
      after.closed.Some? ==>
        after.closed == Some((STATUS_SLOW_CONSUMER, "slow consumer")) && |after.out| >= QUEUE_CAPACITY
  {
    if effects != [] {
      ClosedWhenFull(link, c, effects[..|effects| - 1]);
    }
  }

  lemma ApplyClosesLeavers(core: Core<nat>, i: Identity, cmd: Command, now: int, db: Db, id: string)
    requires DistinctClients(core) && id in core.members && id in ApplyStep(core, i, cmd, now, db).core.members
    ensures NotClosedBy(ApplyStep(core, i, cmd, now, db).effects, core.members[id].client)
  {
    if cmd.kind.ClientReady? {
    } else if cmd.payload.Some? {
      if cmd.kind.Kick? {
      } else if cmd.kind.CloseRoom? {
      } else if cmd.kind.TransferHost? {
      } else if cmd.kind.SetMedia? {
      } else {
        assert NotClosedBy(PlaybackStep(core, cmd.kind, cmd.payload.value, now, db).effects, core.members[id].client);
      }
    }
  }

  lemma ServeClosesLeavers(core: Core<nat>, input: Input<nat>, id: string)
    requires DistinctClients(core) && !input.msg.Shutdown?
    requires id in core.members && id in Step(core, input).core.members && !JoinsAs(core, input, id)
    ensures NotClosedBy(Step(core, input).effects, core.members[id].client)
  {
    match input.msg
    case Do(i, cmd) => ApplyClosesLeavers(core, i, cmd, input.now, input.db, id);
    case Join(_, _) =>
    case Leave(_, _) =>
    case _ =>
  }

  /** Short of a shutdown, the actor closes the connection of someone who stays a member only as a
      slow consumer, with a full queue of 64 waiting. */
  lemma OnlySlowConsumersAreClosed(trace: seq<System>, actions: seq<Action>, k: nat, id: string)
    requires IsRun(trace, actions) && k < |actions|
    requires actions[k].Serve? && !actions[k].input.msg.Shutdown?
    requires id in trace[k].core.members && id in trace[k + 1].core.members
    requires !JoinsAs(trace[k].core, actions[k].input, id)
    ensures var c := trace[k + 1].core.members[id].client;
      && c == trace[k].core.members[id].client && c in trace[k].links && c in trace[k + 1].links
      && (trace[k].links[c].closed.None? && trace[k + 1].links[c].closed.Some? ==>
            && trace[k + 1].links[c].closed == Some((1013, "slow consumer"))
            && |trace[k + 1].links[c].out| >= 64)
  {
    ReachableInv(trace, actions, k);
    var core, input := trace[k].core, actions[k].input;
    ClientStep(core, input, id);
    ServeClosesLeavers(core, input, id);
    var c := core.members[id].client;
    if trace[k].links[c].closed.None? {
      ClosedWhenFull(trace[k].links[c], c, Step(core, input).effects);
    }
  }
}
