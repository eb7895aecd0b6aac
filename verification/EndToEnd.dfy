/** What the room's epoch means to the browsers: from the server's commands to the position of a
    video element. */
module EndToEnd {
  import opened Basics
  import opened Playback
  import opened RoomProtocol
  import opened RoomTimeline
  import ClockSynchronizer
  import DriftCorrector
  import Replication
  import RoomCommands
  import RoomNotices
  import SyncController
  import WebSocketClient

  /** Between two playing states of one run, with the same medium and however many states skipped, a
      member is aligned if and only if the host has sought in between (or left the medium and come
      back to it) and the member is at least 750 ms away. A host is never aligned. */
  lemma AlignedIffDiscontinuity<C>(core: Core<C>, inputs: seq<Input<C>>, i: nat, j: nat,
                                   isHost: bool, v: SyncController.Reading, serverNow: real)
    requires i <= j <= |inputs|
    requires var earlier, later := At(core, inputs, i).playback, At(core, inputs, j).playback;
      earlier.mediaId == later.mediaId && earlier.phase.Playing? && later.phase.Playing?
    ensures var earlier, later := At(core, inputs, i).playback, At(core, inputs, j).playback;
            var target := ExpectedPosition(later, serverNow);
      SyncController.Aligns(Some(earlier), later, false, isHost, v, target)
      <==>
      && !isHost
      && (exists k | i <= k < j :: Discontinuities(core, inputs)[k])
      && AbsReal(v.currentTime * 1000.0 - target) >= 750.0
  {
    JumpIffDiscontinuity(core, inputs, i, j);
  }

  /** A member's controller that takes a state of the same run without a discontinuity in between
      leaves the position alone, whatever the anchor did. */
  method FollowRefreshes<C>(c: SyncController.Controller, ghost core: Core<C>, ghost inputs: seq<Input<C>>,
                            ghost i: nat, ghost j: nat, next: PlaybackState,
                            v: SyncController.Reading, now: real, serverNow: real)
    requires i <= j <= |inputs|
    requires c.state == Some(At(core, inputs, i).playback) && next == At(core, inputs, j).playback
    requires c.state.value.mediaId == next.mediaId && c.state.value.phase.Playing? && next.phase.Playing?
    requires forall k | i <= k < j :: !Discontinuities(core, inputs)[k]
    modifies c, c.drift
    ensures c.writes == old(c.writes) && c.pendingSeek == old(c.pendingSeek)
  {
    AlignedIffDiscontinuity(core, inputs, i, j, c.isHost, v, serverNow);
    c.SetRoomState(next, false, v, now, serverNow);
  }

  // ---------------------------------------------------------------- the page and its controller

  /** What happens in a browser: a message arrives from the room, the page hands its state to the
      controller, or anything else happens to the controller (the element is bound or reports something, a timer
      fires, an answer arrives, the role changes, the user acts). */
  datatype Happening = Arrives(e: Envelope) | Shows | Meanwhile(event: SyncController.Event)

  datatype Instant = Instant(h: Happening, v: SyncController.Reading, now: real, serverNow: real)

  function Turned(page: Replication.Page, h: Happening): Replication.Page {
    match h
    case Arrives(e) => Replication.Receive(page, e)
    case Shows => Replication.Flush(page)
    case Meanwhile(_) => page
  }

  function PageAfter(page: Replication.Page, instants: seq<Instant>): Replication.Page {
    if instants == [] then page else Turned(PageAfter(page, instants[..|instants| - 1]), instants[|instants| - 1].h)
  }

  /** The controller holds what the page says it follows. */
  ghost predicate Follows(c: SyncController.Controller, page: Replication.Page)
    reads c
  {
    c.state == page.followed && c.lastRevision == page.lastRevision
  }

  /** A message from the room: a snapshot is forced upon the controller, a state only reaches the page. */
  method Deliver(c: SyncController.Controller, page: Replication.Page, e: Envelope,
                 v: SyncController.Reading, now: real, serverNow: real) returns (page': Replication.Page)
    requires Follows(c, page)
    modifies c, c.drift
    ensures page' == Replication.Receive(page, e) && Follows(c, page')
  {
    page' := page;
    if e.Snapshot? {
      c.SetRoomState(e.playback, true, v, now, serverNow);
      page' := Replication.Page(Some(e.playback), e.playback.revision, Some(e.playback));
    } else if e.State? {
      if page.playback.None? || AcceptRevision(page.playback.value.revision, e.playback.revision) {
        page' := page.(playback := Some(e.playback));
      }
    }
  }

  /** The page hands its state to the controller, which takes it if it is newer. */
  method HandOver(c: SyncController.Controller, page: Replication.Page,
                  v: SyncController.Reading, now: real, serverNow: real) returns (page': Replication.Page)
    requires Follows(c, page)
    modifies c, c.drift
    ensures page' == Replication.Flush(page) && Follows(c, page')
  {
    if page.playback.Some? {
      c.SetRoomState(page.playback.value, false, v, now, serverNow);
    }
    page' := page.(followed := c.state, lastRevision := c.lastRevision);
  }

  /** Whatever arrives and whatever else happens, in any order, the controller object always holds what
      the page's transition function says that it follows. */
  method FollowPage(c: SyncController.Controller, page0: Replication.Page, instants: seq<Instant>)
    returns (page: Replication.Page)
    requires Follows(c, page0)
    requires forall i | 0 <= i < |instants| :: instants[i].h.Meanwhile? ==>
      !instants[i].h.event.RoomState? && !instants[i].h.event.Snapshot?
    modifies c, c.drift
    ensures page == PageAfter(page0, instants) && Follows(c, page)
  {
    page := page0;
    var i := 0;
    while i < |instants|
      invariant 0 <= i <= |instants|
      invariant page == PageAfter(page0, instants[..i]) && Follows(c, page)
    {
      var x := instants[i];
      assert instants[..i + 1][..i] == instants[..i];
      match x.h {
        case Arrives(e) => page := Deliver(c, page, e, x.v, x.now, x.serverNow);
        case Shows => page := HandOver(c, page, x.v, x.now, x.serverNow);
        case Meanwhile(e) =>
          if SyncController.Positions(e) {
            SyncController.DispatchPositions(c, SyncController.Moment(e, x.v, x.now, x.serverNow));
          } else {
            SyncController.DispatchOther(c, SyncController.Moment(e, x.v, x.now, x.serverNow));
          }
      }
      i := i + 1;
    }
    assert instants[..|instants|] == instants;
  }

  lemma {:induction false} DrainKeepsPageOk(page: Replication.Page, queue: seq<Envelope>)
    requires Replication.PageOk(page) && Replication.SoundQueue(queue)
    ensures Replication.PageOk(Replication.Drain(page, queue))
  {
    if queue != [] {
      DrainKeepsPageOk(page, queue[..|queue| - 1]);
      Replication.ReceiveKeepsPageOk(Replication.Drain(page, queue[..|queue| - 1]), queue[|queue| - 1]);
    }
  }

  /** Replica convergence down to the controller: at any point of any run of room, queues and browsers,
      a member's controller that receives what is waiting on its open connection, and is then handed
      the page's state, holds exactly the server's. */
  method CatchUp(c: SyncController.Controller, page0: Replication.Page, queue: seq<Envelope>,
                 v: SyncController.Reading, now: real, serverNow: real,
                 ghost trace: seq<Replication.System>, ghost actions: seq<Replication.Action>,
                 ghost k: nat, ghost id: string)
    requires Replication.IsRun(trace, actions) && k < |trace| && id in trace[k].core.members
    requires var sys, conn := trace[k], trace[k].core.members[id].client;
      && conn in sys.links && sys.links[conn].closed.None? && Replication.Listens(sys, conn)
      && page0 == sys.pages[sys.owner[conn]] && queue == sys.links[conn].out
    requires Follows(c, page0)
    modifies c, c.drift
    ensures c.state == Some(trace[k].core.playback) && c.lastRevision == trace[k].core.playback.revision
  {
    var page := page0;
    var i := 0;
    while i < |queue|
      invariant 0 <= i <= |queue|
      invariant page == Replication.Drain(page0, queue[..i]) && Follows(c, page)
    {
      assert queue[..i + 1] == queue[..i] + [queue[i]];
      Replication.DrainAppend(page0, queue[..i], queue[i]);
      page := Deliver(c, page, queue[i], v, now, serverNow);
      i := i + 1;
    }
    assert queue[..|queue|] == queue;
    Replication.ReplicaConvergence(trace, actions, k, id);
    Replication.ReachableInv(trace, actions, k);
    DrainKeepsPageOk(page0, queue);
    page := HandOver(c, page, v, now, serverNow);
  }

  // ---------------------------------------------------------------- how far the element is from the server

  /** The loop's notion of the timeline is the browser's, read with the clock's estimate. */
  ghost predicate OnTimeline(s: PlaybackState, expected: real, now: real, offset: real) {
    s.anchorTime as real <= now + offset && expected == UnclampedReal(s, now + offset)
  }

  /** What the timeline gains in one tick. */
  lemma TimelineTick(s: PlaybackState, expected: real, now: real, offset: real)
    requires Sane(s) && s.phase.Playing? && OnTimeline(s, expected, now, offset)
    ensures OnTimeline(s, expected + DriftCorrector.SYNC_CHECK_INTERVAL_MS * s.rate,
                       now + DriftCorrector.SYNC_CHECK_INTERVAL_MS, offset)
  {
    ValidRateBounds(s.rate);
    UnclampedRealAdvance(s, now + offset, now + DriftCorrector.SYNC_CHECK_INTERVAL_MS + offset);
  }

  lemma {:induction false} LoopFollowsTimeline(s: PlaybackState, l: DriftCorrector.Loop, offset: real, n: nat)
    requires Sane(s) && s.phase.Playing? && OnTimeline(s, l.expected, l.now, offset)
    ensures var ln := DriftCorrector.LoopAt(l, s.rate, n); OnTimeline(s, ln.expected, ln.now, offset)
  {
    if n > 0 {
      var before := DriftCorrector.LoopAt(l, s.rate, n - 1);
      LoopFollowsTimeline(s, l, offset, n - 1);
      DriftCorrector.TickAdvances(before, s.rate);
      TimelineTick(s, before.expected, before.now, offset);
    }
  }

  /** An estimate within the clock's error bound reads the timeline within `rate * delay`. */
  lemma EstimateReadsTimeline(s: PlaybackState, now: real, offset: real, theta: real, delay: real)
    requires Sane(s) && ClockSynchronizer.Within(offset, theta, delay)
    ensures AbsReal(ExpectedPosition(s, now + offset) - ExpectedPosition(s, now + theta)) <= Reach(delay, s.rate)
  {
    if offset <= theta {
      ExpectedPositionContracts(s, now + offset, now + theta, delay);
    } else {
      ExpectedPositionContracts(s, now + theta, now + offset, delay);
    }
  }

  /** Until the medium ends nothing is cut off. */
  lemma WithinLength(s: PlaybackState, t: real)
    requires Sane(s) && (s.duration == 0 || UnclampedReal(s, t) <= s.duration as real)
    ensures ExpectedPosition(s, t) == UnclampedReal(s, t)
  {
    UnclampedRealNonNegative(s, t);
  }

  /** The server truncates by less than a millisecond. */
  lemma ServerIsNear(s: PlaybackState, position: real, t: int, bound: real)
    requires Sane(s) && AbsReal(position - ExpectedPosition(s, t as real)) < bound
    ensures AbsReal(position - Expected(s, t) as real) < bound + 1.0
  {
    TimelinesAgree(s, t);
  }

  lemma SettledError(l: DriftCorrector.Loop, roomRate: real, n: nat)
    requires ValidRate(roomRate) && DriftCorrector.Reached(l.d, l.now) && n >= DriftCorrector.TICKS_TO_SETTLE
    ensures AbsReal(DriftCorrector.LoopAt(l, roomRate, n).Error()) < 420.0
  {
    DriftCorrector.LoopConverges(l, roomRate);
  }

  /** A position is that near to the timeline at a server time, and, but for a millisecond, to what the
      server itself computes then. */
  ghost predicate Near(position: real, s: PlaybackState, serverTime: real, bound: real) {
    && AbsReal(position - ExpectedPosition(s, serverTime)) < bound
    && forall t: int | t as real == serverTime :: AbsReal(position - Expected(s, t) as real) < bound + 1.0
  }

  lemma NearByEstimate(position: real, expected: real, s: PlaybackState, now: real, offset: real, theta: real, delay: real)
    requires Sane(s) && ClockSynchronizer.Within(offset, theta, delay)
    requires AbsReal(position - expected) < 420.0 && expected == UnclampedReal(s, now + offset)
    requires s.duration == 0 || expected <= s.duration as real
    ensures Near(position, s, now + theta, 420.0 + Reach(delay, s.rate))
  {
    WithinLength(s, now + offset);
    EstimateReadsTimeline(s, now, offset, theta, delay);
    forall t: int | t as real == now + theta
      ensures AbsReal(position - Expected(s, t) as real) < 420.0 + Reach(delay, s.rate) + 1.0
    {
      ServerIsNear(s, position, t, 420.0 + Reach(delay, s.rate));
    }
  }

  lemma SettledUnderEstimate(s: PlaybackState, l: DriftCorrector.Loop, offset: real, theta: real, delay: real, n: nat)
    requires Sane(s) && s.phase.Playing? && ClockSynchronizer.Within(offset, theta, delay)
    requires OnTimeline(s, l.expected, l.now, offset)
    requires s.duration == 0 || DriftCorrector.LoopAt(l, s.rate, n).expected <= s.duration as real
    requires DriftCorrector.Reached(l.d, l.now) && n >= DriftCorrector.TICKS_TO_SETTLE
    ensures var ln := DriftCorrector.LoopAt(l, s.rate, n);
      Near(ln.actual, s, ln.now + theta, 420.0 + Reach(delay, s.rate))
  {
    var ln := DriftCorrector.LoopAt(l, s.rate, n);
    LoopFollowsTimeline(s, l, offset, n);
    SettledError(l, s.rate, n);
    NearByEstimate(ln.actual, ln.expected, s, ln.now, offset, theta, delay);
  }

  /** Clock, timeline and drift loop together: a member whose clock has accepted a sample, all delays
      being at most `delay`, and whose element follows the loop ideally, whatever state its controller
      is in, is after 987 ticks, until the medium ends, within 420 ms + rate * delay of the timeline at
      the true server time; and within one millisecond more of what the server itself computes. */
  lemma SettledIsNearServer(offset: real, pending: set<real>, events: seq<ClockSynchronizer.Event>, theta: real, delay: real,
                            s: PlaybackState, l: DriftCorrector.Loop, n: nat)
    requires forall i | 0 <= i < |events| :: ClockSynchronizer.DelayAtMost(events[i], delay)
    requires var c := ClockSynchronizer.Run(ClockSynchronizer.Clock([], pending, offset), events, theta);
      && c.samples != []
      && OnTimeline(s, l.expected, l.now, c.offset)
      && (s.duration == 0 || DriftCorrector.LoopAt(l, s.rate, n).expected <= s.duration as real)
    requires Sane(s) && s.phase.Playing?
    requires DriftCorrector.Reached(l.d, l.now) && n >= DriftCorrector.TICKS_TO_SETTLE
    ensures var ln := DriftCorrector.LoopAt(l, s.rate, n);
      Near(ln.actual, s, ln.now + theta, 420.0 + Reach(delay, s.rate))
  {
    var c := ClockSynchronizer.Run(ClockSynchronizer.Clock([], pending, offset), events, theta);
    ClockSynchronizer.ClockErrorBound(offset, pending, events, theta, delay);
    SettledUnderEstimate(s, l, c.offset, theta, delay, n);
  }

  // ---------------------------------------------------------------- why a browser stops

  /** The words the server closes a connection with, and what the browser takes them for: who was replaced,
      removed, or sent out with the closing room stops for good, saying so; after a shutdown, or as a slow
      consumer, it tries again. */
  lemma CloseReasons()
    ensures WebSocketClient.Terminal(4001, "replaced by reconnect") == Some(WebSocketClient.Superseded)
    ensures WebSocketClient.Terminal(1008, "removed from room") == Some(WebSocketClient.Forbidden)
    ensures WebSocketClient.Terminal(1000, "room closed") == Some(WebSocketClient.RoomClosed)
    ensures WebSocketClient.Terminal(1001, "server shutdown").None? && WebSocketClient.Terminal(1013, "slow consumer").None?
  {
  }

  /** From the room to the browser: a member's connection that a message closes reaches a client that stops
      exactly if they were replaced, kicked or sent out with the room, and that dials again after a
      shutdown. */
  lemma ClosedByRoom(core: Core<nat>, input: Input<nat>, id: string, link: Link,
                     client: WebSocketClient.Client, s: nat, jitter: real, order: seq<string>)
    requires Replication.DistinctClients(core) && (input.msg.Join? ==> Replication.Stranger(core, input.msg.client))
    requires id in core.members && RoomNotices.HasRoom(link)
    requires AffectAll(link, core.members[id].client, Step(core, input).effects).closed.Some?
    requires WebSocketClient.Connectivity(client) && client.socket == Some(s) && WebSocketClient.IsJitter(jitter)
    ensures var (code, reason) := AffectAll(link, core.members[id].client, Step(core, input).effects).closed.value;
            var client' := WebSocketClient.Step(client, WebSocketClient.SocketCloses(s, code, reason, jitter), order);
      && (client'.stopped <==> RoomCommands.Enters(core, input, id) || RoomCommands.Kicks(core, input, id) || RoomCommands.ClosesRoom(core, input))
      && (RoomCommands.Enters(core, input, id) ==> client'.status == Some(WebSocketClient.Superseded))
      && (RoomCommands.Kicks(core, input, id) ==> client'.status == Some(WebSocketClient.Forbidden))
      && (RoomCommands.ClosesRoom(core, input) ==> client'.status == Some(WebSocketClient.RoomClosed))
      && (!client'.stopped ==> input.msg.Shutdown? && client'.reconnect.Some?)
  {
    var c := core.members[id].client;
    assert RoomNotices.ServedBy(core, id, c);
    RoomNotices.NoticeStep(core, input, c, link);
    var (code, reason) := AffectAll(link, c, Step(core, input).effects).closed.value;
    assert RoomNotices.NoticeFor(core, input, c).closed == Some((code, reason));
    CloseReasons();
    WebSocketClient.LossIsFinalOrRetried(client, s, code, reason, jitter, order);
  }
}
