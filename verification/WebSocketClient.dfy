/** The reconnecting WebSocket client: one connection at a time, acknowledgements that settle once,
    and a backoff between attempts. Callbacks arrive one at a time. */
module WebSocketClient {
  import opened Basics

  datatype ReadyState = Connecting | Opened | Closed

  datatype Status = ConnectingNow | Connected | Disconnected | Superseded | RoomClosed | Unauthorized | Forbidden | Full

  datatype Incoming = Ack(requestId: string) | Refusal(requestId: string) | Notice | Malformed

  datatype Outcome = Resolved | Rejected

  /** Sockets are numbered in the order they are created. `reconnect` holds the delay that the
      armed reconnect timer was given. `settled` logs the promises of acknowledged sends as they settle. */
  datatype Client = Client(
    socket: Option<nat>,
    sockets: map<nat, ReadyState>,
    stopped: bool,
    attempts: nat,
    reconnect: Option<real>,
    stable: Option<nat>,
    resync: bool,
    pending: set<string>,
    issued: set<string>,
    settled: seq<(string, Outcome)>,
    status: Option<Status>)

  const FRESH := Client(None, map[], true, 0, None, None, false, {}, {}, [], None)

  /** `throws` says that a listener fails on the message before its answer is looked up; `jitter` is
      the random number drawn when a reconnection is scheduled. */
  datatype Callback =
    | Connect
    | Disconnect
    | SocketOpens(socket: nat)
    | SocketDelivers(socket: nat, message: Incoming, throws: bool)
    | SocketCloses(socket: nat, code: int, reason: string, jitter: real)
    | SocketFails(socket: nat)
    | ReconnectFires
    | StableFires(socket: nat)
    | SendCommand(requestId: string, ack: bool)
    | AckTimesOut(requestId: string)

  // ---------------------------------------------------------------- transitions

  function Pow2(n: nat): nat { if n == 0 then 1 else 2 * Pow2(n - 1) }

  function Backoff(attempts: nat): int {
    if 1000 * Pow2(attempts) < 10000 then 1000 * Pow2(attempts) else 10000
  }

  /** A delay, spread by a fifth in both directions. */
  function Spread(base: real, jitter: real): real { base * (0.8 + jitter * 0.4) }

  /** The delay before the next attempt. */
  function Delay(attempts: nat, jitter: real): real {
    Spread(Backoff(attempts) as real, jitter)
  }

  predicate IsJitter(u: real) { 0.0 <= u < 1.0 }

  /** Why a close is final, if it is. */
  function Terminal(code: int, reason: string): Option<Status> {
    if code == 4001 || reason == "replaced by reconnect" then Some(Superseded)
    else if reason == "ROOM_CLOSED" || reason == "room closed" then Some(RoomClosed)
    else if reason == "FORBIDDEN" || reason == "removed from room" then Some(Forbidden)
    else if reason == "session revoked" || reason == "session expired" then Some(Unauthorized)
    else if reason == "ROOM_FULL" then Some(Full)
    else None
  }

  function Opening(c: Client): Client {
    if c.stopped then c
    else
      var s := |c.sockets|;
      c.(reconnect := None, status := Some(ConnectingNow), sockets := c.sockets[s := Connecting], socket := Some(s))
  }

  function Rejections(ids: seq<string>): seq<(string, Outcome)> {
    seq(|ids|, i requires 0 <= i < |ids| => (ids[i], Rejected))
  }

  /** Rejects what is pending, in the order `order` in which the map is traversed. */
  function RejectPending(c: Client, order: seq<string>): Client {
    c.(pending := {}, settled := c.settled + Rejections(order))
  }

  function ClearConnectionTimers(c: Client): Client {
    c.(resync := false, stable := None)
  }

  function Lost(c: Client, code: int, reason: string, jitter: real, order: seq<string>): Client {
    if c.stopped then c
    else
      var cleared := RejectPending(ClearConnectionTimers(c), order);
      match Terminal(code, reason)
      case Some(status) => cleared.(stopped := true, status := Some(status))
      case None => cleared.(status := Some(Disconnected), attempts := c.attempts + 1, reconnect := Some(Delay(c.attempts, jitter)))
  }

  function Settle(c: Client, id: string, outcome: Outcome): Client {
    if id in c.pending then c.(pending := c.pending - {id}, settled := c.settled + [(id, outcome)]) else c
  }

  function Step(c: Client, e: Callback, order: seq<string>): Client {
    match e
    case Connect => if !c.stopped then c else Opening(c.(stopped := false))
    case Disconnect =>
      var cleared := ClearConnectionTimers(c.(stopped := true, reconnect := None, socket := None));
      var closed := if c.socket.Some? then cleared.(sockets := c.sockets[c.socket.value := Closed]) else cleared;
      RejectPending(closed, order)
    case SocketOpens(s) =>
      var c1 := if s in c.sockets then c.(sockets := c.sockets[s := Opened]) else c;
      if c.socket != Some(s) || c.stopped then c1 else c1.(status := Some(Connected), resync := true, stable := Some(s))
    case SocketDelivers(s, m, throws) =>
      if c.socket != Some(s) || c.stopped || throws then c
      else (match m
        case Ack(id) => Settle(c, id, Resolved)
        case Refusal(id) => Settle(c, id, Rejected)
        case _ => c)
    case SocketCloses(s, code, reason, jitter) =>
      var c1 := if s in c.sockets then c.(sockets := c.sockets[s := Closed]) else c;
      if c.socket != Some(s) then c1 else Lost(c1.(socket := None), code, reason, jitter, order)
    case SocketFails(s) =>
      if c.socket == Some(s) then c.(sockets := c.sockets[s := Closed]) else c
    case ReconnectFires => Opening(c)
    case StableFires(s) =>
      if c.socket == Some(s) && s in c.sockets && c.sockets[s].Opened? then c.(attempts := 0) else c
    case SendCommand(id, ack) =>
      if c.socket.None? || c.socket.value !in c.sockets || !c.sockets[c.socket.value].Opened? then c
      else if !ack then c
      else c.(pending := c.pending + {id}, issued := c.issued + {id})
    case AckTimesOut(id) => Settle(c, id, Rejected)
  }

  /** Timers fire only while armed, an acknowledgement timer exactly while its request is pending;
      request ids are new; a map is traversed completely and without repetition. */
  ghost predicate Enabled(c: Client, e: Callback, order: seq<string>) {
    && (e.ReconnectFires? ==> c.reconnect.Some?)
    && (e.StableFires? ==> c.stable == Some(e.socket))
    && (e.AckTimesOut? ==> e.requestId in c.pending)
    && (e.SendCommand? ==> e.requestId !in c.issued)
    && (e.SocketCloses? ==> IsJitter(e.jitter))
    && Traverses(order, c.pending)
  }

  ghost predicate Traverses(order: seq<string>, ids: set<string>) {
    && (forall i | 0 <= i < |order| :: order[i] in ids)
    && (forall id | id in ids :: id in order)
    && (forall i, j | 0 <= i < j < |order| :: order[i] != order[j])
  }

  // ---------------------------------------------------------------- invariants

  ghost predicate SettledOnce(settled: seq<(string, Outcome)>) {
    forall i, j | 0 <= i < j < |settled| :: settled[i].0 != settled[j].0
  }

  ghost predicate HasSettled(c: Client, id: string) {
    exists i | 0 <= i < |c.settled| :: c.settled[i].0 == id
  }

  /** Exactly one of a socket and a reconnect timer while running, neither when stopped, and nothing
      pending without a socket. */
  ghost predicate Connectivity(c: Client) {
    && (if c.stopped then c.socket.None? && c.reconnect.None? && c.stable.None? && !c.resync
        else c.socket.Some? != c.reconnect.Some?)
    && (c.socket.None? ==> c.pending == {} && c.stable.None? && !c.resync)
    && (c.socket.Some? ==> c.socket.value in c.sockets)
    && (forall s | s in c.sockets :: s < |c.sockets|)
    && (c.reconnect.Some? ==> 800.0 <= c.reconnect.value < 12000.0)
  }

  /** Every acknowledged send is pending or has settled, never both, and settles once. */
  ghost predicate Accounting(c: Client) {
    && SettledOnce(c.settled)
    && (forall id | id in c.pending :: id in c.issued && !HasSettled(c, id))
    && (forall id | id in c.issued :: id in c.pending || HasSettled(c, id))
    && (forall i | 0 <= i < |c.settled| :: c.settled[i].0 in c.issued)
  }

  lemma BackoffBounds(attempts: nat)
    ensures 1000 <= Backoff(attempts) <= 10000
    ensures Backoff(attempts) <= Backoff(attempts + 1)
  {
    PowPositive(attempts);
  }

  lemma SpreadBounds(base: real, u: real)
    requires base > 0.0 && IsJitter(u)
    ensures 0.8 * base <= Spread(base, u) < 1.2 * base
  {
    assert base * u >= 0.0;
    assert base * (1.0 - u) > 0.0;
    assert Spread(base, u) == 0.8 * base + 0.4 * (base * u);
    assert Spread(base, u) == 1.2 * base - 0.4 * (base * (1.0 - u));
  }

  lemma DelayBounds(attempts: nat, u: real)
    requires IsJitter(u)
    ensures 0.8 * Backoff(attempts) as real <= Delay(attempts, u) < 1.2 * Backoff(attempts) as real
    ensures 800.0 <= Delay(attempts, u) < 12000.0
  {
    BackoffBounds(attempts);
    SpreadBounds(Backoff(attempts) as real, u);
  }

  lemma FirstBackoffs()
    ensures Backoff(0) == 1000 && Backoff(1) == 2000 && Backoff(2) == 4000 && Backoff(3) == 8000
  {
    assert Pow2(1) == 2 && Pow2(2) == 4;
    assert Pow2(3) == 8;
  }

  lemma {:induction false} LaterBackoffs(attempts: nat)
    requires attempts >= 3
    ensures Backoff(attempts) >= 8000
    decreases attempts
  {
    FirstBackoffs();
    if attempts > 3 {
      LaterBackoffs(attempts - 1);
      BackoffBounds(attempts - 1);
    }
  }

  /** Whatever is drawn, the next attempt waits at least as long as this one did. */
  ghost predicate NeverShrinksAfter(attempts: nat) {
    forall u, v | IsJitter(u) && IsJitter(v) :: Delay(attempts, u) <= Delay(attempts + 1, v)
  }

  /** Because of the jitter the delays grow for certain only over the first three attempts; from then
      on a later delay can be shorter. */
  lemma DelaysGrowIff(attempts: nat)
    ensures NeverShrinksAfter(attempts) <==> attempts < 3
  {
    FirstBackoffs();
    if attempts < 3 {
      forall u, v | IsJitter(u) && IsJitter(v)
        ensures Delay(attempts, u) <= Delay(attempts + 1, v)
      {
        DelayBounds(attempts, u);
        DelayBounds(attempts + 1, v);
      }
    } else {
      LaterBackoffs(attempts);
      BackoffBounds(attempts + 1);
      assert IsJitter(0.75) && IsJitter(0.0);
      assert Delay(attempts, 0.75) > Delay(attempts + 1, 0.0);
    }
  }

  /** For example from 8.8 to 8 seconds, from the fourth attempt to the fifth. */
  lemma DelayShrinks()
    ensures IsJitter(0.75) && IsJitter(0.0) && Delay(3, 0.75) == 8800.0 && Delay(4, 0.0) == 8000.0
  {
    FirstBackoffs();
    assert Pow2(4) == 2 * Pow2(3);
  }

  lemma {:induction false} PowPositive(n: nat)
    ensures Pow2(n) >= 1
  {
    if n > 0 {
      PowPositive(n - 1);
    }
  }

  lemma NewSocket(sockets: map<nat, ReadyState>)
    requires forall s | s in sockets :: s < |sockets|
    ensures |sockets[|sockets| := Connecting]| == |sockets| + 1
  {
    assert sockets[|sockets| := Connecting].Keys == sockets.Keys + {|sockets|};
  }

  lemma OldSocket(sockets: map<nat, ReadyState>, s: nat, state: ReadyState)
    requires s in sockets
    ensures |sockets[s := state]| == |sockets|
  {
    assert sockets[s := state].Keys == sockets.Keys;
  }

  lemma ConnectivityStep(c: Client, e: Callback, order: seq<string>)
    requires Connectivity(c) && Enabled(c, e, order)
    ensures Connectivity(Step(c, e, order))
  {
    if e.SocketCloses? {
      DelayBounds(c.attempts, e.jitter);
    }
    NewSocket(c.sockets);
    if c.socket.Some? {
      OldSocket(c.sockets, c.socket.value, Closed);
    }
    if (e.SocketOpens? || e.SocketCloses? || e.SocketFails?) && e.socket in c.sockets {
      OldSocket(c.sockets, e.socket, Opened);
      OldSocket(c.sockets, e.socket, Closed);
    }
  }

  lemma SettleAccounts(c: Client, id: string, outcome: Outcome)
    requires Accounting(c)
    ensures Accounting(Settle(c, id, outcome))
  {
    var c' := Settle(c, id, outcome);
    if id in c.pending {
      assert c'.settled[|c.settled|].0 == id;
      forall x | x in c'.issued
        ensures x in c'.pending || HasSettled(c', x)
      {
        if x != id && HasSettled(c, x) {
          var i :| 0 <= i < |c.settled| && c.settled[i].0 == x;
          assert c'.settled[i].0 == x;
        }
      }
      forall i | 0 <= i < |c.settled|
        ensures c'.settled[i].0 != id
      {
      }
    }
  }

  lemma RejectAccounts(c: Client, order: seq<string>)
    requires Accounting(c) && Traverses(order, c.pending)
    ensures Accounting(RejectPending(c, order))
  {
    var c' := RejectPending(c, order);
    var n := |c.settled|;
    forall x | x in c'.issued
      ensures HasSettled(c', x)
    {
      if x in c.pending {
        var i :| 0 <= i < |order| && order[i] == x;
        assert c'.settled[n + i].0 == x;
      } else {
        var i :| 0 <= i < n && c.settled[i].0 == x;
        assert c'.settled[i].0 == x;
      }
    }
    forall i | 0 <= i < |c'.settled|
      ensures c'.settled[i] == if i < n then c.settled[i] else (order[i - n], Rejected)
    {
    }
  }

  /** The parts of a client that the accounts depend on. */
  ghost predicate SameAccounts(c: Client, c': Client) {
    c'.pending == c.pending && c'.issued == c.issued && c'.settled == c.settled
  }

  lemma SameAccountsKeep(c: Client, c': Client)
    requires Accounting(c) && SameAccounts(c, c')
    ensures Accounting(c')
  {
    assert forall id :: HasSettled(c', id) <==> HasSettled(c, id);
  }

  lemma SendAccounts(c: Client, id: string)
    requires Accounting(c) && id !in c.issued
    ensures Accounting(c.(pending := c.pending + {id}, issued := c.issued + {id}))
  {
    var c' := c.(pending := c.pending + {id}, issued := c.issued + {id});
    assert forall x :: HasSettled(c', x) <==> HasSettled(c, x);
    assert !HasSettled(c, id);
  }

  lemma LossAccounts(c: Client, e: Callback, order: seq<string>)
    requires Accounting(c) && Traverses(order, c.pending) && e.SocketCloses?
    ensures Accounting(Step(c, e, order))
  {
    if c.socket == Some(e.socket) && !c.stopped {
      RejectAccounts(c, order);
      SameAccountsKeep(RejectPending(c, order), Step(c, e, order));
    } else {
      SameAccountsKeep(c, Step(c, e, order));
    }
  }

  lemma AccountingStep(c: Client, e: Callback, order: seq<string>)
    requires Accounting(c) && Enabled(c, e, order)
    ensures Accounting(Step(c, e, order))
  {
    var c' := Step(c, e, order);
    match e
    case SocketDelivers(s, m, throws) =>
      if m.Ack? {
        SettleAccounts(c, m.requestId, Resolved);
      } else if m.Refusal? {
        SettleAccounts(c, m.requestId, Rejected);
      }
    case AckTimesOut(id) => SettleAccounts(c, id, Rejected);
    case Disconnect =>
      RejectAccounts(c, order);
      SameAccountsKeep(RejectPending(c, order), c');
    case SocketCloses(s, code, reason, jitter) => LossAccounts(c, e, order);
    case SendCommand(id, ack) =>
      if c' != c {
        SendAccounts(c, id);
      }
    case _ =>
      SameAccountsKeep(c, c');
  }

  // ---------------------------------------------------------------- runs

  ghost predicate IsRun(trace: seq<Client>, events: seq<(Callback, seq<string>)>) {
    && |trace| == |events| + 1 && trace[0] == FRESH
    && forall i | 0 <= i < |events| ::
         Enabled(trace[i], events[i].0, events[i].1) && trace[i + 1] == Step(trace[i], events[i].0, events[i].1)
  }

  /** In every state of every run the client has exactly one of a socket and an armed reconnect timer
      while it is running and neither when stopped, and every acknowledged send is pending or has
      settled exactly once. */
  lemma {:induction false} ReachableInvariants(trace: seq<Client>, events: seq<(Callback, seq<string>)>, k: nat)
    requires IsRun(trace, events) && k < |trace|
    ensures Connectivity(trace[k]) && Accounting(trace[k])
  {
    if k > 0 {
      ReachableInvariants(trace, events, k - 1);
      ConnectivityStep(trace[k - 1], events[k - 1].0, events[k - 1].1);
      AccountingStep(trace[k - 1], events[k - 1].0, events[k - 1].1);
    }
  }

  /** The callbacks of a socket. */
  ghost predicate From(e: Callback, s: nat) {
    (e.SocketOpens? || e.SocketDelivers? || e.SocketCloses? || e.SocketFails? || e.StableFires?) && e.socket == s
  }

  /** Whatever a socket that is not the current one does, it changes nothing but itself. */
  lemma StaleSocketChangesNothing(c: Client, e: Callback, order: seq<string>, s: nat)
    requires From(e, s) && c.socket != Some(s)
    ensures var c' := Step(c, e, order);
      c' == c.(sockets := c'.sockets) && c'.sockets.Keys == c.sockets.Keys
      && forall other | other in c.sockets && other != s :: c'.sockets[other] == c.sockets[other]
  {
    if s in c.sockets {
      assert c.sockets[s := Opened].Keys == c.sockets.Keys;
      assert c.sockets[s := Closed].Keys == c.sockets.Keys;
    }
  }

  /** Once the connection is lost or given up, nothing is pending and everything sent has settled. */
  lemma LossSettlesEverything(trace: seq<Client>, events: seq<(Callback, seq<string>)>, k: nat, id: string)
    requires IsRun(trace, events) && k < |events|
    requires events[k].0.Disconnect? || (events[k].0.SocketCloses? && trace[k].socket == Some(events[k].0.socket))
    requires id in trace[k].issued
    ensures trace[k + 1].pending == {} && HasSettled(trace[k + 1], id)
    ensures trace[k + 1].socket.None?
  {
    ReachableInvariants(trace, events, k);
    ReachableInvariants(trace, events, k + 1);
  }

  lemma SettledGrows(c: Client, e: Callback, order: seq<string>)
    ensures c.settled <= Step(c, e, order).settled
  {
  }

  lemma {:induction false} PrefixesCompose<T>(logs: seq<seq<T>>, i: nat, j: nat)
    requires i <= j < |logs| && forall k | 0 <= k < |logs| - 1 :: logs[k] <= logs[k + 1]
    ensures logs[i] <= logs[j]
    decreases j
  {
    if i < j {
      PrefixesCompose(logs, i, j - 1);
      assert logs[j - 1] <= logs[j - 1 + 1];
    }
  }

  /** A settled promise stays as it was settled: the log only grows, and never repeats an id. */
  lemma SettledForGood(trace: seq<Client>, events: seq<(Callback, seq<string>)>, i: nat, j: nat)
    requires IsRun(trace, events) && i <= j < |trace|
    ensures trace[i].settled <= trace[j].settled && SettledOnce(trace[j].settled)
  {
    var logs := seq(|trace|, k requires 0 <= k < |trace| => trace[k].settled);
    forall k | 0 <= k < |logs| - 1
      ensures logs[k] <= logs[k + 1]
    {
      SettledGrows(trace[k], events[k].0, events[k].1);
    }
    PrefixesCompose(logs, i, j);
    ReachableInvariants(trace, events, j);
  }

  // ---------------------------------------------------------------- how a request settles

  /** A message on the current socket of a running client that no listener fails on. */
  predicate Delivered(c: Client, e: Callback, m: Incoming) {
    e.SocketDelivers? && c.socket == Some(e.socket) && !c.stopped && !e.throws && e.message == m
  }

  /** The connection is given up, or the current one is lost. */
  predicate GivesUp(c: Client, e: Callback) {
    e.Disconnect? || (e.SocketCloses? && c.socket == Some(e.socket) && !c.stopped)
  }

  /** A pending request is resolved by its acknowledgement, and rejected by its refusal, its timeout, or
      the loss of the connection. */
  predicate Causes(c: Client, e: Callback, id: string, outcome: Outcome) {
    && id in c.pending
    && match outcome
       case Resolved => Delivered(c, e, Ack(id))
       case Rejected => Delivered(c, e, Refusal(id)) || e == AckTimesOut(id) || GivesUp(c, e)
  }

  ghost predicate SettledAs(c: Client, id: string, outcome: Outcome) {
    exists i | 0 <= i < |c.settled| :: c.settled[i] == (id, outcome)
  }

  lemma SettleOutcome(c: Client, id: string, how: Outcome, x: string, outcome: Outcome)
    ensures SettledAs(Settle(c, id, how), x, outcome) <==> SettledAs(c, x, outcome) || (id in c.pending && (x, outcome) == (id, how))
  {
    var c' := Settle(c, id, how);
    if id in c.pending {
      assert c'.settled[|c.settled|] == (id, how);
      if i: nat :| i < |c.settled| && c.settled[i] == (x, outcome) {
        assert c'.settled[i] == (x, outcome);
      }
    }
  }

  lemma RejectOutcome(c: Client, order: seq<string>, x: string, outcome: Outcome)
    requires Traverses(order, c.pending)
    ensures SettledAs(RejectPending(c, order), x, outcome) <==> SettledAs(c, x, outcome) || (x in c.pending && outcome == Rejected)
  {
    var c' := RejectPending(c, order);
    var n := |c.settled|;
    if i: nat :| i < n && c.settled[i] == (x, outcome) {
      assert c'.settled[i] == (x, outcome);
    } else if x in c.pending && outcome == Rejected {
      var i :| 0 <= i < |order| && order[i] == x;
      assert c'.settled[n + i] == (x, Rejected);
    }
  }

  lemma SameSettled(c: Client, c': Client, x: string, outcome: Outcome)
    requires c'.settled == c.settled
    ensures SettledAs(c', x, outcome) <==> SettledAs(c, x, outcome)
  {
  }

  /** A request has settled in some way after a callback exactly if it had before or the callback causes it. */
  lemma OutcomeStep(c: Client, e: Callback, order: seq<string>, x: string, outcome: Outcome)
    requires Traverses(order, c.pending)
    ensures SettledAs(Step(c, e, order), x, outcome) <==> SettledAs(c, x, outcome) || Causes(c, e, x, outcome)
  {
    var c' := Step(c, e, order);
    if GivesUp(c, e) {
      RejectOutcome(c, order, x, outcome);
      SameSettled(RejectPending(c, order), c', x, outcome);
    } else if e.SocketDelivers? && c.socket == Some(e.socket) && !c.stopped && !e.throws && (e.message.Ack? || e.message.Refusal?) {
      SettleOutcome(c, e.message.requestId, if e.message.Ack? then Resolved else Rejected, x, outcome);
    } else if e.AckTimesOut? {
      SettleOutcome(c, e.requestId, Rejected, x, outcome);
    } else {
      SameSettled(c, c', x, outcome);
    }
  }

  /** Over every run: a request has been resolved if and only if its acknowledgement was delivered by the
      then current socket, past all listeners, while it was pending; and rejected if and only if while
      it was pending its refusal was so delivered, it timed out, or the connection was lost or given up. */
  lemma {:induction false} OutcomeIff(trace: seq<Client>, events: seq<(Callback, seq<string>)>, k: nat, id: string, outcome: Outcome)
    requires IsRun(trace, events) && k < |trace|
    ensures SettledAs(trace[k], id, outcome) <==> exists m | 0 <= m < k :: Causes(trace[m], events[m].0, id, outcome)
  {
    if k > 0 {
      OutcomeIff(trace, events, k - 1, id, outcome);
      OutcomeStep(trace[k - 1], events[k - 1].0, events[k - 1].1, id, outcome);
    }
  }

  // ---------------------------------------------------------------- losses, attempts and what is shown

  /** The reasons that are final: replaced by another connection, the room is closed, removed from it, the
      session is over, the room is full. */
  lemma FinalReasons(code: int, reason: string)
    ensures Terminal(code, reason) == Some(Superseded) <==> code == 4001 || reason == "replaced by reconnect"
    ensures code != 4001 ==>
      && (Terminal(code, reason) == Some(RoomClosed) <==> reason == "ROOM_CLOSED" || reason == "room closed")
      && (Terminal(code, reason) == Some(Forbidden) <==> reason == "FORBIDDEN" || reason == "removed from room")
      && (Terminal(code, reason) == Some(Unauthorized) <==> reason == "session revoked" || reason == "session expired")
      && (Terminal(code, reason) == Some(Full) <==> reason == "ROOM_FULL")
    ensures Terminal(code, reason).None? <==>
      && code != 4001
      && reason !in {"replaced by reconnect", "ROOM_CLOSED", "room closed", "FORBIDDEN", "removed from room",
                     "session revoked", "session expired", "ROOM_FULL"}
  {
  }

  /** Attempts count the losses that are retried, and start over once a connection has proved stable. */
  lemma AttemptsStep(c: Client, e: Callback, order: seq<string>)
    ensures Step(c, e, order).attempts ==
      if e.SocketCloses? && c.socket == Some(e.socket) && !c.stopped && Terminal(e.code, e.reason).None? then c.attempts + 1
      else if e.StableFires? && c.socket == Some(e.socket) && e.socket in c.sockets && c.sockets[e.socket] == Opened then 0
      else c.attempts
  {
  }

  /** What the user is shown. */
  lemma StatusStep(c: Client, e: Callback, order: seq<string>)
    ensures Step(c, e, order).status ==
      if (e.Connect? && c.stopped) || (e.ReconnectFires? && !c.stopped) then Some(ConnectingNow)
      else if e.SocketOpens? && c.socket == Some(e.socket) && !c.stopped then Some(Connected)
      else if e.SocketCloses? && c.socket == Some(e.socket) && !c.stopped then
        if Terminal(e.code, e.reason).Some? then Terminal(e.code, e.reason) else Some(Disconnected)
      else c.status
  {
  }

  /** The clock is sampled again and stability awaited exactly from the opening of the current socket until
      it is lost or given up. */
  lemma TimersStep(c: Client, e: Callback, order: seq<string>)
    ensures var c' := Step(c, e, order);
      if e.SocketOpens? && c.socket == Some(e.socket) && !c.stopped then c'.resync && c'.stable == Some(e.socket)
      else if GivesUp(c, e) then !c'.resync && c'.stable.None?
      else c'.resync == c.resync && c'.stable == c.stable
  {
  }

  /** What becomes of a socket: a new one is connecting, it opens and closes when it says so, and the current
      one is closed when the client gives up or the socket fails. */
  lemma SocketStep(c: Client, e: Callback, order: seq<string>, s: nat)
    requires s in c.sockets && |c.sockets| !in c.sockets
    ensures s in Step(c, e, order).sockets && Step(c, e, order).sockets[s] ==
      if e == SocketOpens(s) then Opened
      else if e.SocketCloses? && e.socket == s then Closed
      else if c.socket == Some(s) && (e.Disconnect? || e == SocketFails(s)) then Closed
      else c.sockets[s]
    ensures (e.Connect? && c.stopped) || (e.ReconnectFires? && !c.stopped) ==>
      var c' := Step(c, e, order); c'.socket == Some(|c.sockets|) && c'.sockets == c.sockets[|c.sockets| := Connecting]
  {
  }

  /** A request to be acknowledged is pending from when it was sent, and it is sent on an open socket only. */
  lemma SendStep(c: Client, id: string, ack: bool, order: seq<string>)
    ensures var c' := Step(c, SendCommand(id, ack), order);
            var open := c.socket.Some? && c.socket.value in c.sockets && c.sockets[c.socket.value] == Opened;
      c' == if open && ack then c.(pending := c.pending + {id}, issued := c.issued + {id}) else c
  {
  }

  /** The base of the delays: 1, 2, 4 and 8 seconds, and ten from then on. */
  lemma Backoffs(attempts: nat)
    ensures Backoff(attempts) ==
      (match attempts case 0 => 1000 case 1 => 2000 case 2 => 4000 case 3 => 8000 case _ => 10000)
  {
    FirstBackoffs();
    if attempts >= 4 {
      PowAtLeast16(attempts);
    }
  }

  lemma {:induction false} PowAtLeast16(n: nat)
    requires n >= 4
    ensures Pow2(n) >= 16
  {
    if n == 4 {
      assert Pow2(2) == 4 && Pow2(4) == 4 * Pow2(2);
    } else {
      PowAtLeast16(n - 1);
    }
  }

  /** A stopped client neither opens a socket nor arms a timer until it is told to connect. */
  lemma StoppedStaysStopped(c: Client, e: Callback, order: seq<string>)
    requires Connectivity(c) && c.stopped && Enabled(c, e, order) && !e.Connect?
    ensures var c' := Step(c, e, order);
      c'.stopped && c'.socket.None? && c'.reconnect.None? && c'.sockets.Keys == c.sockets.Keys
  {
    if From(e, if e.Connect? || e.Disconnect? || e.ReconnectFires? || e.SendCommand? || e.AckTimesOut? then 0 else e.socket) {
      StaleSocketChangesNothing(c, e, order, e.socket);
    }
  }

  /** Losing the current socket stops the client exactly for the reasons that are final; otherwise
      the next attempt is scheduled, between 0.8 and 12 seconds later. */
  lemma LossIsFinalOrRetried(c: Client, s: nat, code: int, reason: string, jitter: real, order: seq<string>)
    requires Connectivity(c) && c.socket == Some(s) && IsJitter(jitter)
    ensures var c' := Step(c, SocketCloses(s, code, reason, jitter), order);
      && c'.stopped == Terminal(code, reason).Some?
      && (c'.stopped ==> c'.status == Terminal(code, reason) && c'.reconnect.None?)
      && (!c'.stopped ==>
            && c'.reconnect == Some(Delay(c.attempts, jitter)) && c'.attempts == c.attempts + 1
            && 800.0 <= c'.reconnect.value < 12000.0)
  {
    DelayBounds(c.attempts, jitter);
  }

  // ---------------------------------------------------------------- the client object

  class Connection {
    var socket: Option<nat>
    var sockets: map<nat, ReadyState>
    var reconnectTimer: Option<real>  // the delay it was armed with
    var stableTimer: Option<nat>
    var attempts: nat
    var stopped: bool
    var pending: set<string>
    var resyncTimer: bool
    var status: Option<Status>
    ghost var issued: set<string>
    ghost var settled: seq<(string, Outcome)>

    constructor ()
      ensures View() == FRESH
    {
      socket, sockets, reconnectTimer, stableTimer := None, map[], None, None;
      attempts, stopped, pending, resyncTimer, status := 0, true, {}, false, None;
      issued, settled := {}, [];
    }

    ghost function View(): Client
      reads this
    {
      Client(socket, sockets, stopped, attempts, reconnectTimer, stableTimer, resyncTimer, pending, issued, settled, status)
    }

    method Open()
      modifies this
      ensures View() == Opening(old(View()))
    {
      if stopped {
        return;
      }
      if reconnectTimer.Some? {
        reconnectTimer := None;
      }
      status := Some(ConnectingNow);
      var created := |sockets|;
      sockets := sockets[created := Connecting];
      socket := Some(created);
    }

    method Connect()
      modifies this
      ensures forall order :: View() == Step(old(View()), Callback.Connect, order)
    {
      if !stopped {
        return;
      }
      stopped := false;
      Open();
    }

    /** Rejects the pending promises one by one; `order` is the order they were visited in. */
    method RejectAll() returns (ghost order: seq<string>)
      modifies this`pending, this`settled
      ensures Traverses(order, old(pending)) && View() == RejectPending(old(View()), order)
    {
      order := [];
      var left := pending;
      while left != {}
        invariant pending == old(pending) && left <= pending
        invariant forall i | 0 <= i < |order| :: order[i] in pending && order[i] !in left
        invariant forall id | id in pending :: id in left || id in order
        invariant forall i, j | 0 <= i < j < |order| :: order[i] != order[j]
        invariant settled == old(settled) + Rejections(order)
        decreases |left|
      {
        var id :| id in left;
        settled := settled + [(id, Rejected)];
        assert Rejections(order + [id]) == Rejections(order) + [(id, Rejected)];
        order := order + [id];
        left := left - {id};
      }
      pending := {};
    }

    method Disconnect() returns (ghost order: seq<string>)
      modifies this
      ensures Traverses(order, old(pending)) && View() == Step(old(View()), Callback.Disconnect, order)
    {
      stopped := true;
      reconnectTimer, resyncTimer, stableTimer := None, false, None;
      var current := socket;
      socket := None;
      if current.Some? {
        sockets := sockets[current.value := Closed];
      }
      order := RejectAll();
    }

    method OnOpen(s: nat)
      modifies this
      ensures forall order :: View() == Step(old(View()), SocketOpens(s), order)
    {
      if s in sockets {
        sockets := sockets[s := Opened];
      }
      if socket != Some(s) || stopped {
        return;
      }
      status := Some(Connected);
      resyncTimer := true;
      stableTimer := Some(s);
    }

    /** A message passes the listeners first; if one of them throws, its answer is lost. */
    method OnMessage(s: nat, m: Incoming, throws: bool)
      modifies this`pending, this`settled
      ensures forall order :: View() == Step(old(View()), SocketDelivers(s, m, throws), order)
    {
      if socket == Some(s) && !stopped && !throws {
        match m
        case Ack(id) => Finish(id, Resolved);
        case Refusal(id) => Finish(id, Rejected);
        case _ =>
      }
    }

    /** Settles a pending request; an answer to anything else is dropped. */
    method Finish(id: string, ghost outcome: Outcome)
      modifies this`pending, this`settled
      ensures View() == Settle(old(View()), id, outcome)
    {
      if id in pending {
        pending := pending - {id};
        settled := settled + [(id, outcome)];
      }
    }

    method Lose(code: int, reason: string, jitter: real) returns (ghost order: seq<string>)
      modifies this
      ensures !old(stopped) ==> Traverses(order, old(pending))
      ensures View() == Lost(old(View()), code, reason, jitter, order)
    {
      order := [];
      if stopped {
        return;
      }
      resyncTimer, stableTimer := false, None;
      order := RejectAll();
      var terminal := Terminal(code, reason);
      if terminal.Some? {
        stopped := true;
        status := terminal;
        return;
      }
      status := Some(Disconnected);
      var delay := Delay(attempts, jitter);
      attempts := attempts + 1;
      reconnectTimer := Some(delay);
    }

    method OnClose(s: nat, code: int, reason: string, jitter: real) returns (ghost order: seq<string>)
      modifies this
      ensures socket.None? || old(socket) != Some(s)
      ensures old(socket) == Some(s) && !old(stopped) ==> Traverses(order, old(pending))
      ensures View() == Step(old(View()), SocketCloses(s, code, reason, jitter), order)
    {
      order := [];
      if s in sockets {
        sockets := sockets[s := Closed];
      }
      if socket != Some(s) {
        return;
      }
      socket := None;
      order := Lose(code, reason, jitter);
    }

    method OnError(s: nat)
      modifies this`sockets
      ensures forall order :: View() == Step(old(View()), SocketFails(s), order)
    {
      if socket == Some(s) {
        sockets := sockets[s := Closed];
      }
    }

    method OnStable(s: nat)
      modifies this`attempts
      ensures forall order :: View() == Step(old(View()), StableFires(s), order)
    {
      if socket == Some(s) && s in sockets && sockets[s].Opened? {
        attempts := 0;
      }
    }

    /** Sends on the open socket, or refuses; a request to be acknowledged becomes pending. */
    method Send(id: string, ack: bool) returns (accepted: bool)
      modifies this`pending, this`issued
      ensures forall order :: View() == Step(old(View()), SendCommand(id, ack), order)
      ensures accepted <==> socket.Some? && socket.value in sockets && sockets[socket.value].Opened?
    {
      if socket.None? || socket.value !in sockets || !sockets[socket.value].Opened? {
        return false;
      }
      if ack {
        pending := pending + {id};
        issued := issued + {id};
      }
      accepted := true;
    }
  }
}
