/** The relay client as it runs: fields updated in place, one method for each piece of code between two awaits. */
module RelayClientObject {
  import opened Options
  import opened Protocol
  import opened ClientSpec
  import opened ClientProofs
  import ClientTheorems

  lemma MoreClosed(outcomes: map<string, Outcome>, waiters: map<string, Waiter>, id: string, w: Waiter)
    ensures ClosedOutcomes(outcomes, waiters[id := w]) == ClosedOutcomes(outcomes, waiters)[id := ConnectionClosed]
  {
  }

  lemma MoreFailed(checks: map<nat, Check>, waiters: map<string, Waiter>, id: string, w: Waiter)
    requires id !in waiters
    ensures FailProbes(checks, waiters[id := w])
         == match w.owner case Caller => FailProbes(checks, waiters)
                          case Probe(k) => Reproved(FailProbes(checks, waiters), k, ProbeFailed)
  {
    var waiters' := waiters[id := w];
    forall k | k in checks
      ensures (exists x :: x in waiters' && waiters'[x].owner == Probe(k))
         <==> w.owner == Probe(k) || exists x :: x in waiters && waiters[x].owner == Probe(k)
    {
      if x :| x in waiters && waiters[x].owner == Probe(k) {
        assert x in waiters' && waiters'[x].owner == Probe(k);
      }
      if w.owner == Probe(k) {
        assert id in waiters' && waiters'[id].owner == Probe(k);
      }
    }
  }

  lemma NoneClosed(outcomes: map<string, Outcome>, checks: map<nat, Check>)
    ensures ClosedOutcomes(outcomes, map[]) == outcomes && FailProbes(checks, map[]) == checks
  {
  }

  /**
   * The fields of the client and, below them, what the runtime keeps for it. Methods ending in Fields change several
   * fields; the method they serve states the same change on the whole state.
   */
  class RelayClient {
    var socket: Option<nat>
    var socketCleanup: Option<nat>
    var pendingOpenReject: Option<nat>
    var suppressReconnectForSocket: set<nat>
    var reconnectTimer: Option<nat>
    var reconnectPromise: Option<nat>
    var heartbeatTimer: bool
    var healthCheckPromise: Option<nat>
    var healthGeneration: nat
    var connectionGeneration: nat
    var reconnectGeneration: nat
    var reconnectAttempt: nat
    var explicitDisconnect: bool
    var lastConnectArgs: Option<nat>
    var argsObjects: seq<Args>
    var responseWaiters: map<string, Waiter>
    var session: Session
    var transport: Transport
    // sockets, timers of waiters, suspended continuations
    var sockets: seq<Socket>
    var timers: set<string>
    var attempts: map<Attempt, Phase>
    var checks: map<nat, Check>
    var nextCheck: nat
    var operations: map<string, Operation>
    var loopArgs: map<nat, nat>
    var running: map<Attempt, nat>
    // the record
    ghost var hasOpened: bool
    ghost var frames: seq<Frame>
    ghost var received: set<(nat, Event)>
    ghost var outcomes: map<string, Outcome>
    ghost var delays: seq<nat>
    ghost var asked: seq<Call>
    ghost var adopted: map<nat, string>

    ghost function State(): Client
      reads this
    {
      Client(Link(socket, socketCleanup, pendingOpenReject, suppressReconnectForSocket, sockets),
             Requests(responseWaiters, timers, operations, frames, received, outcomes),
             attempts, checks, nextCheck, reconnectTimer, reconnectPromise, healthCheckPromise, heartbeatTimer,
             healthGeneration, connectionGeneration, reconnectGeneration, reconnectAttempt, delays,
             explicitDisconnect, hasOpened, lastConnectArgs, Calls(argsObjects, loopArgs, running, asked, adopted), session, transport)
    }

    ghost predicate Valid()
      reads this
    {
      Inv(State())
    }

    constructor ()
      ensures Valid() && State() == Start()
    {
      socket, socketCleanup, pendingOpenReject, suppressReconnectForSocket, sockets := None, None, None, {}, [];
      responseWaiters, timers, operations, frames, received, outcomes := map[], {}, map[], [], {}, map[];
      attempts, checks, nextCheck, reconnectTimer, reconnectPromise, healthCheckPromise := map[], map[], 0, None, None, None;
      heartbeatTimer, healthGeneration, connectionGeneration, reconnectGeneration, reconnectAttempt := false, 0, 0, 0, 0;
      delays, explicitDisconnect, hasOpened, lastConnectArgs := [], false, false, None;
      argsObjects, loopArgs, running, asked, adopted := [], map[], map[], [], map[];
      session, transport := Session("", "", "", "", ""), Idle;
      new;
      hide Inv;
      StartKeeps();
    }

    // ----- requests -----

    method RejectWaitersFields()
      modifies this`responseWaiters, this`timers, this`outcomes, this`checks
      ensures responseWaiters == map[] && timers == old(timers) - old(responseWaiters).Keys
      ensures outcomes == ClosedOutcomes(old(outcomes), old(responseWaiters))
      ensures checks == FailProbes(old(checks), old(responseWaiters))
    {
      ghost var was := responseWaiters;
      var rest := responseWaiters.Keys;
      ghost var done: map<string, Waiter> := map[];
      NoneClosed(outcomes, checks);
      while rest != {}
        invariant rest <= was.Keys && done.Keys == was.Keys - rest
        invariant forall id | id in done :: done[id] == was[id]
        invariant responseWaiters.Keys == rest && forall id | id in rest :: responseWaiters[id] == was[id]
        invariant timers == old(timers) - done.Keys
        invariant outcomes == ClosedOutcomes(old(outcomes), done) && checks == FailProbes(old(checks), done)
        decreases rest
      {
        hide ClosedOutcomes, FailProbes;
        var id :| id in rest;
        rest := rest - {id};
        var waiter := responseWaiters[id];
        MoreClosed(old(outcomes), done, id, waiter);
        MoreFailed(old(checks), done, id, waiter);
        done := done[id := waiter];
        SettleFields(id, ConnectionClosed, ProbeFailed);
      }
      assert done == was;
    }

    /** rejectResponseWaiters */
    method RejectResponseWaiters()
      modifies this
      ensures State() == RejectWaiters(old(State()))
    {
      hide ClosedOutcomes, FailProbes;
      RejectWaitersFields();
    }

    method SettleFields(id: string, ghost outcome: Outcome, phase: CheckPhase)
      requires id in responseWaiters
      modifies this`responseWaiters, this`timers, this`outcomes, this`checks
      ensures responseWaiters == old(responseWaiters) - {id} && timers == old(timers) - {id}
      ensures outcomes == old(outcomes)[id := outcome]
      ensures checks == match old(responseWaiters)[id].owner case Caller => old(checks) case Probe(k) => Reproved(old(checks), k, phase)
    {
      var waiter := responseWaiters[id];
      responseWaiters := responseWaiters - {id};
      timers := timers - {id};
      outcomes := outcomes[id := outcome];
      if waiter.owner.Probe? {
        checks := Reproved(checks, waiter.owner.check, phase);
      }
    }

    method SettleWaiter(id: string, ghost outcome: Outcome, phase: CheckPhase)
      requires id in State().requests.waiters
      modifies this
      ensures State() == Settle(old(State()), id, outcome, phase)
    {
      hide Reproved;
      SettleFields(id, outcome, phase);
    }

    method RequestFields(id: string, request: Request, owner: Owner)
      modifies this`responseWaiters, this`timers, this`outcomes, this`frames
      ensures var q := Send(old(State()), id, request, owner).requests;
              responseWaiters == q.waiters && timers == q.timers && outcomes == q.outcomes && frames == q.frames
    {
      if socket.None? || socket.value >= |sockets| || !sockets[socket.value].ready {
        outcomes := outcomes[id := NotConnected];
      } else if !request.fits {
        outcomes := outcomes[id := TooLarge];
      } else {
        frames := frames + [Frame(socket.value, RequestEvent(id, session.channelId, request))];
        responseWaiters := responseWaiters[id := Waiter(request, owner, socket.value)];
        timers := timers + {id};
      }
    }

    /** sendEvent and requestResponse: the frame is written and its waiter registered, or the promise is rejected. */
    method RequestResponse(id: string, request: Request, owner: Owner)
      modifies this
      ensures State() == Send(old(State()), id, request, owner)
    {
      RequestFields(id, request, owner);
    }

    // ----- the current socket -----

    method RejectFields(s: nat)
      modifies this`socket, this`socketCleanup, this`pendingOpenReject, this`attempts
      ensures socket == (if old(socket) == Some(s) then None else old(socket))
      ensures socketCleanup == (if old(socketCleanup) == Some(s) then None else old(socketCleanup))
      ensures pendingOpenReject == None && attempts == Settled(old(attempts), s, OpenFailed)
    {
      if socket == Some(s) {
        socket := None;
      }
      if socketCleanup == Some(s) {
        socketCleanup := None;
      }
      pendingOpenReject := None;
      attempts := Settled(attempts, s, OpenFailed);
    }

    method RejectBeforeOpen(s: nat)
      modifies this
      ensures State() == ClientSpec.RejectBeforeOpen(old(State()), s)
    {
      hide Settled;
      RejectFields(s);
    }

    method CloseSocket(s: Option<nat>)
      modifies this
      ensures State() == old(State()).(link := MarkClosed(old(State()).link, s))
    {
      sockets := if s.Some? && s.value < |sockets| then sockets[s.value := Socket(false, true)] else sockets;
    }

    method SuppressReconnect()
      modifies this
      ensures State() == old(State()).(link := Suppress(old(State()).link))
    {
      suppressReconnectForSocket :=
        if socket.Some? then suppressReconnectForSocket + {socket.value} else suppressReconnectForSocket;
    }

    method StopHeartbeat()
      modifies this
      ensures State() == old(State()).(heartbeat := false)
    {
      heartbeatTimer := false;
    }

    method DropSocket()
      modifies this
      ensures State() == old(State()).(link := old(State()).link.(socket := None, socketCleanup := None))
    {
      socket, socketCleanup := None, None;
    }

    function CurrentSocket(): (s: Option<nat>)
      reads this
      ensures s == State().link.socket
    {
      socket
    }

    function PendingOpen(): (s: Option<nat>)
      reads this
      ensures s == State().link.pendingOpen
    {
      pendingOpenReject
    }

    /** closeCurrentSocket, with its last argument true */
    method CloseCurrentSocket()
      modifies this
      ensures State() == CloseCurrent(old(State()))
    {
      hide State, CurrentSocket, PendingOpen, Rejected, FailProbes, Settled;
      StopHeartbeat();
      var closing := CurrentSocket();
      SuppressReconnect();
      if PendingOpen().Some? {
        RejectBeforeOpen(PendingOpen().value);
      } else {
        DropSocket();
      }
      RejectResponseWaiters();
      CloseSocket(closing);
    }

    method NewSocketFields(a: Attempt)
      modifies this`sockets, this`socket, this`socketCleanup, this`pendingOpenReject, this`attempts
      ensures var s := |old(sockets)|;
              && sockets == old(sockets) + [Socket(false, false)] && socket == Some(s) && socketCleanup == Some(s)
              && pendingOpenReject == Some(s) && attempts == old(attempts)[a := Opening(s)]
    {
      var s := |sockets|;
      sockets := sockets + [Socket(false, false)];
      socket := Some(s);
      socketCleanup, pendingOpenReject := Some(s), Some(s);
      attempts := attempts[a := Opening(s)];
    }

    method NewSocket(a: Attempt)
      modifies this
      ensures var c := old(State()); var s := |c.link.sockets|;
              State() == c.(link := Link(Some(s), Some(s), Some(s), c.link.suppressed, c.link.sockets + [Socket(false, false)]),
                            attempts := c.attempts[a := Opening(s)])
    {
      NewSocketFields(a);
    }

    method OpenSocket(a: Attempt)
      modifies this
      ensures State() == ClientSpec.OpenSocket(old(State()), a)
    {
      hide State, CloseCurrent;
      CloseCurrentSocket();
      NewSocket(a);
    }

    // ----- the reconnect loop -----

    method ClearReconnectTimer()
      modifies this
      ensures State() == ClientSpec.ClearReconnectTimer(old(State()))
    {
      attempts := if reconnectTimer.Some? then attempts[Loop(reconnectTimer.value) := DelayOver] else attempts;
      reconnectTimer := None;
    }

    method DelayFields(g: nat)
      modifies this`reconnectAttempt, this`delays, this`transport, this`reconnectTimer, this`attempts
      ensures reconnectAttempt == old(reconnectAttempt) + 1 && delays == old(delays) + [Backoff(old(reconnectAttempt))]
      ensures transport == Reconnecting && reconnectTimer == Some(g) && attempts == old(attempts)[Loop(g) := Delaying]
    {
      hide Backoff;
      var attempt := reconnectAttempt + 1;
      var delay := Backoff(reconnectAttempt);
      reconnectAttempt := attempt;
      delays := delays + [delay];
      transport := Reconnecting;
      reconnectTimer := Some(g);
      attempts := attempts[Loop(g) := Delaying];
    }

    /** The head of the loop in reconnectUntilOpen, up to the await of the delay. */
    method WaitForReconnectDelay(g: nat)
      modifies this
      ensures State() == StartDelay(old(State()), g)
    {
      hide Backoff;
      DelayFields(g);
    }

    /** A new loop gets the next generation and keeps the latest argument object. */
    method NextReconnectGeneration() returns (g: nat)
      requires State().lastConnectArgs.Some?
      modifies this
      ensures g == old(State()).reconnectGeneration + 1 && State() == Captured(old(State()), g)
    {
      g := reconnectGeneration + 1;
      reconnectGeneration := g;
      loopArgs := loopArgs[g := lastConnectArgs.value];
    }

    method KeepPromise(g: nat)
      modifies this
      ensures State() == old(State()).(reconnectPromise := Some(g))
    {
      reconnectPromise := Some(g);
    }

    function MayReconnect(): (may: bool)
      reads this
      ensures may == CanReconnect(State())
    {
      reconnectPromise.None? && !explicitDisconnect && lastConnectArgs.Some?
    }

    lemma MayMeans(c: Client)
      ensures CanReconnect(c) ==> c.lastConnectArgs.Some?
    {
    }

    method Reconnect()
      modifies this
      ensures State() == ClientSpec.Reconnect(old(State()))
    {
      hide State, MayReconnect, CanReconnect, StartDelay;
      if MayReconnect() {
        MayMeans(State());
        var g := NextReconnectGeneration();
        WaitForReconnectDelay(g);
        KeepPromise(g);
      }
    }

    method FinishFields(ks: set<nat>)
      modifies this`checks, this`healthCheckPromise, this`operations
      ensures checks == old(checks) - ks && operations == Released(old(operations), ks)
      ensures healthCheckPromise == if old(healthCheckPromise).Some? && old(healthCheckPromise).value in ks then None
                                    else old(healthCheckPromise)
    {
      checks := checks - ks;
      if healthCheckPromise.Some? && healthCheckPromise.value in ks {
        healthCheckPromise := None;
      }
      operations := Released(operations, ks);
    }

    method FinishHealthChecks(ks: set<nat>)
      modifies this
      ensures State() == FinishChecks(old(State()), ks)
    {
      hide Released;
      FinishFields(ks);
    }

    method ForgetLoop(g: nat)
      modifies this
      ensures var c := old(State());
              State() == c.(attempts := c.attempts - {Loop(g)},
                            reconnectPromise := if c.reconnectPromise == Some(g) then None else c.reconnectPromise)
    {
      attempts := attempts - {Loop(g)};
      reconnectPromise := if reconnectPromise == Some(g) then None else reconnectPromise;
    }

    function WaitingFor(g: nat): (ks: set<nat>)
      reads this
      ensures ks == Behind(State(), g)
    {
      set k | k in checks && checks[k].phase == AwaitingLoop(g)
    }

    /** The loop's promise is fulfilled, and with it what was awaiting it. */
    method FinishLoop(g: nat)
      modifies this
      ensures State() == EndLoop(old(State()), g)
    {
      hide State, WaitingFor, Behind, FinishChecks;
      var behind := WaitingFor(g);
      ForgetLoop(g);
      FinishHealthChecks(behind);
    }

    method ForgetAttempt(a: Attempt)
      modifies this
      ensures State() == old(State()).(attempts := old(State()).attempts - {a})
    {
      attempts := attempts - {a};
    }

    function GoesOn(g: nat): (on: bool)
      reads this
      ensures on == Continues(State(), g)
    {
      !explicitDisconnect && g == reconnectGeneration
    }

    /** connectInternal has thrown: connect() rejects, and the loop's catch clause decides. */
    method AttemptFailed(a: Attempt)
      modifies this
      ensures State() == FailAttempt(old(State()), a)
    {
      hide State, GoesOn, Continues, StartDelay, EndLoop;
      if a.Manual? {
        ForgetAttempt(a);
      } else if GoesOn(a.generation) {
        WaitForReconnectDelay(a.generation);
      } else {
        FinishLoop(a.generation);
      }
    }

    // ----- connect() and disconnect() -----

    method ConnectFields(a: Attempt, args: Args)
      modifies this`explicitDisconnect, this`connectionGeneration, this`lastConnectArgs, this`argsObjects, this`running, this`asked
      ensures !explicitDisconnect && connectionGeneration == old(connectionGeneration) + 1
      ensures lastConnectArgs == Some(|old(argsObjects)|) && argsObjects == old(argsObjects) + [args]
      ensures running == old(running)[a := |old(argsObjects)|] && asked == old(asked) + [Call(a, args)]
    {
      explicitDisconnect := false;
      connectionGeneration := connectionGeneration + 1;
      lastConnectArgs := Some(|argsObjects|);
      running := running[a := |argsObjects|];
      argsObjects := argsObjects + [args];
      asked := asked + [Call(a, args)];
    }

    /** connectInternal up to the await of the fetch */
    method ConnectInternal(a: Attempt, args: Args) returns (generation: nat)
      modifies this
      ensures State() == BeginFetch(old(State()), a, args) && generation == State().connectionGeneration
    {
      ConnectFields(a, args);
      generation := connectionGeneration;
    }

    function NextConnection(): (g: nat)
      reads this
      ensures g == State().connectionGeneration + 1
    {
      connectionGeneration + 1
    }

    method SetPhase(a: Attempt, phase: Phase)
      modifies this
      ensures State() == old(State()).(attempts := old(State()).attempts[a := phase])
    {
      attempts := attempts[a := phase];
    }

    method SupersedeFields()
      modifies this`reconnectGeneration, this`healthGeneration, this`hasOpened
      ensures reconnectGeneration == old(reconnectGeneration) + 1 && healthGeneration == old(healthGeneration) + 1 && !hasOpened
    {
      reconnectGeneration := reconnectGeneration + 1;
      healthGeneration := healthGeneration + 1;
      hasOpened := false;
    }

    method Supersede()
      modifies this
      ensures var c := old(State());
              State() == c.(reconnectGeneration := c.reconnectGeneration + 1, healthGeneration := c.healthGeneration + 1, hasOpened := false)
    {
      SupersedeFields();
    }

    method ForgetPromises()
      modifies this
      ensures State() == old(State()).(reconnectPromise := None, healthCheck := None)
    {
      reconnectPromise, healthCheckPromise := None, None;
    }

    method Connect(args: Args)
      requires Valid() && Enabled(State(), Step.Connect(args))
      modifies this
      ensures Valid() && State() == Next(old(State()), Step.Connect(args))
    {
      hide State, Inv, CloseCurrent, ClientSpec.ClearReconnectTimer, Quiet;
      ClientTheorems.NextKeeps(State(), Step.Connect(args));
      Supersede();
      ClearReconnectTimer();
      ForgetPromises();
      CloseCurrentSocket();
      var generation := ConnectInternal(Manual(NextConnection()), args);
      SetPhase(Manual(generation), Fetching(generation));
    }

    method FenceFields()
      modifies this`explicitDisconnect, this`connectionGeneration, this`reconnectGeneration, this`healthGeneration
      modifies this`healthCheckPromise, this`hasOpened
      ensures explicitDisconnect && connectionGeneration == old(connectionGeneration) + 1
      ensures reconnectGeneration == old(reconnectGeneration) + 1 && healthGeneration == old(healthGeneration) + 1
      ensures healthCheckPromise == None && !hasOpened
    {
      explicitDisconnect := true;
      connectionGeneration := connectionGeneration + 1;
      reconnectGeneration := reconnectGeneration + 1;
      healthGeneration := healthGeneration + 1;
      healthCheckPromise := None;
      hasOpened := false;
    }

    method Fence()
      modifies this
      ensures var c := old(State());
              State() == c.(explicitDisconnect := true, connectionGeneration := c.connectionGeneration + 1,
                            reconnectGeneration := c.reconnectGeneration + 1, healthGeneration := c.healthGeneration + 1,
                            healthCheck := None, hasOpened := false)
    {
      FenceFields();
    }

    method SetTransport(status: Transport)
      modifies this
      ensures State() == old(State()).(transport := status)
    {
      transport := status;
    }

    method Disconnect()
      requires Valid() && Enabled(State(), Step.Disconnect)
      modifies this
      ensures Valid() && State() == Next(old(State()), Step.Disconnect)
    {
      hide State, Inv, CloseCurrent, ClientSpec.ClearReconnectTimer, Quiet;
      ClientTheorems.NextKeeps(State(), Step.Disconnect);
      Fence();
      ClearReconnectTimer();
      CloseCurrentSocket();
      SetTransport(Disconnected);
    }

    method RememberDevice(a: Attempt, deviceId: string)
      modifies this`argsObjects, this`adopted
      ensures Calls(argsObjects, loopArgs, running, asked, adopted)
           == Remember(Calls(old(argsObjects), loopArgs, running, asked, old(adopted)), lastConnectArgs, a, deviceId)
    {
      if lastConnectArgs.Some? && lastConnectArgs.value < |argsObjects| && a in running && running[a] < |argsObjects| {
        var last, call := argsObjects[lastConnectArgs.value], argsObjects[running[a]];
        if last.channel == call.channel && last.pin == call.pin {
          argsObjects := argsObjects[lastConnectArgs.value := last.(deviceId := Some(deviceId))];
          adopted := adopted[running[a] := deviceId];
        }
      }
    }

    method AdoptFields(a: Attempt, answer: Session)
      modifies this`session, this`transport, this`argsObjects, this`adopted
      ensures session == answer && transport == Reconnecting
      ensures Calls(argsObjects, loopArgs, running, asked, adopted)
           == Remember(Calls(old(argsObjects), loopArgs, running, asked, old(adopted)), lastConnectArgs, a, answer.deviceId)
    {
      hide Remember;
      session, transport := answer, Reconnecting;
      RememberDevice(a, answer.deviceId);
    }

    method Adopt(a: Attempt, answer: Session)
      modifies this
      ensures State() == Adopted(old(State()), a, answer)
    {
      hide Remember;
      AdoptFields(a, answer);
    }

    function IsStale(a: Attempt): (stale: bool)
      requires a in State().attempts && State().attempts[a].Fetching?
      reads this
      ensures stale == (State().attempts[a].generation != State().connectionGeneration || State().explicitDisconnect)
    {
      attempts[a].generation != connectionGeneration || explicitDisconnect
    }

    /** connectInternal after the fetch, up to the await of the socket */
    method Fetched(a: Attempt, result: FetchResult)
      requires Valid() && Enabled(State(), FetchDone(a, result))
      modifies this
      ensures Valid() && State() == Next(old(State()), FetchDone(a, result))
    {
      hide State, Inv, IsStale, CloseCurrent, FailAttempt, ClientSpec.OpenSocket, Quiet;
      ClientTheorems.NextKeeps(State(), FetchDone(a, result));
      if result.Failed? || IsStale(a) {
        AttemptFailed(a);
        return;
      }
      Adopt(a, result.session);
      if result.Unopenable? {
        CloseCurrentSocket();
        AttemptFailed(a);
      } else {
        OpenSocket(a);
      }
    }

    // ----- health checks -----

    method AwaitFields(k: nat, g: nat)
      requires k in State().checks
      modifies this
      ensures var c := old(State()); State() == c.(checks := c.checks[k := c.checks[k].(phase := AwaitingLoop(g))])
    {
      checks := checks[k := checks[k].(phase := AwaitingLoop(g))];
    }

    function Promise(): (g: Option<nat>)
      reads this
      ensures g == State().reconnectPromise
    {
      reconnectPromise
    }

    method AwaitReconnect(k: nat)
      requires k in State().checks
      modifies this
      ensures State() == ClientSpec.AwaitReconnect(old(State()), k)
    {
      hide State, Promise, ClientSpec.Reconnect, FinishChecks;
      ReconnectKeepsChecks(State());
      Reconnect();
      if Promise().None? {
        FinishHealthChecks({k});
      } else {
        AwaitFields(k, Promise().value);
      }
    }

    static lemma ReconnectKeepsChecks(c: Client)
      ensures ClientSpec.Reconnect(c).checks == c.checks
    {
    }

    method StartFields(phase: CheckPhase)
      modifies this`nextCheck, this`healthCheckPromise, this`checks
      ensures nextCheck == old(nextCheck) + 1 && healthCheckPromise == Some(old(nextCheck))
      ensures checks == old(checks)[old(nextCheck) := Check(healthGeneration, phase)]
    {
      checks := checks[nextCheck := Check(healthGeneration, phase)];
      healthCheckPromise := Some(nextCheck);
      nextCheck := nextCheck + 1;
    }

    method StartCheck(phase: CheckPhase) returns (k: nat)
      modifies this
      ensures k == old(State()).nextCheck
      ensures var c := old(State());
              State() == c.(nextCheck := k + 1, healthCheck := Some(k), checks := c.checks[k := Check(c.healthGeneration, phase)])
    {
      k := nextCheck;
      StartFields(phase);
    }

    function IsReady(): (ready: bool)
      reads this
      ensures ready == SocketReady(State().link)
    {
      socket.Some? && socket.value < |sockets| && sockets[socket.value].ready
    }

    function HealthCheck(): (k: Option<nat>)
      reads this
      ensures k == State().healthCheck
    {
      healthCheckPromise
    }

    method EnsureHealthy(stale: bool, probeId: string)
      modifies this
      ensures State() == ClientSpec.EnsureHealthy(old(State()), stale, probeId)
    {
      hide State, IsReady, HealthCheck, SocketReady, ClientSpec.AwaitReconnect, Send;
      if HealthCheck().Some? || (IsReady() && !stale) {
        return;
      }
      if IsReady() {
        var k := StartCheck(Probing);
        RequestResponse(probeId, StatusQuery(), Probe(k));
      } else {
        var k := StartCheck(ProbeFailed);
        AwaitReconnect(k);
      }
    }

    method AddOperation(id: string, operation: Operation)
      modifies this
      ensures var c := old(State());
              State() == c.(requests := c.requests.(operations := c.requests.operations[id := operation]))
    {
      operations := operations[id := operation];
    }

    /** send, ask, approve, deny, list and status: afterHealthy around requestResponse */
    method Operate(id: string, request: Request, stale: bool, probeId: string)
      requires Valid() && Enabled(State(), Step.Operate(id, request, stale, probeId))
      modifies this
      ensures Valid() && State() == Next(old(State()), Step.Operate(id, request, stale, probeId))
    {
      hide State, Inv, IsReady, HealthCheck, SocketReady, ClientSpec.EnsureHealthy, Send, Quiet, Ids;
      ClientTheorems.NextKeeps(State(), Step.Operate(id, request, stale, probeId));
      if HealthCheck().None? && IsReady() && !stale {
        RequestResponse(id, request, Caller);
        return;
      }
      EnsureHealthy(stale, probeId);
      AddOperation(id, if HealthCheck().Some? then Parked(HealthCheck().value, request) else Runnable(request));
    }

    // ----- timers -----

    method BackoffElapsed()
      requires Valid() && Enabled(State(), BackoffOver)
      modifies this
      ensures Valid() && State() == Next(old(State()), BackoffOver)
    {
      hide State, Inv, Quiet, ClientSpec.ClearReconnectTimer;
      ClientTheorems.NextKeeps(State(), BackoffOver);
      ClearReconnectTimer();
    }

    method WaiterTimedOut(id: string)
      requires Valid() && Enabled(State(), WaiterTimeout(id))
      modifies this
      ensures Valid() && State() == Next(old(State()), WaiterTimeout(id))
    {
      hide State, Inv, Quiet, Settle;
      ClientTheorems.NextKeeps(State(), WaiterTimeout(id));
      SettleWaiter(id, TimedOut, ProbeFailed);
    }

    method HeartbeatElapsed(stale: bool, probeId: string)
      requires Valid() && Enabled(State(), HeartbeatOver(stale, probeId))
      modifies this
      ensures Valid() && State() == Next(old(State()), HeartbeatOver(stale, probeId))
    {
      hide State, Inv, Quiet, Ids, ClientSpec.EnsureHealthy;
      ClientTheorems.NextKeeps(State(), HeartbeatOver(stale, probeId));
      StopHeartbeat();
      EnsureHealthy(stale, probeId);
    }

    // ----- socket events -----

    method OpenedFields(s: nat)
      requires s < |sockets|
      modifies this`sockets, this`pendingOpenReject, this`heartbeatTimer, this`transport, this`hasOpened, this`attempts
      ensures sockets == old(sockets)[s := Socket(true, false)] && pendingOpenReject == None && heartbeatTimer
      ensures transport == Connected && hasOpened && attempts == Settled(old(attempts), s, Opened(s))
    {
      sockets := sockets[s := Socket(true, false)];
      pendingOpenReject := None;
      heartbeatTimer := true;
      transport := Connected;
      hasOpened := true;
      attempts := Settled(attempts, s, Opened(s));
    }

    method SocketOpened(s: nat)
      requires s < |State().link.sockets| && State().link.socket == State().link.pendingOpen == Some(s)
      modifies this
      ensures State() == AfterOpen(old(State()), s)
    {
      hide Settled;
      OpenedFields(s);
    }

    function Exists(s: nat): (found: bool)
      reads this
      ensures found == (s < |State().link.sockets|)
    {
      s < |sockets|
    }

    method OnOpen(s: nat)
      requires Valid() && Enabled(State(), SocketOpen(s))
      modifies this
      ensures Valid() && State() == Next(old(State()), SocketOpen(s))
    {
      hide State, Inv, Quiet, CurrentSocket, PendingOpen, Exists, Settled;
      ClientTheorems.NextKeeps(State(), SocketOpen(s));
      if CurrentSocket() == Some(s) && PendingOpen() == Some(s) && Exists(s) {
        SocketOpened(s);
      }
    }

    method ReceivedFields(s: nat, e: Event)
      modifies this`heartbeatTimer, this`received, this`session
      ensures heartbeatTimer && received == old(received) + {(s, e)}
      ensures session == if e.kind.JoinApproved? then Approved(old(session), e) else old(session)
    {
      heartbeatTimer := true;
      received := received + {(s, e)};
      if e.kind.JoinApproved? {
        session := Approved(session, e);
      }
    }

    method RecordRelayActivity(s: nat, e: Event)
      modifies this
      ensures var c := old(State());
              State() == c.(heartbeat := true, requests := c.requests.(received := c.requests.received + {(s, e)}),
                            session := if e.kind.JoinApproved? then Approved(c.session, e) else c.session)
    {
      ReceivedFields(s, e);
    }

    function WaiterFor(id: string): (w: Option<Waiter>)
      reads this
      ensures w == if id in State().requests.waiters then Some(State().requests.waiters[id]) else None
    {
      if id in responseWaiters then Some(responseWaiters[id]) else None
    }

    /** handleSocketMessage with resolveResponseWaiter */
    method OnMessage(s: nat, e: Event)
      requires Valid() && Enabled(State(), SocketMessage(s, e))
      modifies this
      ensures Valid() && State() == Next(old(State()), SocketMessage(s, e))
    {
      hide State, Inv, Quiet, CurrentSocket, WaiterFor, Settle, Acceptable;
      ClientTheorems.NextKeeps(State(), SocketMessage(s, e));
      if CurrentSocket() != Some(s) {
        return;
      }
      RecordRelayActivity(s, e);
      var waiter := WaiterFor(e.replyTo);
      if waiter.Some? && (e.kind.Error? || e.kind == AnswerKind(waiter.value.request.kind)) {
        SettleWaiter(e.replyTo, Answer(waiter.value.request, e), ProbeAnswer(e));
      }
    }

    method LostFields(status: Transport)
      modifies this`transport, this`socket, this`heartbeatTimer, this`socketCleanup
      ensures transport == status && socket == None && !heartbeatTimer && socketCleanup == None
    {
      transport := status;
      socket := None;
      heartbeatTimer := false;
      socketCleanup := None;
    }

    method SocketLost(status: Transport)
      modifies this
      ensures var c := old(State());
              State() == c.(transport := status, heartbeat := false, link := c.link.(socket := None, socketCleanup := None))
    {
      LostFields(status);
    }

    function WillReconnect(s: nat): (will: bool)
      reads this
      ensures var c := State(); will == (!c.explicitDisconnect && s !in c.link.suppressed && Recognized(c.session.status))
    {
      !explicitDisconnect && s !in suppressReconnectForSocket && Recognized(session.status)
    }

    method SocketFailed(s: nat)
      modifies this
      ensures State() == AfterFailure(old(State()), s)
    {
      hide State, ClientSpec.RejectBeforeOpen, MarkClosed;
      RejectBeforeOpen(s);
      CloseSocket(Some(s));
    }

    method OnClose(s: nat)
      requires Valid() && Enabled(State(), SocketClose(s))
      modifies this
      ensures Valid() && State() == Next(old(State()), SocketClose(s))
    {
      hide State, Inv, Quiet, CurrentSocket, PendingOpen, WillReconnect, AfterFailure, RejectWaiters, ClientSpec.Reconnect, MarkClosed;
      ClientTheorems.NextKeeps(State(), SocketClose(s));
      if CurrentSocket() != Some(s) {
        return;
      }
      if PendingOpen() == Some(s) {
        SocketFailed(s);
        return;
      }
      var willReconnect := WillReconnect(s);
      SocketLost(if willReconnect then Stale else Disconnected);
      CloseSocket(Some(s));
      RejectResponseWaiters();
      if willReconnect {
        Reconnect();
      }
    }

    method OnError(s: nat)
      requires Valid() && Enabled(State(), SocketError(s))
      modifies this
      ensures Valid() && State() == Next(old(State()), SocketError(s))
    {
      hide State, Inv, Quiet, CurrentSocket, PendingOpen, AfterFailure;
      ClientTheorems.NextKeeps(State(), SocketError(s));
      if CurrentSocket() == Some(s) && PendingOpen() == Some(s) {
        SocketFailed(s);
      }
    }

    // ----- resumed continuations -----

    method ResetBackoff()
      modifies this
      ensures State() == old(State()).(reconnectAttempt := 0, delays := [])
    {
      reconnectAttempt := 0;
      delays := [];
    }

    function PhaseOf(a: Attempt): (phase: Phase)
      requires a in State().attempts
      reads this
      ensures phase == State().attempts[a]
    {
      attempts[a]
    }

    function LastArgs(): (args: Option<nat>)
      reads this
      ensures args == State().lastConnectArgs
    {
      lastConnectArgs
    }

    function CapturedArgs(g: nat): (args: Args)
      reads this
      ensures args == LoopArgs(State().calls, g)
    {
      if g in loopArgs && loopArgs[g] < |argsObjects| then argsObjects[loopArgs[g]] else Args("", "", None)
    }

    /** connectInternal after the await of the socket, and reconnectUntilOpen after the await of the delay */
    method Resume(a: Attempt)
      requires Valid() && Enabled(State(), ResumeAttempt(a))
      modifies this
      ensures Valid() && State() == Next(old(State()), ResumeAttempt(a))
    {
      hide State, Inv, Quiet, PhaseOf, GoesOn, LastArgs, CapturedArgs, LoopArgs, Continues, FailAttempt, EndLoop;
      ClientTheorems.NextKeeps(State(), ResumeAttempt(a));
      match PhaseOf(a)
      case DelayOver =>
        if a.Loop? && GoesOn(a.generation) && LastArgs().Some? {
          var generation := ConnectInternal(a, CapturedArgs(a.generation));
          SetPhase(a, Fetching(generation));
        } else {
          FinishLoop(a.generation);
        }
      case Opened(_) =>
        ResetBackoff();
        if a.Loop? {
          FinishLoop(a.generation);
        } else {
          ForgetAttempt(a);
        }
      case OpenFailed => AttemptFailed(a);
    }

    function CheckOf(k: nat): (check: Check)
      requires k in State().checks
      reads this
      ensures check == State().checks[k]
    {
      checks[k]
    }

    function IsOutdated(k: nat): (outdated: bool)
      requires k in State().checks
      reads this
      ensures outdated == (State().checks[k].generation != State().healthGeneration)
    {
      checks[k].generation != healthGeneration
    }

    function IsDisconnected(): (disconnected: bool)
      reads this
      ensures disconnected == State().explicitDisconnect
    {
      explicitDisconnect
    }

    /** the health check after its probe has been answered or rejected */
    method ResumeHealthCheck(k: nat)
      requires Valid() && Enabled(State(), ResumeCheck(k))
      modifies this
      ensures Valid() && State() == Next(old(State()), ResumeCheck(k))
    {
      hide State, Inv, Quiet, CheckOf, IsOutdated, IsDisconnected, CloseCurrent, ClientSpec.AwaitReconnect, FinishChecks, RefuseBehind;
      ClientTheorems.NextKeeps(State(), ResumeCheck(k));
      if CheckOf(k).phase.ProbeAnswered? || IsOutdated(k) {
        FinishHealthChecks({k});
      } else if IsDisconnected() {
        RefuseOperations(k);
      } else {
        SetTransport(Stale);
        ClientTheorems.CloseSameChecks(State());
        CloseCurrentSocket();
        AwaitReconnect(k);
      }
    }

    method RefuseFields(k: nat)
      modifies this`checks, this`healthCheckPromise, this`operations, this`outcomes
      ensures var q := RefusedBehind(old(State()).requests, k);
              operations == q.operations && outcomes == q.outcomes
      ensures checks == old(checks) - {k}
      ensures healthCheckPromise == if old(healthCheckPromise) == Some(k) then None else old(healthCheckPromise)
    {
      outcomes := RefusedBehind(State().requests, k).outcomes;
      operations := operations - set id | id in operations && operations[id].Parked? && operations[id].check == k;
      checks := checks - {k};
      healthCheckPromise := if healthCheckPromise == Some(k) then None else healthCheckPromise;
    }

    method RefuseOperations(k: nat)
      modifies this
      ensures State() == RefuseBehind(old(State()), k)
    {
      hide RefusedBehind;
      RefusedKeeps(State().requests, k);
      RefuseFields(k);
    }

    static lemma RefusedKeeps(q: Requests, k: nat)
      ensures var q' := RefusedBehind(q, k);
              q' == q.(operations := q'.operations, outcomes := q'.outcomes)
    {
    }

    method TakeOperation(id: string) returns (request: Request)
      requires id in State().requests.operations
      modifies this
      ensures request == old(State()).requests.operations[id].request
      ensures var q := old(State()).requests; State() == old(State()).(requests := q.(operations := q.operations - {id}))
    {
      request := operations[id].request;
      operations := operations - {id};
    }

    method ResumeParked(id: string)
      requires Valid() && Enabled(State(), ResumeOperation(id))
      modifies this
      ensures Valid() && State() == Next(old(State()), ResumeOperation(id))
    {
      hide State, Inv, Quiet, Send;
      ClientTheorems.NextKeeps(State(), ResumeOperation(id));
      var request := TakeOperation(id);
      RequestResponse(id, request, Caller);
    }
  }
}
