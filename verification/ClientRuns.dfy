/** Runs of the client, and the invariant over them. */
module ClientRuns {
  import opened Options
  import Maps
  import opened Protocol
  import opened ClientSpec
  import opened ClientProofs
  import opened ClientStepProofs

  // ----- connect() and disconnect() -----

  lemma ClearTimerKeeps(c: Client)
    requires Core(c)
    ensures Core(ClearReconnectTimer(c)) && ClearReconnectTimer(c).reconnectTimer.None?
  {
    hide LinkInv, WaiterInv, IdInv, OutcomeInv, DelayInv, ProbeInv, CheckInv, ParkInv;
  }

  ghost predicate NoneOpening(c: Client) {
    forall a | a in c.attempts :: !c.attempts[a].Opening?
  }

  /** connect() once the timer is cleared and the socket is closed. */
  ghost function Superseded(d: Client, args: Args): Client {
    var g := d.connectionGeneration + 1;
    d.(reconnectGeneration := d.reconnectGeneration + 1, healthGeneration := d.healthGeneration + 1, hasOpened := false,
       reconnectPromise := None, healthCheck := None, explicitDisconnect := false, connectionGeneration := g,
       lastConnectArgs := Some(|d.calls.objects|), calls := Asked(d.calls, Manual(g), args),
       attempts := d.attempts[Manual(g) := Fetching(g)])
  }

  ghost function Fenced(d: Client): Client {
    d.(explicitDisconnect := true, connectionGeneration := d.connectionGeneration + 1,
       reconnectGeneration := d.reconnectGeneration + 1, healthGeneration := d.healthGeneration + 1,
       healthCheck := None, hasOpened := false, transport := Disconnected)
  }

  lemma ConnectIs(c: Client, args: Args)
    ensures AfterConnect(c, args) == Superseded(CloseCurrent(ClearReconnectTimer(c)), args)
  {
    hide CloseLink, Settled, Rejected, FailProbes;
    match c.reconnectTimer
    case None =>
    case Some(g) =>
  }

  lemma DisconnectIs(c: Client)
    ensures AfterDisconnect(c) == Fenced(CloseCurrent(ClearReconnectTimer(c)))
  {
    hide CloseLink, Settled, Rejected, FailProbes;
    match c.reconnectTimer
    case None =>
    case Some(g) =>
  }

  lemma SupersededKeeps(d: Client, args: Args)
    requires Core(d) && d.link.socket.None? && d.reconnectTimer.None? && NoneOpening(d)
    ensures Core(Superseded(d, args))
  {
    hide WaiterInv, IdInv, OutcomeInv, DelayInv, ProbeInv, ParkInv;
  }

  lemma FencedKeeps(d: Client)
    requires Core(d) && d.link.socket.None? && d.reconnectTimer.None? && NoneOpening(d)
    ensures Core(Fenced(d))
  {
    hide WaiterInv, IdInv, OutcomeInv, DelayInv, ProbeInv, ParkInv;
  }

  /** Both begin by clearing the timer and closing the socket. */
  lemma Severed(c: Client)
    requires Core(c)
    ensures var d := CloseCurrent(ClearReconnectTimer(c));
            && Core(d) && d.link.socket.None? && d.reconnectTimer.None? && NoneOpening(d) && d.requests.waiters == map[]
            && d.explicitDisconnect == c.explicitDisconnect && d.session == c.session
            && d.connectionGeneration == c.connectionGeneration && d.reconnectGeneration == c.reconnectGeneration
            && d.attempts.Keys == c.attempts.Keys && |d.link.sockets| == |c.link.sockets|
            && forall a | a in d.attempts && d.attempts[a].Opened? :: c.attempts[a] == d.attempts[a]
  {
    ClearFacts(c);
    hide Core, CloseCurrent, ClearReconnectTimer;
    ClearTimerKeeps(c);
    CloseKeeps(ClearReconnectTimer(c));
    CloseSame(ClearReconnectTimer(c));
  }

  lemma ClearFacts(c: Client)
    requires Core(c)
    ensures var d := ClearReconnectTimer(c);
            && d.explicitDisconnect == c.explicitDisconnect && d.session == c.session && d.link == c.link
            && d.connectionGeneration == c.connectionGeneration && d.reconnectGeneration == c.reconnectGeneration
            && d.attempts.Keys == c.attempts.Keys && d.hasOpened == c.hasOpened
            && forall a | a in d.attempts && (!Ready(d.attempts[a]) || d.attempts[a].Opened?) :: c.attempts[a] == d.attempts[a]
  {
    hide RequestsInv, ChecksInv, GenerationInv, OpeningInv, DelayInv, FenceInv, ArgsInv;
  }

  // ----- operations -----

  lemma HealthyIds(c: Client, stale: bool, probeId: string)
    ensures Ids(EnsureHealthy(c, stale, probeId).requests) <= Ids(c.requests) + {probeId}
  {
    if c.healthCheck.None? && !Healthy(c, stale) && !SocketReady(c.link) {
      var k := c.nextCheck;
      var c1 := c.(nextCheck := k + 1, healthCheck := Some(k), checks := c.checks[k := Check(c.healthGeneration, ProbeFailed)]);
      ReconnectSame(c1);
      hide Reconnect;
    }
  }

  lemma NewOperation(c: Client, id: string, op: Operation)
    requires Core(c) && id !in Ids(c.requests) && IsRequest(op.request.kind) && (op.Parked? ==> op.check in c.checks)
    ensures Core(c.(requests := c.requests.(operations := c.requests.operations[id := op])))
  {
    hide LinkInv, GenerationInv, OpeningInv, LoopInv, DelayInv, ProbeInv, AwaitInv, CheckInv, IsRequest;
    NewOperationIds(c.requests, id, op);
    SameSuccesses(c.requests, c.requests.(operations := c.requests.operations[id := op]));
    hide IdInv, OutcomeInv;
  }

  lemma NewOperationIds(q: Requests, id: string, op: Operation)
    requires IdInv(q) && id !in Ids(q) && IsRequest(op.request.kind)
    ensures IdInv(q.(operations := q.operations[id := op]))
  {
    hide WrittenFor, Unsent, IsRequest;
    var q' := q.(operations := q.operations[id := op]);
    forall x | x in q'.waiters ensures exists i :: FrameOf(q', i, x) && WrittenFor(q'.frames[i], x, q'.waiters[x]) {
      var i :| FrameOf(q, i, x) && WrittenFor(q.frames[i], x, q.waiters[x]);
      assert FrameOf(q', i, x);
    }
    forall x | x in q'.outcomes && !Unsent(q'.outcomes[x]) ensures exists i :: FrameOf(q', i, x) {
      var i :| FrameOf(q, i, x);
      assert FrameOf(q', i, x);
    }
  }

  lemma OperateKeeps(c: Client, id: string, request: Request, stale: bool, probeId: string)
    requires Core(c) && id !in Ids(c.requests) && probeId !in Ids(c.requests) && id != probeId && IsRequest(request.kind)
    ensures Core(AfterOperate(c, id, request, stale, probeId))
  {
    hide Core, Send, EnsureHealthy, Ids, IsRequest;
    if Healthy(c, stale) {
      SendKeeps(c, id, request);
    } else {
      EnsureHealthyKeeps(c, stale, probeId);
      HealthyIds(c, stale, probeId);
      var c1 := EnsureHealthy(c, stale, probeId);
      HealthCheckLives(c1);
      NewOperation(c1, id, match c1.healthCheck case Some(k) => Parked(k, request) case None => Runnable(request));
    }
  }

  lemma HealthCheckLives(c: Client)
    requires Core(c)
    ensures c.healthCheck.Some? ==> c.healthCheck.value in c.checks
  {
    hide RequestsInv, AttemptsInv, ProbeInv, AwaitInv, ParkInv;
  }

  lemma OperationGone(c: Client, id: string)
    requires Core(c) && id in c.requests.operations
    ensures Core(c.(requests := c.requests.(operations := c.requests.operations - {id})))
    ensures IsRequest(c.requests.operations[id].request.kind)
  {
    hide LinkInv, GenerationInv, OpeningInv, LoopInv, DelayInv, ProbeInv, AwaitInv, CheckInv, IsRequest;
    OperationGoneIds(c.requests, c.requests.operations - {id}, c.requests.outcomes);
    SameSuccesses(c.requests, c.requests.(operations := c.requests.operations - {id}));
  }

  lemma OperationGoneIds(q: Requests, operations: map<string, Operation>, outcomes: map<string, Outcome>)
    requires IdInv(q) && operations.Keys <= q.operations.Keys && forall id | id in operations :: operations[id] == q.operations[id]
    requires outcomes.Keys <= q.outcomes.Keys + (q.operations.Keys - operations.Keys) && q.outcomes.Keys <= outcomes.Keys
    requires forall id | id in outcomes :: if id in q.outcomes then outcomes[id] == q.outcomes[id] else Unsent(outcomes[id])
    ensures IdInv(q.(operations := operations, outcomes := outcomes))
  {
    hide WrittenFor, Unsent, IsRequest;
    var q' := q.(operations := operations, outcomes := outcomes);
    forall x | x in q'.waiters ensures exists i :: FrameOf(q', i, x) && WrittenFor(q'.frames[i], x, q'.waiters[x]) {
      var i :| FrameOf(q, i, x) && WrittenFor(q.frames[i], x, q.waiters[x]);
      assert FrameOf(q', i, x);
    }
    forall x | x in q'.outcomes && !Unsent(q'.outcomes[x]) ensures exists i :: FrameOf(q', i, x) {
      var i :| FrameOf(q, i, x);
      assert FrameOf(q', i, x);
    }
  }

  lemma ResumeOperationKeeps(c: Client, id: string)
    requires Core(c) && id in c.requests.operations
    ensures Core(AfterResumeOperation(c, id))
  {
    OperationGone(c, id);
    OperationsApart(c);
    hide Core, Send, IsRequest;
    SendKeeps(c.(requests := c.requests.(operations := c.requests.operations - {id})), id, c.requests.operations[id].request);
  }

  lemma OperationsApart(c: Client)
    requires Core(c)
    ensures c.requests.operations.Keys !! c.requests.waiters.Keys && c.requests.operations.Keys !! c.requests.outcomes.Keys
  {
    hide AttemptsInv, ChecksInv, LinkInv, WaiterInv, OutcomeInv;
  }

  lemma RefuseBehindKeeps(c: Client, k: nat)
    requires Core(c) && k in c.checks && !c.checks[k].phase.Probing?
    ensures Core(RefuseBehind(c, k))
  {
    hide LinkInv, GenerationInv, OpeningInv, LoopInv, DelayInv, IdInv, OutcomeInv, RefusedBehind;
    OperationsApart(c);
    RefusedRequests(c.requests, k);
    RefusedKept(c.requests, k);
  }

  lemma RefusedRequests(q: Requests, k: nat)
    requires IdInv(q) && OutcomeInv(q) && q.operations.Keys !! q.outcomes.Keys
    ensures IdInv(RefusedBehind(q, k)) && OutcomeInv(RefusedBehind(q, k))
  {
    hide IdInv, OutcomeInv;
    var q' := RefusedBehind(q, k);
    OperationGoneIds(q, q'.operations, q'.outcomes);
    SameSuccesses(q, q');
  }

  lemma RefusedKept(q: Requests, k: nat)
    ensures var q' := RefusedBehind(q, k);
            && q'.waiters == q.waiters && q'.timers == q.timers && q'.frames == q.frames && q'.received == q.received
            && forall id | id in q'.operations :: id in q.operations && q'.operations[id] == q.operations[id]
                                                  && (q.operations[id].Parked? ==> q.operations[id].check != k)
  {
  }

  // ----- fetches -----

  lemma SessionKeeps(c: Client, session: Session, transport: Transport)
    requires Core(c)
    ensures Core(c.(session := session, transport := transport))
  {
    hide LinkInv, WaiterInv, IdInv, OutcomeInv, GenerationInv, OpeningInv, LoopInv, DelayInv, ProbeInv, AwaitInv, CheckInv, ParkInv;
  }

  lemma AdoptedKeeps(c: Client, a: Attempt, session: Session)
    requires Core(c)
    ensures Core(Adopted(c, a, session))
  {
    hide LinkInv, WaiterInv, IdInv, OutcomeInv, GenerationInv, OpeningInv, LoopInv, DelayInv, ProbeInv, AwaitInv, CheckInv, ParkInv;
    hide Remember;
  }

  lemma FetchKeeps(c: Client, a: Attempt, result: FetchResult)
    requires Core(c) && a in c.attempts && c.attempts[a].Fetching?
    ensures Core(AfterFetch(c, a, result))
  {
    hide Core, FailAttempt, CloseCurrent, OpenSocket;
    if result.Failed? || c.attempts[a].generation != c.connectionGeneration || c.explicitDisconnect {
      FailAttemptKeeps(c, a);
    } else {
      var c1 := Adopted(c, a, result.session);
      AdoptedKeeps(c, a, result.session);
      if result.Unopenable? {
        CloseKeeps(c1);
        FailAttemptKeeps(CloseCurrent(c1), a);
      } else {
        OpenSocketKeeps(c1, a);
      }
    }
  }

  // ----- socket events -----

  lemma OpenKeeps(c: Client, s: nat)
    requires Core(c)
    ensures Core(AfterOpen(c, s))
  {
    hide LinkInv, WaiterInv, IdInv, OutcomeInv, GenerationInv, OpeningInv, LoopInv, DelayInv, ProbeInv, AwaitInv, CheckInv, ParkInv;
    hide Settled;
    if c.link.socket == Some(s) && c.link.pendingOpen == Some(s) && s < |c.link.sockets| {
      OpenedLink(c.link, c.requests, s);
      OpenedGenerations(c.attempts, s, c.connectionGeneration, c.reconnectGeneration);
      OpenedOpening(c.attempts, s, c.connectionGeneration, c.reconnectGeneration);
      OpenedLoops(c.attempts, s, c.reconnectTimer, c.reconnectPromise, c.reconnectGeneration, c.explicitDisconnect, c.checks);
      OpenedFence(c, s);
    }
  }

  lemma OpenedLink(l: Link, q: Requests, s: nat)
    requires LinkInv(l) && WaiterInv(l, q) && l.socket == Some(s) && l.pendingOpen == Some(s) && s < |l.sockets|
    ensures var l' := l.(pendingOpen := None, sockets := l.sockets[s := Socket(true, false)]); LinkInv(l') && WaiterInv(l', q)
  {
    hide IsRequest;
  }

  lemma OpenedGenerations(attempts: map<Attempt, Phase>, s: nat, connectionGeneration: nat, reconnectGeneration: nat)
    requires GenerationInv(attempts, connectionGeneration, reconnectGeneration)
    ensures GenerationInv(Settled(attempts, s, Opened(s)), connectionGeneration, reconnectGeneration)
  {
  }

  lemma OpenedOpening(attempts: map<Attempt, Phase>, s: nat, connectionGeneration: nat, reconnectGeneration: nat)
    requires OpeningInv(attempts, Some(s), connectionGeneration, reconnectGeneration)
    ensures OpeningInv(Settled(attempts, s, Opened(s)), None, connectionGeneration, reconnectGeneration)
  {
  }

  lemma OpenedLoops(attempts: map<Attempt, Phase>, s: nat, timer: Option<nat>, promise: Option<nat>, reconnectGeneration: nat,
                    explicitDisconnect: bool, checks: map<nat, Check>)
    requires LoopInv(attempts, timer, promise, reconnectGeneration, explicitDisconnect) && AwaitInv(checks, attempts)
    ensures var attempts' := Settled(attempts, s, Opened(s));
            LoopInv(attempts', timer, promise, reconnectGeneration, explicitDisconnect) && AwaitInv(checks, attempts')
  {
  }

  lemma OpenedFence(c: Client, s: nat)
    requires FenceInv(c) && ArgsInv(c) && c.link.socket.Some?
    ensures !c.explicitDisconnect && c.lastConnectArgs.Some?
  {
  }

  lemma ReceivedKeeps(c: Client, s: nat, e: Event, session: Session)
    requires Core(c)
    ensures Core(c.(heartbeat := true, requests := c.requests.(received := c.requests.received + {(s, e)}), session := session))
  {
    hide LinkInv, GenerationInv, OpeningInv, LoopInv, DelayInv, ProbeInv, AwaitInv, CheckInv, ParkInv, Answers;
    var q' := c.requests.(received := c.requests.received + {(s, e)});
    SameSuccesses(c.requests, q');
    ReceivedIds(c.requests, q'.received);
    hide IdInv, OutcomeInv;
  }

  lemma ReceivedIds(q: Requests, received: set<(nat, Event)>)
    requires IdInv(q)
    ensures IdInv(q.(received := received))
  {
    OperationGoneIds(q, q.operations, q.outcomes);
    var q' := q.(received := received);
    hide WrittenFor, Unsent, IsRequest;
    forall x | x in q'.waiters ensures exists i :: FrameOf(q', i, x) && WrittenFor(q'.frames[i], x, q'.waiters[x]) {
      var i :| FrameOf(q, i, x) && WrittenFor(q.frames[i], x, q.waiters[x]);
      assert FrameOf(q', i, x);
    }
    forall x | x in q'.outcomes && !Unsent(q'.outcomes[x]) ensures exists i :: FrameOf(q', i, x) {
      var i :| FrameOf(q, i, x);
      assert FrameOf(q', i, x);
    }
  }

  lemma MessageKeeps(c: Client, s: nat, e: Event)
    requires Core(c)
    ensures Core(AfterMessage(c, s, e))
  {
    hide Core, Settle, Settles, Acceptable, IsRequest;
    if c.link.socket == Some(s) {
      var session := if e.kind.JoinApproved? then Approved(c.session, e) else c.session;
      ReceivedKeeps(c, s, e, session);
      var c1 := c.(heartbeat := true, requests := c.requests.(received := c.requests.received + {(s, e)}), session := session);
      if e.replyTo in c1.requests.waiters {
        var w := c1.requests.waiters[e.replyTo];
        if e.kind.Error? || e.kind == AnswerKind(w.request.kind) {
          WaiterIsCurrent(c1, e.replyTo);
          AnswerSettles(c1.requests, e);
          SettleKeeps(c1, e.replyTo, Answer(w.request, e), ProbeAnswer(e));
        }
      }
    }
  }

  lemma WaiterIsCurrent(c: Client, id: string)
    requires Core(c) && id in c.requests.waiters
    ensures c.link.socket == Some(c.requests.waiters[id].socket)
  {
    hide AttemptsInv, ChecksInv, LinkInv, IdInv, OutcomeInv, IsRequest;
  }

  lemma AnswerSettles(q: Requests, e: Event)
    requires e.replyTo in q.waiters && (q.waiters[e.replyTo].socket, e) in q.received
    requires e.kind.Error? || e.kind == AnswerKind(q.waiters[e.replyTo].request.kind)
    ensures Settles(q, e.replyTo, Answer(q.waiters[e.replyTo].request, e))
    ensures !Unsent(Answer(q.waiters[e.replyTo].request, e)) && CheckReady(ProbeAnswer(e))
  {
    hide Acceptable;
  }

  lemma TimeoutKeeps(c: Client, id: string)
    requires Core(c) && id in c.requests.waiters
    ensures Core(AfterTimeout(c, id))
  {
    hide Core, Settle;
    SettleKeeps(c, id, TimedOut, ProbeFailed);
  }

  lemma ClosingKeeps(c: Client, s: nat)
    requires Core(c)
    ensures Core(AfterClosing(c, s))
  {
    hide WaiterInv, IdInv, OutcomeInv, GenerationInv, OpeningInv, LoopInv, DelayInv, ProbeInv, AwaitInv, CheckInv, ParkInv;
    if s < |c.link.sockets| {
      WaitersSeeSocket(c.link, AfterClosing(c, s).link, c.requests);
    }
  }

  lemma WaitersSeeSocket(l: Link, l': Link, q: Requests)
    requires WaiterInv(l, q) && l'.socket == l.socket && l'.pendingOpen == l.pendingOpen
    ensures WaiterInv(l', q)
  {
    hide IsRequest;
  }

  /** A socket that fails before it opens has no waiters, and its attempt has failed. */
  lemma FailureKeeps(c: Client, s: nat)
    requires Core(c) && c.link.socket == Some(s) && c.link.pendingOpen == Some(s)
    ensures Core(AfterFailure(c, s)) && AfterFailure(c, s).attempts == Unopened(c.attempts)
  {
    FailedLink(c.link, c.requests, s);
    UnopenedAttempts(c);
    UnopenedKeeps(c);
    hide LinkInv, WaiterInv, IdInv, OutcomeInv, GenerationInv, OpeningInv, LoopInv, DelayInv, ProbeInv, CheckInv, ParkInv, Settled, Unopened;
    UnopenedKeys(c.attempts);
  }

  lemma UnopenedKeys(attempts: map<Attempt, Phase>)
    ensures Unopened(attempts).Keys == attempts.Keys
  {
  }

  lemma FailedLink(l: Link, q: Requests, s: nat)
    requires LinkInv(l) && WaiterInv(l, q) && l.socket == Some(s) && l.pendingOpen == Some(s)
    ensures LinkInv(MarkClosed(Unlinked(l, s), Some(s))) && WaiterInv(MarkClosed(Unlinked(l, s), Some(s)), q)
  {
    hide IsRequest;
  }

  lemma DroppedLink(l: Link, q: Requests, s: nat)
    requires LinkInv(l) && WaiterInv(l, q) && l.socket == Some(s) && l.pendingOpen.None?
    ensures var l' := MarkClosed(l.(socket := None, socketCleanup := None), Some(s));
            LinkInv(l') && WaiterInv(l', Rejected(q)) && l'.socket.None? && l'.pendingOpen.None?
  {
    hide IsRequest, ClosedOutcomes;
  }

  /** An opened socket is closed by the peer: everything outstanding on it is rejected. */
  lemma DropKeeps(c: Client, s: nat, transport: Transport)
    requires Core(c) && c.link.socket == Some(s) && c.link.pendingOpen.None?
    ensures Core(RejectWaiters(c.(transport := transport, heartbeat := false,
                                  link := MarkClosed(c.link.(socket := None, socketCleanup := None), Some(s)))))
  {
    DroppedLink(c.link, c.requests, s);
    RejectedIds(c.link, c.requests);
    SameSuccesses(c.requests, Rejected(c.requests));
    CloseChecks(c);
    UnopenedAttempts(c);
    hide LinkInv, WaiterInv, IdInv, OutcomeInv, GenerationInv, OpeningInv, LoopInv, DelayInv, ProbeInv, CheckInv, ParkInv, MarkClosed, Rejected, FailProbes;
  }

  lemma CloseEventKeeps(c: Client, s: nat)
    requires Core(c)
    ensures Core(AfterClose(c, s))
  {
    hide Core, RejectWaiters, Reconnect, AfterFailure;
    if c.link.socket == Some(s) {
      if c.link.pendingOpen == Some(s) {
        FailureKeeps(c, s);
      } else {
        PendingIsSocket(c);
        DropKeeps(c, s, Stale);
        DropKeeps(c, s, Disconnected);
        ReconnectKeeps(RejectWaiters(c.(transport := Stale, heartbeat := false,
                                        link := MarkClosed(c.link.(socket := None, socketCleanup := None), Some(s)))));
      }
    }
  }

  lemma PendingIsSocket(c: Client)
    requires Core(c)
    ensures c.link.pendingOpen.Some? ==> c.link.pendingOpen == c.link.socket
  {
    hide AttemptsInv, ChecksInv, WaiterInv, IdInv, OutcomeInv;
  }

  // ----- resumed continuations -----

  lemma DelayedIsLoop(c: Client, a: Attempt)
    requires Core(c) && a in c.attempts
    ensures c.attempts[a].Delaying? || c.attempts[a].DelayOver? ==> a.Loop?
    ensures c.lastConnectArgs.Some?
  {
    hide RequestsInv, ChecksInv, OpeningInv, LoopInv, DelayInv, FenceInv;
  }

  lemma RefetchGenerations(attempts: map<Attempt, Phase>, a: Attempt, connectionGeneration: nat, reconnectGeneration: nat)
    requires GenerationInv(attempts, connectionGeneration, reconnectGeneration)
    requires a in attempts && a == Loop(reconnectGeneration)
    ensures var g := connectionGeneration + 1; GenerationInv(attempts[a := Fetching(g)], g, reconnectGeneration)
  {
  }

  lemma RefetchOpening(attempts: map<Attempt, Phase>, a: Attempt, pendingOpen: Option<nat>, connectionGeneration: nat,
                       reconnectGeneration: nat)
    requires OpeningInv(attempts, pendingOpen, connectionGeneration, reconnectGeneration)
    requires a in attempts && a.Loop? && !attempts[a].Opening?
    ensures var g := connectionGeneration + 1; OpeningInv(attempts[a := Fetching(g)], pendingOpen, g, reconnectGeneration)
  {
    var attempts' := attempts[a := Fetching(connectionGeneration + 1)];
    if pendingOpen.Some? {
      var b :| b in attempts && attempts[b] == Opening(pendingOpen.value);
      assert b in attempts' && attempts'[b] == Opening(pendingOpen.value);
    }
  }

  lemma RefetchLoops(attempts: map<Attempt, Phase>, a: Attempt, timer: Option<nat>, promise: Option<nat>,
                     reconnectGeneration: nat, phase: Phase)
    requires LoopInv(attempts, timer, promise, reconnectGeneration, false)
    requires a in attempts && !attempts[a].Delaying? && !phase.Delaying?
    ensures LoopInv(attempts[a := phase], timer, promise, reconnectGeneration, false)
  {
  }

  lemma FetchAgainKeeps(c: Client, a: Attempt)
    requires Core(c) && a in c.attempts && c.attempts[a].DelayOver? && a.Loop? && Continues(c, a.generation)
    requires c.lastConnectArgs.Some?
    ensures Core(AfterResumeAttempt(c, a))
  {
    hide LinkInv, WaiterInv, IdInv, OutcomeInv, GenerationInv, OpeningInv, LoopInv, DelayInv, ProbeInv, CheckInv, ParkInv;
    RefetchGenerations(c.attempts, a, c.connectionGeneration, c.reconnectGeneration);
    RefetchOpening(c.attempts, a, c.link.pendingOpen, c.connectionGeneration, c.reconnectGeneration);
    RefetchLoops(c.attempts, a, c.reconnectTimer, c.reconnectPromise, c.reconnectGeneration, Fetching(c.connectionGeneration + 1));
  }

  lemma ResetKeeps(c: Client)
    requires Core(c)
    ensures Core(c.(reconnectAttempt := 0, delays := []))
  {
    hide LinkInv, WaiterInv, IdInv, OutcomeInv, GenerationInv, OpeningInv, LoopInv, ProbeInv, AwaitInv, CheckInv, ParkInv;
  }

  lemma ResumeAttemptKeeps(c: Client, a: Attempt)
    requires Core(c) && a in c.attempts && Ready(c.attempts[a])
    ensures Core(AfterResumeAttempt(c, a))
  {
    hide Core, EndLoop, FailAttempt;
    DelayedIsLoop(c, a);
    match c.attempts[a]
    case DelayOver =>
      if Continues(c, a.generation) {
        FetchAgainKeeps(c, a);
      } else {
        EndLoopKeeps(c, a.generation);
      }
    case Opened(_) =>
      ResetKeeps(c);
      var c1 := c.(reconnectAttempt := 0, delays := []);
      if a.Loop? {
        EndLoopKeeps(c1, a.generation);
      } else {
        ManualGone(c1, a);
      }
    case OpenFailed => FailAttemptKeeps(c, a);
  }

  lemma ResumeCheckKeeps(c: Client, k: nat)
    requires Core(c) && k in c.checks && CheckReady(c.checks[k].phase)
    ensures Core(AfterResumeCheck(c, k))
  {
    hide Core, CloseCurrent, AwaitReconnect, RefuseBehind;
    if c.checks[k].phase.ProbeAnswered? || c.checks[k].generation != c.healthGeneration {
      FinishKeeps(c, k);
    } else if c.explicitDisconnect {
      RefuseBehindKeeps(c, k);
    } else {
      SessionKeeps(c, c.session, Stale);
      var c1 := c.(transport := Stale);
      CloseKeeps(c1);
      FailedProbeStays(c1, k);
      AwaitReconnectKeeps(CloseCurrent(c1), k);
    }
  }

  lemma FailedProbeStays(c: Client, k: nat)
    requires Core(c) && k in c.checks && c.checks[k].phase.ProbeFailed?
    ensures k in CloseCurrent(c).checks && CloseCurrent(c).checks[k] == c.checks[k]
  {
    hide CloseLink, Settled, Rejected;
  }

  lemma CoreKeeps(c: Client, s: Step)
    requires Core(c) && Enabled(c, s)
    ensures Core(Next(c, s))
  {
    hide Core, AfterConnect, AfterDisconnect, AfterOperate, AfterFetch, AfterBackoff, AfterTimeout, EnsureHealthy, AfterOpen;
    hide AfterMessage, AfterClosing, AfterClose, AfterError, AfterResumeAttempt, AfterResumeCheck, AfterResumeOperation, Ids;
    match s
    case Connect(args) =>
      Severed(c);
      ConnectIs(c, args);
      SupersededKeeps(CloseCurrent(ClearReconnectTimer(c)), args);
    case Disconnect =>
      Severed(c);
      DisconnectIs(c);
      FencedKeeps(CloseCurrent(ClearReconnectTimer(c)));
    case Operate(id, request, stale, probeId) => OperateKeeps(c, id, request, stale, probeId);
    case FetchDone(a, result) => FetchKeeps(c, a, result);
    case BackoffOver => BackoffKeeps(c);
    case WaiterTimeout(id) => TimeoutKeeps(c, id);
    case HeartbeatOver(stale, probeId) =>
      HeartKeeps(c);
      EnsureHealthyKeeps(c.(heartbeat := false), stale, probeId);
    case SocketOpen(x) => OpenKeeps(c, x);
    case SocketMessage(x, e) => MessageKeeps(c, x, e);
    case SocketClosing(x) => ClosingKeeps(c, x);
    case SocketClose(x) => CloseEventKeeps(c, x);
    case SocketError(x) => ErrorKeeps(c, x);
    case ResumeAttempt(a) => ResumeAttemptKeeps(c, a);
    case ResumeCheck(k) => ResumeCheckKeeps(c, k);
    case ResumeOperation(id) => ResumeOperationKeeps(c, id);
  }

  lemma BackoffKeeps(c: Client)
    requires Core(c)
    ensures Core(AfterBackoff(c))
  {
    hide Core, ClearReconnectTimer;
    ClearTimerKeeps(c);
  }

  lemma ErrorKeeps(c: Client, s: nat)
    requires Core(c)
    ensures Core(AfterError(c, s))
  {
    hide Core, AfterFailure;
    if c.link.socket == Some(s) && c.link.pendingOpen == Some(s) {
      FailureKeeps(c, s);
    }
  }

  lemma HeartKeeps(c: Client)
    requires Core(c)
    ensures Core(c.(heartbeat := false))
  {
    hide LinkInv, WaiterInv, IdInv, OutcomeInv, GenerationInv, OpeningInv, LoopInv, DelayInv, ProbeInv, AwaitInv, CheckInv, ParkInv;
  }
}
