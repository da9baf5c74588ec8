/** Why a request stops waiting for its answer, and what a health check of the past can still do. */
module ClientSettling {
  import opened Options
  import opened Protocol
  import opened ClientSpec
  import opened ClientProofs
  import opened ClientStepProofs
  import opened ClientRuns
  import opened ClientTheorems
  import opened ClientGuarantees

  // ----- outstanding requests -----

  ghost predicate KeepsWaiting(q: Requests, q': Requests) {
    forall id | id in q.waiters :: id in q'.waiters && q'.waiters[id] == q.waiters[id]
  }

  ghost predicate RejectsAll(q: Requests, q': Requests) {
    forall id | id in q.waiters :: id !in q'.waiters && id in q'.outcomes && q'.outcomes[id] == ConnectionClosed
  }

  /** Either the socket stays and every request goes on waiting, or the socket goes and every request is rejected. */
  ghost predicate TogetherWithSocket(c: Client, c': Client) {
    || (c'.link.socket == c.link.socket && KeepsWaiting(c.requests, c'.requests))
    || ((c'.link.socket != c.link.socket || c.requests.waiters == map[]) && RejectsAll(c.requests, c'.requests))
  }

  /** Parts that leave the socket and the waiters alone. */
  lemma Untouched(c: Client, a: Attempt, ks: set<nat>, k: nat)
    ensures FailAttempt(c, a).link == c.link && FailAttempt(c, a).requests.waiters == c.requests.waiters
    ensures FailAttempt(c, a).requests.outcomes == c.requests.outcomes
    ensures EndLoop(c, a.generation).link == c.link && EndLoop(c, a.generation).requests.waiters == c.requests.waiters
    ensures FinishChecks(c, ks).link == c.link && FinishChecks(c, ks).requests.waiters == c.requests.waiters
    ensures k in c.checks ==>
              && AwaitReconnect(c, k).link == c.link && AwaitReconnect(c, k).requests.waiters == c.requests.waiters
              && AwaitReconnect(c, k).requests.outcomes == c.requests.outcomes
  {
    hide Released, FailAttempt, AwaitReconnect;
    FailingUntouched(c, a);
    if k in c.checks {
      AwaitingUntouched(c, k);
    }
  }

  lemma FailingUntouched(c: Client, a: Attempt)
    ensures FailAttempt(c, a).link == c.link && FailAttempt(c, a).requests.waiters == c.requests.waiters
    ensures FailAttempt(c, a).requests.outcomes == c.requests.outcomes
  {
    hide Released, Backoff;
  }

  lemma AwaitingUntouched(c: Client, k: nat)
    requires k in c.checks
    ensures AwaitReconnect(c, k).link == c.link && AwaitReconnect(c, k).requests.waiters == c.requests.waiters
    ensures AwaitReconnect(c, k).requests.outcomes == c.requests.outcomes
  {
    hide Released, Reconnect;
    ReconnectSame(c);
  }

  lemma ClosingRejects(c: Client)
    requires Core(c)
    ensures CloseCurrent(c).link.socket.None? && RejectsAll(c.requests, CloseCurrent(c).requests)
    ensures c.link.socket.None? ==> c.requests.waiters == map[]
    ensures CloseCurrent(c).requests.waiters == map[] && |CloseCurrent(c).link.sockets| == |c.link.sockets|
  {
    hide AttemptsInv, ChecksInv, IdInv, OutcomeInv, Settled, FailProbes, IsRequest;
  }

  lemma SeveringRejects(c: Client, args: Args)
    requires Core(c)
    ensures TogetherWithSocket(c, AfterConnect(c, args)) && TogetherWithSocket(c, AfterDisconnect(c))
  {
    hide Core, CloseCurrent, AfterConnect, AfterDisconnect, ClearReconnectTimer;
    ConnectIs(c, args);
    DisconnectIs(c);
    ClearFacts(c);
    ClearTimerKeeps(c);
    ClearRequests(c);
    ClosingRejects(ClearReconnectTimer(c));
  }

  lemma ClearRequests(c: Client)
    ensures ClearReconnectTimer(c).requests == c.requests && ClearReconnectTimer(c).link == c.link
    ensures ClearReconnectTimer(c).checks == c.checks && ClearReconnectTimer(c).nextCheck == c.nextCheck
    ensures ClearReconnectTimer(c).healthGeneration == c.healthGeneration
  {
  }

  lemma SendingWaits(c: Client, id: string, request: Request, owner: Owner)
    requires id !in c.requests.waiters
    ensures TogetherWithSocket(c, Send(c, id, request, owner))
  {
    hide StatusQuery, RequestEvent;
  }

  lemma SendingKeeps(c: Client, id: string, request: Request, owner: Owner)
    requires id !in c.requests.waiters
    ensures Send(c, id, request, owner).link == c.link && KeepsWaiting(c.requests, Send(c, id, request, owner).requests)
  {
    hide RequestEvent;
  }

  lemma ProbingWaits(c: Client, c1: Client, probeId: string, k: nat)
    requires probeId !in c.requests.waiters && c1.requests == c.requests && c1.link == c.link && k in c1.checks
    ensures Send(c1, probeId, StatusQuery(), Probe(k)).link == c.link
    ensures KeepsWaiting(c.requests, Send(c1, probeId, StatusQuery(), Probe(k)).requests)
    ensures AwaitReconnect(c1, k).link == c.link && KeepsWaiting(c.requests, AwaitReconnect(c1, k).requests)
  {
    hide Send, AwaitReconnect;
    SendingKeeps(c1, probeId, StatusQuery(), Probe(k));
    Untouched(c1, Manual(0), {}, k);
  }

  lemma NewId(q: Requests, id: string)
    requires id !in Ids(q)
    ensures id !in q.waiters
  {
  }

  lemma HealthWaits(c: Client, stale: bool, probeId: string)
    requires probeId !in Ids(c.requests)
    ensures EnsureHealthy(c, stale, probeId).link == c.link && KeepsWaiting(c.requests, EnsureHealthy(c, stale, probeId).requests)
  {
    hide AwaitReconnect, Send, Ids, SocketReady;
    if c.healthCheck.None? && !Healthy(c, stale) {
      NewId(c.requests, probeId);
      var k := c.nextCheck;
      var c1 := c.(nextCheck := k + 1, healthCheck := Some(k));
      ProbingWaits(c, c1.(checks := c1.checks[k := Check(c.healthGeneration, Probing)]), probeId, k);
      ProbingWaits(c, c1.(checks := c1.checks[k := Check(c.healthGeneration, ProbeFailed)]), probeId, k);
    }
  }

  lemma OperatingWaits(c: Client, id: string, request: Request, stale: bool, probeId: string)
    requires id !in Ids(c.requests) && probeId !in Ids(c.requests)
    ensures TogetherWithSocket(c, AfterOperate(c, id, request, stale, probeId))
  {
    hide EnsureHealthy, Healthy, Send, Ids, TogetherWithSocket, KeepsWaiting;
    HealthWaits(c, stale, probeId);
    NewId(c.requests, id);
    SendingWaits(c, id, request, Caller);
    if !Healthy(c, stale) {
      var c1 := EnsureHealthy(c, stale, probeId);
      var op := match c1.healthCheck case Some(k) => Parked(k, request) case None => Runnable(request);
      SameWaiting(c.requests, c1.requests, c1.requests.operations[id := op]);
      SameSocketWaits(c, AfterOperate(c, id, request, stale, probeId));
    }
  }

  lemma SameWaiting(q: Requests, q': Requests, operations: map<string, Operation>)
    requires KeepsWaiting(q, q')
    ensures KeepsWaiting(q, q'.(operations := operations))
  {
  }

  lemma FetchWaits(c: Client, a: Attempt, result: FetchResult)
    requires Core(c) && a in c.attempts && c.attempts[a].Fetching?
    ensures TogetherWithSocket(c, AfterFetch(c, a, result))
  {
    hide Core, CloseCurrent, FailAttempt;
    Untouched(c, a, {}, 0);
    if !result.Failed? {
      var c1 := Adopted(c, a, result.session);
      AdoptedKeeps(c, a, result.session);
      ClosingRejects(c1);
      Untouched(CloseCurrent(c1), a, {}, 0);
      CurrentIsMade(c);
    }
  }

  lemma CurrentIsMade(c: Client)
    requires Core(c)
    ensures c.link.socket.Some? ==> c.link.socket.value < |c.link.sockets|
    ensures c.link.pendingOpen.Some? || c.link.socket.None? ==> c.requests.waiters == map[]
  {
    hide AttemptsInv, ChecksInv, IdInv, OutcomeInv, IsRequest;
  }

  lemma CloseEventWaits(c: Client, s: nat)
    requires Core(c)
    ensures TogetherWithSocket(c, AfterClose(c, s)) && TogetherWithSocket(c, AfterError(c, s))
  {
    hide Core, Reconnect, FailProbes, Settled;
    CurrentIsMade(c);
    PendingIsSocket(c);
    ReconnectSame(RejectWaiters(c.(transport := Stale, heartbeat := false,
                                   link := MarkClosed(c.link.(socket := None, socketCleanup := None), Some(s)))));
  }

  lemma AttemptWaits(c: Client, a: Attempt)
    requires a in c.attempts && Ready(c.attempts[a])
    ensures AfterResumeAttempt(c, a).link == c.link && AfterResumeAttempt(c, a).requests.waiters == c.requests.waiters
  {
    hide FailAttempt, EndLoop;
    Untouched(c, a, {}, 0);
    Untouched(c.(reconnectAttempt := 0, delays := []), a, {}, 0);
  }

  lemma CheckWaits(c: Client, k: nat)
    requires Core(c) && k in c.checks && CheckReady(c.checks[k].phase)
    ensures TogetherWithSocket(c, AfterResumeCheck(c, k))
  {
    hide Core, CloseCurrent, AwaitReconnect, FinishChecks, RefusedBehind;
    Untouched(c, Manual(0), {k}, k);
    RefusedKept(c.requests, k);
    var c1 := c.(transport := Stale);
    SessionKeeps(c, c.session, Stale);
    ClosingRejects(c1);
    CloseSameChecks(c1);
    Untouched(CloseCurrent(c1), Manual(0), {k}, k);
  }

  lemma OperationWaits(c: Client, id: string)
    requires Core(c) && id in c.requests.operations
    ensures TogetherWithSocket(c, AfterResumeOperation(c, id))
  {
    hide Core, Send;
    OperationsApart(c);
    var q := c.requests;
    SendingWaits(c.(requests := q.(operations := q.operations - {id})), id, q.operations[id].request, Caller);
  }

  /** The step is the timeout of the request. */
  ghost predicate TimesOut(s: Step, id: string) {
    s == WaiterTimeout(id)
  }

  /** The step is the arrival, on the current socket, of an answer of the right kind or of an error that refers to it. */
  ghost predicate IsAnswered(c: Client, s: Step, id: string)
    requires id in c.requests.waiters
  {
    s.SocketMessage? && c.link.socket == Some(s.socket) && s.event.replyTo == id
    && (s.event.kind.Error? || s.event.kind == AnswerKind(c.requests.waiters[id].request.kind))
  }

  lemma QuietStepsWait(c: Client, s: Step)
    requires Core(c) && Enabled(c, s) && !s.WaiterTimeout? && !s.SocketMessage?
    ensures TogetherWithSocket(c, Next(c, s))
  {
    hide Core, AfterConnect, AfterDisconnect, AfterOperate, AfterFetch, EnsureHealthy, AfterClose, AfterError, TogetherWithSocket;
    hide AfterResumeAttempt, AfterResumeCheck, AfterResumeOperation, Ids, Quiet;
    var c' := Next(c, s);
    match s
    case Connect(args) => SeveringRejects(c, args);
    case Disconnect => SeveringRejects(c, Args("", "", None));
    case Operate(id, request, stale, probeId) => OperatingWaits(c, id, request, stale, probeId);
    case FetchDone(a, result) => FetchWaits(c, a, result);
    case HeartbeatOver(stale, probeId) =>
      HealthWaits(c.(heartbeat := false), stale, probeId);
      SameSocketWaits(c, c');
    case SocketClose(x) => CloseEventWaits(c, x);
    case SocketError(x) => CloseEventWaits(c, x);
    case ResumeAttempt(a) =>
      AttemptWaits(c, a);
      SameSocketWaits(c, c');
    case ResumeCheck(k) => CheckWaits(c, k);
    case ResumeOperation(id) => OperationWaits(c, id);
    case BackoffOver =>
      ClearRequests(c);
      SameSocketWaits(c, c');
    case _ => SameSocketWaits(c, c');
  }

  lemma SameSocketWaits(c: Client, c': Client)
    requires c'.link.socket == c.link.socket && KeepsWaiting(c.requests, c'.requests)
    ensures TogetherWithSocket(c, c')
  {
  }

  /**
   * An outstanding request stops waiting exactly when it times out, is answered on its own socket, or loses that socket;
   * and its outcome says which. Otherwise it waits on, on the same socket.
   */
  lemma SettlesForAReason(c: Client, s: Step, id: string)
    requires Core(c) && Enabled(c, s) && id in c.requests.waiters
    ensures var q, q' := c.requests, Next(c, s).requests;
            && (id !in q'.waiters <==> TimesOut(s, id) || IsAnswered(c, s, id) || Next(c, s).link.socket != c.link.socket)
            && (id in q'.waiters ==> q'.waiters[id] == q.waiters[id])
            && (id !in q'.waiters ==>
                  && id in q'.outcomes
                  && q'.outcomes[id] == if TimesOut(s, id) then TimedOut
                                        else if IsAnswered(c, s, id) then Answer(q.waiters[id].request, s.event)
                                        else ConnectionClosed)
  {
    hide Core, Next, Acceptable, Quiet, Ids;
    if s.WaiterTimeout? {
      TimeoutSettles(c, s.id);
    } else if s.SocketMessage? {
      MessageSettles(c, s.socket, s.event);
    } else {
      QuietStepsWait(c, s);
    }
  }

  lemma TimeoutSettles(c: Client, x: string)
    requires x in c.requests.waiters && Enabled(c, WaiterTimeout(x))
    ensures var c' := Next(c, WaiterTimeout(x));
            && c'.link == c.link && c'.requests.waiters == c.requests.waiters - {x}
            && c'.requests.outcomes == c.requests.outcomes[x := TimedOut]
  {
    hide Quiet, Ids;
  }

  lemma MessageSettles(c: Client, s: nat, e: Event)
    requires Enabled(c, SocketMessage(s, e))
    ensures var c' := Next(c, SocketMessage(s, e));
            && c'.link == c.link
            && (if e.replyTo in c.requests.waiters && IsAnswered(c, SocketMessage(s, e), e.replyTo) then
                  && c'.requests.waiters == c.requests.waiters - {e.replyTo}
                  && c'.requests.outcomes == c.requests.outcomes[e.replyTo := Answer(c.requests.waiters[e.replyTo].request, e)]
                else c'.requests.waiters == c.requests.waiters && c'.requests.outcomes == c.requests.outcomes)
  {
    hide Quiet, Ids, Acceptable, Answer, ProbeAnswer, Reproved, AnswerKind;
    var c' := AfterMessage(c, s, e);
    assert c'.link == c.link;
  }

  // ----- health checks -----

  /** No check is renewed: one that was there keeps the generation it has captured, and new ones have new numbers. */
  ghost predicate Aging(c: Client, c': Client) {
    && c.nextCheck <= c'.nextCheck && c.healthGeneration <= c'.healthGeneration
    && forall k | k in c'.checks && k < c.nextCheck :: k in c.checks && c'.checks[k].generation == c.checks[k].generation
  }

  lemma AgingTransitive(a: Client, b: Client, c: Client)
    requires Aging(a, b) && Aging(b, c)
    ensures Aging(a, c)
  {
  }

  lemma PartsAge(c: Client, a: Attempt, k: nat)
    ensures Aging(c, FailAttempt(c, a)) && Aging(c, EndLoop(c, a.generation)) && Aging(c, CloseCurrent(c))
    ensures Aging(c, Reconnect(c)) && Aging(c, FinishChecks(c, {k})) && Aging(c, RejectWaiters(c))
  {
    hide Released, CloseLink, Settled, Rejected;
  }

  lemma AwaitingAges(c: Client, k: nat)
    requires k in c.checks
    ensures Aging(c, AwaitReconnect(c, k))
  {
    hide Released, Reconnect;
    ReconnectSame(c);
  }

  lemma HealthAges(c: Client, stale: bool, probeId: string)
    ensures Aging(c, EnsureHealthy(c, stale, probeId))
  {
    hide AwaitReconnect, Sent;
    if c.healthCheck.None? && !Healthy(c, stale) && !SocketReady(c.link) {
      var k := c.nextCheck;
      var c1 := c.(nextCheck := k + 1, healthCheck := Some(k), checks := c.checks[k := Check(c.healthGeneration, ProbeFailed)]);
      AwaitingAges(c1, k);
    }
  }

  lemma SeveringAges(c: Client, args: Args)
    ensures Aging(c, AfterConnect(c, args)) && Aging(c, AfterDisconnect(c))
    ensures c.healthGeneration < AfterConnect(c, args).healthGeneration && c.healthGeneration < AfterDisconnect(c).healthGeneration
  {
    hide CloseCurrent, AfterConnect, AfterDisconnect, ClearReconnectTimer;
    ConnectIs(c, args);
    DisconnectIs(c);
    ClearRequests(c);
    CloseSame(ClearReconnectTimer(c));
    PartsAge(ClearReconnectTimer(c), Manual(0), 0);
  }

  lemma FetchAges(c: Client, a: Attempt, result: FetchResult)
    requires a in c.attempts && c.attempts[a].Fetching?
    ensures Aging(c, AfterFetch(c, a, result))
  {
    hide CloseCurrent, FailAttempt;
    PartsAge(c, a, 0);
    if !result.Failed? {
      var c1 := Adopted(c, a, result.session);
      PartsAge(c1, a, 0);
      PartsAge(CloseCurrent(c1), a, 0);
    }
  }

  lemma SettlingAges(c: Client, id: string, outcome: Outcome, phase: CheckPhase)
    requires id in c.requests.waiters
    ensures Aging(c, Settle(c, id, outcome, phase))
  {
  }

  lemma CloseEventAges(c: Client, s: nat)
    ensures Aging(c, AfterClose(c, s)) && Aging(c, AfterError(c, s))
  {
    hide Reconnect, MarkClosed, RejectWaiters, AfterFailure;
    var c1 := c.(transport := Stale, heartbeat := false,
                 link := MarkClosed(c.link.(socket := None, socketCleanup := None), Some(s)));
    FailureAges(c, s);
    PartsAge(c1, Manual(0), 0);
    PartsAge(c1.(transport := Disconnected), Manual(0), 0);
    PartsAge(RejectWaiters(c1), Manual(0), 0);
  }

  lemma FailureAges(c: Client, s: nat)
    ensures Aging(c, AfterFailure(c, s))
  {
    hide Settled, MarkClosed, Unlinked;
  }

  lemma AttemptAges(c: Client, a: Attempt)
    requires a in c.attempts && Ready(c.attempts[a])
    ensures Aging(c, AfterResumeAttempt(c, a))
  {
    hide FailAttempt, EndLoop, Aging;
    SameChecksAge(c, AfterResumeAttempt(c, a));
    PartsAge(c, a, 0);
    PartsAge(c.(reconnectAttempt := 0, delays := []), a, 0);
    SameChecksAge(c, c.(reconnectAttempt := 0, delays := []));
    if c.attempts[a].Opened? && a.Loop? {
      AgingTransitive(c, c.(reconnectAttempt := 0, delays := []), AfterResumeAttempt(c, a));
    }
  }

  lemma SameChecksAge(c: Client, c': Client)
    ensures c'.checks == c.checks && c'.nextCheck == c.nextCheck && c'.healthGeneration == c.healthGeneration ==> Aging(c, c')
  {
  }

  lemma CheckAges(c: Client, k: nat)
    requires k in c.checks && CheckReady(c.checks[k].phase)
    ensures Aging(c, AfterResumeCheck(c, k))
  {
    hide CloseCurrent, AwaitReconnect, FinishChecks, RefusedBehind;
    PartsAge(c, Manual(0), k);
    var c1 := c.(transport := Stale);
    PartsAge(c1, Manual(0), k);
    CloseSameChecks(c1);
    AwaitingAges(CloseCurrent(c1), k);
  }

  lemma OperationAges(c: Client, id: string)
    requires id in c.requests.operations
    ensures Aging(c, AfterResumeOperation(c, id))
  {
    hide Sent;
  }

  lemma OperateAges(c: Client, id: string, request: Request, stale: bool, probeId: string)
    ensures Aging(c, AfterOperate(c, id, request, stale, probeId))
  {
    hide EnsureHealthy, Sent, Healthy, Aging;
    HealthAges(c, stale, probeId);
    SameChecksAge(c, AfterOperate(c, id, request, stale, probeId));
    SameChecksAge(EnsureHealthy(c, stale, probeId), AfterOperate(c, id, request, stale, probeId));
    if !Healthy(c, stale) {
      AgingTransitive(c, EnsureHealthy(c, stale, probeId), AfterOperate(c, id, request, stale, probeId));
    }
  }

  /** The remaining steps leave the checks alone. */
  lemma RestAges(c: Client, s: nat)
    ensures Aging(c, AfterOpen(c, s)) && Aging(c, AfterClosing(c, s)) && Aging(c, AfterBackoff(c))
  {
    hide Settled;
  }

  lemma StepAges(c: Client, s: Step)
    requires Enabled(c, s)
    ensures Aging(c, Next(c, s))
  {
    hide AfterConnect, AfterDisconnect, AfterFetch, EnsureHealthy, AfterClose, AfterError, Settle, AfterMessage, Aging, AfterBackoff;
    hide AfterResumeAttempt, AfterResumeCheck, AfterResumeOperation, Ids, Quiet, AfterOperate, AfterOpen, AfterClosing;
    match s
    case Connect(args) => SeveringAges(c, args);
    case Disconnect => SeveringAges(c, Args("", "", None));
    case Operate(id, request, stale, probeId) => OperateAges(c, id, request, stale, probeId);
    case FetchDone(a, result) => FetchAges(c, a, result);
    case BackoffOver => RestAges(c, 0);
    case WaiterTimeout(id) => SettlingAges(c, id, TimedOut, ProbeFailed);
    case HeartbeatOver(stale, probeId) => HeartbeatAges(c, stale, probeId);
    case SocketOpen(x) => RestAges(c, x);
    case SocketMessage(x, e) => MessageAges(c, x, e);
    case SocketClosing(x) => RestAges(c, x);
    case SocketClose(x) => CloseEventAges(c, x);
    case SocketError(x) => CloseEventAges(c, x);
    case ResumeAttempt(a) => AttemptAges(c, a);
    case ResumeCheck(k) => CheckAges(c, k);
    case ResumeOperation(id) => OperationAges(c, id);
  }

  lemma HeartbeatAges(c: Client, stale: bool, probeId: string)
    ensures Aging(c, EnsureHealthy(c.(heartbeat := false), stale, probeId))
  {
    hide EnsureHealthy;
    HealthAges(c.(heartbeat := false), stale, probeId);
  }

  lemma MessageAges(c: Client, s: nat, e: Event)
    ensures Aging(c, AfterMessage(c, s, e))
  {
    hide Settle, Acceptable;
    if c.link.socket == Some(s) && e.replyTo in c.requests.waiters {
      var session := if e.kind.JoinApproved? then Approved(c.session, e) else c.session;
      var c1 := c.(heartbeat := true, requests := c.requests.(received := c.requests.received + {(s, e)}), session := session);
      SettlingAges(c1, e.replyTo, Answer(c.requests.waiters[e.replyTo].request, e), ProbeAnswer(e));
    }
  }

  /** A check of an older generation ends without any effect but to release the operations behind it. */
  lemma StaleCheckOnlyEnds(c: Client, k: nat)
    requires k in c.checks && CheckReady(c.checks[k].phase) && c.checks[k].generation < c.healthGeneration
    ensures AfterResumeCheck(c, k) == FinishChecks(c, {k})
  {
  }

  lemma ChecksAreYounger(c: Client)
    requires Core(c)
    ensures forall k | k in c.checks :: k < c.nextCheck && c.checks[k].generation <= c.healthGeneration
  {
    hide RequestsInv, AttemptsInv, ProbeInv, AwaitInv, ParkInv;
  }

  // ----- what enters the state -----

  ghost predicate NothingEnters(c: Client, c': Client) {
    c'.session == c.session && |c'.link.sockets| == |c.link.sockets|
  }

  lemma CloseEventEnters(c: Client, s: nat)
    ensures NothingEnters(c, AfterClose(c, s)) && NothingEnters(c, AfterError(c, s))
  {
    hide Reconnect, FailProbes, Settled, Rejected;
    ReconnectSame(RejectWaiters(c.(transport := Stale, heartbeat := false,
                                   link := MarkClosed(c.link.(socket := None, socketCleanup := None), Some(s)))));
  }

  lemma CheckEnters(c: Client, k: nat)
    requires k in c.checks && CheckReady(c.checks[k].phase)
    ensures NothingEnters(c, AfterResumeCheck(c, k))
  {
    hide CloseCurrent, AwaitReconnect, FinishChecks, RefusedBehind;
    Untouched(c, Manual(0), {k}, k);
    FinishStands(c, {k});
    var c1 := c.(transport := Stale);
    CloseSame(c1);
    CloseSameChecks(c1);
    Untouched(CloseCurrent(c1), Manual(0), {k}, k);
    AwaitStands(CloseCurrent(c1), k);
  }

  lemma FinishStands(c: Client, ks: set<nat>)
    ensures FinishChecks(c, ks).session == c.session
  {
    hide Released;
  }

  lemma AttemptEnters(c: Client, a: Attempt)
    requires a in c.attempts && Ready(c.attempts[a])
    ensures NothingEnters(c, AfterResumeAttempt(c, a))
  {
    hide FailAttempt, Released;
    AttemptWaits(c, a);
    FailureStands(c, a);
  }

  lemma OperateEnters(c: Client, id: string, request: Request, stale: bool, probeId: string)
    requires probeId !in Ids(c.requests)
    ensures NothingEnters(c, AfterOperate(c, id, request, stale, probeId))
  {
    hide EnsureHealthy, Healthy, Sent, Ids;
    HealthWaits(c, stale, probeId);
    HealthStands(c, stale, probeId);
  }

  lemma RestEnters(c: Client, s: nat, e: Event, id: string)
    ensures NothingEnters(c, AfterOpen(c, s)) && NothingEnters(c, AfterClosing(c, s)) && NothingEnters(c, AfterBackoff(c))
    ensures id in c.requests.waiters ==> NothingEnters(c, AfterTimeout(c, id))
    ensures id in c.requests.operations ==> NothingEnters(c, AfterResumeOperation(c, id))
    ensures |AfterMessage(c, s, e).link.sockets| == |c.link.sockets|
    ensures AfterMessage(c, s, e).session
         == if c.link.socket == Some(s) && e.kind.JoinApproved? then Approved(c.session, e) else c.session
  {
    hide Settled, Sent, Reproved, Acceptable, Answer, ProbeAnswer, AfterMessage;
    MessageEnters(c, s, e);
  }

  lemma MessageEnters(c: Client, s: nat, e: Event)
    ensures |AfterMessage(c, s, e).link.sockets| == |c.link.sockets|
    ensures AfterMessage(c, s, e).session
         == if c.link.socket == Some(s) && e.kind.JoinApproved? then Approved(c.session, e) else c.session
  {
    hide Reproved, Acceptable, Answer, ProbeAnswer, AnswerKind;
  }

  /** Only a fetched answer makes a socket; only it and a join.approved on the current socket change the session. */
  lemma OnlyAnswersEnter(c: Client, s: Step)
    requires Core(c) && Enabled(c, s) && !s.FetchDone?
    ensures |Next(c, s).link.sockets| == |c.link.sockets|
    ensures Next(c, s).session
         == if s.SocketMessage? && c.link.socket == Some(s.socket) && s.event.kind.JoinApproved?
            then Approved(c.session, s.event) else c.session
  {
    hide Core, AfterConnect, AfterDisconnect, AfterOperate, AfterBackoff, AfterTimeout, EnsureHealthy, AfterOpen;
    hide AfterMessage, AfterClosing, AfterClose, AfterError, AfterResumeAttempt, AfterResumeCheck, AfterResumeOperation, Ids, Quiet;
    match s
    case Connect(args) =>
      Severed(c);
      ConnectIs(c, args);
    case Disconnect =>
      Severed(c);
      DisconnectIs(c);
    case Operate(id, request, stale, probeId) => OperateEnters(c, id, request, stale, probeId);
    case BackoffOver => RestEnters(c, 0, NoEvent(), "");
    case WaiterTimeout(id) => RestEnters(c, 0, NoEvent(), id);
    case HeartbeatOver(stale, probeId) =>
      HealthWaits(c.(heartbeat := false), stale, probeId);
      HealthStands(c.(heartbeat := false), stale, probeId);
    case SocketOpen(x) => RestEnters(c, x, NoEvent(), "");
    case SocketMessage(x, e) => RestEnters(c, x, e, "");
    case SocketClosing(x) => RestEnters(c, x, NoEvent(), "");
    case SocketClose(x) => CloseEventEnters(c, x);
    case SocketError(x) => CloseEventEnters(c, x);
    case ResumeAttempt(a) => AttemptEnters(c, a);
    case ResumeCheck(k) => CheckEnters(c, k);
    case ResumeOperation(id) => RestEnters(c, 0, NoEvent(), id);
  }
}
