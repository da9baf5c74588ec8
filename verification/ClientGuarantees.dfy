/** What the client promises: requests settle once, stale work is fenced off, a lost connection is recovered. */
module ClientGuarantees {
  import opened Options
  import opened Protocol
  import opened ClientSpec
  import opened ClientProofs
  import opened ClientStepProofs
  import opened ClientRuns
  import opened ClientTheorems

  // ----- exactly-once requests -----

  /** The record of requests only grows: frames are never written again, and outcomes are final. */
  ghost predicate Extends(q: Requests, q': Requests) {
    && q.frames <= q'.frames && q.received <= q'.received && Ids(q) <= Ids(q')
    && forall id | id in q.outcomes :: id in q'.outcomes && q'.outcomes[id] == q.outcomes[id]
  }

  lemma ExtendsTransitive(a: Requests, b: Requests, c: Requests)
    requires Extends(a, b) && Extends(b, c)
    ensures Extends(a, c)
  {
  }

  lemma RejectingExtends(q: Requests)
    requires IdInv(q)
    ensures Extends(q, Rejected(q))
  {
    hide WrittenFor, IsRequest;
  }

  lemma SendingExtends(l: Link, q: Requests, channelId: string, id: string, request: Request, owner: Owner)
    requires id !in q.outcomes
    ensures Extends(q, Sent(l, q, channelId, id, request, owner)) && id in Ids(Sent(l, q, channelId, id, request, owner))
  {
  }

  lemma ReleasingExtends(q: Requests, ks: set<nat>)
    ensures Extends(q, q.(operations := Released(q.operations, ks)))
  {
  }

  lemma RefusingExtends(q: Requests, k: nat)
    requires IdInv(q)
    ensures Extends(q, RefusedBehind(q, k))
  {
    hide WrittenFor, IsRequest;
  }

  lemma SettlingExtends(c: Client, id: string, outcome: Outcome, phase: CheckPhase)
    requires IdInv(c.requests) && id in c.requests.waiters
    ensures Extends(c.requests, Settle(c, id, outcome, phase).requests)
  {
    hide WrittenFor, IsRequest, Reproved;
  }

  lemma AwaitingExtends(c: Client, k: nat)
    requires k in c.checks
    ensures Extends(c.requests, AwaitReconnect(c, k).requests)
  {
    hide Reconnect, Released;
    ReconnectSame(c);
    ReleasingExtends(c.requests, {k});
    ReleasingExtends(c.requests, {});
  }

  lemma HealthExtends(c: Client, stale: bool, probeId: string)
    requires probeId !in Ids(c.requests)
    ensures Extends(c.requests, EnsureHealthy(c, stale, probeId).requests)
  {
    hide AwaitReconnect, Sent, Extends;
    ReflexiveExtends(c.requests);
    if c.healthCheck.None? && !Healthy(c, stale) {
      var k := c.nextCheck;
      if SocketReady(c.link) {
        SendingExtends(c.link, c.requests, c.session.channelId, probeId, StatusQuery(), Probe(k));
      } else {
        AwaitingExtends(c.(nextCheck := k + 1, healthCheck := Some(k), checks := c.checks[k := Check(c.healthGeneration, ProbeFailed)]), k);
      }
    }
  }

  lemma ReflexiveExtends(q: Requests)
    ensures Extends(q, q)
  {
  }

  lemma FailingExtends(c: Client, a: Attempt)
    ensures Extends(c.requests, FailAttempt(c, a).requests)
  {
    hide Released, Extends;
    ReflexiveExtends(c.requests);
    ReleasingExtends(c.requests, Behind(c, a.generation));
    BehindSame(c, a.generation);
  }

  lemma BehindSame(c: Client, g: nat)
    ensures EndLoop(c, g).requests == c.requests.(operations := Released(c.requests.operations, Behind(c, g)))
  {
    hide Released;
  }

  lemma ClosingExtends(c: Client)
    requires IdInv(c.requests)
    ensures Extends(c.requests, CloseCurrent(c).requests) && CloseCurrent(c).requests == Rejected(c.requests)
  {
    hide Extends, CloseLink, Settled, FailProbes, Rejected;
    RejectingExtends(c.requests);
  }

  lemma RequestIds(c: Client)
    requires Core(c)
    ensures IdInv(c.requests)
  {
    hide AttemptsInv, ChecksInv, IdInv;
  }

  lemma SeveringExtends(c: Client, args: Args)
    requires Core(c)
    ensures Extends(c.requests, AfterConnect(c, args).requests) && Extends(c.requests, AfterDisconnect(c).requests)
  {
    hide Core, Extends, CloseCurrent, AfterConnect, AfterDisconnect;
    RequestIds(c);
    ConnectIs(c, args);
    DisconnectIs(c);
    ClosingExtends(ClearReconnectTimer(c));
  }

  lemma FetchExtends(c: Client, a: Attempt, result: FetchResult)
    requires Core(c) && a in c.attempts && c.attempts[a].Fetching?
    ensures Extends(c.requests, AfterFetch(c, a, result).requests)
  {
    hide Core, Extends, CloseCurrent, FailAttempt;
    RequestIds(c);
    FailingExtends(c, a);
    if !result.Failed? {
      var c1 := Adopted(c, a, result.session);
      ClosingExtends(c1);
      FailingExtends(CloseCurrent(c1), a);
      ExtendsTransitive(c.requests, CloseCurrent(c1).requests, FailAttempt(CloseCurrent(c1), a).requests);
    }
  }

  lemma OperateExtends(c: Client, id: string, request: Request, stale: bool, probeId: string)
    requires id !in Ids(c.requests) && probeId !in Ids(c.requests)
    ensures Extends(c.requests, AfterOperate(c, id, request, stale, probeId).requests)
  {
    hide EnsureHealthy, Sent, Healthy, Extends;
    HealthExtends(c, stale, probeId);
    NotSettled(c.requests, id);
    SendingExtends(c.link, c.requests, c.session.channelId, id, request, Caller);
    var c1 := EnsureHealthy(c, stale, probeId);
    var op := match c1.healthCheck case Some(k) => Parked(k, request) case None => Runnable(request);
    AddingExtends(c1.requests, id, op);
    ExtendsTransitive(c.requests, c1.requests, c1.requests.(operations := c1.requests.operations[id := op]));
  }

  lemma NotSettled(q: Requests, id: string)
    requires id !in Ids(q)
    ensures id !in q.outcomes
  {
  }

  lemma AddingExtends(q: Requests, id: string, op: Operation)
    ensures Extends(q, q.(operations := q.operations[id := op]))
  {
  }

  lemma MessageExtends(c: Client, s: nat, e: Event)
    requires Core(c)
    ensures Extends(c.requests, AfterMessage(c, s, e).requests)
  {
    hide Core, Settle;
    RequestIds(c);
    if c.link.socket == Some(s) && e.replyTo in c.requests.waiters {
      var w := c.requests.waiters[e.replyTo];
      var session := if e.kind.JoinApproved? then Approved(c.session, e) else c.session;
      var c1 := c.(heartbeat := true, requests := c.requests.(received := c.requests.received + {(s, e)}), session := session);
      ReceivedIds(c.requests, c.requests.received + {(s, e)});
      SettlingExtends(c1, e.replyTo, Answer(w.request, e), ProbeAnswer(e));
    }
  }

  lemma CloseEventExtends(c: Client, s: nat)
    requires Core(c)
    ensures Extends(c.requests, AfterClose(c, s).requests) && Extends(c.requests, AfterError(c, s).requests)
  {
    hide Core, Extends, Reconnect, Rejected, FailProbes, MarkClosed, Unlinked;
    RequestIds(c);
    RejectingExtends(c.requests);
    ReflexiveExtends(c.requests);
    ReconnectSame(RejectWaiters(c.(transport := Stale, heartbeat := false,
                                   link := MarkClosed(c.link.(socket := None, socketCleanup := None), Some(s)))));
  }

  lemma ResumeExtends(c: Client, s: Step)
    requires Core(c) && Enabled(c, s) && (s.ResumeAttempt? || s.ResumeCheck? || s.ResumeOperation?)
    ensures Extends(c.requests, Next(c, s).requests)
  {
    hide Core, Extends, FailAttempt, AfterResumeCheck, AfterResumeOperation, Released, Quiet, Ids;
    ReflexiveExtends(c.requests);
    match s
    case ResumeAttempt(a) =>
      FailingExtends(c, a);
      ReleasingExtends(c.requests, Behind(c, a.generation));
    case ResumeCheck(k) => CheckExtends(c, k);
    case ResumeOperation(id) => OperationRuns(c, id);
  }

  lemma CheckExtends(c: Client, k: nat)
    requires Core(c) && k in c.checks
    ensures Extends(c.requests, AfterResumeCheck(c, k).requests)
  {
    hide Core, Extends, CloseCurrent, AwaitReconnect, Released, RefusedBehind;
    RequestIds(c);
    ReflexiveExtends(c.requests);
    var c1 := c.(transport := Stale);
    ReleasingExtends(c.requests, {k});
    RefusingExtends(c.requests, k);
    ClosingExtends(c1);
    CloseSameChecks(c1);
    AwaitingExtends(CloseCurrent(c1), k);
    ExtendsTransitive(c.requests, CloseCurrent(c1).requests, AwaitReconnect(CloseCurrent(c1), k).requests);
  }

  lemma OperationRuns(c: Client, id: string)
    requires Core(c) && id in c.requests.operations
    ensures Extends(c.requests, AfterResumeOperation(c, id).requests)
  {
    hide Core;
    OperationsApart(c);
  }

  lemma StepExtends(c: Client, s: Step)
    requires Core(c) && Enabled(c, s)
    ensures Extends(c.requests, Next(c, s).requests)
  {
    hide Core, Extends, AfterConnect, AfterDisconnect, AfterOperate, AfterFetch, EnsureHealthy, AfterMessage, AfterClose, AfterError;
    hide AfterResumeAttempt, AfterResumeCheck, AfterResumeOperation, Ids, Quiet, Settle;
    ReflexiveExtends(c.requests);
    match s
    case Connect(args) => SeveringExtends(c, args);
    case Disconnect => SeveringExtends(c, Args("", "", None));
    case Operate(id, request, stale, probeId) => OperateExtends(c, id, request, stale, probeId);
    case FetchDone(a, result) => FetchExtends(c, a, result);
    case WaiterTimeout(id) =>
      RequestIds(c);
      SettlingExtends(c, id, TimedOut, ProbeFailed);
    case HeartbeatOver(stale, probeId) => HealthExtends(c.(heartbeat := false), stale, probeId);
    case SocketMessage(x, e) => MessageExtends(c, x, e);
    case SocketClose(x) => CloseEventExtends(c, x);
    case SocketError(x) => CloseEventExtends(c, x);
    case ResumeAttempt(_) => ResumeExtends(c, s);
    case ResumeCheck(_) => ResumeExtends(c, s);
    case ResumeOperation(_) => ResumeExtends(c, s);
    case _ =>
  }

  lemma InvIsCore(c: Client)
    requires Inv(c)
    ensures Core(c)
  {
    hide Core;
  }

  /** Each request is in one place, and an outstanding one is armed and belongs to the current, opened socket. */
  lemma OnceOnly(c: Client)
    requires Core(c)
    ensures var q := c.requests; var l := c.link;
            && q.operations.Keys !! q.waiters.Keys && q.operations.Keys !! q.outcomes.Keys && q.waiters.Keys !! q.outcomes.Keys
            && (forall i, j | 0 <= i < |q.frames| && 0 <= j < |q.frames| && q.frames[i].event.id == q.frames[j].event.id :: i == j)
            && (forall id | id in q.waiters ::
                  id in q.timers && l.pendingOpen.None? && exists i :: FrameOf(q, i, id) && Some(q.frames[i].socket) == l.socket)
  {
    hide AttemptsInv, ChecksInv, LinkInv, OutcomeInv, IsRequest;
    var q := c.requests;
    forall id | id in q.waiters ensures exists i :: FrameOf(q, i, id) && Some(q.frames[i].socket) == c.link.socket {
      var i :| FrameOf(q, i, id) && WrittenFor(q.frames[i], id, q.waiters[id]);
      assert FrameOf(q, i, id) && Some(q.frames[i].socket) == c.link.socket;
    }
  }

  // ----- fencing -----

  /** Events of any socket but the current one change nothing. */
  lemma OtherSocketsChangeNothing(c: Client, s: nat, e: Event)
    requires c.link.socket != Some(s)
    ensures AfterOpen(c, s) == c && AfterMessage(c, s, e) == c && AfterClose(c, s) == c && AfterError(c, s) == c
  {
  }

  /** Disconnected: no socket, and no attempt whose answer would still be taken. */
  ghost predicate Offline(c: Client) {
    c.explicitDisconnect && c.link.socket.None? && c.link.pendingOpen.None?
  }

  lemma DisconnectGoesOffline(c: Client)
    requires Inv(c)
    ensures Offline(AfterDisconnect(c)) && |AfterDisconnect(c).link.sockets| == |c.link.sockets|
    ensures AfterDisconnect(c).session == c.session
  {
    hide Inv, Core, CloseCurrent, ClearReconnectTimer, AfterDisconnect;
    InvIsCore(c);
    Severed(c);
    SeveredPending(c);
    DisconnectIs(c);
  }

  lemma SeveredPending(c: Client)
    requires Core(c)
    ensures CloseCurrent(ClearReconnectTimer(c)).link.pendingOpen.None?
  {
    hide Core, CloseCurrent, ClearReconnectTimer;
    Severed(c);
    PendingIsSocket(CloseCurrent(ClearReconnectTimer(c)));
  }

  /** What a client that is offline keeps: the sockets, the session, and being offline. */
  ghost predicate StillOffline(c: Client, c': Client) {
    c'.explicitDisconnect && c'.link.socket.None? && c'.link.pendingOpen.None? && c'.session == c.session
    && |c'.link.sockets| == |c.link.sockets|
  }

  lemma OfflineFails(c: Client, a: Attempt)
    requires Offline(c)
    ensures StillOffline(c, FailAttempt(c, a))
  {
    hide Released;
  }

  lemma OfflineAwaits(c: Client, k: nat)
    requires Offline(c) && k in c.checks
    ensures StillOffline(c, AwaitReconnect(c, k))
  {
    hide Released;
  }

  lemma OfflineHealth(c: Client, stale: bool, probeId: string)
    requires Offline(c)
    ensures StillOffline(c, EnsureHealthy(c, stale, probeId))
  {
    hide AwaitReconnect, Sent;
    if c.healthCheck.None? && !Healthy(c, stale) {
      var k := c.nextCheck;
      OfflineAwaits(c.(nextCheck := k + 1, healthCheck := Some(k), checks := c.checks[k := Check(c.healthGeneration, ProbeFailed)]), k);
    }
  }

  lemma OfflineOperate(c: Client, id: string, request: Request, stale: bool, probeId: string)
    requires Offline(c)
    ensures StillOffline(c, AfterOperate(c, id, request, stale, probeId))
  {
    hide EnsureHealthy, Sent, Healthy;
    OfflineHealth(c, stale, probeId);
  }

  lemma OfflineDisconnects(c: Client)
    requires Inv(c) && Offline(c)
    ensures StillOffline(c, AfterDisconnect(c))
  {
    hide Inv, AfterDisconnect;
    DisconnectGoesOffline(c);
  }

  lemma OfflineClosing(c: Client, s: nat)
    requires Offline(c)
    ensures StillOffline(c, AfterClosing(c, s))
  {
  }

  lemma OfflineResumes(c: Client, s: Step)
    requires Offline(c) && Enabled(c, s) && (s.ResumeAttempt? || s.ResumeCheck? || s.ResumeOperation?)
    ensures StillOffline(c, Next(c, s))
  {
    hide FailAttempt, AwaitReconnect, CloseCurrent, Released, RefusedBehind, Sent;
    match s
    case ResumeAttempt(a) => OfflineFails(c, a);
    case ResumeCheck(k) =>
    case ResumeOperation(id) =>
  }

  /** No step of a client that is offline makes a socket or takes an answer, unless it is a connect call. */
  lemma OfflineStep(c: Client, s: Step)
    requires Inv(c) && Offline(c) && Enabled(c, s) && !s.Connect?
    ensures StillOffline(c, Next(c, s))
  {
    hide Inv, AfterConnect, AfterDisconnect, AfterOperate, EnsureHealthy, FailAttempt, AfterOpen, AfterMessage, AfterClose, AfterError;
    hide AfterResumeAttempt, AfterResumeCheck, AfterResumeOperation, Ids, Quiet, Settle, AfterClosing;
    match s
    case Disconnect => OfflineDisconnects(c);
    case Operate(id, request, stale, probeId) => OfflineOperate(c, id, request, stale, probeId);
    case FetchDone(a, result) => OfflineFails(c, a);
    case WaiterTimeout(id) => SettleStands(c, id);
    case HeartbeatOver(stale, probeId) => OfflineHealth(c.(heartbeat := false), stale, probeId);
    case SocketOpen(x) => OtherSocketsChangeNothing(c, x, NoEvent());
    case SocketMessage(x, e) => OtherSocketsChangeNothing(c, x, e);
    case SocketClosing(x) => OfflineClosing(c, x);
    case SocketClose(x) => OtherSocketsChangeNothing(c, x, NoEvent());
    case SocketError(x) => OtherSocketsChangeNothing(c, x, NoEvent());
    case ResumeAttempt(_) => OfflineResumes(c, s);
    case ResumeCheck(_) => OfflineResumes(c, s);
    case ResumeOperation(_) => OfflineResumes(c, s);
    case _ =>
  }

  lemma SettleStands(c: Client, id: string)
    requires id in c.requests.waiters
    ensures Settle(c, id, TimedOut, ProbeFailed).link == c.link && SameStanding(c, Settle(c, id, TimedOut, ProbeFailed))
  {
  }

  ghost predicate Newest(c: Client, a: Attempt)
    requires a in c.attempts && c.attempts[a].Fetching?
  {
    c.attempts[a].generation == c.connectionGeneration
  }

  /**
   * An answer is adopted exactly when its attempt is the newest and not cancelled; a socket is made for it exactly when
   * it can also be opened.
   */
  lemma NewestAnswerOnly(c: Client, a: Attempt, result: FetchResult)
    requires Inv(c) && a in c.attempts && c.attempts[a].Fetching? && !result.Failed?
    ensures var c' := AfterFetch(c, a, result); var adopted := Newest(c, a) && !c.explicitDisconnect;
            && (Newest(c, a) ==> forall b | b in c.attempts && b != a :: Outdated(c.attempts[b], c.connectionGeneration))
            && c'.session == (if adopted then result.session else c.session)
            && |c'.link.sockets| == |c.link.sockets| + (if adopted && result.Answered? then 1 else 0)
            && (adopted ==> c'.link.socket == if result.Answered? then Some(|c.link.sockets|) else None)
            && (!adopted ==> c'.link == c.link)
  {
    hide RequestsInv, ChecksInv, OpeningInv, LoopInv, DelayInv, FailAttempt, CloseCurrent;
    var c1 := Adopted(c, a, result.session);
    CloseSame(c1);
    InvIsCore(c);
    PendingIsSocket(c);
    ClosedHasNone(c1);
    FailureStands(c, a);
    FailureUnlinked(c, a);
    FailureStands(CloseCurrent(c1), a);
    FailureUnlinked(CloseCurrent(c1), a);
  }

  lemma ClosedHasNone(c: Client)
    requires c.link.pendingOpen.Some? ==> c.link.pendingOpen == c.link.socket
    ensures CloseCurrent(c).link.socket.None?
  {
    hide Settled, Rejected, FailProbes;
  }

  lemma FailureUnlinked(c: Client, a: Attempt)
    ensures FailAttempt(c, a).link == c.link
  {
    hide Released;
  }

  lemma Links(c: Client)
    requires Core(c)
    ensures LinkInv(c.link)
  {
    hide AttemptsInv, ChecksInv, LinkInv;
  }
}
