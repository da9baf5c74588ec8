/** What holds in every run of the client. */
module ClientTheorems {
  import opened Options
  import opened Protocol
  import opened ClientSpec
  import opened ClientProofs
  import opened ClientStepProofs
  import opened ClientRuns

  // ----- a socket that has just opened -----

  /** Attempts that have just seen their socket open were already in that phase. */
  ghost predicate NoNewOpened(c: Client, c': Client) {
    forall a | a in c'.attempts && c'.attempts[a].Opened? :: a in c.attempts && c.attempts[a] == c'.attempts[a]
  }

  lemma LoopsOpenNothing(c: Client, g: nat)
    ensures NoNewOpened(c, Reconnect(c)) && NoNewOpened(c, EndLoop(c, g)) && NoNewOpened(c, StartDelay(c, g))
  {
  }

  lemma FailingOpensNothing(c: Client, a: Attempt)
    ensures NoNewOpened(c, FailAttempt(c, a))
  {
    hide EndLoop, StartDelay;
    if a.Loop? {
      LoopsOpenNothing(c, a.generation);
    }
  }

  lemma ClosingOpensNothing(c: Client)
    ensures NoNewOpened(c, CloseCurrent(c))
  {
    hide CloseLink, Rejected, FailProbes;
  }

  lemma AwaitingOpensNothing(c: Client, k: nat)
    requires k in c.checks
    ensures NoNewOpened(c, AwaitReconnect(c, k))
  {
    hide Reconnect;
    LoopsOpenNothing(c, 0);
  }

  lemma HealthOpensNothing(c: Client, stale: bool, probeId: string)
    ensures NoNewOpened(c, EnsureHealthy(c, stale, probeId))
  {
    hide AwaitReconnect;
    if c.healthCheck.None? && !Healthy(c, stale) && !SocketReady(c.link) {
      var k := c.nextCheck;
      AwaitingOpensNothing(c.(nextCheck := k + 1, healthCheck := Some(k), checks := c.checks[k := Check(c.healthGeneration, ProbeFailed)]), k);
    }
  }

  lemma FetchOpensNothing(c: Client, a: Attempt, result: FetchResult)
    requires a in c.attempts && c.attempts[a].Fetching?
    ensures NoNewOpened(c, AfterFetch(c, a, result))
  {
    hide FailAttempt, CloseCurrent;
    var c1 := if result.Failed? then c.(transport := Reconnecting) else Adopted(c, a, result.session);
    FailingOpensNothing(c, a);
    ClosingOpensNothing(c1);
    FailingOpensNothing(CloseCurrent(c1), a);
  }

  lemma CloseEventOpensNothing(c: Client, s: nat)
    ensures NoNewOpened(c, AfterClose(c, s)) && NoNewOpened(c, AfterError(c, s))
  {
    hide Rejected, FailProbes, MarkClosed, Unlinked, Reconnect;
    LoopsOpenNothing(RejectWaiters(c.(transport := Stale, heartbeat := false,
                                      link := MarkClosed(c.link.(socket := None, socketCleanup := None), Some(s)))), 0);
  }

  lemma CloseSameChecks(c: Client)
    ensures CloseCurrent(c).checks.Keys == c.checks.Keys
  {
  }

  lemma ResumeAttemptOpensNothing(c: Client, a: Attempt)
    requires a in c.attempts && Ready(c.attempts[a])
    ensures NoNewOpened(c, AfterResumeAttempt(c, a))
    ensures c.attempts[a].Opened? ==> a !in AfterResumeAttempt(c, a).attempts
  {
    hide FailAttempt, Released;
    FailingOpensNothing(c, a);
  }

  lemma ResumeCheckOpensNothing(c: Client, k: nat)
    requires k in c.checks && CheckReady(c.checks[k].phase)
    ensures NoNewOpened(c, AfterResumeCheck(c, k))
  {
    hide CloseCurrent, AwaitReconnect, Released, RefusedBehind;
    var c1 := c.(transport := Stale);
    ClosingOpensNothing(c1);
    CloseSameChecks(c1);
    AwaitingOpensNothing(CloseCurrent(c1), k);
  }

  lemma ConnectOpensNothing(c: Client, args: Args)
    requires Core(c)
    ensures NoNewOpened(c, AfterConnect(c, args)) && NoNewOpened(c, AfterDisconnect(c))
  {
    hide Core, AfterConnect, AfterDisconnect, CloseCurrent, ClearReconnectTimer;
    Severed(c);
    ConnectIs(c, args);
    DisconnectIs(c);
  }

  lemma OperateOpensNothing(c: Client, id: string, request: Request, stale: bool, probeId: string)
    ensures NoNewOpened(c, AfterOperate(c, id, request, stale, probeId))
  {
    hide EnsureHealthy, Healthy;
    HealthOpensNothing(c, stale, probeId);
  }

  lemma RestOpensNothing(c: Client, s: nat, e: Event, id: string)
    ensures NoNewOpened(c, AfterMessage(c, s, e)) && NoNewOpened(c, AfterClosing(c, s)) && NoNewOpened(c, AfterBackoff(c))
    ensures id in c.requests.waiters ==> NoNewOpened(c, AfterTimeout(c, id))
    ensures id in c.requests.operations ==> NoNewOpened(c, AfterResumeOperation(c, id))
  {
    RestSameAttempts(c, s, e, id);
    hide AfterMessage, AfterClosing, AfterTimeout, AfterResumeOperation;
  }

  lemma RestSameAttempts(c: Client, s: nat, e: Event, id: string)
    ensures AfterMessage(c, s, e).attempts == c.attempts && AfterClosing(c, s).attempts == c.attempts
    ensures id in c.requests.waiters ==> AfterTimeout(c, id).attempts == c.attempts
    ensures id in c.requests.operations ==> AfterResumeOperation(c, id).attempts == c.attempts
  {
    hide Sent, Reproved, Acceptable, Answer, ProbeAnswer;
  }

  /** Only the open event of a socket brings an attempt into that phase. */
  lemma OnlyOpenOpens(c: Client, s: Step)
    requires Core(c) && Enabled(c, s) && !s.SocketOpen?
    ensures NoNewOpened(c, Next(c, s))
  {
    hide Core, AfterConnect, AfterDisconnect, AfterOperate, AfterFetch, AfterBackoff, AfterTimeout, EnsureHealthy, AfterOpen;
    hide AfterMessage, AfterClosing, AfterClose, AfterError, AfterResumeAttempt, AfterResumeCheck, AfterResumeOperation, Ids, Quiet;
    match s
    case Connect(args) => ConnectOpensNothing(c, args);
    case Disconnect => ConnectOpensNothing(c, Args("", "", None));
    case Operate(id, request, stale, probeId) => OperateOpensNothing(c, id, request, stale, probeId);
    case FetchDone(a, result) => FetchOpensNothing(c, a, result);
    case BackoffOver => RestOpensNothing(c, 0, NoEvent(), "");
    case WaiterTimeout(id) => RestOpensNothing(c, 0, NoEvent(), id);
    case HeartbeatOver(stale, probeId) => HealthOpensNothing(c.(heartbeat := false), stale, probeId);
    case SocketMessage(x, e) => RestOpensNothing(c, x, e, "");
    case SocketClosing(x) => RestOpensNothing(c, x, NoEvent(), "");
    case SocketClose(x) => CloseEventOpensNothing(c, x);
    case SocketError(x) => CloseEventOpensNothing(c, x);
    case ResumeAttempt(a) => ResumeAttemptOpensNothing(c, a);
    case ResumeCheck(k) => ResumeCheckOpensNothing(c, k);
    case ResumeOperation(id) => RestOpensNothing(c, 0, NoEvent(), id);
  }

  function NoEvent(): Event {
    Event("", Error, "", "", "", "", Missing)
  }

  lemma EnabledMeans(c: Client, s: Step)
    requires Enabled(c, s)
    ensures match s
            case ResumeAttempt(a) => a in c.attempts && Ready(c.attempts[a])
            case ResumeCheck(k) => k in c.checks && CheckReady(c.checks[k].phase)
            case ResumeOperation(id) => id in c.requests.operations && c.requests.operations[id].Runnable?
            case _ => Quiet(c)
  {
  }

  lemma OpenedKeeps(c: Client, s: Step)
    requires Core(c) && OpenedInv(c) && Enabled(c, s)
    ensures OpenedInv(Next(c, s))
  {
    hide Core, AfterConnect, AfterDisconnect, AfterOperate, AfterFetch, AfterBackoff, AfterTimeout, EnsureHealthy, AfterOpen, Enabled;
    hide AfterMessage, AfterClosing, AfterClose, AfterError, AfterResumeAttempt, AfterResumeCheck, AfterResumeOperation;
    EnabledMeans(c, s);
    if s.SocketOpen? {
      JustOpened(c, s.socket);
    } else {
      OnlyOpenOpens(c, s);
      if s.ResumeAttempt? {
        ResumeAttemptOpensNothing(c, s.attempt);
      }
    }
  }

  lemma JustOpened(c: Client, s: nat)
    requires Core(c) && Quiet(c)
    ensures OpenedInv(AfterOpen(c, s))
  {
    hide RequestsInv, ChecksInv, GenerationInv, LoopInv, DelayInv, FenceInv, ArgsInv;
  }

  // ----- recovery -----

  ghost predicate Recovering(c: Client) {
    c.link.socket.Some? || Loop(c.reconnectGeneration) in c.attempts
  }

  /** No connect call is opening a socket or may still open one. */
  ghost predicate NoManual(c: Client) {
    forall a | a in c.attempts && a.Manual? :: !c.attempts[a].Opening? && Outdated(c.attempts[a], c.connectionGeneration)
  }

  lemma ReconnectRecovers(c: Client)
    requires NoManual(c)
    ensures NoManual(Reconnect(c)) && (Recovering(c) ==> Recovering(Reconnect(c)))
  {
  }

  lemma AwaitRecovers(c: Client, k: nat)
    requires NoManual(c) && k in c.checks
    ensures NoManual(AwaitReconnect(c, k)) && (Recovering(Reconnect(c)) ==> Recovering(AwaitReconnect(c, k)))
  {
    hide Reconnect, Released;
    ReconnectRecovers(c);
  }

  lemma HealthRecovers(c: Client, stale: bool, probeId: string)
    requires NoManual(c)
    ensures NoManual(EnsureHealthy(c, stale, probeId)) && (Recovering(c) ==> Recovering(EnsureHealthy(c, stale, probeId)))
  {
    hide AwaitReconnect, Reconnect;
    if c.healthCheck.None? && !Healthy(c, stale) && !SocketReady(c.link) {
      var k := c.nextCheck;
      var c1 := c.(nextCheck := k + 1, healthCheck := Some(k), checks := c.checks[k := Check(c.healthGeneration, ProbeFailed)]);
      ReconnectRecovers(c1);
      AwaitRecovers(c1, k);
    }
  }

  /** What most parts of a step leave alone. */
  ghost predicate SameStanding(c: Client, c': Client) {
    c'.session == c.session && c'.hasOpened == c.hasOpened && c'.explicitDisconnect == c.explicitDisconnect
  }

  lemma AwaitStands(c: Client, k: nat)
    requires k in c.checks
    ensures SameStanding(c, AwaitReconnect(c, k))
  {
    hide Reconnect, Released;
    ReconnectSame(c);
  }

  lemma HealthStands(c: Client, stale: bool, probeId: string)
    ensures SameStanding(c, EnsureHealthy(c, stale, probeId))
  {
    hide AwaitReconnect, Sent;
    if c.healthCheck.None? && !Healthy(c, stale) && !SocketReady(c.link) {
      var k := c.nextCheck;
      AwaitStands(c.(nextCheck := k + 1, healthCheck := Some(k), checks := c.checks[k := Check(c.healthGeneration, ProbeFailed)]), k);
    }
  }

  lemma FailureStands(c: Client, a: Attempt)
    ensures SameStanding(c, FailAttempt(c, a))
  {
    hide Released, Backoff;
  }

  /** A loop ends by itself only when it is superseded or disconnected, so the current one goes on. */
  lemma FailureRecovers(c: Client, a: Attempt)
    requires NoManual(c) && !c.explicitDisconnect && a in c.attempts
    ensures NoManual(FailAttempt(c, a)) && (Recovering(c) ==> Recovering(FailAttempt(c, a)))
    ensures SameStanding(c, FailAttempt(c, a))
  {
    hide Released;
  }

  lemma ClosingRecovers(c: Client)
    requires NoManual(c)
    ensures NoManual(CloseCurrent(c)) && CloseCurrent(c).attempts.Keys == c.attempts.Keys
    ensures CloseCurrent(c).reconnectGeneration == c.reconnectGeneration
  {
    hide Rejected, FailProbes, CloseLink;
  }

  /** A fetch that enters the client's state while a socket has opened is that of the current loop. */
  lemma FetchRecovers(c: Client, a: Attempt, result: FetchResult)
    requires Core(c) && RecoveryInv(c) && a in c.attempts && c.attempts[a].Fetching? && c.hasOpened
    ensures RecoveryInv(AfterFetch(c, a, result))
  {
    NotFenced(c);
    CurrentFetch(c, a);
    hide Core, FailAttempt, CloseCurrent;
    if result.Failed? || c.attempts[a].generation != c.connectionGeneration {
      FailureRecovers(c, a);
    } else {
      var c1 := Adopted(c, a, result.session);
      ClosingRecovers(c1);
      CloseSame(c1);
      FailureRecovers(CloseCurrent(c1), a);
    }
  }

  lemma NotFenced(c: Client)
    requires Core(c) && c.hasOpened
    ensures !c.explicitDisconnect && c.lastConnectArgs.Some?
  {
    hide RequestsInv, ChecksInv, GenerationInv, OpeningInv, LoopInv, DelayInv;
  }

  lemma CurrentFetch(c: Client, a: Attempt)
    requires Core(c) && RecoveryInv(c) && c.hasOpened && a in c.attempts
    ensures c.attempts[a].Fetching? && c.attempts[a].generation == c.connectionGeneration ==> a == Loop(c.reconnectGeneration)
  {
    hide RequestsInv, ChecksInv, OpeningInv, LoopInv, DelayInv;
  }

  /** The socket that is being opened is opened by the current loop, once one has opened before. */
  lemma OpeningLoop(c: Client, s: nat)
    requires Core(c) && RecoveryInv(c) && c.hasOpened && c.link.pendingOpen == Some(s)
    ensures Loop(c.reconnectGeneration) in c.attempts
  {
    hide RequestsInv, ChecksInv, GenerationInv, LoopInv, DelayInv;
    var a :| a in c.attempts && c.attempts[a] == Opening(s);
  }

  lemma SocketRecovers(c: Client, s: nat)
    requires Core(c) && RecoveryInv(c) && c.hasOpened
    ensures RecoveryInv(AfterClose(c, s)) && RecoveryInv(AfterError(c, s))
  {
    hide Core, Rejected, FailProbes, MarkClosed, Unlinked, Reconnect;
    NotFenced(c);
    if c.link.socket == Some(s) {
      if c.link.pendingOpen == Some(s) {
        OpeningLoop(c, s);
      } else {
        NotSuppressed(c, s);
        PendingIsSocket(c);
        var c1 := RejectWaiters(c.(transport := Stale, heartbeat := false,
                                   link := MarkClosed(c.link.(socket := None, socketCleanup := None), Some(s))));
        DropKeeps(c, s, Stale);
        ReconnectKeeps(c1);
        ReconnectRecovers(c1);
        ReconnectSame(c1);
      }
    }
  }

  lemma NotSuppressed(c: Client, s: nat)
    requires Core(c) && c.link.socket == Some(s)
    ensures s !in c.link.suppressed && !c.explicitDisconnect
  {
    hide ChecksInv, WaiterInv, IdInv, OutcomeInv, GenerationInv, OpeningInv, LoopInv, DelayInv;
  }

  lemma OpenRecovers(c: Client, s: nat)
    requires Core(c) && RecoveryInv(c)
    ensures RecoveryInv(AfterOpen(c, s))
  {
    hide RequestsInv, ChecksInv, GenerationInv, LoopInv, DelayInv;
  }

  lemma ResumeAttemptRecovers(c: Client, a: Attempt)
    requires Core(c) && OpenedInv(c) && RecoveryInv(c) && a in c.attempts && Ready(c.attempts[a]) && c.hasOpened
    ensures RecoveryInv(AfterResumeAttempt(c, a))
  {
    hide Core, FailAttempt, Released;
    NotFenced(c);
    DelayedIsLoop(c, a);
    FailureRecovers(c, a);
  }

  lemma ResumeCheckRecovers(c: Client, k: nat)
    requires Core(c) && RecoveryInv(c) && k in c.checks && CheckReady(c.checks[k].phase) && c.hasOpened
    ensures RecoveryInv(AfterResumeCheck(c, k))
  {
    hide Core, CloseCurrent, Reconnect, Released;
    NotFenced(c);
    if c.checks[k].phase.ProbeFailed? && c.checks[k].generation == c.healthGeneration {
      var c1 := c.(transport := Stale);
      var c2 := CloseCurrent(c1);
      SessionKeeps(c, c.session, Stale);
      CloseKeeps(c1);
      CloseSame(c1);
      CloseSameChecks(c1);
      ClosingRecovers(c1);
      ReconnectKeeps(c2);
      ReconnectSame(c2);
      AwaitRecovers(c2, k);
    }
  }

  lemma RecoveryKeeps(c: Client, s: Step)
    requires Inv(c) && Enabled(c, s)
    ensures RecoveryInv(Next(c, s))
  {
    if c.hasOpened {
      RecoveryStays(c, s);
    } else if s.SocketOpen? {
      OpenRecovers(c, s.socket);
    } else {
      NeverOpened(c, s);
    }
  }

  lemma NeverOpened(c: Client, s: Step)
    requires Enabled(c, s) && !c.hasOpened && !s.SocketOpen?
    ensures !Next(c, s).hasOpened
  {
    hide CloseCurrent, EnsureHealthy, FailAttempt, AwaitReconnect, Released, RejectWaiters, Quiet, Ids, Sent;
    match s
    case Operate(id, request, stale, probeId) => HealthStands(c, stale, probeId);
    case HeartbeatOver(stale, probeId) => HealthStands(c.(heartbeat := false), stale, probeId);
    case FetchDone(a, result) => FetchStands(c, a, result);
    case SocketClose(x) => CloseEventStands(c, x);
    case ResumeAttempt(a) => FailureStands(c, a);
    case ResumeCheck(k) => ResumeCheckStands(c, k);
    case Disconnect => DisconnectIs(c);
    case Connect(args) => ConnectIs(c, args);
    case _ =>
  }

  lemma FetchStands(c: Client, a: Attempt, result: FetchResult)
    requires a in c.attempts && c.attempts[a].Fetching?
    ensures AfterFetch(c, a, result).hasOpened == c.hasOpened
  {
    hide CloseCurrent, FailAttempt;
    var c1 := if result.Failed? then c.(transport := Reconnecting) else Adopted(c, a, result.session);
    CloseSame(c1);
    FailureStands(c, a);
    FailureStands(CloseCurrent(c1), a);
  }

  lemma CloseEventStands(c: Client, s: nat)
    ensures AfterClose(c, s).hasOpened == c.hasOpened
  {
    hide Reconnect, MarkClosed, Unlinked, Rejected, FailProbes;
    ReconnectSame(RejectWaiters(c.(transport := Stale, heartbeat := false,
                                   link := MarkClosed(c.link.(socket := None, socketCleanup := None), Some(s)))));
  }

  lemma ResumeCheckStands(c: Client, k: nat)
    requires k in c.checks
    ensures SameStanding(c, AfterResumeCheck(c, k))
  {
    hide CloseCurrent, AwaitReconnect, Released, RefusedBehind;
    var c1 := c.(transport := Stale);
    CloseSame(c1);
    CloseSameChecks(c1);
    AwaitStands(CloseCurrent(c1), k);
  }

  lemma RecoveryStays(c: Client, s: Step)
    requires Inv(c) && Enabled(c, s) && c.hasOpened
    ensures RecoveryInv(Next(c, s))
  {
    hide Core, OpenedInv, AfterConnect, AfterDisconnect, AfterFetch, EnsureHealthy, AfterOpen, AfterClose, AfterError;
    hide AfterResumeAttempt, AfterResumeCheck, Ids, Quiet, Sent, Healthy, AfterOperate, AfterMessage, AfterClosing;
    hide AfterBackoff, AfterTimeout, AfterResumeOperation;
    match s
    case Connect(args) => ConnectIs(c, args);
    case Disconnect => DisconnectIs(c);
    case Operate(id, request, stale, probeId) => OperateRecovers(c, id, request, stale, probeId);
    case FetchDone(a, result) => FetchRecovers(c, a, result);
    case HeartbeatOver(stale, probeId) =>
      HealthRecovers(c.(heartbeat := false), stale, probeId);
      HealthStands(c.(heartbeat := false), stale, probeId);
    case SocketOpen(x) => OpenRecovers(c, x);
    case SocketClose(x) => SocketRecovers(c, x);
    case SocketError(x) => SocketRecovers(c, x);
    case ResumeAttempt(a) => ResumeAttemptRecovers(c, a);
    case ResumeCheck(k) => ResumeCheckRecovers(c, k);
    case SocketMessage(x, e) => RestRecovers(c, x, e, "");
    case SocketClosing(x) => RestRecovers(c, x, NoEvent(), "");
    case BackoffOver => RestRecovers(c, 0, NoEvent(), "");
    case WaiterTimeout(id) => RestRecovers(c, 0, NoEvent(), id);
    case ResumeOperation(id) => RestRecovers(c, 0, NoEvent(), id);
  }

  lemma OperateRecovers(c: Client, id: string, request: Request, stale: bool, probeId: string)
    requires RecoveryInv(c) && c.hasOpened
    ensures RecoveryInv(AfterOperate(c, id, request, stale, probeId))
  {
    hide EnsureHealthy, Healthy, Sent;
    HealthRecovers(c, stale, probeId);
    HealthStands(c, stale, probeId);
  }

  lemma RestRecovers(c: Client, s: nat, e: Event, id: string)
    requires RecoveryInv(c) && c.hasOpened
    ensures RecoveryInv(AfterMessage(c, s, e)) && RecoveryInv(AfterClosing(c, s)) && RecoveryInv(AfterBackoff(c))
    ensures id in c.requests.waiters ==> RecoveryInv(AfterTimeout(c, id))
    ensures id in c.requests.operations ==> RecoveryInv(AfterResumeOperation(c, id))
  {
    hide Sent, Reproved;
  }

  // ----- every step -----

  lemma NextKeeps(c: Client, s: Step)
    requires Inv(c) && Enabled(c, s)
    ensures Inv(Next(c, s))
  {
    hide Core, OpenedInv, RecoveryInv, Enabled, Next;
    CoreKeeps(c, s);
    OpenedKeeps(c, s);
    RecoveryKeeps(c, s);
  }
}
