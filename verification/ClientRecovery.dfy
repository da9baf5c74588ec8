/** How the client recovers a lost connection, and how long it waits between attempts. */
module ClientRecovery {
  import opened Options
  import opened Protocol
  import opened ClientSpec
  import opened ClientProofs
  import opened ClientStepProofs
  import opened ClientRuns
  import opened ClientTheorems
  import opened ClientGuarantees

  // ----- no lost recovery -----

  /** The loop of the current generation is in flight, and the reconnect promise is its promise. */
  ghost predicate InFlight(c: Client) {
    Loop(c.reconnectGeneration) in c.attempts && c.reconnectPromise == Some(c.reconnectGeneration)
  }

  /**
   * When the peer closes an opened socket, the current loop is in flight afterwards exactly when the status is one
   * that calls for a connection, or a loop was running already; everything outstanding is rejected.
   */
  lemma PeerCloseRecovers(c: Client, s: nat)
    requires Inv(c) && c.link.socket == Some(s) && c.link.pendingOpen.None?
    ensures InFlight(AfterClose(c, s)) <==> Recognized(c.session.status) || InFlight(c)
    ensures AfterClose(c, s).requests.waiters == map[] && AfterClose(c, s).link.socket.None?
  {
    hide Inv, Core, Reconnect, Rejected, FailProbes, MarkClosed;
    InvIsCore(c);
    NotSuppressed(c, s);
    HasArgs(c);
    var c1 := RejectWaiters(c.(transport := Stale, heartbeat := false,
                               link := MarkClosed(c.link.(socket := None, socketCleanup := None), Some(s))));
    DropKeeps(c, s, Stale);
    ReconnectKeeps(c1);
    ReconnectSame(c1);
    LoopIsPromised(Reconnect(c1));
    Emptied(c, s);
  }

  lemma Emptied(c: Client, s: nat)
    ensures Rejected(c.requests).waiters == map[]
    ensures MarkClosed(c.link.(socket := None, socketCleanup := None), Some(s)).socket.None?
  {
    hide ClosedOutcomes;
  }

  lemma HasArgs(c: Client)
    requires Core(c) && c.link.socket.Some?
    ensures c.lastConnectArgs.Some?
  {
    hide RequestsInv, ChecksInv, GenerationInv, OpeningInv, LoopInv, DelayInv, FenceInv;
  }

  lemma LoopIsPromised(c: Client)
    requires Core(c)
    ensures Loop(c.reconnectGeneration) in c.attempts ==> c.reconnectPromise == Some(c.reconnectGeneration)
  {
    hide RequestsInv, ChecksInv, GenerationInv, OpeningInv, DelayInv, FenceInv, ArgsInv;
  }

  lemma PromiseIsCurrent(c: Client)
    requires Core(c)
    ensures c.reconnectPromise.Some? && !c.explicitDisconnect ==> InFlight(c)
  {
    hide RequestsInv, ChecksInv, GenerationInv, OpeningInv, DelayInv, FenceInv, ArgsInv;
  }

  lemma RecoveryPart(c: Client)
    requires Inv(c)
    ensures RecoveryInv(c)
  {
    hide Core;
  }

  // ----- how a loop ends -----

  /** Loops that were there before are there still. */
  ghost predicate LoopsStay(c: Client, c': Client) {
    forall a | a in c.attempts && a.Loop? :: a in c'.attempts
  }

  lemma HealthLoopsStay(c: Client, stale: bool, probeId: string)
    ensures LoopsStay(c, EnsureHealthy(c, stale, probeId))
  {
    hide AwaitReconnect, Sent;
    if c.healthCheck.None? && !Healthy(c, stale) && !SocketReady(c.link) {
      var k := c.nextCheck;
      AwaitLoopsStay(c.(nextCheck := k + 1, healthCheck := Some(k), checks := c.checks[k := Check(c.healthGeneration, ProbeFailed)]), k);
    }
  }

  lemma AwaitLoopsStay(c: Client, k: nat)
    requires k in c.checks
    ensures LoopsStay(c, AwaitReconnect(c, k))
  {
    hide Released;
  }

  lemma FailureEnds(c: Client, a: Attempt, g: nat)
    requires Loop(g) in c.attempts && Loop(g) !in FailAttempt(c, a).attempts
    ensures a == Loop(g) && !Continues(c, g)
  {
    hide Released;
  }

  lemma FetchEnds(c: Client, a: Attempt, result: FetchResult, g: nat)
    requires a in c.attempts && c.attempts[a].Fetching?
    requires Loop(g) in c.attempts && Loop(g) !in AfterFetch(c, a, result).attempts
    ensures a == Loop(g) && !Continues(c, g)
  {
    hide FailAttempt, CloseCurrent, Continues;
    if result.Failed? || c.attempts[a].generation != c.connectionGeneration || c.explicitDisconnect {
      FailureEnds(c, a, g);
    } else {
      var c1 := Adopted(c, a, result.session);
      CloseLoopsStay(c1);
      if result.Unopenable? {
        FailureEnds(CloseCurrent(c1), a, g);
        CloseSame(c1);
        SameContinues(c, CloseCurrent(c1), g);
      }
    }
  }

  lemma SameContinues(c: Client, c': Client, g: nat)
    requires c'.explicitDisconnect == c.explicitDisconnect && c'.reconnectGeneration == c.reconnectGeneration
    ensures Continues(c, g) == Continues(c', g)
  {
  }

  lemma CloseLoopsStay(c: Client)
    ensures LoopsStay(c, CloseCurrent(c)) && CloseCurrent(c).checks.Keys == c.checks.Keys
  {
    hide CloseLink, Rejected;
  }

  lemma SeverLoopsStay(c: Client, args: Args)
    requires Core(c)
    ensures LoopsStay(c, AfterConnect(c, args)) && LoopsStay(c, AfterDisconnect(c))
  {
    hide Core, CloseCurrent, ClearReconnectTimer, AfterConnect, AfterDisconnect;
    ConnectIs(c, args);
    DisconnectIs(c);
    Severed(c);
  }

  lemma SocketLoopsStay(c: Client, s: nat)
    ensures LoopsStay(c, AfterOpen(c, s)) && LoopsStay(c, AfterClose(c, s)) && LoopsStay(c, AfterError(c, s))
  {
    hide Rejected, FailProbes, MarkClosed, Unlinked;
  }

  lemma CheckLoopsStay(c: Client, k: nat)
    requires k in c.checks
    ensures LoopsStay(c, AfterResumeCheck(c, k))
  {
    hide CloseCurrent, AwaitReconnect, Released, RefusedBehind;
    var c1 := c.(transport := Stale);
    CloseLoopsStay(c1);
    AwaitLoopsStay(CloseCurrent(c1), k);
  }

  lemma ResumeEnds(c: Client, a: Attempt, g: nat)
    requires Core(c) && a in c.attempts && Ready(c.attempts[a])
    requires Loop(g) in c.attempts && Loop(g) !in AfterResumeAttempt(c, a).attempts
    ensures a == Loop(g) && (c.attempts[a].Opened? || !Continues(c, g))
  {
    hide Core, FailAttempt, Released;
    DelayedIsLoop(c, a);
    if c.attempts[a].OpenFailed? {
      FailureEnds(c, a, g);
    }
  }

  lemma OperateLoopsStay(c: Client, id: string, request: Request, stale: bool, probeId: string)
    ensures LoopsStay(c, AfterOperate(c, id, request, stale, probeId))
  {
    hide EnsureHealthy, Healthy, Sent;
    HealthLoopsStay(c, stale, probeId);
  }

  /** A loop ends only by success, or once it is superseded or disconnected. */
  lemma LoopEndsOnlyWhen(c: Client, s: Step, g: nat)
    requires Inv(c) && Enabled(c, s) && Loop(g) in c.attempts && Loop(g) !in Next(c, s).attempts
    ensures c.attempts[Loop(g)].Opened? || c.explicitDisconnect || g != c.reconnectGeneration
  {
    hide Inv, Core, AfterConnect, AfterDisconnect, AfterFetch, EnsureHealthy, AfterOpen, AfterClose, AfterError;
    hide AfterResumeAttempt, AfterResumeCheck, Ids, Quiet, AfterMessage, AfterTimeout, AfterClosing, AfterResumeOperation, AfterOperate;
    InvIsCore(c);
    match s
    case Connect(args) => SeverLoopsStay(c, args);
    case Disconnect => SeverLoopsStay(c, Args("", "", None));
    case Operate(id, request, stale, probeId) => OperateLoopsStay(c, id, request, stale, probeId);
    case FetchDone(a, result) => FetchEnds(c, a, result, g);
    case HeartbeatOver(stale, probeId) => HealthLoopsStay(c.(heartbeat := false), stale, probeId);
    case SocketOpen(x) => SocketLoopsStay(c, x);
    case SocketClose(x) => SocketLoopsStay(c, x);
    case SocketError(x) => SocketLoopsStay(c, x);
    case ResumeAttempt(a) => ResumeEnds(c, a, g);
    case ResumeCheck(k) => CheckLoopsStay(c, k);
    case SocketMessage(x, e) => RestSameAttempts(c, x, e, "");
    case SocketClosing(x) => RestSameAttempts(c, x, NoEvent(), "");
    case WaiterTimeout(id) => RestSameAttempts(c, 0, NoEvent(), id);
    case ResumeOperation(id) => RestSameAttempts(c, 0, NoEvent(), id);
    case BackoffOver =>
  }

  // ----- back-off -----

  function Sum(delays: seq<nat>): nat {
    if delays == [] then 0 else Sum(delays[..|delays| - 1]) + delays[|delays| - 1]
  }

  lemma {:induction false} SumBounded(delays: seq<nat>, bound: nat)
    requires forall i | 0 <= i < |delays| :: delays[i] <= bound
    ensures Sum(delays) <= bound * |delays|
  {
    if delays != [] {
      SumBounded(delays[..|delays| - 1], bound);
    }
  }

  lemma {:induction false} PowerGrows(m: nat, n: nat)
    requires m <= n
    ensures 0 < Power(m) <= Power(n)
  {
    if m < n {
      PowerGrows(m, n - 1);
    } else if m > 0 {
      PowerGrows(m - 1, n - 1);
    }
  }

  lemma BackoffGrows(m: nat, n: nat)
    requires m <= n
    ensures Backoff(m) <= Backoff(n) <= MAX_RECONNECT_DELAY
  {
    PowerGrows(m, n);
  }

  lemma DelayPart(c: Client)
    requires Core(c)
    ensures DelayInv(c.delays, c.reconnectAttempt)
  {
    hide RequestsInv, ChecksInv, GenerationInv, OpeningInv, LoopInv, FenceInv, ArgsInv, DelayInv;
  }

  /** The delays of a step: none, one more, or a fresh start after a success. */
  ghost predicate OneDelay(c: Client, c': Client) {
    c'.delays == c.delays || c'.delays == c.delays + [Backoff(c.reconnectAttempt)]
  }

  lemma FailureDelays(c: Client, a: Attempt)
    ensures OneDelay(c, FailAttempt(c, a))
  {
    hide Released, Backoff;
  }

  lemma AwaitDelays(c: Client, k: nat)
    requires k in c.checks
    ensures OneDelay(c, AwaitReconnect(c, k))
  {
    hide Released, Backoff;
  }

  lemma HealthDelays(c: Client, stale: bool, probeId: string)
    ensures OneDelay(c, EnsureHealthy(c, stale, probeId))
  {
    hide AwaitReconnect, Sent, Backoff;
    if c.healthCheck.None? && !Healthy(c, stale) && !SocketReady(c.link) {
      var k := c.nextCheck;
      AwaitDelays(c.(nextCheck := k + 1, healthCheck := Some(k), checks := c.checks[k := Check(c.healthGeneration, ProbeFailed)]), k);
    }
  }

  lemma FetchDelays(c: Client, a: Attempt, result: FetchResult)
    requires a in c.attempts && c.attempts[a].Fetching?
    ensures OneDelay(c, AfterFetch(c, a, result))
  {
    hide FailAttempt, CloseCurrent, Backoff;
    var c1 := if result.Failed? then c.(transport := Reconnecting) else Adopted(c, a, result.session);
    CloseSame(c1);
    FailureDelays(c, a);
    FailureDelays(CloseCurrent(c1), a);
  }

  lemma CheckDelays(c: Client, k: nat)
    requires k in c.checks
    ensures OneDelay(c, AfterResumeCheck(c, k))
  {
    hide CloseCurrent, AwaitReconnect, Released, RefusedBehind, Backoff;
    var c1 := c.(transport := Stale);
    CloseSame(c1);
    CloseLoopsStay(c1);
    AwaitDelays(CloseCurrent(c1), k);
  }

  lemma SocketDelays(c: Client, s: nat)
    ensures OneDelay(c, AfterClose(c, s)) && OneDelay(c, AfterOpen(c, s)) && OneDelay(c, AfterError(c, s))
  {
    hide Rejected, FailProbes, MarkClosed, Unlinked, Settled, Backoff;
  }

  /** Only an attempt whose socket has opened starts the sequence of delays afresh. */
  lemma DelaysResetOnSuccess(c: Client, s: Step)
    requires Enabled(c, s)
    ensures if s.ResumeAttempt? && c.attempts[s.attempt].Opened? then Next(c, s).delays == [] && Next(c, s).reconnectAttempt == 0
            else OneDelay(c, Next(c, s))
  {
    hide AfterConnect, AfterDisconnect, AfterOperate, AfterFetch, EnsureHealthy, AfterOpen, AfterClose, AfterError, AfterMessage;
    hide AfterResumeCheck, Ids, Quiet, Backoff, Released, FailAttempt, AfterTimeout, AfterResumeOperation, AfterClosing;
    match s
    case Connect(args) => ConnectDelays(c, args);
    case Disconnect => ConnectDelays(c, Args("", "", None));
    case Operate(id, request, stale, probeId) => OperateDelays(c, id, request, stale, probeId);
    case WaiterTimeout(id) => RestDelays(c, 0, NoEvent(), id);
    case SocketMessage(x, e) => RestDelays(c, x, e, "");
    case SocketClosing(x) => RestDelays(c, x, NoEvent(), "");
    case ResumeOperation(id) => RestDelays(c, 0, NoEvent(), id);
    case FetchDone(a, result) => FetchDelays(c, a, result);
    case HeartbeatOver(stale, probeId) => HealthDelays(c.(heartbeat := false), stale, probeId);
    case SocketOpen(x) => SocketDelays(c, x);
    case SocketClose(x) => SocketDelays(c, x);
    case SocketError(x) => SocketDelays(c, x);
    case ResumeAttempt(a) => FailureDelays(c, a);
    case ResumeCheck(k) => CheckDelays(c, k);
    case _ =>
  }

  lemma OperateDelays(c: Client, id: string, request: Request, stale: bool, probeId: string)
    ensures OneDelay(c, AfterOperate(c, id, request, stale, probeId))
  {
    hide EnsureHealthy, Sent, Healthy, Backoff;
    HealthDelays(c, stale, probeId);
  }

  lemma RestDelays(c: Client, s: nat, e: Event, id: string)
    ensures AfterMessage(c, s, e).delays == c.delays && AfterClosing(c, s).delays == c.delays
    ensures id in c.requests.waiters ==> AfterTimeout(c, id).delays == c.delays
    ensures id in c.requests.operations ==> AfterResumeOperation(c, id).delays == c.delays
  {
    hide Sent, Reproved;
  }

  lemma ConnectDelays(c: Client, args: Args)
    ensures AfterConnect(c, args).delays == c.delays && AfterDisconnect(c).delays == c.delays
  {
    hide CloseCurrent, AfterConnect, AfterDisconnect;
    ConnectIs(c, args);
    DisconnectIs(c);
    CloseSame(ClearReconnectTimer(c));
  }

  lemma Outcomes(c: Client)
    requires Core(c)
    ensures OutcomeInv(c.requests)
  {
    hide AttemptsInv, ChecksInv, LinkInv, WaiterInv, IdInv, OutcomeInv;
  }
}
