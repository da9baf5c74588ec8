/** What the client asks the relay for: the arguments of its connect calls and of its reconnect loops. */
module ClientIdentity {
  import opened Options
  import opened Protocol
  import opened ClientSpec
  import opened ClientProofs
  import opened ClientStepProofs
  import opened ClientRuns
  import opened ClientTheorems

  predicate SameChannel(x: Args, y: Args) {
    x.channel == y.channel && x.pin == y.pin
  }

  // ----- the invariant -----

  /** Each argument object is as it was asked for, except that it holds the device id of its call's adopted answer. */
  ghost predicate ObjectsInv(calls: Calls) {
    && |calls.objects| == |calls.asked|
    && (forall i | i in calls.adopted :: i < |calls.objects|)
    && (forall i | 0 <= i < |calls.objects| ::
          calls.objects[i] == calls.asked[i].args.(deviceId := if i in calls.adopted then Some(calls.adopted[i])
                                                                else calls.asked[i].args.deviceId))
  }

  /** The i-th call, if it is one of a loop, asks for what the loop has captured, and for the channel of the call before. */
  ghost predicate AsksAsCaptured(calls: Calls, i: nat)
    requires i < |calls.asked| == |calls.objects|
  {
    calls.asked[i].attempt.Loop? ==>
      var g := calls.asked[i].attempt.generation;
      && g in calls.captured && calls.captured[g] < i
      && calls.asked[i].args == calls.objects[calls.captured[g]]
      && SameChannel(calls.asked[i].args, calls.asked[i - 1].args)
  }

  ghost predicate LoopsInv(calls: Calls)
    requires |calls.objects| == |calls.asked|
  {
    && (forall g | g in calls.captured :: calls.captured[g] < |calls.objects|)
    && (forall i | 0 <= i < |calls.asked| :: AsksAsCaptured(calls, i))
  }

  /** The latest object is that of the latest call, and the newest fetch is in that call. */
  ghost predicate LatestInv(calls: Calls, last: Option<nat>, attempts: map<Attempt, Phase>, connectionGeneration: nat) {
    && last == (if calls.objects == [] then None else Some(|calls.objects| - 1))
    && (forall a | a in attempts && attempts[a].Fetching? ::
          && attempts[a].generation <= connectionGeneration
          && (attempts[a].generation == connectionGeneration ==> a in calls.running && calls.running[a] == |calls.objects| - 1))
  }

  /** Every loop has captured an object, and the current one that of the channel that was asked for last. */
  ghost predicate CapturedInv(calls: Calls, attempts: map<Attempt, Phase>, reconnectGeneration: nat) {
    && (forall g | g in calls.captured :: g <= reconnectGeneration && calls.captured[g] < |calls.objects|)
    && (forall g | Loop(g) in attempts :: g in calls.captured)
    && (Loop(reconnectGeneration) in attempts ==>
          reconnectGeneration in calls.captured
          && SameChannel(calls.objects[calls.captured[reconnectGeneration]], calls.objects[|calls.objects| - 1]))
  }

  ghost predicate CallsInv(c: Client) {
    && ObjectsInv(c.calls) && LoopsInv(c.calls)
    && LatestInv(c.calls, c.lastConnectArgs, c.attempts, c.connectionGeneration)
    && CapturedInv(c.calls, c.attempts, c.reconnectGeneration)
  }

  // ----- what leaves the calls alone -----

  /** No loop is new, no fetch is new, and no generation is taken back. */
  ghost predicate NoCall(c: Client, c': Client) {
    && c'.calls == c.calls && c'.lastConnectArgs == c.lastConnectArgs
    && c.connectionGeneration <= c'.connectionGeneration && c.reconnectGeneration <= c'.reconnectGeneration
    && (forall a | a in c'.attempts && a.Loop? :: a in c.attempts)
    && (forall a | a in c'.attempts && c'.attempts[a].Fetching? :: a in c.attempts && c.attempts[a] == c'.attempts[a])
  }

  lemma NoCallKeeps(c: Client, c': Client)
    requires CallsInv(c) && NoCall(c, c')
    ensures CallsInv(c')
  {
    hide ObjectsInv, LoopsInv;
  }

  lemma NoCallTwice(a: Client, b: Client, c: Client)
    requires NoCall(a, b) && NoCall(b, c)
    ensures NoCall(a, c)
  {
  }

  lemma ClosingCalls(c: Client)
    ensures NoCall(c, CloseCurrent(c))
  {
    hide CloseLink, Rejected, FailProbes;
  }

  lemma ClearingCalls(c: Client)
    requires c.reconnectTimer.Some? ==> Loop(c.reconnectTimer.value) in c.attempts
    ensures NoCall(c, ClearReconnectTimer(c))
  {
  }

  lemma EndingCalls(c: Client, g: nat)
    ensures NoCall(c, EndLoop(c, g))
  {
    hide Released, Behind;
  }

  lemma FailingCalls(c: Client, a: Attempt)
    requires a in c.attempts
    ensures NoCall(c, FailAttempt(c, a))
  {
    hide EndLoop, Backoff;
    if a.Loop? {
      EndingCalls(c, a.generation);
    }
  }

  /** The current timer is that of a loop. */
  lemma TimerIsLoop(c: Client)
    requires Core(c)
    ensures c.reconnectTimer.Some? ==> Loop(c.reconnectTimer.value) in c.attempts
  {
    hide RequestsInv, ChecksInv, GenerationInv, OpeningInv, DelayInv, FenceInv, ArgsInv;
  }

  // ----- new loops and new calls -----

  lemma ReconnectCalls(c: Client)
    requires CallsInv(c)
    ensures CallsInv(Reconnect(c))
  {
    hide ObjectsInv, Backoff;
    if CanReconnect(c) {
      CapturingKeeps(c, c.reconnectGeneration + 1);
    }
  }

  lemma CapturingKeeps(c: Client, g: nat)
    requires CallsInv(c) && g == c.reconnectGeneration + 1 && c.lastConnectArgs.Some?
    ensures var d := Captured(c, g);
            ObjectsInv(d.calls) && LoopsInv(d.calls)
            && LatestInv(d.calls, d.lastConnectArgs, d.attempts, d.connectionGeneration)
            && CapturedInv(d.calls, d.attempts[Loop(g) := Delaying], g)
  {
    CapturedLoops(c.calls, g, c.lastConnectArgs.value);
    hide LoopsInv;
  }

  lemma CapturedLoops(calls: Calls, g: nat, o: nat)
    requires |calls.objects| == |calls.asked| && LoopsInv(calls) && g !in calls.captured && o < |calls.objects|
    ensures LoopsInv(calls.(captured := calls.captured[g := o]))
  {
    var calls' := calls.(captured := calls.captured[g := o]);
    forall i | 0 <= i < |calls.asked| ensures AsksAsCaptured(calls', i) {
      assert AsksAsCaptured(calls, i);
    }
  }

  lemma AwaitingCalls(c: Client, k: nat)
    requires CallsInv(c) && k in c.checks
    ensures CallsInv(AwaitReconnect(c, k))
  {
    hide Reconnect, CallsInv, Released;
    ReconnectCalls(c);
    ReconnectSame(c);
    SameCallsKeep(Reconnect(c), AwaitReconnect(c, k));
  }

  lemma SameCallsKeep(c: Client, c': Client)
    requires CallsInv(c) && c'.calls == c.calls && c'.lastConnectArgs == c.lastConnectArgs && c'.attempts == c.attempts
    requires c'.connectionGeneration == c.connectionGeneration && c'.reconnectGeneration == c.reconnectGeneration
    ensures CallsInv(c')
  {
    hide ObjectsInv, LoopsInv, LatestInv, CapturedInv;
  }

  lemma HealthCalls(c: Client, stale: bool, probeId: string)
    requires CallsInv(c)
    ensures CallsInv(EnsureHealthy(c, stale, probeId))
  {
    hide AwaitReconnect, CallsInv, Sent;
    if c.healthCheck.None? && !Healthy(c, stale) {
      var k := c.nextCheck;
      var c1 := c.(nextCheck := k + 1, healthCheck := Some(k));
      if SocketReady(c.link) {
        SameCallsKeep(c, EnsureHealthy(c, stale, probeId));
      } else {
        var c2 := c1.(checks := c1.checks[k := Check(c.healthGeneration, ProbeFailed)]);
        SameCallsKeep(c, c2);
        AwaitingCalls(c2, k);
      }
    }
  }

  /** A call asks for its arguments, and the attempt fetches in it. */
  lemma BeginningCalls(c: Client, a: Attempt, args: Args)
    requires ObjectsInv(c.calls) && LoopsInv(c.calls)
    requires LatestInv(c.calls, c.lastConnectArgs, c.attempts, c.connectionGeneration)
    requires forall g | g in c.calls.captured :: g <= c.reconnectGeneration && c.calls.captured[g] < |c.calls.objects|
    requires forall g | Loop(g) in c.attempts :: g in c.calls.captured
    requires a.Manual? ==> Loop(c.reconnectGeneration) !in c.attempts
    requires a.Loop? ==>
               && a == Loop(c.reconnectGeneration) && a in c.attempts && a.generation in c.calls.captured
               && args == c.calls.objects[c.calls.captured[a.generation]]
               && SameChannel(args, c.calls.objects[|c.calls.objects| - 1])
    ensures var c1 := BeginFetch(c, a, args); CallsInv(c1.(attempts := c1.attempts[a := Fetching(c1.connectionGeneration)]))
  {
    var c1 := BeginFetch(c, a, args);
    AskedObjects(c.calls, a, args);
    AskedLoops(c.calls, a, args);
    hide ObjectsInv, LoopsInv;
    assert c1.calls.objects[|c.calls.objects|] == args;
  }

  lemma AskedObjects(calls: Calls, a: Attempt, args: Args)
    requires ObjectsInv(calls)
    ensures ObjectsInv(Asked(calls, a, args))
  {
  }

  lemma AskedLoops(calls: Calls, a: Attempt, args: Args)
    requires ObjectsInv(calls) && LoopsInv(calls)
    requires a.Loop? ==>
               && a.generation in calls.captured && args == calls.objects[calls.captured[a.generation]]
               && SameChannel(args, calls.objects[|calls.objects| - 1])
    ensures LoopsInv(Asked(calls, a, args))
  {
    var calls' := Asked(calls, a, args);
    forall i | 0 <= i < |calls'.asked| ensures AsksAsCaptured(calls', i) {
      if i < |calls.asked| {
        assert AsksAsCaptured(calls, i);
      }
    }
  }

  lemma ConnectCalls(c: Client, args: Args)
    requires CallsInv(c) && Core(c)
    ensures CallsInv(AfterConnect(c, args))
  {
    hide Core, CallsInv, CloseCurrent, ClearReconnectTimer;
    ConnectIs(c, args);
    TimerIsLoop(c);
    ClearingCalls(c);
    ClosingCalls(ClearReconnectTimer(c));
    var d := CloseCurrent(ClearReconnectTimer(c));
    NoCallTwice(c, ClearReconnectTimer(c), d);
    NoCallKeeps(c, d);
    SupersedingCalls(d, args);
  }

  lemma SupersedingCalls(d: Client, args: Args)
    requires CallsInv(d)
    ensures CallsInv(Superseded(d, args))
  {
    hide ObjectsInv, LoopsInv;
    var d1 := d.(reconnectGeneration := d.reconnectGeneration + 1, healthGeneration := d.healthGeneration + 1, hasOpened := false,
                 reconnectPromise := None, healthCheck := None);
    BeginningCalls(d1, Manual(d.connectionGeneration + 1), args);
  }

  lemma DisconnectCalls(c: Client)
    requires CallsInv(c) && Core(c)
    ensures CallsInv(AfterDisconnect(c))
  {
    hide Core, CallsInv, CloseCurrent, ClearReconnectTimer, NoCall;
    DisconnectIs(c);
    TimerIsLoop(c);
    ClearingCalls(c);
    ClosingCalls(ClearReconnectTimer(c));
    var d := CloseCurrent(ClearReconnectTimer(c));
    NoCallTwice(c, ClearReconnectTimer(c), d);
    FencingCalls(d);
    NoCallTwice(c, d, Fenced(d));
    NoCallKeeps(c, Fenced(d));
  }

  lemma FencingCalls(d: Client)
    ensures NoCall(d, Fenced(d))
  {
  }

  /** An adopted answer is that of the latest call, so its device id enters that call's own object. */
  lemma AdoptingCalls(c: Client, a: Attempt, session: Session)
    requires CallsInv(c) && a in c.attempts && c.attempts[a] == Fetching(c.connectionGeneration)
    ensures CallsInv(Adopted(c, a, session))
    ensures Adopted(c, a, session).calls.adopted == c.calls.adopted[|c.calls.asked| - 1 := session.deviceId]
  {
    var calls, o := c.calls, |c.calls.objects| - 1;
    assert Remember(calls, c.lastConnectArgs, a, session.deviceId) == Remembered(calls, o, session.deviceId);
    RememberedObjects(calls, o, session.deviceId);
    RememberedLoops(calls, o, session.deviceId);
    RememberedCaptured(calls, o, session.deviceId, c.attempts, c.reconnectGeneration);
    hide ObjectsInv, LoopsInv, CapturedInv, Remember;
  }

  lemma RememberedCaptured(calls: Calls, o: nat, deviceId: string, attempts: map<Attempt, Phase>, reconnectGeneration: nat)
    requires CapturedInv(calls, attempts, reconnectGeneration) && o < |calls.objects|
    ensures CapturedInv(Remembered(calls, o, deviceId), attempts, reconnectGeneration)
  {
  }

  ghost function Remembered(calls: Calls, o: nat, deviceId: string): Calls
    requires o < |calls.objects|
  {
    calls.(objects := calls.objects[o := calls.objects[o].(deviceId := Some(deviceId))], adopted := calls.adopted[o := deviceId])
  }

  lemma RememberedObjects(calls: Calls, o: nat, deviceId: string)
    requires ObjectsInv(calls) && o < |calls.objects|
    ensures ObjectsInv(Remembered(calls, o, deviceId))
  {
  }

  lemma RememberedLoops(calls: Calls, o: nat, deviceId: string)
    requires ObjectsInv(calls) && LoopsInv(calls) && o == |calls.objects| - 1
    ensures LoopsInv(Remembered(calls, o, deviceId))
  {
    var calls' := Remembered(calls, o, deviceId);
    forall i | 0 <= i < |calls'.asked| ensures AsksAsCaptured(calls', i) {
      assert AsksAsCaptured(calls, i);
    }
  }

  lemma FetchCalls(c: Client, a: Attempt, result: FetchResult)
    requires CallsInv(c) && Core(c) && a in c.attempts && c.attempts[a].Fetching?
    ensures CallsInv(AfterFetch(c, a, result))
  {
    hide Core, CallsInv, FailAttempt, CloseCurrent, Adopted, NoCall;
    if result.Failed? || c.attempts[a].generation != c.connectionGeneration || c.explicitDisconnect {
      FailingCalls(c, a);
      NoCallKeeps(c, FailAttempt(c, a));
    } else {
      var c1 := Adopted(c, a, result.session);
      AdoptingCalls(c, a, result.session);
      ClosingCalls(c1);
      NoCallKeeps(c1, CloseCurrent(c1));
      CloseKeepsAttempts(c1);
      AdoptedSame(c, a, result.session);
      if result.Unopenable? {
        FailingCalls(CloseCurrent(c1), a);
        NoCallKeeps(CloseCurrent(c1), FailAttempt(CloseCurrent(c1), a));
      } else {
        OpeningCalls(c1, a);
        NoCallKeeps(CloseCurrent(c1), OpenSocket(c1, a));
      }
    }
  }

  lemma CloseKeepsAttempts(c: Client)
    ensures CloseCurrent(c).attempts.Keys == c.attempts.Keys
  {
    hide CloseLink, Rejected, FailProbes;
  }

  lemma AdoptedSame(c: Client, a: Attempt, session: Session)
    ensures Adopted(c, a, session).attempts == c.attempts
  {
    hide Remember;
  }

  lemma OpeningCalls(c: Client, a: Attempt)
    requires a in c.attempts && CloseCurrent(c).attempts.Keys == c.attempts.Keys
    ensures NoCall(CloseCurrent(c), OpenSocket(c, a))
  {
    hide CloseCurrent;
  }

  // ----- all steps -----

  lemma RestCalls(c: Client, s: nat, e: Event, id: string)
    ensures NoCall(c, AfterOpen(c, s)) && NoCall(c, AfterClosing(c, s)) && NoCall(c, AfterMessage(c, s, e))
    ensures id in c.requests.waiters ==> NoCall(c, AfterTimeout(c, id))
    ensures id in c.requests.operations ==> NoCall(c, AfterResumeOperation(c, id))
  {
    hide Sent, Reproved, Acceptable, Answer, ProbeAnswer, AfterMessage;
    MessageCalls(c, s, e);
  }

  lemma MessageCalls(c: Client, s: nat, e: Event)
    ensures NoCall(c, AfterMessage(c, s, e))
  {
    hide Reproved, Acceptable, Answer, ProbeAnswer, AnswerKind, Approved;
    var c' := AfterMessage(c, s, e);
    assert c'.calls == c.calls && c'.attempts == c.attempts;
  }

  lemma FailureCalls(c: Client, s: nat)
    ensures NoCall(c, AfterFailure(c, s))
  {
    hide MarkClosed, Unlinked;
  }

  lemma CloseEventCalls(c: Client, s: nat)
    requires CallsInv(c)
    ensures CallsInv(AfterClose(c, s)) && CallsInv(AfterError(c, s))
  {
    hide CallsInv, Reconnect, AfterFailure, NoCall;
    FailureCalls(c, s);
    NoCallKeeps(c, AfterFailure(c, s));
    if c.link.socket == Some(s) && c.link.pendingOpen != Some(s) {
      var willReconnect := !c.explicitDisconnect && s !in c.link.suppressed && Recognized(c.session.status);
      var c1 := RejectWaiters(c.(transport := if willReconnect then Stale else Disconnected, heartbeat := false,
                                 link := MarkClosed(c.link.(socket := None, socketCleanup := None), Some(s))));
      hide MarkClosed, Rejected, FailProbes;
      SameCallsKeep(c, c1);
      ReconnectCalls(c1);
    }
  }

  lemma OperateCalls(c: Client, id: string, request: Request, stale: bool, probeId: string)
    requires CallsInv(c)
    ensures CallsInv(AfterOperate(c, id, request, stale, probeId))
  {
    hide CallsInv, EnsureHealthy, Healthy, Sent;
    HealthCalls(c, stale, probeId);
    if Healthy(c, stale) {
      SameCallsKeep(c, AfterOperate(c, id, request, stale, probeId));
    } else {
      SameCallsKeep(EnsureHealthy(c, stale, probeId), AfterOperate(c, id, request, stale, probeId));
    }
  }

  lemma ResumeAttemptCalls(c: Client, a: Attempt)
    requires CallsInv(c) && Core(c) && a in c.attempts && Ready(c.attempts[a])
    ensures CallsInv(AfterResumeAttempt(c, a))
  {
    hide Core, FailAttempt, EndLoop, NoCall, ObjectsInv, LoopsInv;
    DelayedIsLoop(c, a);
    match c.attempts[a]
    case DelayOver =>
      if a.Loop? && Continues(c, a.generation) {
        BeginningCalls(c, a, LoopArgs(c.calls, a.generation));
      } else {
        EndingCalls(c, a.generation);
        NoCallKeeps(c, AfterResumeAttempt(c, a));
      }
    case Opened(_) =>
      var c1 := c.(reconnectAttempt := 0, delays := []);
      SameCallsKeep(c, c1);
      EndingCalls(c1, a.generation);
      FewerCalls(c1, a);
      NoCallKeeps(c1, AfterResumeAttempt(c, a));
    case OpenFailed =>
      FailingCalls(c, a);
      NoCallKeeps(c, AfterResumeAttempt(c, a));
  }

  lemma FewerCalls(c: Client, a: Attempt)
    ensures NoCall(c, c.(attempts := c.attempts - {a}))
  {
  }

  lemma ResumeCheckCalls(c: Client, k: nat)
    requires CallsInv(c) && k in c.checks && CheckReady(c.checks[k].phase)
    ensures CallsInv(AfterResumeCheck(c, k))
  {
    hide CallsInv, CloseCurrent, AwaitReconnect, RefusedBehind, Released, NoCall;
    var c1 := c.(transport := Stale);
    if c.checks[k].phase.ProbeFailed? && c.checks[k].generation == c.healthGeneration && !c.explicitDisconnect {
      SameCallsKeep(c, c1);
      ClosingCalls(c1);
      NoCallKeeps(c1, CloseCurrent(c1));
      CloseSameChecks(c1);
      AwaitingCalls(CloseCurrent(c1), k);
    } else {
      SameCallsKeep(c, AfterResumeCheck(c, k));
    }
  }

  lemma CallsKeep(c: Client, s: Step)
    requires Core(c) && CallsInv(c) && Enabled(c, s)
    ensures CallsInv(Next(c, s))
  {
    hide Core, CallsInv, AfterConnect, AfterDisconnect, AfterOperate, AfterFetch, AfterBackoff, AfterTimeout, EnsureHealthy, AfterOpen;
    hide AfterMessage, AfterClosing, AfterClose, AfterError, AfterResumeAttempt, AfterResumeCheck, AfterResumeOperation, Ids, Quiet, NoCall;
    match s
    case Connect(args) => ConnectCalls(c, args);
    case Disconnect => DisconnectCalls(c);
    case Operate(id, request, stale, probeId) => OperateCalls(c, id, request, stale, probeId);
    case FetchDone(a, result) => FetchCalls(c, a, result);
    case BackoffOver =>
      TimerIsLoop(c);
      BackoffCalls(c);
      NoCallKeeps(c, AfterBackoff(c));
    case WaiterTimeout(id) =>
      RestCalls(c, 0, NoEvent(), id);
      NoCallKeeps(c, Next(c, s));
    case HeartbeatOver(stale, probeId) =>
      SameCallsKeep(c, c.(heartbeat := false));
      HealthCalls(c.(heartbeat := false), stale, probeId);
    case SocketOpen(x) =>
      RestCalls(c, x, NoEvent(), "");
      NoCallKeeps(c, Next(c, s));
    case SocketMessage(x, e) =>
      RestCalls(c, x, e, "");
      NoCallKeeps(c, Next(c, s));
    case SocketClosing(x) =>
      RestCalls(c, x, NoEvent(), "");
      NoCallKeeps(c, Next(c, s));
    case SocketClose(x) => CloseEventCalls(c, x);
    case SocketError(x) => CloseEventCalls(c, x);
    case ResumeAttempt(a) => ResumeAttemptCalls(c, a);
    case ResumeCheck(k) => ResumeCheckCalls(c, k);
    case ResumeOperation(id) =>
      RestCalls(c, 0, NoEvent(), id);
      NoCallKeeps(c, Next(c, s));
  }

  lemma BackoffCalls(c: Client)
    requires c.reconnectTimer.Some? ==> Loop(c.reconnectTimer.value) in c.attempts
    ensures NoCall(c, AfterBackoff(c))
  {
    hide ClearReconnectTimer;
    ClearingCalls(c);
  }

  lemma NoCallAtStart()
    ensures CallsInv(Start())
  {
  }
}
