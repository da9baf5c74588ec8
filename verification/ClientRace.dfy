/** A reconnect loop that starts while a connect call is waiting for its answer: it forgets the device that the relay names. */
module ClientRace {
  import opened Options
  import opened Protocol
  import opened ClientSpec
  import opened ClientPromises

  /** A loop with generation 2 in this phase beside the connect call, an operation parked behind its health check. */
  ghost predicate At(c: Client, phase: Phase, socket: Option<nat>, asked: seq<Call>, args: Args, request: Request, made: nat,
                      adopted: map<nat, string>)
  {
    && c.attempts == map[Manual(1) := Fetching(1), Loop(2) := phase]
    && c.reconnectTimer == (if phase.Delaying? then Some(2) else None) && c.reconnectPromise == Some(2)
    && c.reconnectGeneration == 2 && c.connectionGeneration == |asked| && !c.explicitDisconnect
    && c.link.socket == c.link.pendingOpen == socket && (socket.Some? ==> socket.value < |c.link.sockets|)
    && c.requests.waiters == map[] && c.requests.operations == map["1" := Parked(0, request)]
    && c.checks == map[0 := Check(1, AwaitingLoop(2))] && c.healthCheck == Some(0)
    && c.calls.asked == asked && c.calls.captured == map[2 := 0] && |c.calls.objects| == |asked| > 0
    && |c.link.sockets| == made && c.calls.adopted == adopted
    && c.calls.objects[0] == args && c.lastConnectArgs == Some(|asked| - 1)
    && (|asked| > 1 ==> Loop(2) in c.calls.running && c.calls.running[Loop(2)] == |asked| - 1
                        && c.calls.objects[|asked| - 1] == args.(deviceId := c.calls.objects[|asked| - 1].deviceId))
  }

  /** The connect call waits for its answer. */
  ghost predicate Fetches(c: Client, args: Args) {
    && c.attempts == map[Manual(1) := Fetching(1)] && c.checks == map[] && c.nextCheck == 0 && c.healthCheck.None?
    && c.reconnectTimer.None? && c.reconnectPromise.None? && c.reconnectGeneration == c.healthGeneration == c.connectionGeneration == 1
    && !c.explicitDisconnect && c.lastConnectArgs == Some(0)
    && c.link == Link(None, None, None, {}, []) && c.requests == Requests(map[], {}, map[], [], {}, map[])
    && c.calls == Calls([args], map[], map[Manual(1) := 0], [Call(Manual(1), args)], map[])
  }

  lemma CallsFirst(args: Args)
    ensures Enabled(Start(), Connect(args)) && Fetches(Next(Start(), Connect(args)), args)
  {
  }

  lemma Operates(c: Client, args: Args, request: Request)
    requires Fetches(c, args) && IsRequest(request.kind)
    ensures var s := Operate("1", request, false, "2");
            Enabled(c, s) && At(Next(c, s), Delaying, None, [Call(Manual(1), args)], args, request, 0, map[])
  {
    hide AwaitReconnect, IsRequest;
    AwaitsLoop(c.(nextCheck := 1, healthCheck := Some(0), checks := map[0 := Check(1, ProbeFailed)]));
  }

  lemma Begins(args: Args, request: Request)
    requires IsRequest(request.kind)
    ensures Enabled(Start(), Connect(args))
    ensures var c := Next(Start(), Connect(args)); var s := Operate("1", request, false, "2");
            Enabled(c, s) && At(Next(c, s), Delaying, None, [Call(Manual(1), args)], args, request, 0, map[])
  {
    hide Enabled, Next, At, Fetches, IsRequest;
    CallsFirst(args);
    Operates(Next(Start(), Connect(args)), args, request);
  }

  lemma AwaitsLoop(c: Client)
    requires c.reconnectPromise.None? && !c.explicitDisconnect && c.lastConnectArgs == Some(0) && c.reconnectGeneration == 1
    requires c.checks == map[0 := Check(1, ProbeFailed)] && c.attempts == map[Manual(1) := Fetching(1)] && c.calls.captured == map[]
    ensures var c' := AwaitReconnect(c, 0);
            && c' == c.(reconnectAttempt := c'.reconnectAttempt, delays := c'.delays, transport := Reconnecting,
                        reconnectGeneration := 2, reconnectPromise := Some(2), reconnectTimer := Some(2),
                        attempts := map[Manual(1) := Fetching(1), Loop(2) := Delaying],
                        calls := c.calls.(captured := map[2 := 0]), checks := map[0 := Check(1, AwaitingLoop(2))])
  {
    hide Backoff;
  }

  lemma WakesUp(c: Client, asked: seq<Call>, args: Args, request: Request, made: nat, adopted: map<nat, string>)
    requires At(c, Delaying, None, asked, args, request, made, adopted)
    ensures Enabled(c, BackoffOver) && At(Next(c, BackoffOver), DelayOver, None, asked, args, request, made, adopted)
    ensures Next(c, BackoffOver).session == c.session
  {
  }

  lemma Asks(c: Client, asked: seq<Call>, args: Args, request: Request, made: nat, adopted: map<nat, string>)
    requires At(c, DelayOver, None, asked, args, request, made, adopted)
    ensures Enabled(c, ResumeAttempt(Loop(2)))
    ensures var c' := Next(c, ResumeAttempt(Loop(2)));
            At(c', Fetching(|asked| + 1), None, asked + [Call(Loop(2), args)], args, request, made, adopted) && c'.session == c.session
  {
  }

  lemma IsAnswered(c: Client, asked: seq<Call>, args: Args, request: Request, session: Session, made: nat, adopted: map<nat, string>)
    requires At(c, Fetching(|asked|), None, asked, args, request, made, adopted) && |asked| > 1
    ensures Enabled(c, FetchDone(Loop(2), Answered(session)))
    ensures var c' := Next(c, FetchDone(Loop(2), Answered(session)));
            At(c', Opening(made), Some(made), asked, args, request, made + 1, adopted[|asked| - 1 := session.deviceId])
            && c'.session == session
  {
    var c1 := Adopted(c, Loop(2), session);
    NothingToClose(c1);
  }

  lemma NothingToClose(c: Client)
    requires c.link.socket.None? && c.link.pendingOpen.None? && c.requests.waiters == map[]
    ensures var d := CloseCurrent(c);
            && d == c.(heartbeat := false, link := d.link, requests := d.requests, checks := d.checks)
            && d.checks == c.checks && d.requests.waiters == map[] && d.requests.operations == c.requests.operations
            && d.link.sockets == c.link.sockets && d.link.suppressed == c.link.suppressed
  {
  }

  lemma Breaks(c: Client, s: nat, asked: seq<Call>, args: Args, request: Request, made: nat, adopted: map<nat, string>)
    requires At(c, Opening(s), Some(s), asked, args, request, made, adopted)
    ensures Enabled(c, SocketError(s))
    ensures var c' := Next(c, SocketError(s));
            At(c', OpenFailed, None, asked, args, request, made, adopted) && c'.session == c.session && c'.calls == c.calls
  {
    NothingReady(c, Opening(s), Some(s), asked, args, request, made, adopted);
    hide Quiet;
    assert Settled(c.attempts, s, OpenFailed) == map[Manual(1) := Fetching(1), Loop(2) := OpenFailed];
  }

  lemma NothingReady(c: Client, phase: Phase, socket: Option<nat>, asked: seq<Call>, args: Args, request: Request, made: nat,
                     adopted: map<nat, string>)
    requires At(c, phase, socket, asked, args, request, made, adopted) && !Ready(phase)
    ensures Quiet(c)
  {
  }

  lemma TriesAgain(c: Client, asked: seq<Call>, args: Args, request: Request, made: nat, adopted: map<nat, string>)
    requires At(c, OpenFailed, None, asked, args, request, made, adopted)
    ensures Enabled(c, ResumeAttempt(Loop(2)))
    ensures var c' := Next(c, ResumeAttempt(Loop(2)));
            At(c', Delaying, None, asked, args, request, made, adopted) && c'.session == c.session && c'.calls == c.calls
  {
    hide Backoff;
  }

  /** The socket fails, and the loop asks again. */
  lemma AsksAgain(c5: Client, asked: seq<Call>, args: Args, request: Request, named: map<nat, string>)
    returns (c6: Client, c7: Client, c8: Client, c9: Client)
    requires At(c5, Opening(0), Some(0), asked, args, request, 1, named)
    ensures Enabled(c5, SocketError(0)) && c6 == Next(c5, SocketError(0))
    ensures Enabled(c6, ResumeAttempt(Loop(2))) && c7 == Next(c6, ResumeAttempt(Loop(2)))
    ensures Enabled(c7, BackoffOver) && c8 == Next(c7, BackoffOver)
    ensures Enabled(c8, ResumeAttempt(Loop(2))) && c9 == Next(c8, ResumeAttempt(Loop(2)))
    ensures c9.session == c5.session && c9.calls.adopted == named && c9.calls.asked == asked + [Call(Loop(2), args)]
  {
    hide At, Enabled, Next;
    Breaks(c5, 0, asked, args, request, 1, named);
    c6 := Next(c5, SocketError(0));
    TriesAgain(c6, asked, args, request, 1, named);
    c7 := Next(c6, ResumeAttempt(Loop(2)));
    WakesUp(c7, asked, args, request, 1, named);
    c8 := Next(c7, BackoffOver);
    Asks(c8, asked, args, request, 1, named);
    c9 := Next(c8, ResumeAttempt(Loop(2)));
    AtMeans(c9, Fetching(|asked| + 1), None, asked + [Call(Loop(2), args)], args, request, 1, named);
  }

  ghost function Hasty(args: Args, request: Request, session: Session): seq<Step> {
    [Connect(args), Operate("1", request, false, "2"), BackoffOver, ResumeAttempt(Loop(2)),
     FetchDone(Loop(2), Answered(session)), SocketError(0), ResumeAttempt(Loop(2)), BackoffOver, ResumeAttempt(Loop(2))]
  }

  /**
   * An operation during a connect call that names no device starts a loop; the relay answers the loop and names a device,
   * but the socket fails; the loop asks again, and again names no device, though the session has one.
   */
  lemma ForgottenDevice(args: Args, request: Request, session: Session) returns (cs: seq<Client>, steps: seq<Step>)
    requires IsRequest(request.kind) && args.deviceId.None?
    ensures Behaviour(cs, steps) && steps == Hasty(args, request, session)
    ensures cs[9].session == session && cs[9].calls.adopted == map[1 := session.deviceId]
    ensures cs[9].calls.asked == [Call(Manual(1), args), Call(Loop(2), args), Call(Loop(2), args)]
  {
    hide At, Enabled, Next, Goes, IsRequest, Behaviour, Start;
    steps := Hasty(args, request, session);
    var a0, a1 := [Call(Manual(1), args)], [Call(Manual(1), args), Call(Loop(2), args)];
    var named := map[1 := session.deviceId];
    Begins(args, request);
    var c1 := Next(Start(), steps[0]);
    var c2 := Next(c1, steps[1]);
    WakesUp(c2, a0, args, request, 0, map[]);
    var c3 := Next(c2, steps[2]);
    Asks(c3, a0, args, request, 0, map[]);
    var c4 := Next(c3, steps[3]);
    assert a0 + [Call(Loop(2), args)] == a1;
    IsAnswered(c4, a1, args, request, session, 0, map[]);
    var c5 := Next(c4, steps[4]);
    assert map[][1 := session.deviceId] == named;
    var c6, c7, c8, c9 := AsksAgain(c5, a1, args, request, named);
    cs := [Start(), c1, c2, c3, c4, c5, c6, c7, c8, c9];
    Nine(Start(), c1, c2, c3, c4, c5, c6, c7, c8, c9, steps);
  }

  /** Nine steps, one by one. */
  lemma Nine(c0: Client, c1: Client, c2: Client, c3: Client, c4: Client, c5: Client, c6: Client, c7: Client, c8: Client,
             c9: Client, steps: seq<Step>)
    requires |steps| == 9 && c0 == Start()
    requires Enabled(c0, steps[0]) && c1 == Next(c0, steps[0]) && Enabled(c1, steps[1]) && c2 == Next(c1, steps[1])
    requires Enabled(c2, steps[2]) && c3 == Next(c2, steps[2]) && Enabled(c3, steps[3]) && c4 == Next(c3, steps[3])
    requires Enabled(c4, steps[4]) && c5 == Next(c4, steps[4]) && Enabled(c5, steps[5]) && c6 == Next(c5, steps[5])
    requires Enabled(c6, steps[6]) && c7 == Next(c6, steps[6]) && Enabled(c7, steps[7]) && c8 == Next(c7, steps[7])
    requires Enabled(c8, steps[8]) && c9 == Next(c8, steps[8])
    ensures Behaviour([c0, c1, c2, c3, c4, c5, c6, c7, c8, c9], steps)
  {
    hide Enabled, Next;
  }

  lemma AtMeans(c: Client, phase: Phase, socket: Option<nat>, asked: seq<Call>, args: Args, request: Request, made: nat,
                adopted: map<nat, string>)
    requires At(c, phase, socket, asked, args, request, made, adopted)
    ensures c.calls.asked == asked && c.calls.adopted == adopted
  {
  }
}
