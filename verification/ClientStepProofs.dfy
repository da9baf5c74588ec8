/** Every step of the client keeps its invariant. */
module ClientStepProofs {
  import opened Options
  import Maps
  import opened Protocol
  import opened ClientSpec
  import opened ClientProofs

  // ----- requests -----

  lemma UnsentIds(q: Requests, id: string, outcome: Outcome)
    requires IdInv(q) && id !in Ids(q) && Unsent(outcome)
    ensures IdInv(q.(outcomes := q.outcomes[id := outcome]))
  {
    hide Unsent, IsRequest, WrittenFor;
    var q' := q.(outcomes := q.outcomes[id := outcome]);
    forall x | x in q'.waiters ensures exists i :: FrameOf(q', i, x) && WrittenFor(q'.frames[i], x, q'.waiters[x]) {
      var i :| FrameOf(q, i, x) && WrittenFor(q.frames[i], x, q.waiters[x]);
      assert FrameOf(q', i, x);
    }
    forall x | x in q'.outcomes && !Unsent(q'.outcomes[x]) ensures exists i :: FrameOf(q', i, x) {
      var i :| FrameOf(q, i, x);
      assert FrameOf(q', i, x);
    }
  }

  lemma WrittenIds(q: Requests, id: string, f: Frame, w: Waiter)
    requires IdInv(q) && id !in Ids(q) && f.event.id == id && WrittenFor(f, id, w)
    ensures IdInv(q.(frames := q.frames + [f], waiters := q.waiters[id := w], timers := q.timers + {id}))
  {
    hide Unsent, IsRequest, WrittenFor;
    var q' := q.(frames := q.frames + [f], waiters := q.waiters[id := w], timers := q.timers + {id});
    assert FrameOf(q', |q.frames|, id) && q'.frames[|q.frames|] == f;
    forall x | x in q'.waiters ensures exists i :: FrameOf(q', i, x) && WrittenFor(q'.frames[i], x, q'.waiters[x]) {
      if x != id {
        var i :| FrameOf(q, i, x) && WrittenFor(q.frames[i], x, q.waiters[x]);
        assert FrameOf(q', i, x);
      }
    }
    forall x | x in q'.outcomes && !Unsent(q'.outcomes[x]) ensures exists i :: FrameOf(q', i, x) {
      var i :| FrameOf(q, i, x);
      assert FrameOf(q', i, x);
    }
  }

  lemma SentIds(l: Link, q: Requests, channelId: string, id: string, request: Request, owner: Owner)
    requires IdInv(q) && id !in Ids(q) && IsRequest(request.kind)
    ensures IdInv(Sent(l, q, channelId, id, request, owner))
  {
    hide IdInv, IsRequest;
    if !SocketReady(l) {
      UnsentIds(q, id, NotConnected);
    } else if !request.fits {
      UnsentIds(q, id, TooLarge);
    } else {
      WrittenIds(q, id, Frame(l.socket.value, RequestEvent(id, channelId, request)), Waiter(request, owner, l.socket.value));
    }
  }

  lemma SentWaiters(l: Link, q: Requests, channelId: string, id: string, request: Request, owner: Owner)
    requires LinkInv(l) && WaiterInv(l, q) && IsRequest(request.kind)
    ensures WaiterInv(l, Sent(l, q, channelId, id, request, owner))
  {
    hide IsRequest;
  }

  lemma SendRequests(c: Client, id: string, request: Request, owner: Owner)
    requires RequestsInv(c) && id !in Ids(c.requests) && IsRequest(request.kind)
    ensures RequestsInv(Send(c, id, request, owner))
  {
    hide LinkInv, WaiterInv, IdInv, OutcomeInv, IsRequest;
    SentIds(c.link, c.requests, c.session.channelId, id, request, owner);
    SentWaiters(c.link, c.requests, c.session.channelId, id, request, owner);
    SameSuccesses(c.requests, Sent(c.link, c.requests, c.session.channelId, id, request, owner));
  }

  lemma SendKeeps(c: Client, id: string, request: Request)
    requires Core(c) && id !in Ids(c.requests) && IsRequest(request.kind)
    ensures Core(Send(c, id, request, Caller))
  {
    hide LinkInv, WaiterInv, IdInv, OutcomeInv, GenerationInv, OpeningInv, LoopInv, DelayInv, AwaitInv, CheckInv, ParkInv, IsRequest;
    SendRequests(c, id, request, Caller);
    CallerProbes(c.checks, c.requests.waiters, id, Waiter(request, Caller, if c.link.socket.Some? then c.link.socket.value else 0));
    hide ProbeInv, RequestsInv;
  }

  lemma CallerProbes(checks: map<nat, Check>, waiters: map<string, Waiter>, id: string, w: Waiter)
    requires ProbeInv(checks, waiters) && id !in waiters && w.owner.Caller?
    ensures ProbeInv(checks, waiters[id := w])
  {
    var waiters' := waiters[id := w];
    forall k | k in checks && checks[k].phase.Probing? ensures exists x :: x in waiters' && waiters'[x].owner == Probe(k) {
      var x :| x in waiters && waiters[x].owner == Probe(k);
      assert x in waiters' && waiters'[x].owner == Probe(k);
    }
  }

  // ----- health checks -----

  lemma AwaitReconnectKeeps(c: Client, k: nat)
    requires Core(c) && k in c.checks && !c.checks[k].phase.Probing?
    ensures Core(AwaitReconnect(c, k))
  {
    hide Core, Reconnect;
    ReconnectKeeps(c);
    ReconnectSame(c);
    var c1 := Reconnect(c);
    if c1.reconnectPromise.None? {
      FinishKeeps(c1, k);
    } else {
      AwaitKeeps(c1, k, c1.reconnectPromise.value);
    }
  }

  lemma FinishKeeps(c: Client, k: nat)
    requires Core(c) && k in c.checks && !c.checks[k].phase.Probing?
    ensures Core(FinishChecks(c, {k}))
  {
    hide LinkInv, WaiterInv, IdInv, OutcomeInv, GenerationInv, OpeningInv, LoopInv, DelayInv, ProbeInv, CheckInv, ParkInv, AwaitInv;
    ReleasedRequests(c, {k});
    FinishChecksKeeps(c, {k});
  }

  lemma AwaitKeeps(c: Client, k: nat, g: nat)
    requires Core(c) && k in c.checks && !c.checks[k].phase.Probing? && c.reconnectPromise == Some(g)
    ensures Core(c.(checks := c.checks[k := c.checks[k].(phase := AwaitingLoop(g))]))
  {
    hide LinkInv, WaiterInv, IdInv, OutcomeInv, GenerationInv, OpeningInv, DelayInv;
  }

  lemma ReconnectSame(c: Client)
    ensures Reconnect(c).checks == c.checks && Reconnect(c).requests == c.requests && Reconnect(c).link == c.link
    ensures Reconnect(c).healthCheck == c.healthCheck && Reconnect(c).nextCheck == c.nextCheck
    ensures Reconnect(c).healthGeneration == c.healthGeneration && Reconnect(c).session == c.session
    ensures Reconnect(c).hasOpened == c.hasOpened && Reconnect(c).explicitDisconnect == c.explicitDisconnect
    ensures c.attempts.Keys <= Reconnect(c).attempts.Keys
  {
  }

  /** A new check, not yet waiting for anything. */
  lemma NewCheck(c: Client, phase: CheckPhase)
    requires ChecksInv(c) && c.healthCheck.None? && CheckReady(phase)
    ensures ChecksInv(c.(nextCheck := c.nextCheck + 1, healthCheck := Some(c.nextCheck),
                         checks := c.checks[c.nextCheck := Check(c.healthGeneration, phase)]))
  {
  }

  lemma NewProbe(c: Client, id: string, socket: nat)
    requires ChecksInv(c) && c.healthCheck.None? && id !in c.requests.waiters
    ensures var k := c.nextCheck;
            ChecksInv(c.(nextCheck := k + 1, healthCheck := Some(k), checks := c.checks[k := Check(c.healthGeneration, Probing)],
                         requests := c.requests.(waiters := c.requests.waiters[id := Waiter(StatusQuery(), Probe(k), socket)])))
  {
    var k := c.nextCheck;
    var w := c.requests.waiters[id := Waiter(StatusQuery(), Probe(k), socket)];
    assert id in w && w[id].owner == Probe(k);
    forall j | j in c.checks && c.checks[j].phase.Probing? ensures exists x :: x in w && w[x].owner == Probe(j) {
      var x :| x in c.requests.waiters && c.requests.waiters[x].owner == Probe(j);
      assert x in w && w[x].owner == Probe(j);
    }
  }

  lemma EnsureHealthyKeeps(c: Client, stale: bool, probeId: string)
    requires Core(c) && probeId !in Ids(c.requests)
    ensures Core(EnsureHealthy(c, stale, probeId))
  {
    hide Core, Send, AwaitReconnect, SocketReady;
    if c.healthCheck.None? && !Healthy(c, stale) {
      if SocketReady(c.link) {
        ProbeKeeps(c, probeId);
      } else {
        WaitingCheckKeeps(c);
      }
    }
  }

  lemma ProbeKeeps(c: Client, probeId: string)
    requires Core(c) && probeId !in Ids(c.requests) && c.healthCheck.None? && SocketReady(c.link)
    ensures var k := c.nextCheck;
            Core(Send(c.(nextCheck := k + 1, healthCheck := Some(k), checks := c.checks[k := Check(c.healthGeneration, Probing)]),
                      probeId, StatusQuery(), Probe(k)))
  {
    hide LinkInv, WaiterInv, IdInv, OutcomeInv, GenerationInv, OpeningInv, LoopInv, DelayInv, ProbeInv, AwaitInv, CheckInv, ParkInv;
    SendRequests(c, probeId, StatusQuery(), Probe(c.nextCheck));
    NewProbe(c, probeId, c.link.socket.value);
  }

  lemma WaitingCheckKeeps(c: Client)
    requires Core(c) && c.healthCheck.None?
    ensures var k := c.nextCheck;
            Core(AwaitReconnect(c.(nextCheck := k + 1, healthCheck := Some(k),
                                   checks := c.checks[k := Check(c.healthGeneration, ProbeFailed)]), k))
  {
    hide LinkInv, WaiterInv, IdInv, OutcomeInv, GenerationInv, OpeningInv, LoopInv, DelayInv, ProbeInv, AwaitInv, CheckInv, ParkInv, AwaitReconnect;
    var k := c.nextCheck;
    NewCheck(c, ProbeFailed);
    AwaitReconnectKeeps(c.(nextCheck := k + 1, healthCheck := Some(k), checks := c.checks[k := Check(c.healthGeneration, ProbeFailed)]), k);
  }

  // ----- settling -----

  lemma SettledIds(q: Requests, id: string, outcome: Outcome)
    requires IdInv(q) && id in q.waiters && !Unsent(outcome)
    ensures IdInv(q.(waiters := q.waiters - {id}, timers := q.timers - {id}, outcomes := q.outcomes[id := outcome]))
  {
    hide Unsent, WrittenFor;
    var q' := q.(waiters := q.waiters - {id}, timers := q.timers - {id}, outcomes := q.outcomes[id := outcome]);
    forall x | x in q'.waiters ensures exists i :: FrameOf(q', i, x) && WrittenFor(q'.frames[i], x, q'.waiters[x]) {
      var i :| FrameOf(q, i, x) && WrittenFor(q.frames[i], x, q.waiters[x]);
      assert FrameOf(q', i, x);
    }
    forall x | x in q'.outcomes && !Unsent(q'.outcomes[x]) ensures exists i :: FrameOf(q', i, x) {
      assert exists i :: FrameOf(q, i, x);
      var i :| FrameOf(q, i, x);
      assert FrameOf(q', i, x);
    }
  }

  /** An answer is received, it answers the request by kind and id, and the payload check decides. */
  ghost predicate Settles(q: Requests, id: string, outcome: Outcome) {
    outcome.Success? ==>
      && id in q.waiters && (q.waiters[id].socket, outcome.answer) in q.received && outcome.answer.replyTo == id
      && outcome.answer.kind == AnswerKind(q.waiters[id].request.kind)
      && Acceptable(q.waiters[id].request.kind, q.waiters[id].request.payload, outcome.answer.payload)
  }

  lemma SettledOutcomes(q: Requests, id: string, outcome: Outcome)
    requires IdInv(q) && OutcomeInv(q) && id in q.waiters && Settles(q, id, outcome) && IsRequest(q.waiters[id].request.kind)
    ensures OutcomeInv(q.(waiters := q.waiters - {id}, timers := q.timers - {id}, outcomes := q.outcomes[id := outcome]))
  {
    hide Acceptable, IsRequest, AnswerKind;
    var q' := q.(waiters := q.waiters - {id}, timers := q.timers - {id}, outcomes := q.outcomes[id := outcome]);
    forall x | x in q'.outcomes && q'.outcomes[x].Success?
      ensures exists i :: FrameOf(q', i, x) && Answers(q', q'.frames[i], q'.outcomes[x].answer)
    {
      if x == id {
        var i :| FrameOf(q, i, id) && WrittenFor(q.frames[i], id, q.waiters[id]);
        assert FrameOf(q', i, id) && Answers(q', q'.frames[i], outcome.answer);
      } else {
        var i :| FrameOf(q, i, x) && Answers(q, q.frames[i], q.outcomes[x].answer);
        assert FrameOf(q', i, x) && Answers(q', q'.frames[i], q'.outcomes[x].answer);
      }
    }
  }

  lemma SettleProbes(checks: map<nat, Check>, waiters: map<string, Waiter>, id: string, phase: CheckPhase)
    requires ProbeInv(checks, waiters) && id in waiters && CheckReady(phase)
    ensures var checks' := match waiters[id].owner case Caller => checks case Probe(k) => Reproved(checks, k, phase);
            ProbeInv(checks', waiters - {id}) && checks'.Keys == checks.Keys
            && forall k | k in checks :: checks'[k].generation == checks[k].generation
                                         && (checks'[k].phase.AwaitingLoop? ==> checks'[k] == checks[k])
  {
    var checks' := match waiters[id].owner case Caller => checks case Probe(k) => Reproved(checks, k, phase);
    forall k | k in checks' && checks'[k].phase.Probing? ensures exists x :: x in waiters - {id} && (waiters - {id})[x].owner == Probe(k) {
      var x :| x in waiters && waiters[x].owner == Probe(k);
      assert x in waiters - {id};
    }
  }

  lemma SettleKeeps(c: Client, id: string, outcome: Outcome, phase: CheckPhase)
    requires Core(c) && id in c.requests.waiters && CheckReady(phase) && !Unsent(outcome) && Settles(c.requests, id, outcome)
    ensures Core(Settle(c, id, outcome, phase))
  {
    hide LinkInv, IdInv, OutcomeInv, GenerationInv, OpeningInv, LoopInv, DelayInv, ProbeInv, Settles, Unsent, Reproved;
    SettledIds(c.requests, id, outcome);
    SettledOutcomes(c.requests, id, outcome);
    SettleProbes(c.checks, c.requests.waiters, id, phase);
  }

  // ----- opening a socket -----

  lemma OpenSocketKeeps(c: Client, a: Attempt)
    requires Core(c) && a in c.attempts && c.attempts[a] == Fetching(c.connectionGeneration) && !c.explicitDisconnect
    ensures Core(OpenSocket(c, a))
  {
    hide Core, CloseCurrent;
    CloseKeeps(c);
    CloseSame(c);
    FreshSocket(CloseCurrent(c), a);
  }

  lemma CloseSame(c: Client)
    ensures var d := CloseCurrent(c);
            && d.connectionGeneration == c.connectionGeneration && d.reconnectGeneration == c.reconnectGeneration
            && d.explicitDisconnect == c.explicitDisconnect && d.lastConnectArgs == c.lastConnectArgs
            && d.hasOpened == c.hasOpened && d.session == c.session && d.reconnectPromise == c.reconnectPromise
            && d.reconnectTimer == c.reconnectTimer && d.healthGeneration == c.healthGeneration
            && d.healthCheck == c.healthCheck && |d.link.sockets| == |c.link.sockets| && d.delays == c.delays
            && d.requests.operations == c.requests.operations && d.requests.frames == c.requests.frames
            && d.requests.received == c.requests.received && d.reconnectAttempt == c.reconnectAttempt
            && d.requests.outcomes == ClosedOutcomes(c.requests.outcomes, c.requests.waiters)
  {
    hide Settled, FailProbes, ClosedOutcomes;
  }

  lemma FreshSocket(d: Client, a: Attempt)
    requires Core(d) && d.link.socket.None? && d.requests.waiters == map[]
    requires a in d.attempts && d.attempts[a] == Fetching(d.connectionGeneration) && !d.explicitDisconnect
    ensures var s := |d.link.sockets|;
            Core(d.(link := Link(Some(s), Some(s), Some(s), d.link.suppressed, d.link.sockets + [Socket(false, false)]),
                    attempts := d.attempts[a := Opening(s)]))
  {
    hide IdInv, OutcomeInv, DelayInv, ProbeInv, CheckInv, ParkInv;
    var s := |d.link.sockets|;
    assert d.attempts[a := Opening(s)][a] == Opening(s);
  }
}
