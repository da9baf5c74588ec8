/** The invariant of the client, and its preservation by the parts of its steps. */
module ClientProofs {
  import opened Options
  import Maps
  import opened Protocol
  import opened ClientSpec

  // ----- the invariant -----

  /** At most one socket is not closed: the current one. It is ready only once its opening has been seen. */
  ghost predicate LinkInv(l: Link) {
    && l.socketCleanup == l.socket
    && (l.pendingOpen.Some? ==> l.pendingOpen == l.socket)
    && (l.socket.Some? ==>
          l.socket.value < |l.sockets| && !l.sockets[l.socket.value].closed && l.socket.value !in l.suppressed)
    && (forall s | 0 <= s < |l.sockets| && l.socket != Some(s) :: l.sockets[s].closed)
    && (forall s | 0 <= s < |l.sockets| && l.sockets[s].ready :: l.socket == Some(s) && l.pendingOpen.None?)
    && (forall s | s in l.suppressed :: s < |l.sockets|)
  }

  /** Every outstanding request has an armed timer and was written to the current, opened socket. */
  ghost predicate WaiterInv(l: Link, q: Requests) {
    && q.timers == q.waiters.Keys
    && (forall id | id in q.waiters ::
          l.socket == Some(q.waiters[id].socket) && l.pendingOpen.None? && IsRequest(q.waiters[id].request.kind))
  }

  ghost predicate Unsent(o: Outcome) {
    o.NotConnected? || o.TooLarge? || o.Unhealthy?
  }

  /** The i-th frame is the write of this request. */
  ghost predicate FrameOf(q: Requests, i: int, id: string) {
    0 <= i < |q.frames| && q.frames[i].event.id == id
  }

  ghost predicate WrittenFor(f: Frame, id: string, w: Waiter) {
    f.socket == w.socket && f.event == RequestEvent(id, f.event.channelId, w.request)
  }

  /** A request waits for its turn, is outstanding or is settled, and its frame is written at most once. */
  ghost predicate IdInv(q: Requests) {
    && q.operations.Keys !! q.waiters.Keys && q.operations.Keys !! q.outcomes.Keys && q.waiters.Keys !! q.outcomes.Keys
    && (forall i, j | 0 <= i < j < |q.frames| :: q.frames[i].event.id != q.frames[j].event.id)
    && (forall i | 0 <= i < |q.frames| ::
          q.frames[i].event.id in q.waiters || (q.frames[i].event.id in q.outcomes && !Unsent(q.outcomes[q.frames[i].event.id])))
    && (forall id | id in q.waiters :: exists i :: FrameOf(q, i, id) && WrittenFor(q.frames[i], id, q.waiters[id]))
    && (forall id | id in q.outcomes && !Unsent(q.outcomes[id]) :: exists i :: FrameOf(q, i, id))
    && (forall id | id in q.operations :: IsRequest(q.operations[id].request.kind))
  }

  ghost predicate Answers(q: Requests, f: Frame, e: Event) {
    && (f.socket, e) in q.received && e.replyTo == f.event.id && IsRequest(f.event.kind)
    && e.kind == AnswerKind(f.event.kind) && Acceptable(f.event.kind, f.event.payload, e.payload)
  }

  /** A request succeeds only through an acceptable answer to it, received on the socket it was written to. */
  ghost predicate OutcomeInv(q: Requests) {
    forall id | id in q.outcomes && q.outcomes[id].Success? ::
      exists i :: FrameOf(q, i, id) && Answers(q, q.frames[i], q.outcomes[id].answer)
  }

  /** Delays since the last success follow the back-off rule. */
  ghost predicate DelayInv(delays: seq<nat>, attempt: nat) {
    |delays| == attempt && forall i | 0 <= i < |delays| :: delays[i] == Backoff(i)
  }

  /** Attempts carry generations that were handed out, and only a loop waits for a delay. */
  ghost predicate GenerationInv(attempts: map<Attempt, Phase>, connectionGeneration: nat, reconnectGeneration: nat) {
    && (forall a | a in attempts ::
          && (a.Manual? ==> a.generation <= connectionGeneration && !attempts[a].Delaying? && !attempts[a].DelayOver?)
          && (a.Loop? ==> a.generation <= reconnectGeneration)
          && (attempts[a].Fetching? ==> attempts[a].generation <= connectionGeneration)
          && (a.Loop? && attempts[a].Fetching? && attempts[a].generation == connectionGeneration ==>
                a.generation == reconnectGeneration)
          && (a.Manual? && attempts[a].Fetching? ==> attempts[a].generation == a.generation))
    && (forall a, b | a in attempts && b in attempts && attempts[a].Fetching? && attempts[a] == attempts[b] :: a == b)
  }

  /** No fetch of this attempt, if it is one, is the newest. */
  ghost predicate Outdated(phase: Phase, connectionGeneration: nat) {
    phase.Fetching? ==> phase.generation < connectionGeneration
  }

  /** Exactly one attempt waits for a socket that is being opened, and a loop that does is the current one. */
  ghost predicate OpeningInv(attempts: map<Attempt, Phase>, pendingOpen: Option<nat>, connectionGeneration: nat,
                             reconnectGeneration: nat)
  {
    && (forall a | a in attempts && attempts[a].Opening? ::
          pendingOpen == Some(attempts[a].socket) && (a.Loop? ==> a.generation == reconnectGeneration))
    && (forall a, b | a in attempts && b in attempts && attempts[a].Opening? && attempts[b].Opening? :: a == b)
    && (pendingOpen.Some? ==>
          && (exists a :: a in attempts && attempts[a] == Opening(pendingOpen.value))
          && (forall a | a in attempts && a.Manual? :: Outdated(attempts[a], connectionGeneration)))
  }

  /** When a socket has just opened, the attempt that waited for it is the only continuation to run. */
  ghost predicate OpenedInv(c: Client) {
    forall a | a in c.attempts && c.attempts[a].Opened? ::
      && c.link.socket == Some(c.attempts[a].socket) && c.link.pendingOpen.None?
      && (forall b | b in c.attempts && b != a :: !Ready(c.attempts[b]))
      && (forall k | k in c.checks :: !CheckReady(c.checks[k].phase))
      && (forall id | id in c.requests.operations :: !c.requests.operations[id].Runnable?)
  }

  /** One loop at a time: the reconnect promise is that of the current loop, and the timer that of the delayed loop. */
  ghost predicate LoopInv(attempts: map<Attempt, Phase>, timer: Option<nat>, promise: Option<nat>,
                          reconnectGeneration: nat, explicitDisconnect: bool)
  {
    && (forall g: nat :: timer == Some(g) <==> Loop(g) in attempts && attempts[Loop(g)].Delaying?)
    && (timer.Some? ==> timer.value == reconnectGeneration && !explicitDisconnect)
    && (promise.Some? ==>
          && Loop(promise.value) in attempts && (!explicitDisconnect ==> promise.value == reconnectGeneration))
    && (Loop(reconnectGeneration) in attempts ==> promise == Some(reconnectGeneration))
  }

  /** A check that probes has exactly one outstanding probe. */
  ghost predicate ProbeInv(checks: map<nat, Check>, waiters: map<string, Waiter>) {
    && (forall k | k in checks && checks[k].phase.Probing? :: exists id :: id in waiters && waiters[id].owner == Probe(k))
    && (forall id | id in waiters && waiters[id].owner.Probe? ::
          waiters[id].owner.check in checks && checks[waiters[id].owner.check].phase.Probing?)
    && (forall id, id' | id in waiters && id' in waiters && waiters[id].owner.Probe? && waiters[id].owner == waiters[id'].owner ::
          id == id')
  }

  /** A check that waits for a loop waits for a live one. */
  ghost predicate AwaitInv(checks: map<nat, Check>, attempts: map<Attempt, Phase>) {
    forall k | k in checks && checks[k].phase.AwaitingLoop? :: Loop(checks[k].phase.generation) in attempts
  }

  ghost predicate CheckInv(checks: map<nat, Check>, healthCheck: Option<nat>, nextCheck: nat, healthGeneration: nat) {
    && (healthCheck.Some? ==> healthCheck.value in checks)
    && (forall k | k in checks :: k < nextCheck && checks[k].generation <= healthGeneration)
  }

  /** A parked operation waits for a live check. */
  ghost predicate ParkInv(operations: map<string, Operation>, checks: map<nat, Check>) {
    forall id | id in operations && operations[id].Parked? :: operations[id].check in checks
  }

  /** After disconnect() no attempt is current and no socket is left. */
  ghost predicate FenceInv(c: Client) {
    c.explicitDisconnect ==>
      && c.link.socket.None? && !c.hasOpened
      && forall a | a in c.attempts :: Outdated(c.attempts[a], c.connectionGeneration)
  }

  ghost predicate ArgsInv(c: Client) {
    c.attempts != map[] || c.link.socket.Some? || c.hasOpened ==> c.lastConnectArgs.Some?
  }

  /**
   * Once a socket has opened, and until the next connect or disconnect call, the client has a socket or the
   * current loop is in flight; no connect call can take over.
   */
  ghost predicate RecoveryInv(c: Client) {
    c.hasOpened ==>
      && (Recognized(c.session.status) ==> c.link.socket.Some? || Loop(c.reconnectGeneration) in c.attempts)
      && forall a | a in c.attempts && a.Manual? ::
           !c.attempts[a].Opening? && Outdated(c.attempts[a], c.connectionGeneration)
  }

  ghost predicate RequestsInv(c: Client) {
    && LinkInv(c.link) && WaiterInv(c.link, c.requests) && IdInv(c.requests) && OutcomeInv(c.requests)
  }

  ghost predicate AttemptsInv(c: Client) {
    && GenerationInv(c.attempts, c.connectionGeneration, c.reconnectGeneration)
    && OpeningInv(c.attempts, c.link.pendingOpen, c.connectionGeneration, c.reconnectGeneration)
    && LoopInv(c.attempts, c.reconnectTimer, c.reconnectPromise, c.reconnectGeneration, c.explicitDisconnect)
    && DelayInv(c.delays, c.reconnectAttempt) && FenceInv(c) && ArgsInv(c)
  }

  ghost predicate ChecksInv(c: Client) {
    && ProbeInv(c.checks, c.requests.waiters) && AwaitInv(c.checks, c.attempts)
    && CheckInv(c.checks, c.healthCheck, c.nextCheck, c.healthGeneration) && ParkInv(c.requests.operations, c.checks)
  }

  /** Everything but what closing the socket puts at stake. */
  ghost predicate Core(c: Client) {
    RequestsInv(c) && AttemptsInv(c) && ChecksInv(c)
  }

  ghost predicate Inv(c: Client) {
    Core(c) && OpenedInv(c) && RecoveryInv(c)
  }

  lemma StartKeeps()
    ensures Inv(Start())
  {
  }

  // ----- closing the current socket -----

  /** Opening attempts have failed. */
  function Unopened(attempts: map<Attempt, Phase>): map<Attempt, Phase> {
    map a | a in attempts :: if attempts[a].Opening? then OpenFailed else attempts[a]
  }

  function Unsocketed(l: Link): Link {
    MarkClosed(Suppress(l), l.socket).(socket := None, socketCleanup := None, pendingOpen := None)
  }

  lemma UnopenedAttempts(c: Client)
    requires AttemptsInv(c)
    ensures c.link.pendingOpen.None? ==> Unopened(c.attempts) == c.attempts
    ensures c.link.pendingOpen.Some? ==> Settled(c.attempts, c.link.pendingOpen.value, OpenFailed) == Unopened(c.attempts)
  {
  }

  /** What CloseCurrent amounts to. */
  lemma CloseFacts(c: Client)
    requires LinkInv(c.link) && AttemptsInv(c)
    ensures CloseCurrent(c) == c.(heartbeat := false, link := Unsocketed(c.link), attempts := Unopened(c.attempts),
                                  requests := Rejected(c.requests), checks := FailProbes(c.checks, c.requests.waiters))
  {
    hide AttemptsInv, Unopened, Settled, Rejected, FailProbes;
    UnopenedAttempts(c);
  }

  lemma UnsocketedLink(l: Link, q: Requests)
    requires LinkInv(l) && WaiterInv(l, q)
    ensures LinkInv(Unsocketed(l)) && WaiterInv(Unsocketed(l), Rejected(q)) && Rejected(q).waiters == map[]
  {
    hide ClosedOutcomes;
  }

  lemma RejectedIds(l: Link, q: Requests)
    requires IdInv(q)
    ensures IdInv(Rejected(q))
  {
    hide WrittenFor;
    var q' := Rejected(q);
    forall id | id in q'.outcomes && !Unsent(q'.outcomes[id]) ensures exists i :: FrameOf(q', i, id) {
      assert exists i :: FrameOf(q, i, id);
      var i :| FrameOf(q, i, id);
      assert FrameOf(q', i, id);
    }
  }

  /** Outcomes stay well-founded while frames and received events only grow and no new success appears. */
  lemma SameSuccesses(q: Requests, q': Requests)
    requires OutcomeInv(q) && q.frames <= q'.frames && q.received <= q'.received
    requires forall id | id in q'.outcomes && q'.outcomes[id].Success? :: id in q.outcomes && q.outcomes[id] == q'.outcomes[id]
    ensures OutcomeInv(q')
  {
    forall id | id in q'.outcomes && q'.outcomes[id].Success?
      ensures exists i :: FrameOf(q', i, id) && Answers(q', q'.frames[i], q'.outcomes[id].answer)
    {
      var i :| FrameOf(q, i, id) && Answers(q, q.frames[i], q.outcomes[id].answer);
      assert FrameOf(q', i, id) && Answers(q', q'.frames[i], q'.outcomes[id].answer);
    }
  }

  lemma CloseRequests(c: Client)
    requires RequestsInv(c)
    ensures RequestsInv(c.(link := Unsocketed(c.link), requests := Rejected(c.requests)))
  {
    hide LinkInv, WaiterInv, IdInv, OutcomeInv;
    UnsocketedLink(c.link, c.requests);
    RejectedIds(c.link, c.requests);
    SameSuccesses(c.requests, Rejected(c.requests));
  }

  lemma UnopenedKeeps(c: Client)
    requires AttemptsInv(c)
    ensures AttemptsInv(c.(link := Unsocketed(c.link), attempts := Unopened(c.attempts)))
  {
    hide DelayInv;
  }

  lemma ProbesFail(checks: map<nat, Check>, waiters: map<string, Waiter>)
    requires ProbeInv(checks, waiters)
    ensures ProbeInv(FailProbes(checks, waiters), map[])
    ensures FailProbes(checks, waiters).Keys == checks.Keys
    ensures forall k | k in checks :: FailProbes(checks, waiters)[k]
              == if checks[k].phase.Probing? then checks[k].(phase := ProbeFailed) else checks[k]
  {
  }

  lemma CloseChecks(c: Client)
    requires ChecksInv(c)
    ensures ChecksInv(c.(attempts := Unopened(c.attempts), requests := Rejected(c.requests),
                         checks := FailProbes(c.checks, c.requests.waiters)))
  {
    hide ProbeInv, FailProbes, ClosedOutcomes;
    ProbesFail(c.checks, c.requests.waiters);
  }

  lemma CloseKeeps(c: Client)
    requires Core(c)
    ensures Core(CloseCurrent(c)) && CloseCurrent(c).link.socket.None? && CloseCurrent(c).requests.waiters == map[]
    ensures CloseCurrent(c).attempts == Unopened(c.attempts) && CloseCurrent(c).checks.Keys == c.checks.Keys
  {
    hide LinkInv, WaiterInv, IdInv, OutcomeInv, GenerationInv, OpeningInv, LoopInv, DelayInv;
    hide ProbeInv, AwaitInv, CheckInv, ParkInv, CloseCurrent, FailProbes, Unopened, MarkClosed, ClosedOutcomes;
    CloseFacts(c);
    CloseRequests(c);
    UnopenedKeeps(c);
    CloseChecks(c);
    ProbesFail(c.checks, c.requests.waiters);
  }

  // ----- the reconnect loop -----

  /** The predicates on parts stay folded; what changes no part needs no argument. */
  lemma StartDelayKeeps(c: Client, g: nat)
    requires Core(c) && Continues(c, g)
    requires Loop(g) in c.attempts && !c.attempts[Loop(g)].Delaying? && !c.attempts[Loop(g)].Opening?
    ensures Core(StartDelay(c, g))
  {
    hide LinkInv, WaiterInv, IdInv, OutcomeInv, ProbeInv, CheckInv, ParkInv, Backoff;
  }

  lemma ReconnectKeeps(c: Client)
    requires Core(c)
    ensures Core(Reconnect(c))
    ensures c.reconnectPromise.Some? || CanReconnect(c) ==> Reconnect(c).reconnectPromise.Some?
    ensures !c.explicitDisconnect && c.lastConnectArgs.Some? ==>
              Loop(Reconnect(c).reconnectGeneration) in Reconnect(c).attempts
  {
    hide LinkInv, WaiterInv, IdInv, OutcomeInv, ProbeInv, CheckInv, ParkInv, Backoff;
  }

  lemma ReleasedIds(q: Requests, ks: set<nat>)
    requires IdInv(q)
    ensures IdInv(q.(operations := Released(q.operations, ks)))
  {
    hide WrittenFor, Unsent;
    var q' := q.(operations := Released(q.operations, ks));
    forall id | id in q'.waiters ensures exists i :: FrameOf(q', i, id) && WrittenFor(q'.frames[i], id, q'.waiters[id]) {
      var i :| FrameOf(q, i, id) && WrittenFor(q.frames[i], id, q.waiters[id]);
      assert FrameOf(q', i, id);
    }
    forall id | id in q'.outcomes && !Unsent(q'.outcomes[id]) ensures exists i :: FrameOf(q', i, id) {
      var i :| FrameOf(q, i, id);
      assert FrameOf(q', i, id);
    }
  }

  lemma ReleasedRequests(c: Client, ks: set<nat>)
    requires RequestsInv(c)
    ensures RequestsInv(FinishChecks(c, ks))
  {
    hide IdInv, OutcomeInv, LinkInv, Released;
    ReleasedIds(c.requests, ks);
    SameSuccesses(c.requests, c.requests.(operations := Released(c.requests.operations, ks)));
  }

  lemma FinishChecksKeeps(c: Client, ks: set<nat>)
    requires ChecksInv(c) && forall k | k in ks && k in c.checks :: !c.checks[k].phase.Probing?
    ensures ChecksInv(FinishChecks(c, ks))
  {
  }

  lemma LoopGone(c: Client, g: nat)
    requires AttemptsInv(c) && Loop(g) in c.attempts && !c.attempts[Loop(g)].Delaying? && !c.attempts[Loop(g)].Opening?
    ensures AttemptsInv(c.(attempts := c.attempts - {Loop(g)},
                           reconnectPromise := if c.reconnectPromise == Some(g) then None else c.reconnectPromise))
  {
    hide DelayInv;
  }

  lemma EndLoopKeeps(c: Client, g: nat)
    requires Core(c) && Loop(g) in c.attempts && !c.attempts[Loop(g)].Delaying? && !c.attempts[Loop(g)].Opening?
    ensures Core(EndLoop(c, g))
  {
    var c1 := c.(attempts := c.attempts - {Loop(g)},
                 reconnectPromise := if c.reconnectPromise == Some(g) then None else c.reconnectPromise);
    hide RequestsInv, GenerationInv, OpeningInv, LoopInv, DelayInv, ProbeInv, CheckInv, ParkInv, Released;
    LoopGone(c, g);
    EndLoopRequests(c, c1, g);
    EndLoopChecks(c, g);
  }

  lemma EndLoopRequests(c: Client, c1: Client, g: nat)
    requires RequestsInv(c) && c1.link == c.link && c1.requests == c.requests
    ensures RequestsInv(FinishChecks(c1, Behind(c, g)))
  {
    hide IdInv, OutcomeInv, LinkInv, WaiterInv, FinishChecks;
    ReleasedRequests(c1, Behind(c, g));
  }

  lemma EndLoopChecks(c: Client, g: nat)
    requires ChecksInv(c)
    ensures ChecksInv(EndLoop(c, g))
  {
    hide ProbeInv, CheckInv, ParkInv, Released;
    FinishChecksKeeps(c, Behind(c, g));
  }

  lemma FailAttemptKeeps(c: Client, a: Attempt)
    requires Core(c) && a in c.attempts && !c.attempts[a].Delaying? && !c.attempts[a].Opening?
    ensures Core(FailAttempt(c, a))
  {
    hide Core, StartDelay, EndLoop;
    match a
    case Manual(_) => ManualGone(c, a);
    case Loop(g) =>
      if Continues(c, g) {
        StartDelayKeeps(c, g);
      } else {
        EndLoopKeeps(c, g);
      }
  }

  lemma ManualGone(c: Client, a: Attempt)
    requires Core(c) && a in c.attempts && a.Manual? && !c.attempts[a].Opening?
    ensures Core(c.(attempts := c.attempts - {a}))
  {
    hide LinkInv, WaiterInv, IdInv, OutcomeInv, ProbeInv, CheckInv, ParkInv, DelayInv;
  }
}
