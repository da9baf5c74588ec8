/** The relay client's state as a value, and what each event and each resumed continuation does to it. */
module ClientSpec {
  import opened Options
  import opened Protocol

  const MAX_RECONNECT_DELAY := 5000
  /** The configured delay before the first attempt; it may be any. */
  const BASE_DELAY: nat

  /** What a connect or a reconnect attempt is waiting for, or has just been given and not yet seen. */
  datatype Phase =
    | Delaying
    | DelayOver
    | Fetching(generation: nat)
    | Opening(socket: nat)
    | Opened(socket: nat)
    | OpenFailed

  /** Connect calls are known by their connection generation, reconnect loops by their reconnect generation. */
  datatype Attempt = Manual(generation: nat) | Loop(generation: nat)

  datatype CheckPhase = Probing | ProbeAnswered | ProbeFailed | AwaitingLoop(generation: nat)

  /** A health check, with the health generation it has captured. */
  datatype Check = Check(generation: nat, phase: CheckPhase)

  /** fits says whether the serialized event is within the size limit. */
  datatype Request = Request(kind: Kind, to: string, replyTo: string, payload: Payload, fits: bool)

  /** An operation that waits for a health check, or may run. */
  datatype Operation = Parked(check: nat, request: Request) | Runnable(request: Request)

  datatype Owner = Caller | Probe(check: nat)

  /** An outstanding request: the answer it expects, and the socket it was written to. */
  datatype Waiter = Waiter(request: Request, owner: Owner, socket: nat)

  datatype Outcome =
    | Success(answer: Event)
    | Declined(answer: Event)
    | Mismatched(answer: Event)
    | TimedOut
    | ConnectionClosed
    | NotConnected
    | TooLarge
    | Unhealthy

  datatype Frame = Frame(socket: nat, event: Event)

  /** ready stands for readyState OPEN; closed for a call of close or a close event. */
  datatype Socket = Socket(ready: bool, closed: bool)

  datatype Session = Session(channelId: string, deviceId: string, status: string, token: string, joinRequestId: string)

  /** What a connect call asks for; deviceId is the option, or else the configured one. */
  datatype Args = Args(channel: string, pin: string, deviceId: Option<string>)

  /** One call of connectInternal: for which attempt, and what it has asked the relay for. */
  datatype Call = Call(attempt: Attempt, args: Args)

  /**
   * The argument objects, one for each call of connectInternal; which of them each reconnect loop has captured, and in
   * which call each attempt is. asked is the record of the calls, and adopted that of the device ids of adopted answers.
   */
  datatype Calls = Calls(objects: seq<Args>, captured: map<nat, nat>, running: map<Attempt, nat>, asked: seq<Call>,
                         adopted: map<nat, string>)

  datatype Transport = Idle | Connected | Stale | Reconnecting | Disconnected

  /** The current socket with its clean-up and its pending rejection, and all sockets ever made. */
  datatype Link = Link(socket: Option<nat>, socketCleanup: Option<nat>, pendingOpen: Option<nat>,
                       suppressed: set<nat>, sockets: seq<Socket>)

  /** Outstanding requests and operations that wait, and the record: frames written, events received, outcomes. */
  datatype Requests = Requests(waiters: map<string, Waiter>, timers: set<string>, operations: map<string, Operation>,
                               frames: seq<Frame>, received: set<(nat, Event)>, outcomes: map<string, Outcome>)

  /**
   * The fields of the client and its suspended continuations: attempts, checks and operations.
   * hasOpened says that a socket has opened since the last connect or disconnect call, and delays are the
   * delays waited since the last success.
   */
  datatype Client = Client(
    link: Link, requests: Requests, attempts: map<Attempt, Phase>, checks: map<nat, Check>, nextCheck: nat,
    reconnectTimer: Option<nat>, reconnectPromise: Option<nat>, healthCheck: Option<nat>, heartbeat: bool,
    healthGeneration: nat, connectionGeneration: nat, reconnectGeneration: nat, reconnectAttempt: nat, delays: seq<nat>,
    explicitDisconnect: bool, hasOpened: bool, lastConnectArgs: Option<nat>, calls: Calls, session: Session,
    transport: Transport)

  datatype FetchResult = Failed | Answered(session: Session) | Unopenable(session: Session)

  datatype Step =
    | Connect(args: Args)
    | Disconnect
    | Operate(id: string, request: Request, stale: bool, probeId: string)
    | FetchDone(attempt: Attempt, result: FetchResult)
    | BackoffOver
    | WaiterTimeout(id: string)
    | HeartbeatOver(stale: bool, probeId: string)
    | SocketOpen(socket: nat)
    | SocketMessage(socket: nat, event: Event)
    | SocketClosing(socket: nat)
    | SocketClose(socket: nat)
    | SocketError(socket: nat)
    | ResumeAttempt(attempt: Attempt)
    | ResumeCheck(check: nat)
    | ResumeOperation(id: string)

  ghost function Start(): Client {
    Client(Link(None, None, None, {}, []), Requests(map[], {}, map[], [], {}, map[]), map[], map[], 0,
           None, None, None, false, 0, 0, 0, 0, [], false, false, None, Calls([], map[], map[], [], map[]), Session("", "", "", "", ""), Idle)
  }

  // ----- requests and answers -----

  predicate IsRequest(kind: Kind) {
    Routable(kind) || kind.JoinApprove? || kind.JoinDeny? || kind.ListRequest? || kind.StatusRequest?
  }

  function AnswerKind(kind: Kind): Kind {
    if Routable(kind) then MessageAck
    else if kind.JoinApprove? || kind.JoinDeny? then JoinDecisionAck
    else if kind.ListRequest? then ListResponse
    else StatusResponse
  }

  /** The payload check of the operation that made the request. */
  predicate Acceptable(kind: Kind, asked: Payload, payload: Payload) {
    if Routable(kind) then payload.Delivered? && payload.deviceId != ""
    else if kind.JoinApprove? || kind.JoinDeny? then
      && asked.Fields? && payload.Decision? && payload.joinRequestId == asked.joinRequestId
      && payload.approved == kind.JoinApprove? && payload.deviceId != ""
    else !payload.Missing?
  }

  function RequestEvent(id: string, channelId: string, request: Request): Event {
    Event(id, request.kind, channelId, "", request.to, request.replyTo, request.payload)
  }

  function Recognized(status: string): bool {
    status == "created" || status == "connected" || status == "pending_approval"
  }

  /** White space and line ends, as String.prototype.trim removes them. */
  predicate IsSpace(c: char) {
    c in "\t\n\U{0B}\U{0C}\r \U{A0}\U{1680}\U{2028}\U{2029}\U{202F}\U{205F}\U{3000}\U{FEFF}" || '\U{2000}' <= c <= '\U{200A}'
  }

  predicate IsBlank(text: string) {
    forall c | c in text :: IsSpace(c)
  }

  /** The session after a join.approved: connected, with the token that it carries, if it carries one. */
  function Approved(session: Session, e: Event): Session {
    session.(status := "connected", joinRequestId := "",
             token := if e.payload.Admitted? && !IsBlank(e.payload.token) then e.payload.token else session.token)
  }

  // ----- settling requests -----

  function Answer(request: Request, e: Event): Outcome {
    if e.kind.Error? then Declined(e) else if Acceptable(request.kind, request.payload, e.payload) then Success(e) else Mismatched(e)
  }

  /** A probe is answered by any payload at all. */
  function ProbeAnswer(e: Event): CheckPhase {
    if e.kind.Error? || e.payload.Missing? then ProbeFailed else ProbeAnswered
  }

  function Reproved(checks: map<nat, Check>, k: nat, phase: CheckPhase): map<nat, Check> {
    if k in checks then checks[k := checks[k].(phase := phase)] else checks
  }

  /** The waiter is deleted, its timer cleared, and its promise settled. */
  ghost function Settle(c: Client, id: string, outcome: Outcome, probe: CheckPhase): Client
    requires id in c.requests.waiters
  {
    var q := c.requests;
    c.(requests := q.(waiters := q.waiters - {id}, timers := q.timers - {id}, outcomes := q.outcomes[id := outcome]),
       checks := match q.waiters[id].owner case Caller => c.checks case Probe(k) => Reproved(c.checks, k, probe))
  }

  function ClosedOutcomes(outcomes: map<string, Outcome>, waiters: map<string, Waiter>): map<string, Outcome> {
    map id | id in outcomes.Keys + waiters.Keys :: if id in waiters then ConnectionClosed else outcomes[id]
  }

  ghost function FailProbes(checks: map<nat, Check>, waiters: map<string, Waiter>): map<nat, Check> {
    map k | k in checks ::
      if (exists id :: id in waiters && waiters[id].owner == Probe(k)) then checks[k].(phase := ProbeFailed) else checks[k]
  }

  /** All waiters are rejected and their timers cleared. */
  function Rejected(q: Requests): Requests {
    q.(waiters := map[], timers := q.timers - q.waiters.Keys, outcomes := ClosedOutcomes(q.outcomes, q.waiters))
  }

  ghost function RejectWaiters(c: Client): Client {
    c.(requests := Rejected(c.requests), checks := FailProbes(c.checks, c.requests.waiters))
  }

  // ----- closing the current socket -----

  /** Attempts that wait for the socket to open are told how it went. */
  function Settled(attempts: map<Attempt, Phase>, s: nat, phase: Phase): map<Attempt, Phase> {
    map a | a in attempts :: if attempts[a] == Opening(s) then phase else attempts[a]
  }

  function Unlinked(l: Link, s: nat): Link {
    l.(socket := if l.socket == Some(s) then None else l.socket,
       socketCleanup := if l.socketCleanup == Some(s) then None else l.socketCleanup, pendingOpen := None)
  }

  ghost function RejectBeforeOpen(c: Client, s: nat): Client {
    c.(link := Unlinked(c.link, s), attempts := Settled(c.attempts, s, OpenFailed))
  }

  function MarkClosed(l: Link, s: Option<nat>): Link {
    if s.Some? && s.value < |l.sockets| then l.(sockets := l.sockets[s.value := Socket(false, true)]) else l
  }

  function Suppress(l: Link): Link {
    if l.socket.Some? then l.(suppressed := l.suppressed + {l.socket.value}) else l
  }

  /** The current socket is suppressed, dropped and closed; one that is still opening is rejected first. */
  function CloseLink(l: Link): Link {
    var l1 := Suppress(l);
    MarkClosed(if l.pendingOpen.Some? then Unlinked(l1, l.pendingOpen.value) else l1.(socket := None, socketCleanup := None),
               l.socket)
  }

  /** closeCurrentSocket with its last argument true. */
  ghost function CloseCurrent(c: Client): Client {
    c.(heartbeat := false, link := CloseLink(c.link),
       attempts := if c.link.pendingOpen.Some? then Settled(c.attempts, c.link.pendingOpen.value, OpenFailed) else c.attempts,
       requests := Rejected(c.requests), checks := FailProbes(c.checks, c.requests.waiters))
  }

  // ----- the reconnect loop -----

  function Power(n: nat): nat {
    if n == 0 then 1 else 2 * Power(n - 1)
  }

  function Backoff(attempt: nat): nat {
    if BASE_DELAY * Power(attempt) < MAX_RECONNECT_DELAY then BASE_DELAY * Power(attempt) else MAX_RECONNECT_DELAY
  }

  ghost function StartDelay(c: Client, g: nat): Client {
    c.(reconnectAttempt := c.reconnectAttempt + 1, delays := c.delays + [Backoff(c.reconnectAttempt)],
       transport := Reconnecting, reconnectTimer := Some(g), attempts := c.attempts[Loop(g) := Delaying])
  }

  ghost function ClearReconnectTimer(c: Client): Client {
    match c.reconnectTimer
    case None => c
    case Some(g) => c.(reconnectTimer := None, attempts := c.attempts[Loop(g) := DelayOver])
  }

  ghost predicate Continues(c: Client, g: nat) {
    !c.explicitDisconnect && g == c.reconnectGeneration
  }

  ghost predicate CanReconnect(c: Client) {
    c.reconnectPromise.None? && !c.explicitDisconnect && c.lastConnectArgs.Some?
  }

  /** A new loop keeps the latest argument object. */
  ghost function Captured(c: Client, g: nat): Client
    requires c.lastConnectArgs.Some?
  {
    c.(reconnectGeneration := g, calls := c.calls.(captured := c.calls.captured[g := c.lastConnectArgs.value]))
  }

  /** reconnect(): a running loop is reused, and a new one starts with its first delay. */
  ghost function Reconnect(c: Client): Client {
    if !CanReconnect(c) then c
    else
      var g := c.reconnectGeneration + 1;
      StartDelay(Captured(c, g), g).(reconnectPromise := Some(g))
  }

  function Released(operations: map<string, Operation>, ks: set<nat>): map<string, Operation> {
    map id | id in operations ::
      if operations[id].Parked? && operations[id].check in ks then Runnable(operations[id].request) else operations[id]
  }

  /** The health checks are over: their promise is forgotten, and the operations behind them may run. */
  ghost function FinishChecks(c: Client, ks: set<nat>): Client {
    c.(checks := c.checks - ks,
       healthCheck := if c.healthCheck.Some? && c.healthCheck.value in ks then None else c.healthCheck,
       requests := c.requests.(operations := Released(c.requests.operations, ks)))
  }

  ghost function Behind(c: Client, g: nat): set<nat> {
    set k | k in c.checks && c.checks[k].phase == AwaitingLoop(g)
  }

  /** The loop's promise is fulfilled. */
  ghost function EndLoop(c: Client, g: nat): Client {
    FinishChecks(c.(attempts := c.attempts - {Loop(g)},
                    reconnectPromise := if c.reconnectPromise == Some(g) then None else c.reconnectPromise),
                 Behind(c, g))
  }

  /** An attempt has failed: connect() rejects, and the loop goes on unless it is superseded or disconnected. */
  ghost function FailAttempt(c: Client, a: Attempt): Client {
    match a
    case Manual(_) => c.(attempts := c.attempts - {a})
    case Loop(g) => if Continues(c, g) then StartDelay(c, g) else EndLoop(c, g)
  }

  function Asked(calls: Calls, a: Attempt, args: Args): Calls {
    calls.(objects := calls.objects + [args], running := calls.running[a := |calls.objects|], asked := calls.asked + [Call(a, args)])
  }

  /** The first, synchronous part of connectInternal, with a fresh argument object. */
  ghost function BeginFetch(c: Client, a: Attempt, args: Args): Client {
    c.(explicitDisconnect := false, connectionGeneration := c.connectionGeneration + 1,
       lastConnectArgs := Some(|c.calls.objects|), calls := Asked(c.calls, a, args))
  }

  /** The arguments that the loop has captured, as they are now. */
  function LoopArgs(calls: Calls, g: nat): Args {
    if g in calls.captured && calls.captured[g] < |calls.objects| then calls.objects[calls.captured[g]] else Args("", "", None)
  }

  /** The relay's device id enters the latest argument object, if that is one for the same channel and PIN. */
  function Remember(calls: Calls, last: Option<nat>, a: Attempt, deviceId: string): Calls {
    if last.Some? && last.value < |calls.objects| && a in calls.running && calls.running[a] < |calls.objects|
       && calls.objects[last.value].channel == calls.objects[calls.running[a]].channel
       && calls.objects[last.value].pin == calls.objects[calls.running[a]].pin
    then calls.(objects := calls.objects[last.value := calls.objects[last.value].(deviceId := Some(deviceId))],
                adopted := calls.adopted[calls.running[a] := deviceId])
    else calls
  }

  /** The answer of the attempt enters the state. */
  ghost function Adopted(c: Client, a: Attempt, session: Session): Client {
    c.(session := session, transport := Reconnecting, calls := Remember(c.calls, c.lastConnectArgs, a, session.deviceId))
  }

  // ----- sockets -----

  /** The new socket is current and waits to open for attempt a. */
  ghost function OpenSocket(c: Client, a: Attempt): Client {
    var c1 := CloseCurrent(c);
    var s := |c1.link.sockets|;
    c1.(link := Link(Some(s), Some(s), Some(s), c1.link.suppressed, c1.link.sockets + [Socket(false, false)]),
        attempts := c1.attempts[a := Opening(s)])
  }

  // ----- health checks -----

  predicate SocketReady(l: Link) {
    l.socket.Some? && l.socket.value < |l.sockets| && l.sockets[l.socket.value].ready
  }

  /** Writes the frame and registers the waiter, or rejects at once. */
  function Sent(l: Link, q: Requests, channelId: string, id: string, request: Request, owner: Owner): Requests {
    if !SocketReady(l) then q.(outcomes := q.outcomes[id := NotConnected])
    else if !request.fits then q.(outcomes := q.outcomes[id := TooLarge])
    else
      q.(frames := q.frames + [Frame(l.socket.value, RequestEvent(id, channelId, request))],
         waiters := q.waiters[id := Waiter(request, owner, l.socket.value)], timers := q.timers + {id})
  }

  ghost function Send(c: Client, id: string, request: Request, owner: Owner): Client {
    c.(requests := Sent(c.link, c.requests, c.session.channelId, id, request, owner))
  }

  function StatusQuery(): Request {
    Request(StatusRequest, "", "", Missing, true)
  }

  /** Check k has called reconnect() and waits for what it returned. */
  ghost function AwaitReconnect(c: Client, k: nat): Client
    requires k in c.checks
  {
    var c1 := Reconnect(c);
    match c1.reconnectPromise
    case None => FinishChecks(c1, {k})
    case Some(g) => c1.(checks := c1.checks[k := c1.checks[k].(phase := AwaitingLoop(g))])
  }

  ghost predicate Healthy(c: Client, stale: bool) {
    c.healthCheck.None? && SocketReady(c.link) && !stale
  }

  /** ensureHealthy() when it has something to do: joins the running check or starts one. */
  ghost function EnsureHealthy(c: Client, stale: bool, probeId: string): Client {
    if c.healthCheck.Some? || Healthy(c, stale) then c
    else
      var k := c.nextCheck;
      var c1 := c.(nextCheck := k + 1, healthCheck := Some(k));
      if SocketReady(c.link) then
        Send(c1.(checks := c1.checks[k := Check(c.healthGeneration, Probing)]), probeId, StatusQuery(), Probe(k))
      else AwaitReconnect(c1.(checks := c1.checks[k := Check(c.healthGeneration, ProbeFailed)]), k)
  }

  // ----- the steps -----

  ghost function AfterConnect(c: Client, args: Args): Client {
    var c1 := ClearReconnectTimer(c.(reconnectGeneration := c.reconnectGeneration + 1,
                                     healthGeneration := c.healthGeneration + 1, hasOpened := false));
    var c2 := CloseCurrent(c1.(reconnectPromise := None, healthCheck := None));
    var c3 := BeginFetch(c2, Manual(c2.connectionGeneration + 1), args);
    c3.(attempts := c3.attempts[Manual(c3.connectionGeneration) := Fetching(c3.connectionGeneration)])
  }

  ghost function AfterDisconnect(c: Client): Client {
    var c1 := c.(explicitDisconnect := true, connectionGeneration := c.connectionGeneration + 1,
                 reconnectGeneration := c.reconnectGeneration + 1, healthGeneration := c.healthGeneration + 1,
                 healthCheck := None, hasOpened := false);
    CloseCurrent(ClearReconnectTimer(c1)).(transport := Disconnected)
  }

  ghost function AfterOperate(c: Client, id: string, request: Request, stale: bool, probeId: string): Client {
    if Healthy(c, stale) then Send(c, id, request, Caller)
    else
      var c1 := EnsureHealthy(c, stale, probeId);
      match c1.healthCheck
      case Some(k) => c1.(requests := c1.requests.(operations := c1.requests.operations[id := Parked(k, request)]))
      case None => c1.(requests := c1.requests.(operations := c1.requests.operations[id := Runnable(request)]))
  }

  ghost function AfterFetch(c: Client, a: Attempt, result: FetchResult): Client
    requires a in c.attempts && c.attempts[a].Fetching?
  {
    if result.Failed? || c.attempts[a].generation != c.connectionGeneration || c.explicitDisconnect then FailAttempt(c, a)
    else
      var c1 := Adopted(c, a, result.session);
      if result.Unopenable? then FailAttempt(CloseCurrent(c1), a) else OpenSocket(c1, a)
  }

  ghost function AfterBackoff(c: Client): Client {
    ClearReconnectTimer(c)
  }

  ghost function AfterTimeout(c: Client, id: string): Client
    requires id in c.requests.waiters
  {
    Settle(c, id, TimedOut, ProbeFailed)
  }

  ghost function AfterOpen(c: Client, s: nat): Client {
    if c.link.socket != Some(s) || c.link.pendingOpen != Some(s) || s >= |c.link.sockets| then c
    else
      c.(link := c.link.(pendingOpen := None, sockets := c.link.sockets[s := Socket(true, false)]),
         heartbeat := true, transport := Connected, hasOpened := true, attempts := Settled(c.attempts, s, Opened(s)))
  }

  ghost function AfterMessage(c: Client, s: nat, e: Event): Client {
    if c.link.socket != Some(s) then c
    else
      var c1 := c.(heartbeat := true, requests := c.requests.(received := c.requests.received + {(s, e)}),
                   session := if e.kind.JoinApproved? then Approved(c.session, e) else c.session);
      if e.replyTo !in c1.requests.waiters then c1
      else
        var w := c1.requests.waiters[e.replyTo];
        if e.kind.Error? || e.kind == AnswerKind(w.request.kind) then
          Settle(c1, e.replyTo, Answer(w.request, e), ProbeAnswer(e))
        else c1
  }

  /** The peer has begun to close the socket: it is no longer ready. */
  ghost function AfterClosing(c: Client, s: nat): Client {
    if s < |c.link.sockets| then
      c.(link := c.link.(sockets := c.link.sockets[s := c.link.sockets[s].(ready := false)]))
    else c
  }

  /** The socket closes or fails before it has opened. */
  ghost function AfterFailure(c: Client, s: nat): Client {
    var c1 := RejectBeforeOpen(c, s);
    c1.(link := MarkClosed(c1.link, Some(s)))
  }

  ghost function AfterClose(c: Client, s: nat): Client {
    if c.link.socket != Some(s) then c
    else if c.link.pendingOpen == Some(s) then AfterFailure(c, s)
    else
      var willReconnect := !c.explicitDisconnect && s !in c.link.suppressed && Recognized(c.session.status);
      var c1 := RejectWaiters(c.(transport := if willReconnect then Stale else Disconnected, heartbeat := false,
                                 link := MarkClosed(c.link.(socket := None, socketCleanup := None), Some(s))));
      if willReconnect then Reconnect(c1) else c1
  }

  ghost function AfterError(c: Client, s: nat): Client {
    if c.link.socket != Some(s) || c.link.pendingOpen != Some(s) then c else AfterFailure(c, s)
  }

  ghost function AfterResumeAttempt(c: Client, a: Attempt): Client
    requires a in c.attempts
  {
    match c.attempts[a]
    case DelayOver =>
      if a.Loop? && Continues(c, a.generation) && c.lastConnectArgs.Some? then
        var c1 := BeginFetch(c, a, LoopArgs(c.calls, a.generation));
        c1.(attempts := c1.attempts[a := Fetching(c1.connectionGeneration)])
      else EndLoop(c, a.generation)
    case Opened(_) =>
      var c1 := c.(reconnectAttempt := 0, delays := []);
      if a.Loop? then EndLoop(c1, a.generation) else c1.(attempts := c1.attempts - {a})
    case OpenFailed => FailAttempt(c, a)
    case _ => c
  }

  ghost function AfterResumeCheck(c: Client, k: nat): Client
    requires k in c.checks
  {
    match c.checks[k].phase
    case ProbeAnswered => FinishChecks(c, {k})
    case ProbeFailed =>
      if c.checks[k].generation != c.healthGeneration then FinishChecks(c, {k})
      else if c.explicitDisconnect then RefuseBehind(c, k)
      else
        AwaitReconnect(CloseCurrent(c.(transport := Stale)), k)
    case _ => c
  }

  /** The check's promise is rejected, and with it the operations behind it. */
  ghost function RefuseBehind(c: Client, k: nat): Client {
    c.(checks := c.checks - {k}, healthCheck := if c.healthCheck == Some(k) then None else c.healthCheck,
       requests := RefusedBehind(c.requests, k))
  }

  function RefusedBehind(q: Requests, k: nat): Requests {
    var behind := set id | id in q.operations && q.operations[id].Parked? && q.operations[id].check == k;
    q.(operations := q.operations - behind,
       outcomes := map id | id in q.outcomes.Keys + behind :: if id in behind then Unhealthy else q.outcomes[id])
  }

  ghost function AfterResumeOperation(c: Client, id: string): Client
    requires id in c.requests.operations
  {
    var q := c.requests;
    Send(c.(requests := q.(operations := q.operations - {id})), id, q.operations[id].request, Caller)
  }

  // ----- when a step can be taken -----

  /** A continuation that has been given its result and only waits to be run. */
  predicate Ready(p: Phase) {
    p.DelayOver? || p.Opened? || p.OpenFailed?
  }

  predicate CheckReady(p: CheckPhase) {
    p.ProbeAnswered? || p.ProbeFailed?
  }

  /** No continuation waits to be run. */
  ghost predicate Quiet(c: Client) {
    && (forall a | a in c.attempts :: !Ready(c.attempts[a]))
    && (forall k | k in c.checks :: !CheckReady(c.checks[k].phase))
    && (forall id | id in c.requests.operations :: !c.requests.operations[id].Runnable?)
  }

  /** Every request id ever used. */
  function Ids(q: Requests): set<string> {
    q.operations.Keys + q.waiters.Keys + q.outcomes.Keys
  }

  ghost predicate Enabled(c: Client, s: Step) {
    match s
    case Operate(id, request, _, probeId) =>
      Quiet(c) && id !in Ids(c.requests) && probeId !in Ids(c.requests) && id != probeId && IsRequest(request.kind)
    case FetchDone(a, _) => Quiet(c) && a in c.attempts && c.attempts[a].Fetching?
    case BackoffOver => Quiet(c) && c.reconnectTimer.Some?
    case WaiterTimeout(id) => Quiet(c) && id in c.requests.timers && id in c.requests.waiters
    case HeartbeatOver(_, probeId) => Quiet(c) && c.heartbeat && probeId !in Ids(c.requests)
    case ResumeAttempt(a) => a in c.attempts && Ready(c.attempts[a])
    case ResumeCheck(k) => k in c.checks && CheckReady(c.checks[k].phase)
    case ResumeOperation(id) => id in c.requests.operations && c.requests.operations[id].Runnable?
    case _ => Quiet(c)
  }

  ghost function Next(c: Client, s: Step): Client
    requires Enabled(c, s)
  {
    match s
    case Connect(args) => AfterConnect(c, args)
    case Disconnect => AfterDisconnect(c)
    case Operate(id, request, stale, probeId) => AfterOperate(c, id, request, stale, probeId)
    case FetchDone(a, result) => AfterFetch(c, a, result)
    case BackoffOver => AfterBackoff(c)
    case WaiterTimeout(id) => AfterTimeout(c, id)
    case HeartbeatOver(stale, probeId) => EnsureHealthy(c.(heartbeat := false), stale, probeId)
    case SocketOpen(s) => AfterOpen(c, s)
    case SocketMessage(s, e) => AfterMessage(c, s, e)
    case SocketClosing(s) => AfterClosing(c, s)
    case SocketClose(s) => AfterClose(c, s)
    case SocketError(s) => AfterError(c, s)
    case ResumeAttempt(a) => AfterResumeAttempt(c, a)
    case ResumeCheck(k) => AfterResumeCheck(c, k)
    case ResumeOperation(id) => AfterResumeOperation(c, id)
  }
}
