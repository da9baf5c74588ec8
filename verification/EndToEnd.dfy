/** A client and the relay together: what a successful request says about the relay. */
module EndToEnd {
  import opened Options
  import opened Protocol
  import opened Connections
  import opened HubSpec
  import Relay = RelayRuns
  import RelayProofs
  import RelayTheorems
  import RelayEventProofs
  import Client = ClientSpec
  import ClientProofs
  import ClientTheorems
  import ClientGuarantees

  /** wires leads from the client's sockets to the connections that the relay has accepted for them. */
  datatype System = System(relay: Relay.World, client: Client.Client, wires: map<nat, Connection>)

  datatype Move =
    | RelayMoves(relayStep: Relay.Step)
    | ClientMoves(clientStep: Client.Step)
    | Accept(socket: nat, opening: Relay.Step)

  ghost function Start(): System {
    System(Relay.Start(), Client.Start(), map[])
  }

  /** The i-th frame of the client went to this socket and is this event. */
  ghost predicate FrameAt(q: Client.Requests, i: int, s: nat, e: Event) {
    0 <= i < |q.frames| && q.frames[i] == Client.Frame(s, e)
  }

  /** The relay reads from a connection of the client what the client has written to its socket. */
  ghost predicate Delivered(y: System, c: Connection, e: Event) {
    forall s | s in y.wires && y.wires[s] == c :: exists i :: FrameAt(y.client.requests, i, s, e)
  }

  ghost predicate IsOpening(step: Relay.Step) {
    step.OpenMember? || step.BeginMember? || step.OpenJoiner? || step.BeginJoiner?
  }

  ghost predicate Enabled(y: System, m: Move) {
    match m
    case RelayMoves(step) => Relay.Enabled(y.relay, step) && (step.Receive? ==> Delivered(y, step.conn, step.event))
    case ClientMoves(step) =>
      && Client.Enabled(y.client, step)
      && (step.SocketMessage? ==> step.socket in y.wires && Wrote(y.wires[step.socket], step.event) in y.relay.sent)
    case Accept(s, step) =>
      && s !in y.wires && s < |y.client.link.sockets| && IsOpening(step) && Relay.Enabled(y.relay, step)
  }

  ghost function Next(y: System, m: Move): System
    requires Enabled(y, m)
  {
    match m
    case RelayMoves(step) => y.(relay := Relay.Next(y.relay, step))
    case ClientMoves(step) => y.(client := Client.Next(y.client, step))
    case Accept(s, step) => y.(relay := Relay.Next(y.relay, step), wires := y.wires[s := step.conn])
  }

  ghost predicate Goes(ys: seq<System>, moves: seq<Move>, i: nat)
    requires i < |moves| && |ys| == |moves| + 1
  {
    Enabled(ys[i], moves[i]) && ys[i + 1] == Next(ys[i], moves[i])
  }

  /** ys are the states of a run of client and relay from their start, and moves is what happens between them. */
  ghost predicate Behaviour(ys: seq<System>, moves: seq<Move>) {
    |ys| == |moves| + 1 && ys[0] == Start() && forall i | 0 <= i < |moves| :: Goes(ys, moves, i)
  }

  // ----- the invariant -----

  ghost predicate WiresInv(y: System) {
    && (forall s | s in y.wires :: y.wires[s] in y.relay.seen)
    && (forall s, t | s in y.wires && t in y.wires && y.wires[s] == y.wires[t] :: s == t)
    && (forall f | f in y.relay.facts :: f.actor in y.relay.seen)
  }

  /** What the client has received on a socket, the relay has written to its connection. */
  ghost predicate ReceivedInv(y: System) {
    forall r | r in y.client.requests.received :: r.0 in y.wires && Wrote(y.wires[r.0], r.1) in y.relay.sent
  }

  /** The fact is what the relay did for this event. */
  ghost predicate DoneFor(f: Fact, e: Event) {
    && f.id == e.id
    && match f
       case Routed(actor, _, target, routed) => Routable(e.kind) && routed == RoutedEvent(actor, e, target.deviceId)
       case Decided(_, _, _, _, approved) => if approved then e.kind.JoinApprove? else e.kind.JoinDeny?
  }

  /** What the relay has done for a connection of the client, it has done for a frame of the client. */
  ghost predicate FactsInv(y: System) {
    forall f, s | f in y.relay.facts && s in y.wires && y.wires[s] == f.actor ::
      exists i :: Asked(y.client.requests, i, s, f)
  }

  ghost predicate Asked(q: Client.Requests, i: int, s: nat, f: Fact) {
    0 <= i < |q.frames| && q.frames[i].socket == s && DoneFor(f, q.frames[i].event)
  }

  ghost predicate Inv(y: System) {
    && Relay.Inv(y.relay) && ClientProofs.Inv(y.client)
    && WiresInv(y) && ReceivedInv(y) && FactsInv(y)
  }

  // ----- what single steps of the relay add -----

  /** An event adds only facts about itself and its sender. */
  lemma FactsOfEvent(h: Hub, c: Connection, e: Event, x: Choice)
    ensures forall f | f in HandleEvent(h, c, e, x).facts :: f.actor == c && DoneFor(f, e)
  {
    hide CanSend, Reject, IsMember, RegistrySpec.DecideByOwner, Promote, RegistrySpec.SetOnline, EmitPresenceChange, DenialOut;
    RejectedFacts(h, c);
  }

  lemma RejectedFacts(h: Hub, c: Connection)
    ensures Reject(h, c).facts == {}
  {
  }

  lemma OtherFacts(w: Relay.World, step: Relay.Step)
    requires Relay.Enabled(w, step) && !step.Receive?
    ensures Relay.Next(w, step).facts == w.facts
  {
    hide RegistrySpec.SetOnline, EmitPresenceChange, NotifyOwnerOfPendingJoins, Unregister, RegistrySpec.Connect;
  }

  /** The record of the relay only grows, and an opened connection has been seen. */
  lemma Grows(w: Relay.World, step: Relay.Step)
    requires Relay.Enabled(w, step)
    ensures var w' := Relay.Next(w, step);
            && w.sent <= w'.sent && w.seen <= w'.seen
            && (IsOpening(step) ==> step.conn !in w.seen && step.conn in w'.seen)
  {
    hide FinishMember, FinishPending, Expire, HandleEvent, Unregister, RegistrySpec.Connect, ValidChoice, RegisterMember;
  }

  lemma ReceivedFacts(w: Relay.World, c: Connection, e: Event, x: Choice)
    requires Relay.Enabled(w, Relay.Receive(c, e, x)) && Relay.Inv(w)
    ensures forall f | f in Relay.Next(w, Relay.Receive(c, e, x)).facts :: f in w.facts || (f.actor == c && DoneFor(f, e))
    ensures c in w.seen
  {
    hide Relay.Inv, HandleEvent, ValidChoice, DoneFor, Relay.Record;
    FactsOfEvent(w.hub, c, e, x);
    SeenSenders(w);
    RelayEventProofs.RecordKeeps(w, c, HandleEvent(w.hub, c, e, x).facts);
  }

  lemma SeenSenders(w: Relay.World)
    requires Relay.Inv(w)
    ensures w.open <= w.seen
  {
    hide Relay.RegistryInv, Relay.DecidedInv, Relay.MembersInv, Relay.PendingInv, Relay.PresenceInv, Relay.KnowsInv, Relay.AckInv;
  }

  // ----- the invariant is kept -----

  lemma ReceiveKeeps(y: System, c: Connection, e: Event, x: Choice)
    requires Inv(y) && Enabled(y, RelayMoves(Relay.Receive(c, e, x)))
    ensures WiresInv(Next(y, RelayMoves(Relay.Receive(c, e, x)))) && FactsInv(Next(y, RelayMoves(Relay.Receive(c, e, x))))
  {
    hide Relay.Inv, ClientProofs.Inv, Relay.Enabled, Relay.Next, DoneFor;
    var step := Relay.Receive(c, e, x);
    ReceivedFacts(y.relay, c, e, x);
    Grows(y.relay, step);
    var y' := Next(y, RelayMoves(step));
    forall f, s | f in y'.relay.facts && s in y'.wires && y'.wires[s] == f.actor
      ensures exists i :: Asked(y'.client.requests, i, s, f)
    {
      if f in y.relay.facts {
        assert exists i :: Asked(y.client.requests, i, s, f);
      } else {
        var i :| FrameAt(y.client.requests, i, s, e);
        assert Asked(y'.client.requests, i, s, f);
      }
    }
  }

  lemma RelayMoveKeeps(y: System, step: Relay.Step)
    requires Inv(y) && Enabled(y, RelayMoves(step))
    ensures Inv(Next(y, RelayMoves(step)))
  {
    hide Relay.Inv, ClientProofs.Inv, Relay.Enabled, Relay.Next, DoneFor, Asked;
    RelayTheorems.NextKeeps(y.relay, step);
    Grows(y.relay, step);
    if step.Receive? {
      ReceiveKeeps(y, step.conn, step.event, step.choice);
    } else {
      OtherFacts(y.relay, step);
    }
  }

  lemma AcceptKeeps(y: System, s: nat, step: Relay.Step)
    requires Inv(y) && Enabled(y, Accept(s, step))
    ensures Inv(Next(y, Accept(s, step)))
  {
    hide Relay.Inv, ClientProofs.Inv, Relay.Enabled, Relay.Next, DoneFor, Asked;
    RelayTheorems.NextKeeps(y.relay, step);
    Grows(y.relay, step);
    OtherFacts(y.relay, step);
  }

  /** Only a message event adds to what the client has received. */
  lemma ReceivedBy(c: Client.Client, step: Client.Step)
    requires Client.Enabled(c, step)
    ensures var received := Client.Next(c, step).requests.received;
            received <= c.requests.received + (if step.SocketMessage? then {(step.socket, step.event)} else {})
  {
    hide Client.AfterConnect, Client.AfterDisconnect, Client.AfterOperate, Client.AfterFetch, Client.EnsureHealthy, Client.AfterClose;
    hide Client.AfterResumeAttempt, Client.AfterResumeCheck, Client.AfterMessage, Client.AfterTimeout, Client.Quiet, Client.Ids;
    match step
    case Connect(args) => SeveredReceives(c, args);
    case Disconnect => SeveredReceives(c, Client.Args("", "", None));
    case Operate(id, request, stale, probeId) => OperateReceives(c, id, request, stale, probeId);
    case SocketMessage(s, e) => MessageReceives(c, s, e);
    case WaiterTimeout(id) => TimeoutReceives(c, id);
    case HeartbeatOver(stale, probeId) => HealthReceives(c.(heartbeat := false), stale, probeId);
    case FetchDone(a, result) => FetchReceives(c, a, result);
    case ResumeAttempt(a) => AttemptReceives(c, a);
    case ResumeCheck(k) => CheckReceives(c, k);
    case SocketClose(s) => CloseReceives(c, s);
    case _ =>
  }

  lemma OperateReceives(c: Client.Client, id: string, request: Client.Request, stale: bool, probeId: string)
    ensures Client.AfterOperate(c, id, request, stale, probeId).requests.received == c.requests.received
  {
    hide Client.EnsureHealthy, Client.Healthy;
    HealthReceives(c, stale, probeId);
  }

  lemma MessageReceives(c: Client.Client, s: nat, e: Event)
    ensures Client.AfterMessage(c, s, e).requests.received <= c.requests.received + {(s, e)}
  {
    hide Client.Reproved;
  }

  lemma TimeoutReceives(c: Client.Client, id: string)
    requires id in c.requests.waiters
    ensures Client.AfterTimeout(c, id).requests.received == c.requests.received
  {
    hide Client.Reproved;
  }

  lemma AttemptReceives(c: Client.Client, a: Client.Attempt)
    requires a in c.attempts
    ensures Client.AfterResumeAttempt(c, a).requests.received == c.requests.received
  {
    hide Client.FailAttempt, Client.Released;
    FailureReceives(c, a);
  }

  lemma SeveredReceives(c: Client.Client, args: Client.Args)
    ensures Client.AfterConnect(c, args).requests.received == c.requests.received
    ensures Client.AfterDisconnect(c).requests.received == c.requests.received
  {
    hide Client.Settled, Client.FailProbes, Client.CloseLink;
  }

  lemma AwaitReceives(c: Client.Client, k: nat)
    requires k in c.checks
    ensures Client.AwaitReconnect(c, k).requests.received == c.requests.received
  {
    hide Client.Released;
  }

  lemma HealthReceives(c: Client.Client, stale: bool, probeId: string)
    ensures Client.EnsureHealthy(c, stale, probeId).requests.received == c.requests.received
  {
    hide Client.AwaitReconnect;
    if c.healthCheck.None? && !Client.Healthy(c, stale) && !Client.SocketReady(c.link) {
      var k := c.nextCheck;
      AwaitReceives(c.(nextCheck := k + 1, healthCheck := Some(k),
                       checks := c.checks[k := Client.Check(c.healthGeneration, Client.ProbeFailed)]), k);
    }
  }

  lemma FailureReceives(c: Client.Client, a: Client.Attempt)
    ensures Client.FailAttempt(c, a).requests.received == c.requests.received
  {
    hide Client.Released;
  }

  lemma FetchReceives(c: Client.Client, a: Client.Attempt, result: Client.FetchResult)
    requires a in c.attempts && c.attempts[a].Fetching?
    ensures Client.AfterFetch(c, a, result).requests.received == c.requests.received
  {
    hide Client.FailAttempt, Client.Settled, Client.FailProbes, Client.CloseLink;
    var c1 := if result.Failed? then c.(transport := Client.Reconnecting) else Client.Adopted(c, a, result.session);
    FailureReceives(c, a);
    FailureReceives(Client.CloseCurrent(c1), a);
  }

  lemma CheckReceives(c: Client.Client, k: nat)
    requires k in c.checks
    ensures Client.AfterResumeCheck(c, k).requests.received == c.requests.received
  {
    hide Client.AwaitReconnect, Client.Released, Client.Settled, Client.CloseLink;
    var c1 := c.(transport := Client.Stale);
    ClientTheorems.CloseSameChecks(c1);
    AwaitReceives(Client.CloseCurrent(c1), k);
  }

  lemma CloseReceives(c: Client.Client, s: nat)
    ensures Client.AfterClose(c, s).requests.received == c.requests.received
  {
    hide Client.Settled, Client.FailProbes, Client.MarkClosed;
  }

  lemma ClientMoveKeeps(y: System, step: Client.Step)
    requires Inv(y) && Enabled(y, ClientMoves(step))
    ensures Inv(Next(y, ClientMoves(step)))
  {
    hide Relay.Inv, ClientProofs.Inv, ClientProofs.Core, Client.Enabled, Client.Next, DoneFor;
    ClientTheorems.NextKeeps(y.client, step);
    ReceivedBy(y.client, step);
    ClientGuarantees.InvIsCore(y.client);
    ClientGuarantees.StepExtends(y.client, step);
    FramesKeepFacts(y, Next(y, ClientMoves(step)));
  }

  lemma FramesKeepFacts(y: System, y': System)
    requires FactsInv(y) && y'.relay == y.relay && y'.wires == y.wires
    requires ClientGuarantees.Extends(y.client.requests, y'.client.requests)
    ensures FactsInv(y')
  {
    hide DoneFor;
    forall f, s | f in y'.relay.facts && s in y'.wires && y'.wires[s] == f.actor
      ensures exists i :: Asked(y'.client.requests, i, s, f)
    {
      var i :| Asked(y.client.requests, i, s, f);
      assert Asked(y'.client.requests, i, s, f);
    }
  }

  lemma NextKeeps(y: System, m: Move)
    requires Inv(y) && Enabled(y, m)
    ensures Inv(Next(y, m))
  {
    hide Inv, Enabled, Next;
    match m
    case RelayMoves(step) => RelayMoveKeeps(y, step);
    case ClientMoves(step) => ClientMoveKeeps(y, step);
    case Accept(s, step) => AcceptKeeps(y, s, step);
  }

  lemma StartKeeps()
    ensures Inv(Start())
  {
    hide Relay.Inv, ClientProofs.Inv;
    RelayProofs.StartKeeps();
    ClientProofs.StartKeeps();
  }

  /** The invariant holds in every state of every run. */
  lemma {:induction false} Always(ys: seq<System>, moves: seq<Move>, k: nat)
    requires Behaviour(ys, moves) && k < |ys|
    ensures Inv(ys[k])
  {
    hide Inv, Enabled, Next;
    if k == 0 {
      StartKeeps();
    } else {
      Always(ys, moves, k - 1);
      assert Goes(ys, moves, k - 1);
      NextKeeps(ys[k - 1], moves[k - 1]);
    }
  }

  // ----- no false success -----

  /** What a success of this frame says: the relay has routed it to a target, or applied this very decision. */
  ghost predicate Honoured(y: System, f: Client.Frame) {
    f.socket in y.wires
    && var c := y.wires[f.socket];
       if Routable(f.event.kind) then
         exists fact :: fact in y.relay.facts && Delivers(y.relay, fact, c, f.event)
       else if f.event.kind.JoinApprove? || f.event.kind.JoinDeny? then
         exists fact :: fact in y.relay.facts && Decides(y.relay, fact, c, f.event)
       else true
  }

  ghost predicate Delivers(w: Relay.World, fact: Fact, c: Connection, e: Event) {
    && fact.Routed? && fact.actor == c && fact.event == RoutedEvent(c, e, fact.target.deviceId)
    && fact.target.channelId == c.channelId && IsMember(w.hub, fact.target) && Wrote(fact.target, fact.event) in w.sent
  }

  ghost predicate Decides(w: Relay.World, fact: Fact, c: Connection, e: Event) {
    && fact.Decided? && fact.actor == c && fact.id == e.id && fact.approved == e.kind.JoinApprove?
    && e.payload.Fields? && fact.joinId == e.payload.joinRequestId
    && fact.joinId in w.decided && w.decided[fact.joinId] == fact.approved
  }

  lemma MessageHonoured(y: System, i: int, answer: Event)
    requires Inv(y) && 0 <= i < |y.client.requests.frames| && y.client.requests.frames[i].socket in y.wires
    requires var frame := y.client.requests.frames[i];
             && Routable(frame.event.kind) && answer.kind.MessageAck?
             && Wrote(y.wires[frame.socket], answer) in y.relay.sent && answer.replyTo == frame.event.id
    ensures Honoured(y, y.client.requests.frames[i])
  {
    hide Relay.Inv, ClientProofs.Inv, WiresInv, ReceivedInv;
    Acks(y.relay);
    UniqueFrames(y.client);
    var frame := y.client.requests.frames[i];
    var o := Wrote(y.wires[frame.socket], answer);
    assert Relay.AckBacked(y.relay, o);
    var f :| f in y.relay.facts && f.Routed? && f.actor == o.conn && f.id == o.event.replyTo
             && o.event.payload == Payload.Delivered(f.target.deviceId);
    assert Relay.RoutedWell(y.relay, f);
    assert Delivers(y.relay, f, o.conn, frame.event);
  }

  lemma DecisionHonoured(y: System, i: int, answer: Event)
    requires Inv(y) && 0 <= i < |y.client.requests.frames| && y.client.requests.frames[i].socket in y.wires
    requires var frame := y.client.requests.frames[i];
             && (frame.event.kind.JoinApprove? || frame.event.kind.JoinDeny?) && answer.kind.JoinDecisionAck?
             && Wrote(y.wires[frame.socket], answer) in y.relay.sent && answer.replyTo == frame.event.id
             && Client.Acceptable(frame.event.kind, frame.event.payload, answer.payload)
    ensures Honoured(y, y.client.requests.frames[i])
  {
    hide Relay.Inv, ClientProofs.Inv, WiresInv, ReceivedInv;
    Acks(y.relay);
    UniqueFrames(y.client);
    var frame := y.client.requests.frames[i];
    var o := Wrote(y.wires[frame.socket], answer);
    assert Relay.DecisionBacked(y.relay, o);
    var f :| f in y.relay.facts && f.Decided? && f.actor == o.conn && f.id == o.event.replyTo
             && o.event.payload == Decision(f.joinId, f.deviceId, f.approved);
    assert Decides(y.relay, f, o.conn, frame.event);
  }

  lemma Acks(w: Relay.World)
    requires Relay.Inv(w)
    ensures Relay.AckInv(w)
  {
    hide Relay.AckInv;
  }

  lemma UniqueFrames(c: Client.Client)
    requires ClientProofs.Inv(c)
    ensures forall i, j | 0 <= i < |c.requests.frames| && 0 <= j < |c.requests.frames|
                          && c.requests.frames[i].event.id == c.requests.frames[j].event.id :: i == j
  {
    hide ClientProofs.Core;
    ClientGuarantees.InvIsCore(c);
    ClientGuarantees.OnceOnly(c);
  }

  /**
   * If a send, ask, reply, approve or deny of the client succeeds in any run, its frame was written to one socket,
   * and for exactly that frame, received on that socket's connection, the relay has written the message to a member
   * of the sender's channel, or has applied the decision that was asked for.
   */
  lemma NoFalseSuccess(ys: seq<System>, moves: seq<Move>, k: nat, id: string) returns (i: int)
    requires Behaviour(ys, moves) && k < |ys|
    requires id in ys[k].client.requests.outcomes && ys[k].client.requests.outcomes[id].Success?
    ensures var q := ys[k].client.requests;
            0 <= i < |q.frames| && q.frames[i].event.id == id && Honoured(ys[k], q.frames[i])
  {
    hide Inv, Goes;
    Always(ys, moves, k);
    i := SuccessMeans(ys[k], id);
  }

  lemma SuccessMeans(y: System, id: string) returns (i: int)
    requires Inv(y) && id in y.client.requests.outcomes && y.client.requests.outcomes[id].Success?
    ensures 0 <= i < |y.client.requests.frames| && y.client.requests.frames[i].event.id == id
    ensures Honoured(y, y.client.requests.frames[i])
  {
    hide Relay.Inv, ClientProofs.Core, WiresInv, FactsInv;
    var q := y.client.requests;
    AnswerOf(y.client, id);
    var answer := q.outcomes[id].answer;
    i :| ClientProofs.FrameOf(q, i, id) && ClientProofs.Answers(q, q.frames[i], answer);
    var frame := q.frames[i];
    assert (frame.socket, answer) in q.received;
    if Routable(frame.event.kind) {
      MessageHonoured(y, i, answer);
    } else if frame.event.kind.JoinApprove? || frame.event.kind.JoinDeny? {
      DecisionHonoured(y, i, answer);
    }
  }

  lemma AnswerOf(c: Client.Client, id: string)
    requires ClientProofs.Inv(c) && id in c.requests.outcomes && c.requests.outcomes[id].Success?
    ensures exists i :: ClientProofs.FrameOf(c.requests, i, id)
                        && ClientProofs.Answers(c.requests, c.requests.frames[i], c.requests.outcomes[id].answer)
  {
    hide ClientProofs.RequestsInv, ClientProofs.AttemptsInv, ClientProofs.ChecksInv;
    OutcomePart(c);
  }

  lemma OutcomePart(c: Client.Client)
    requires ClientProofs.RequestsInv(c)
    ensures ClientProofs.OutcomeInv(c.requests)
  {
    hide ClientProofs.LinkInv, ClientProofs.WaiterInv, ClientProofs.IdInv, ClientProofs.OutcomeInv;
  }

  /** A forwarded peer event is never an answer: receiving it settles no request of the client. */
  lemma ForwardedSettlesNothing(ys: seq<System>, moves: seq<Move>, k: nat, s: nat, e: Event)
    requires Behaviour(ys, moves) && k < |moves| && moves[k] == ClientMoves(Client.SocketMessage(s, e))
    requires Routable(e.kind) || e.kind.MessageBroadcast?
    ensures ys[k + 1].client.requests.outcomes == ys[k].client.requests.outcomes
    ensures ys[k + 1].client.requests.waiters == ys[k].client.requests.waiters
  {
    hide Client.AfterMessage, Client.Quiet;
    assert Goes(ys, moves, k);
    ForwardedIsNoAnswer(ys[k].client, s, e);
  }

  lemma ForwardedIsNoAnswer(c: Client.Client, s: nat, e: Event)
    requires Routable(e.kind) || e.kind.MessageBroadcast?
    ensures Client.AfterMessage(c, s, e).requests.outcomes == c.requests.outcomes
    ensures Client.AfterMessage(c, s, e).requests.waiters == c.requests.waiters
  {
  }
}
