/** Answers to requests, routing of messages, admission to channels, and the registry's identities. */
module RelayAnswers {
  import opened Options
  import opened Identifiers
  import opened Protocol
  import opened Connections
  import opened RegistrySpec
  import opened HubSpec
  import opened RelayRuns
  import opened RegistryProofs
  import opened RelayProofs
  import opened RelayEventProofs
  import opened RelayTheorems
  import opened RelayGuarantees

  // ----- one correlated answer -----

  /** o answers the request `id` of connection c. */
  predicate Answers(o: Out, c: Connection, id: string) {
    o.Wrote? && o.conn == c && IsAnswer(o.event.kind) && o.event.replyTo == id
  }

  ghost predicate OneAnswer(out: set<Out>, c: Connection, id: string) {
    exists o :: o in out && Answers(o, c, id) && forall o' | o' in out && Answers(o', c, id) :: o' == o
  }

  ghost predicate NoAnswers(out: set<Out>, c: Connection, id: string) {
    forall o | o in out :: !Answers(o, c, id)
  }

  lemma OneAnswerUnion(out: set<Out>, rest: set<Out>, c: Connection, id: string)
    requires OneAnswer(out, c, id) && NoAnswers(rest, c, id)
    ensures OneAnswer(out + rest, c, id)
  {
    var o :| o in out && Answers(o, c, id) && forall o' | o' in out && Answers(o', c, id) :: o' == o;
    assert o in out + rest;
  }

  lemma OneAnswerSingle(o: Out, c: Connection, id: string)
    requires Answers(o, c, id)
    ensures OneAnswer({o}, c, id)
  {
    hide Answers;
    var out := {o};
    assert o in out && forall o' | o' in out && Answers(o', c, id) :: o' == o;
    assert OneAnswer(out, c, id);
  }

  lemma NoticesAreNoAnswers(h: Hub, change: PresenceChange, d: string, c: Connection, id: string)
    ensures NoAnswers(EmitPresenceChange(h, change, d), c, id)
    ensures change.channel.Some? ==> NoAnswers(NotifyOwnerOfPendingJoins(h, change.channel.value), c, id)
  {
  }

  /** Every event that changes no map is answered once, except a broadcast by a member. */
  lemma PlainAnswer(h: Hub, c: Connection, e: Event, x: Choice)
    requires CanSend(h, c) && !Decides(h, c, e, x) && !Delivers(h, c, e, x)
    requires !(e.kind.MessageBroadcast? && IsMember(h, c) && (e.channelId == "" || e.channelId == c.channelId))
    ensures OneAnswer(HandleEvent(h, c, e, x).out, c, e.id)
  {
    hide DecideByOwner, EmitPresenceChange, IsTarget, IsJoin, CanSend, Decide, OneAnswer;
    var out := HandleEvent(h, c, e, x).out;
    if Passes(h, c, e, x) {
      var error := Wrote(c, ErrorEvent(c, "target_unreachable", e.id));
      var routed := Wrote(x.target.value, RoutedEvent(c, e, x.target.value.deviceId));
      OneAnswerSingle(error, c, e.id);
      OneAnswerUnion({error}, {routed}, c, e.id);
      assert out == {error} + {routed};
    } else {
      assert exists o :: out == {o} && Answers(o, c, e.id);
      var o :| out == {o} && Answers(o, c, e.id);
      OneAnswerSingle(o, c, e.id);
    }
  }

  lemma DeliveryAnswer(h: Hub, c: Connection, e: Event, x: Choice)
    requires Delivers(h, c, e, x)
    ensures OneAnswer(HandleEvent(h, c, e, x).out, c, e.id)
  {
    DeliveryEffect(h, c, e, x);
    hide HandleEvent, Delivers, OneAnswer;
    var ack := Wrote(c, MessageAckEvent(c, e.id, x.target.value.deviceId));
    var routed := Wrote(x.target.value, RoutedEvent(c, e, x.target.value.deviceId));
    OneAnswerSingle(ack, c, e.id);
    assert NoAnswers({routed}, c, e.id) by { RoutedKind(h, c, e, x); }
    OneAnswerUnion({ack}, {routed}, c, e.id);
    assert HandleEvent(h, c, e, x).out == {ack} + {routed};
  }

  lemma RoutedKind(h: Hub, c: Connection, e: Event, x: Choice)
    requires Delivers(h, c, e, x)
    ensures !IsAnswer(RoutedEvent(c, e, x.target.value.deviceId).kind)
  {
    hide CanSend;
  }

  lemma DecisionAnswer(w: World, c: Connection, e: Event, x: Choice)
    requires Inv(w) && Enabled(w, Receive(c, e, x)) && Decides(w.hub, c, e, x)
    ensures OneAnswer(HandleEvent(w.hub, c, e, x).out, c, e.id)
  {
    hide Inv, Decides, HandleEvent, OneAnswer, DecideByOwner, NoAnswers, IsTarget, IsJoin, RegistryInv, PendingInv, OneDecided;
    DecidesMeans(w.hub, c, e, x);
    DecisionRegistry(w, c, e, x);
    DecideEffect(w.hub, c, e, x);
    var join := w.hub.registry.channels[c.channelId].pending[x.join.value];
    var r' := DecideByOwner(w.hub.registry, c.channelId, c.deviceId, join.id, e.kind.JoinApprove?).value;
    var h := w.hub.(registry := r');
    InvParts(w);
    MemberIsNotWaiting(w, c, e, x, join.id);
    DecideAnswer(h, c, e, join, x);
  }

  /** The sender of a decision is not the connection that waits for it. */
  lemma MemberIsNotWaiting(w: World, c: Connection, e: Event, x: Choice, j: string)
    requires Inv(w) && Decides(w.hub, c, e, x)
    ensures j in w.hub.pending ==> w.hub.pending[j] != c
  {
    hide RegistryInv, DecidedInv, PresenceInv, KnowsInv, AckInv, SocketsInv, MembersInv, CanSend, DecideByOwner;
  }

  lemma DecideAnswer(h: Hub, c: Connection, e: Event, join: JoinRequest, x: Choice)
    requires join.id in h.pending ==> h.pending[join.id] != c
    ensures OneAnswer(Decide(h, c, e, join, e.kind.JoinApprove?, x).out, c, e.id)
  {
    var approve := e.kind.JoinApprove?;
    var ack := Wrote(c, DecisionAckEvent(c, e.id, join.id, join.deviceId, approve));
    var out := Decide(h, c, e, join, approve, x).out;
    assert ack in out by { DecideAcks(h, c, e, join, approve, x); }
    forall o | o in out && o != ack ensures !Answers(o, c, e.id) {
      OnlyTheAckAnswers(h, c, e, join, approve, x, o);
    }
    assert Answers(ack, c, e.id);
  }

  lemma DecideAcks(h: Hub, c: Connection, e: Event, join: JoinRequest, approve: bool, x: Choice)
    ensures Wrote(c, DecisionAckEvent(c, e.id, join.id, join.deviceId, approve)) in Decide(h, c, e, join, approve, x).out
  {
    hide SetOnline, EmitPresenceChange;
  }

  lemma OnlyTheAckAnswers(h: Hub, c: Connection, e: Event, join: JoinRequest, approve: bool, x: Choice, o: Out)
    requires join.id in h.pending ==> h.pending[join.id] != c
    requires o in Decide(h, c, e, join, approve, x).out
    requires o != Wrote(c, DecisionAckEvent(c, e.id, join.id, join.deviceId, approve))
    ensures !Answers(o, c, e.id)
  {
    hide SetOnline, EmitPresenceChange;
    if approve && join.id in h.pending {
      var waiting := h.pending[join.id];
      var h1 := Promote(h, waiting);
      match SetOnline(h1.registry, waiting.channelId, waiting.deviceId, true, false)
      case None =>
      case Some((r, change)) => NoticesAreNoAnswers(h1.(registry := r), change, waiting.deviceId, c, e.id);
    }
  }

  /** Every event of a connection that may send gets exactly one answer, except a broadcast by a member. */
  lemma OneCorrelatedAnswer(w: World, c: Connection, e: Event, x: Choice)
    requires Inv(w) && Enabled(w, Receive(c, e, x)) && CanSend(w.hub, c)
    requires !(e.kind.MessageBroadcast? && IsMember(w.hub, c) && (e.channelId == "" || e.channelId == c.channelId))
    ensures OneAnswer(HandleEvent(w.hub, c, e, x).out, c, e.id)
  {
    hide Inv, CanSend, HandleEvent, OneAnswer, IsTarget, IsJoin, Decides;
    if Decides(w.hub, c, e, x) {
      DecisionAnswer(w, c, e, x);
    } else if Delivers(w.hub, c, e, x) {
      DeliveryAnswer(w.hub, c, e, x);
    } else {
      PlainAnswer(w.hub, c, e, x);
    }
  }

  // ----- isolated routing -----

  /** A message that reaches o.conn because of the event e from c: same channel, true sender, true target. */
  ghost predicate WellRouted(h: Hub, o: Out, c: Connection, e: Event)
    requires o.Wrote?
  {
    && IsMember(h, c) && CurrentMember(h, o.conn) && IsMember(h, o.conn) && o.conn.channelId == c.channelId
    && o.event.kind == e.kind && o.event.id == e.id && o.event.channelId == c.channelId && o.event.from == c.deviceId
    && (Routable(e.kind) ==> o.event.to == o.conn.deviceId)
    && (e.kind.MessageBroadcast? ==> o.conn.deviceId != c.deviceId)
    && o.event.payload == PayloadOrEmpty(e.payload)
  }

  predicate IsMessage(kind: Kind) {
    Routable(kind) || kind.MessageBroadcast?
  }

  /** Whatever message a step writes goes to a current member of the sender's own channel. */
  lemma RoutingIsIsolated(w: World, c: Connection, e: Event, x: Choice, o: Out)
    requires Inv(w) && Enabled(w, Receive(c, e, x))
    requires o in HandleEvent(w.hub, c, e, x).out && o.Wrote? && IsMessage(o.event.kind)
    ensures WellRouted(w.hub, o, c, e)
  {
    hide Inv, CanSend, Decides, HandleEvent, WellRouted, MembersInv, ValidChoice, IsMessage;
    if CanSend(w.hub, c) && Decides(w.hub, c, e, x) {
      DecisionWritesNoMessage(w, c, e, x, o);
    } else {
      InvParts(w);
      PlainMessages(w, c, e, x, o);
    }
  }

  lemma DecisionWritesNoMessage(w: World, c: Connection, e: Event, x: Choice, o: Out)
    requires Inv(w) && Enabled(w, Receive(c, e, x)) && Decides(w.hub, c, e, x) && o in HandleEvent(w.hub, c, e, x).out
    ensures o.Wrote? ==> !IsMessage(o.event.kind)
  {
    hide Inv, Decides, HandleEvent, DecideByOwner, IsTarget, IsJoin, RegistryInv, OneDecided, Decide;
    DecidesMeans(w.hub, c, e, x);
    DecisionRegistry(w, c, e, x);
    DecideEffect(w.hub, c, e, x);
    var join := w.hub.registry.channels[c.channelId].pending[x.join.value];
    var r' := DecideByOwner(w.hub.registry, c.channelId, c.deviceId, join.id, e.kind.JoinApprove?).value;
    DecideWritesNoMessage(w.hub.(registry := r'), c, e, join, e.kind.JoinApprove?, x, o);
  }

  lemma DecideWritesNoMessage(h: Hub, c: Connection, e: Event, join: JoinRequest, approve: bool, x: Choice, o: Out)
    requires o in Decide(h, c, e, join, approve, x).out
    ensures o.Wrote? ==> !IsMessage(o.event.kind)
  {
    hide SetOnline, EmitPresenceChange;
    if approve && join.id in h.pending {
      var waiting := h.pending[join.id];
      var h1 := Promote(h, waiting);
      match SetOnline(h1.registry, waiting.channelId, waiting.deviceId, true, false)
      case None =>
      case Some((r, change)) => NoticesAreNoMessages(h1.(registry := r), change, waiting.deviceId);
    }
  }

  lemma NoticesAreNoMessages(h: Hub, change: PresenceChange, d: string)
    ensures forall o | o in EmitPresenceChange(h, change, d) && o.Wrote? :: !IsMessage(o.event.kind)
  {
  }

  lemma PlainMessages(w: World, c: Connection, e: Event, x: Choice, o: Out)
    requires MembersInv(w) && ValidChoice(w.hub, c, e, x) && !(CanSend(w.hub, c) && Decides(w.hub, c, e, x))
    requires o in HandleEvent(w.hub, c, e, x).out && o.Wrote? && IsMessage(o.event.kind)
    ensures WellRouted(w.hub, o, c, e)
  {
    hide DecideByOwner, Decide, IsJoin, CanSend, IsTarget, HandleMessageSend, HandleMessageBroadcast, WellRouted;
    if CanSend(w.hub, c) && (e.channelId == "" || e.channelId == c.channelId) {
      if Routable(e.kind) {
        SentMessages(w, c, e, x, o);
      } else if e.kind.MessageBroadcast? {
        BroadcastMessages(w, c, e, o);
      }
    }
  }

  lemma SentMessages(w: World, c: Connection, e: Event, x: Choice, o: Out)
    requires MembersInv(w) && IsTarget(w.hub, c.channelId, e.to, x.target) && Routable(e.kind)
    requires o in HandleMessageSend(w.hub, c, e, x).out && o.Wrote? && IsMessage(o.event.kind)
    ensures WellRouted(w.hub, o, c, e)
  {
    hide IsTarget, OnlineMember;
    if x.target.Some? {
      TargetIsCurrentMember(w, c.channelId, e.to, x.target);
    }
  }

  lemma BroadcastMessages(w: World, c: Connection, e: Event, o: Out)
    requires MembersInv(w) && e.kind.MessageBroadcast?
    requires o in HandleMessageBroadcast(w.hub, c, e).out && o.Wrote? && IsMessage(o.event.kind)
    ensures WellRouted(w.hub, o, c, e)
  {
    hide OnlineMember;
  }

  // ----- admission -----

  /** c, the current connection of the channel's owner, has just approved join id j. */
  ghost predicate Admits(w: World, s: Step, id: string, a: Admission) {
    && s.Receive? && s.event.kind.JoinApprove? && s.conn.channelId == id && CurrentMember(w.hub, s.conn)
    && id in w.hub.registry.channels && a.actor == s.conn
    && a.ownerId == s.conn.deviceId == w.hub.registry.channels[id].ownerId
    && JoinOf(w.hub.registry.channels[id], a.joinId, a.deviceId)
  }

  /** The channel's history is as before, or one admission longer, and then this very step was the approval. */
  ghost predicate SameOrAdmitted(w: World, s: Step, id: string, life: Life, life': Life) {
    || life' == life
    || (|life'.admissions| == |life.admissions| + 1
        && var a := life'.admissions[|life.admissions|];
           life' == life.(admissions := life.admissions + [a]) && Admits(w, s, id, a))
  }

  lemma ReceiveAdmits(w: World, c: Connection, e: Event, x: Choice, id: string)
    requires Inv(w) && Enabled(w, Receive(c, e, x)) && id in w.lives && id in AfterReceive(w, c, e, x).lives
    ensures SameOrAdmitted(w, Receive(c, e, x), id, w.lives[id], AfterReceive(w, c, e, x).lives[id])
    ensures forall j | j in w.decided :: j in AfterReceive(w, c, e, x).decided && AfterReceive(w, c, e, x).decided[j] == w.decided[j]
  {
    hide Inv, CanSend, Decides, HandleEvent, Record, IsTarget, IsJoin, NoAcks;
    if !CanSend(w.hub, c) {
      RejectEffect(w.hub, c, e, x);
      RecordNothing(w, c, HandleEvent(w.hub, c, e, x).facts);
    } else if Decides(w.hub, c, e, x) {
      DecisionAdmits(w, c, e, x, id);
    } else if Delivers(w.hub, c, e, x) {
      DeliveryEffect(w.hub, c, e, x);
      RecordNothing(w, c, HandleEvent(w.hub, c, e, x).facts);
    } else {
      PlainEffect(w.hub, c, e, x);
      RecordNothing(w, c, HandleEvent(w.hub, c, e, x).facts);
    }
  }

  lemma DecideFacts(h: Hub, c: Connection, e: Event, join: JoinRequest, approve: bool, x: Choice)
    ensures Decide(h, c, e, join, approve, x).facts == {Decided(c, e.id, join.id, join.deviceId, approve)}
  {
    hide SetOnline, EmitPresenceChange;
  }

  lemma DecisionAdmits(w: World, c: Connection, e: Event, x: Choice, id: string)
    requires Inv(w) && Enabled(w, Receive(c, e, x)) && Decides(w.hub, c, e, x)
    requires id in w.lives && id in AfterReceive(w, c, e, x).lives
    ensures SameOrAdmitted(w, Receive(c, e, x), id, w.lives[id], AfterReceive(w, c, e, x).lives[id])
    ensures forall j | j in w.decided :: j in AfterReceive(w, c, e, x).decided && AfterReceive(w, c, e, x).decided[j] == w.decided[j]
  {
    hide Inv, CanSend, HandleEvent, Record, IsTarget, IsJoin, DecideByOwner, RegistryInv, DecidedInv, OneDecided, Decide, Decides, MembersInv;
    DecidesMeans(w.hub, c, e, x);
    DecisionRegistry(w, c, e, x);
    DecideEffect(w.hub, c, e, x);
    InvParts(w);
    var join := w.hub.registry.channels[c.channelId].pending[x.join.value];
    var r' := DecideByOwner(w.hub.registry, c.channelId, c.deviceId, join.id, e.kind.JoinApprove?).value;
    DecideFacts(w.hub.(registry := r'), c, e, join, e.kind.JoinApprove?, x);
    RecordOne(w, c, e.id, join.id, join.deviceId, e.kind.JoinApprove?);
    UndecidedWhilePending(w, c.channelId, join.id);
    SenderMayDecide(w.hub, c, e, x);
    SenderIsOnline(w, c);
    if e.kind.JoinApprove? && id == c.channelId {
      assert Admits(w, Receive(c, e, x), id, Admission(join.deviceId, join.id, w.hub.registry.channels[id].ownerId, c));
    }
  }

  lemma SenderMayDecide(h: Hub, c: Connection, e: Event, x: Choice)
    requires Decides(h, c, e, x)
    ensures CanSend(h, c) && IsMember(h, c)
  {
    hide CanSend, DecideByOwner;
  }

  /**
   * Within the lifetime of a channel its history only grows, by one approval of the current owner at a time,
   * and no join id is ever decided twice or otherwise.
   */
  lemma AdmissionAuthority(w: World, s: Step, id: string)
    requires Inv(w) && Enabled(w, s) && id in w.lives && id in Next(w, s).lives
    ensures SameOrAdmitted(w, s, id, w.lives[id], Next(w, s).lives[id])
    ensures forall j | j in w.decided :: j in Next(w, s).decided && Next(w, s).decided[j] == w.decided[j]
  {
    hide Inv, SameOrAdmitted, AfterReceive, AfterHttpConnect, AfterEnd, AfterBeginJoiner, AfterEndJoiner, AfterClose, AfterExpiry, AfterBegin;
    if s.Receive? {
      ReceiveAdmits(w, s.conn, s.event, s.choice, id);
    } else {
      OtherStepsKeepHistory(w, s, id);
      Unadmitted(w, s, id);
    }
  }

  lemma OtherStepsKeepHistory(w: World, s: Step, id: string)
    requires Inv(w) && Enabled(w, s) && !s.Receive? && id in w.lives && id in Next(w, s).lives
    ensures Next(w, s).lives[id] == w.lives[id] && Next(w, s).decided == w.decided
  {
    hide Inv, Expire, FinishMember, FinishPending, Connect, RegistryInv, Registered, Tracked, RegisterMember, Unregister;
    if s.HttpConnect? {
      InvRegistry(w);
      CreatedIsNew(w, s.name, s.pin, s.deviceId, s.deviceName);
    }
  }

  lemma Unadmitted(w: World, s: Step, id: string)
    requires id in w.lives
    ensures SameOrAdmitted(w, s, id, w.lives[id], w.lives[id])
  {
  }

  lemma CreatedIsNew(w: World, name: string, pin: string, d: string, deviceName: string)
    requires RegistryInv(w.hub.registry, w.lives) && d != ""
    ensures Indexed(w.hub.registry)
    ensures var result := Connect(w.hub.registry, name, pin, d, deviceName).1;
            result.Created? ==> result.channelId !in w.lives
  {
    KeysFollowChannels(w);
    ConnectFacts(w.hub.registry, w.lives, name, pin, d, deviceName);
    hide Connect, Grown, OnlyNew, Consistent, ChannelInv;
  }

  /** The members are the creator and the admitted devices, ranked in the order of their admission. */
  lemma MembersAreAdmitted(w: World, id: string)
    requires Inv(w) && id in w.hub.registry.channels
    ensures id in w.lives
    ensures var members := w.hub.registry.channels[id].members; var life := w.lives[id];
            && |members| == 1 + |life.admissions|
            && life.creator in members && members[life.creator].priority == 1
            && (forall i | 0 <= i < |life.admissions| ::
                  var a := life.admissions[i];
                  && a.deviceId in members && members[a.deviceId].priority == i + 2
                  && a.joinId in w.decided && w.decided[a.joinId] && a.ownerId == a.actor.deviceId && a.actor.channelId == id)
            && (forall d | d in members :: d == life.creator || exists i :: 0 <= i < |life.admissions| && life.admissions[i].deviceId == d)
  {
    hide Inv, RegistryInv, SoundChannel, Elect;
    InvParts(w);
    ChannelInvOf(w, id);
    var members := w.hub.registry.channels[id].members;
    var life := w.lives[id];
    OrderLength(life);
    var order := Order(life);
    assert order[0] in members;
    forall i | 0 <= i < |life.admissions|
      ensures life.admissions[i].deviceId in members && members[life.admissions[i].deviceId].priority == i + 2
    {
      assert order[i + 1] == life.admissions[i].deviceId && order[i + 1] in members;
    }
    forall d | d in members && d != life.creator
      ensures exists i :: 0 <= i < |life.admissions| && life.admissions[i].deviceId == d
    {
      assert order[members[d].priority - 1] == d;
      assert life.admissions[members[d].priority - 2].deviceId == d;
    }
  }

  /** In every reachable state the owner is the earliest admitted member that is online. */
  lemma OwnershipIsAdmissionOrder(w: World, id: string)
    requires Inv(w) && id in w.hub.registry.channels
    ensures id in w.lives
    ensures var ch := w.hub.registry.channels[id]; var order := Order(w.lives[id]);
            && (forall k | 0 <= k < |order| :: order[k] in ch.members)
            && (ch.ownerId == "" <==> forall d | d in ch.members :: !ch.members[d].online)
            && (forall i | 0 <= i < |order| ::
                  ch.ownerId == order[i] <==>
                    ch.members[order[i]].online && forall k | 0 <= k < i :: !ch.members[order[k]].online)
  {
    hide Inv, RegistryInv;
    ChannelInvOf(w, id);
    OwnerIsEarliestOnline(w.hub.registry.channels[id].members, Order(w.lives[id]));
  }

  /** Members and joiners are different devices, each joiner waits once, and both stay within the limits. */
  lemma JoinPartition(w: World, id: string)
    requires Inv(w) && id in w.hub.registry.channels
    ensures var ch := w.hub.registry.channels[id];
            && |ch.members| <= MAX_MEMBERS && |ch.pending| <= MAX_PENDING_JOINS
            && (forall j | j in ch.pending :: ch.pending[j].deviceId !in ch.members && ch.pending[j].id == j && j !in w.decided)
            && (forall j, k | j in ch.pending && k in ch.pending && j != k :: ch.pending[j].deviceId != ch.pending[k].deviceId)
            && (forall other, j | other in w.hub.registry.channels && j in ch.pending
                                  && j in w.hub.registry.channels[other].pending :: other == id)
  {
    hide Inv, RegistryInv, Elect, Order, Ordered, ChannelKey, Issued;
    InvParts(w);
    ChannelInvOf(w, id);
    forall other, j | other in w.hub.registry.channels && j in w.hub.registry.channels[id].pending
                      && j in w.hub.registry.channels[other].pending
      ensures other == id
    {
      OneChannelPerJoin(w.hub.registry, w.lives, other, id, j);
    }
  }

  /** Connect creates a channel exactly when no live channel was created with that name and PIN. */
  lemma CreatedExactlyWhenNew(w: World, name: string, pin: string, d: string, deviceName: string)
    requires Inv(w) && d != ""
    ensures Indexed(w.hub.registry)
    ensures Connect(w.hub.registry, name, pin, d, deviceName).1.Created?
       <==> forall id | id in w.lives :: w.lives[id].name != name || w.lives[id].pin != pin
  {
    hide Inv, RegistryInv, Connect, ChannelKey;
    InvRegistry(w);
    CreatedIsNew(w, name, pin, d, deviceName);
    ConnectCreates(w.hub.registry, name, pin, d, deviceName);
    var r := w.hub.registry;
    if ChannelKey(name, pin) in r.channelByKey {
      var ch := KeyedChannel(r, w.lives, ChannelKey(name, pin));
      KeyOfLife(r, w.lives, ch.id);
      SameKeySameName(name, pin, w.lives[ch.id].name, w.lives[ch.id].pin);
    } else {
      LivesFollowChannels(w);
      forall id | id in w.lives ensures w.lives[id].name != name || w.lives[id].pin != pin {
        KeyOfLife(r, w.lives, id);
      }
    }
  }

  lemma ConnectCreates(r: Registry, name: string, pin: string, d: string, deviceName: string)
    requires Indexed(r)
    ensures Connect(r, name, pin, d, deviceName).1.Created? <==> ChannelKey(name, pin) !in r.channelByKey
  {
    hide ChannelKey, Elect, AskToJoin;
  }

  lemma KeyOfLife(r: Registry, lives: map<string, Life>, id: string)
    requires RegistryInv(r, lives) && id in r.channels
    ensures id in lives && r.channels[id].key == ChannelKey(lives[id].name, lives[id].pin)
    ensures r.channels[id].key in r.channelByKey && r.channelByKey[r.channels[id].key] == id
    ensures forall k | k in r.channelByKey && r.channelByKey[k] == id :: r.channels[id].key == k
  {
    hide SoundChannel, Ordered, Order, Elect, Issued, ChannelKey;
    assert ChannelInv(r.channels[id], lives[id], r.joinSeq);
  }

  lemma SameKeySameName(name: string, pin: string, name': string, pin': string)
    requires ChannelKey(name, pin) == ChannelKey(name', pin')
    ensures name == name' && pin == pin'
  {
    ChannelIdInjective(name, pin, name', pin');
  }
}
