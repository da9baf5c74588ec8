/** Handling an event keeps the invariant. */
module RelayEventProofs {
  import opened Options
  import opened Identifiers
  import opened Protocol
  import opened Connections
  import opened RegistrySpec
  import opened HubSpec
  import opened RelayRuns
  import opened RegistryProofs
  import opened RelayProofs

  // ----- events that change no map -----

  /** The event is passed on: its target is a current member connection of the sender's channel. */
  ghost predicate Passes(h: Hub, c: Connection, e: Event, x: Choice) {
    && CanSend(h, c) && (e.channelId == "" || e.channelId == c.channelId) && Routable(e.kind)
    && IsMember(h, c) && e.to != "" && x.target.Some? && IsMember(h, x.target.value)
  }

  ghost predicate Delivers(h: Hub, c: Connection, e: Event, x: Choice) {
    Passes(h, c, e, x) && x.writeOk
  }

  ghost predicate IsDecision(e: Event) {
    e.kind.JoinApprove? || e.kind.JoinDeny?
  }

  /** The registry applies the decision that the event asks for. */
  ghost predicate Decides(h: Hub, c: Connection, e: Event, x: Choice) {
    && CanSend(h, c) && (e.channelId == "" || e.channelId == c.channelId) && IsDecision(e)
    && IsMember(h, c) && JoinIdFromEvent(e) != "" && c.channelId in h.registry.channels
    && x.join.Some? && x.join.value in h.registry.channels[c.channelId].pending
    && DecideByOwner(h.registry, c.channelId, c.deviceId, x.join.value, e.kind.JoinApprove?).Done?
  }

  lemma PlainEffect(h: Hub, c: Connection, e: Event, x: Choice)
    requires CanSend(h, c) && !Decides(h, c, e, x) && !Delivers(h, c, e, x)
    ensures var effect := HandleEvent(h, c, e, x); effect.hub == h && effect.facts == {} && NoAcks(effect.out)
  {
    hide Decides, Delivers, HandleJoinDecision, HandleMessageSend, CanSend;
    if e.kind.JoinApprove? || e.kind.JoinDeny? {
      if e.channelId == "" || e.channelId == c.channelId {
        UndecidedEffect(h, c, e, x);
      }
    } else if Routable(e.kind) && (e.channelId == "" || e.channelId == c.channelId) {
      UndeliveredEffect(h, c, e, x);
    }
  }

  lemma UndecidedEffect(h: Hub, c: Connection, e: Event, x: Choice)
    requires CanSend(h, c) && (e.channelId == "" || e.channelId == c.channelId) && IsDecision(e) && !Decides(h, c, e, x)
    ensures var effect := HandleJoinDecision(h, c, e, e.kind.JoinApprove?, x); effect.hub == h && effect.facts == {} && NoAcks(effect.out)
  {
    hide DecideByOwner, CanSend, Decide;
  }

  lemma UndeliveredEffect(h: Hub, c: Connection, e: Event, x: Choice)
    requires CanSend(h, c) && (e.channelId == "" || e.channelId == c.channelId) && Routable(e.kind) && !Delivers(h, c, e, x)
    ensures var effect := HandleMessageSend(h, c, e, x); effect.hub == h && effect.facts == {} && NoAcks(effect.out)
  {
    hide CanSend;
  }

  lemma DeliveryEffect(h: Hub, c: Connection, e: Event, x: Choice)
    requires Delivers(h, c, e, x)
    ensures var effect := HandleEvent(h, c, e, x); var target := x.target.value;
            var routed := RoutedEvent(c, e, target.deviceId);
            && effect.hub == h && effect.facts == {Routed(c, e.id, target, routed)}
            && effect.out == {Wrote(target, routed), Wrote(c, MessageAckEvent(c, e.id, target.deviceId))}
  {
    hide CanSend;
  }

  lemma RejectEffect(h: Hub, c: Connection, e: Event, x: Choice)
    requires !CanSend(h, c)
    ensures var effect := HandleEvent(h, c, e, x);
            && effect.facts == {} && NoAcks(effect.out) && (effect.hub == h || effect.hub == RemovePending(h, c))
            && effect.hub.promoted == h.promoted
  {
    hide CanSend;
  }

  lemma RecordNothing(w: World, c: Connection, facts: set<Fact>)
    requires forall f | f in facts :: !f.Decided?
    ensures Record(w, c, facts) == w
  {
  }

  /** A target found by the relay's lookup is the current connection of a member of the channel. */
  lemma TargetIsCurrentMember(w: World, channelId: string, target: string, conn: Option<Connection>)
    requires MembersInv(w) && IsTarget(w.hub, channelId, target, conn) && conn.Some?
    ensures conn.value.channelId == channelId && CurrentMember(w.hub, conn.value)
  {
  }

  lemma SentOnly(w: World, w': World)
    requires Inv(w) && AckInv(w')
    requires w'.hub == w.hub && w'.open == w.open && w'.seen == w.seen && w'.opening == w.opening
    requires w'.lives == w.lives && w'.decided == w.decided && w.sent <= w'.sent
    ensures Inv(w')
  {
    hide RegistryInv, DecidedInv, MembersInv, PendingInv, PresenceInv, SocketsInv, KnowsInv, AckInv;
    SameViews(w, w');
    SamePresence(w, w');
    SameKnows(w, w');
  }

  lemma DeliveryAcks(w: World, w': World, c: Connection, e: Event, target: Connection)
    requires AckInv(w) && w'.decided == w.decided && Routable(e.kind) && target.channelId == c.channelId
    requires w'.hub.promoted == w.hub.promoted && IsMember(w.hub, target)
    requires var routed := RoutedEvent(c, e, target.deviceId);
             && w'.sent == w.sent + {Wrote(target, routed), Wrote(c, MessageAckEvent(c, e.id, target.deviceId))}
             && w'.facts == w.facts + {Routed(c, e.id, target, routed)}
    ensures AckInv(w')
  {
    var f := Routed(c, e.id, target, RoutedEvent(c, e, target.deviceId));
    assert f in w'.facts;
    assert RoutedWell(w', f);
    var ack := Wrote(c, MessageAckEvent(c, e.id, target.deviceId));
    assert AckBacked(w', ack);
    AckGrow(w, w');
  }

  lemma PlainKeeps(w: World, c: Connection, e: Event, x: Choice)
    requires Inv(w) && Enabled(w, Receive(c, e, x)) && CanSend(w.hub, c) && !Decides(w.hub, c, e, x)
    ensures Inv(AfterReceive(w, c, e, x))
  {
    hide Inv, RegistryInv, DecidedInv, AckInv, HandleEvent, NoAcks, CanSend, DecideByOwner, IsTarget, IsJoin;
    var w', effect := AfterReceive(w, c, e, x), HandleEvent(w.hub, c, e, x);
    InvParts(w);
    if Delivers(w.hub, c, e, x) {
      DeliveryEffect(w.hub, c, e, x);
      TargetIsCurrentMember(w, c.channelId, e.to, x.target);
      RecordNothing(w, c, effect.facts);
      DeliveryAcks(w, w', c, e, x.target.value);
    } else {
      PlainEffect(w.hub, c, e, x);
      RecordNothing(w, c, effect.facts);
      AckQuiet(w, w', effect.out);
    }
    SentOnly(w, w');
  }

  // ----- rejected events -----

  lemma RemovePendingKeeps(w: World, c: Connection)
    requires Inv(w)
    ensures Inv(w.(hub := RemovePending(w.hub, c)))
  {
    hide RegistryInv, DecidedInv, AckBacked, DecisionBacked, RoutedWell, Vouched;
    AckFrame(w, w.(hub := RemovePending(w.hub, c)));
  }

  lemma RejectKeeps(w: World, c: Connection, e: Event, x: Choice)
    requires Inv(w) && !CanSend(w.hub, c)
    ensures Inv(AfterReceive(w, c, e, x))
  {
    hide Inv, HandleEvent, RemovePending, NoAcks, CanSend, AckInv;
    var w', effect := AfterReceive(w, c, e, x), HandleEvent(w.hub, c, e, x);
    RejectEffect(w.hub, c, e, x);
    RecordNothing(w, c, effect.facts);
    InvParts(w);
    RemovePendingKeeps(w, c);
    AckQuiet(w, w', effect.out);
    SentOnly(w.(hub := effect.hub), w');
  }

  // ----- applied decisions -----

  /** The world after the registry has applied a decision and the waiting connection is off the pending map. */
  ghost function AfterDecision(w: World, c: Connection, e: Event, join: JoinRequest, r: Registry): World {
    var fact := Decided(c, e.id, join.id, join.deviceId, e.kind.JoinApprove?);
    Record(w, c, {fact})
      .(hub := w.hub.(registry := r, pending := w.hub.pending - {join.id}),
        sent := w.sent + {Wrote(c, DecisionAckEvent(c, e.id, join.id, join.deviceId, e.kind.JoinApprove?))},
        facts := w.facts + {fact})
  }

  /** What Record makes of one decision. */
  lemma RecordOne(w: World, c: Connection, id: string, joinId: string, d: string, approved: bool)
    requires c.channelId in w.lives && c.channelId in w.hub.registry.channels
    ensures Record(w, c, {Decided(c, id, joinId, d, approved)})
         == w.(decided := w.decided[joinId := approved],
               lives := if approved then
                          w.lives[c.channelId := w.lives[c.channelId].(admissions := w.lives[c.channelId].admissions
                            + [Admission(d, joinId, w.hub.registry.channels[c.channelId].ownerId, c)])]
                        else w.lives)
  {
    assert Decided(c, id, joinId, d, approved) in {Decided(c, id, joinId, d, approved)};
  }

  /** A pending join has not been decided before. */
  lemma UndecidedWhilePending(w: World, id: string, j: string)
    requires DecidedInv(w.hub.registry, w.lives, w.decided)
    requires id in w.hub.registry.channels && j in w.hub.registry.channels[id].pending
    ensures j !in w.decided
  {
    hide Issued;
  }

  lemma DecisionAcks(w: World, w': World, c: Connection, e: Event, join: JoinRequest)
    requires AckInv(w) && join.id !in w.decided && w'.decided == w.decided[join.id := e.kind.JoinApprove?]
    requires w'.hub.promoted == w.hub.promoted
    requires w'.sent == w.sent + {Wrote(c, DecisionAckEvent(c, e.id, join.id, join.deviceId, e.kind.JoinApprove?))}
    requires w'.facts == w.facts + {Decided(c, e.id, join.id, join.deviceId, e.kind.JoinApprove?)}
    ensures AckInv(w')
  {
    var f := Decided(c, e.id, join.id, join.deviceId, e.kind.JoinApprove?);
    assert f in w'.facts;
    var ack := Wrote(c, DecisionAckEvent(c, e.id, join.id, join.deviceId, e.kind.JoinApprove?));
    assert DecisionBacked(w', ack);
    AckGrow(w, w');
  }

  /** r' has one pending join less in one channel, and perhaps its device as a new offline member. */
  ghost predicate OneDecided(r: Registry, r': Registry, id: string, j: string) {
    && r'.channels.Keys == r.channels.Keys && r'.joinSeq == r.joinSeq && id in r.channels && j in r.channels[id].pending
    && (forall i | i in r.channels && i != id :: r'.channels[i] == r.channels[i])
    && var ch := r.channels[id]; var ch' := r'.channels[id];
       && ch'.id == ch.id && ch'.ownerId == ch.ownerId && ch.ownerId != "" && ch'.pending == ch.pending - {j}
       && (ch'.members == ch.members
           || exists name, p: nat ::
                ch.pending[j].deviceId !in ch.members
                && ch'.members == ch.members[ch.pending[j].deviceId := Member(name, false, p)])
  }

  /** The history of a channel after an admission by c. */
  ghost function Extended(w: World, c: Connection, join: JoinRequest): map<string, Life>
    requires c.channelId in w.lives && c.channelId in w.hub.registry.channels
  {
    var life := w.lives[c.channelId];
    var a := Admission(join.deviceId, join.id, w.hub.registry.channels[c.channelId].ownerId, c);
    w.lives[c.channelId := life.(admissions := life.admissions + [a])]
  }

  lemma ApprovalRegistry(w: World, c: Connection, j: string, ch': Channel)
    requires Inv(w) && c.channelId in w.hub.registry.channels && c.channelId in w.lives
    requires var ch := w.hub.registry.channels[c.channelId]; ApproveJoin(ch, j) == Done(ch') && ch.ownerId != ""
    ensures var r := w.hub.registry; var ch := r.channels[c.channelId];
            && ch'.id == ch.id == c.channelId && j in ch.pending
            && OneDecided(r, r.(channels := r.channels[c.channelId := ch']), c.channelId, j)
            && ch.pending[j].deviceId in ch'.members
            && RegistryInv(r.(channels := r.channels[c.channelId := ch']), Extended(w, c, ch.pending[j]))
  {
    hide Inv, RegistryInv, ChannelInv, SoundChannel, Elect, ApproveJoin;
    InvParts(w);
    ChannelInvOf(w, c.channelId);
    var r, life := w.hub.registry, w.lives[c.channelId];
    var ch := r.channels[c.channelId];
    ApprovalId(ch, j);
    ChannelFacts(r, w.lives, c.channelId);
    ApprovalOutcome(ch, life, r.joinSeq, j, ch');
    ApproveKeeps(r, w.lives, ch, j, ch', Admission(ch.pending[j].deviceId, ch.pending[j].id, ch.ownerId, c));
  }

  lemma DenialRegistry(w: World, id: string, j: string)
    requires Inv(w) && id in w.hub.registry.channels && j in w.hub.registry.channels[id].pending
    requires w.hub.registry.channels[id].ownerId != ""
    ensures var r := w.hub.registry; var ch := r.channels[id];
            var r' := r.(channels := r.channels[id := ch.(pending := ch.pending - {j})]);
            OneDecided(r, r', id, j) && RegistryInv(r', w.lives)
  {
    hide Inv, RegistryInv;
    InvParts(w);
    ChannelFacts(w.hub.registry, w.lives, id);
    DenyKeeps(w.hub.registry, w.lives, w.hub.registry.channels[id], j);
  }

  lemma ApprovalId(ch: Channel, j: string)
    ensures ApproveJoin(ch, j).Done? ==> ApproveJoin(ch, j).value.id == ch.id && j in ch.pending
  {
  }

  lemma ChannelInvOf(w: World, id: string)
    requires Inv(w) && id in w.hub.registry.channels
    ensures id in w.lives && ChannelInv(w.hub.registry.channels[id], w.lives[id], w.hub.registry.joinSeq)
    ensures SoundChannel(w.hub.registry.channels[id])
  {
    hide ChannelInv, SoundChannel, Inverse;
  }

  lemma DecisionDecided(w: World, r': Registry, c: Connection, join: JoinRequest, approved: bool)
    requires DecidedInv(w.hub.registry, w.lives, w.decided) && OneDecided(w.hub.registry, r', c.channelId, join.id)
    requires forall i | i in w.hub.registry.channels && join.id in w.hub.registry.channels[i].pending :: i == c.channelId
    requires Issued(join.id, w.hub.registry.joinSeq) && w.hub.registry.channels[c.channelId].ownerId == c.deviceId
    requires c.channelId in w.lives && join.id !in w.decided
    ensures DecidedInv(r', if approved then Extended(w, c, join) else w.lives, w.decided[join.id := approved])
  {
    hide Issued;
    var decided' := w.decided[join.id := approved];
    forall j, i | j in decided' && i in r'.channels ensures j !in r'.channels[i].pending {
      assert i in w.hub.registry.channels;
    }
  }

  lemma DecisionMaps(w: World, w': World, id: string, j: string)
    requires MembersInv(w) && PendingInv(w) && SocketsInv(w) && OneDecided(w.hub.registry, w'.hub.registry, id, j)
    requires w'.hub == w.hub.(registry := w'.hub.registry, pending := w.hub.pending - {j})
    requires w'.open == w.open && w'.seen == w.seen && w'.opening == w.opening
    ensures MembersInv(w') && PendingInv(w') && SocketsInv(w')
  {
    forall s | OnlineMember(w.hub, s) ensures OnlineMember(w'.hub, s) {
    }
    DecisionJoins(w.hub.registry, w'.hub.registry, id, j);
    hide Vouched, FewerJoins;
    forall k | k in w'.hub.pending ensures Vouched(w'.hub.registry, w'.hub.pending[k]) {
      VouchedStill(w.hub.registry, w'.hub.registry, w.hub.pending[k]);
    }
  }

  lemma DecisionJoins(r: Registry, r': Registry, id: string, j: string)
    requires OneDecided(r, r', id, j)
    ensures FewerJoins(r, r')
  {
  }

  lemma DecisionPresence(w: World, w': World, id: string, j: string)
    requires PresenceInv(w) && OneDecided(w.hub.registry, w'.hub.registry, id, j)
    requires w'.hub.members == w.hub.members && w'.hub.timers == w.hub.timers
    ensures PresenceInv(w')
  {
    forall s | OnlineMember(w'.hub, s) ensures OnlineMember(w.hub, s) {
    }
  }

  lemma DecisionKnows(w: World, w': World, id: string, j: string)
    requires KnowsInv(w) && OneDecided(w.hub.registry, w'.hub.registry, id, j) && w.sent <= w'.sent
    requires w'.hub.members == w.hub.members && w'.hub.pending == w.hub.pending - {j} && w'.opening == w.opening
    ensures KnowsInv(w')
  {
    hide JoinRequestEvent;
    var r, r' := w.hub.registry, w'.hub.registry;
    forall i, k | i in r'.channels && k in r'.channels[i].pending && k in w'.hub.pending && w'.hub.pending[k] !in w'.opening
                  && r'.channels[i].ownerId != "" && (i, r'.channels[i].ownerId) in w'.hub.members
                  && w'.hub.members[(i, r'.channels[i].ownerId)] !in w'.opening
      ensures Told(w', r'.channels[i], w'.hub.members[(i, r'.channels[i].ownerId)], k)
    {
      assert Told(w, r.channels[i], w.hub.members[(i, r.channels[i].ownerId)], k);
    }
  }

  lemma DecisionKeeps(w: World, c: Connection, e: Event, join: JoinRequest, r': Registry)
    requires Inv(w) && OneDecided(w.hub.registry, r', c.channelId, join.id) && c.channelId in w.lives
    requires w.hub.registry.channels[c.channelId].pending[join.id] == join
    requires w.hub.registry.channels[c.channelId].ownerId == c.deviceId
    requires RegistryInv(r', if e.kind.JoinApprove? then Extended(w, c, join) else w.lives)
    ensures Inv(AfterDecision(w, c, e, join, r'))
  {
    hide Inv, RegistryInv, DecidedInv, MembersInv, PendingInv, PresenceInv, SocketsInv, KnowsInv, AckInv, OneDecided;
    hide Record, Issued;
    var w' := AfterDecision(w, c, e, join, r');
    InvParts(w);
    DecidedChannel(w, r', c.channelId, join.id);
    RecordOne(w, c, e.id, join.id, join.deviceId, e.kind.JoinApprove?);
    UndecidedWhilePending(w, c.channelId, join.id);
    PendingIssued(w.hub.registry, w.lives);
    forall i | i in w.hub.registry.channels && join.id in w.hub.registry.channels[i].pending ensures i == c.channelId {
      OneChannelPerJoin(w.hub.registry, w.lives, i, c.channelId, join.id);
    }
    DecisionDecided(w, r', c, join, e.kind.JoinApprove?);
    DecisionMaps(w, w', c.channelId, join.id);
    DecisionPresence(w, w', c.channelId, join.id);
    DecisionKnows(w, w', c.channelId, join.id);
    DecisionAcks(w, w', c, e, join);
    InvFrom(w');
  }

  lemma DecidedChannel(w: World, r': Registry, id: string, j: string)
    requires OneDecided(w.hub.registry, r', id, j)
    ensures id in w.hub.registry.channels && j in w.hub.registry.channels[id].pending
  {
  }

  // ----- an admitted device's connection becomes its member connection -----

  ghost function AfterPromote(w: World, p: Connection): World {
    w.(hub := RegisterMember(w.hub, p).(promoted := w.hub.promoted + {p}),
       opening := w.opening[p := Previous(w.hub, p)])
  }

  /** p is an open pending connection that the hub's maps no longer mention. */
  ghost predicate Detached(w: World, p: Connection) {
    && p in w.open && p.claimed.PendingRole? && p !in w.hub.promoted
    && forall j | j in w.hub.pending :: w.hub.pending[j] != p
  }

  lemma PromoteMaps(w: World, p: Connection)
    requires MembersInv(w) && PendingInv(w) && SocketsInv(w) && Detached(w, p)
    ensures MembersInv(AfterPromote(w, p)) && PendingInv(AfterPromote(w, p)) && SocketsInv(AfterPromote(w, p))
  {
    hide Vouched;
  }

  lemma PromotePresence(w: World, p: Connection)
    requires PresenceInv(w)
    ensures PresenceInv(AfterPromote(w, p))
  {
  }

  lemma PromoteKnows(w: World, p: Connection)
    requires KnowsInv(w) && Detached(w, p)
    ensures KnowsInv(AfterPromote(w, p))
  {
    hide JoinRequestEvent;
  }

  lemma PromoteKeeps(w: World, p: Connection)
    requires Inv(w) && Detached(w, p)
    ensures Inv(AfterPromote(w, p))
  {
    hide Inv, RegistryInv, DecidedInv, MembersInv, PendingInv, PresenceInv, SocketsInv, KnowsInv, AckInv, Detached;
    InvParts(w);
    PromoteMaps(w, p);
    PromotePresence(w, p);
    PromoteKnows(w, p);
    AckFrame(w, AfterPromote(w, p));
    InvFrom(AfterPromote(w, p));
  }

  lemma WaitingIsDetached(w: World, w1: World, j: string)
    requires PendingInv(w) && SocketsInv(w) && j in w.hub.pending
    requires w1.open == w.open && w1.opening == w.opening
    requires w1.hub.pending == w.hub.pending - {j} && w1.hub.promoted == w.hub.promoted
    ensures Detached(w1, w.hub.pending[j]) && w.hub.pending[j].joinRequestId == j
  {
    hide Vouched;
  }

  /** The waiting connection speaks for the device that asked to join. */
  lemma WaitingSpeaksForJoiner(w: World, id: string, j: string)
    requires PendingInv(w) && j in w.hub.pending
    requires id in w.hub.registry.channels && j in w.hub.registry.channels[id].pending
    ensures SlotOf(w.hub.pending[j]) == (id, w.hub.registry.channels[id].pending[j].deviceId)
  {
    hide Issued;
    assert Vouched(w.hub.registry, w.hub.pending[j]);
  }

  // ----- the effect of a decision, step by step -----

  /** Admitting is promoting, then ending a member handshake, then telling the device. */
  lemma AdmitEffect(h: Hub, c: Connection, e: Event, join: JoinRequest, x: Choice, ack: set<Out>, facts: set<Fact>)
    requires join.id in h.pending && h.pending[join.id].joinRequestId == join.id
    requires var p := h.pending[join.id];
             p.channelId in h.registry.channels && p.deviceId in h.registry.channels[p.channelId].members
             && h.registry.channels[p.channelId].ownerId != p.deviceId
    ensures var p := h.pending[join.id];
            var h0 := h.(pending := h.pending - {join.id});
            var h1 := RegisterMember(h0, p).(promoted := h0.promoted + {p});
            var finish := FinishMember(h1, p, Previous(h0, p));
            Admit(h, c, e, join, p, x, ack, facts)
              == Effect(finish.hub, ack + finish.out + {Wrote(p, ApprovedEvent(c, e, join, p, x.token))}, facts)
  {
    var p := h.pending[join.id];
    SetOnlineDefined(h.registry, p.channelId, p.deviceId, true, false);
    SetOnlineFacts(h.registry, p.channelId, p.deviceId, true, false);
    hide SetOnline, EmitPresenceChange, PresenceSet, Elect, NotifyOwnerOfPendingJoins;
    var h0 := h.(pending := h.pending - {join.id});
    var h1 := RegisterMember(h0, p).(promoted := h0.promoted + {p});
    assert Promote(h, p) == h1;
    var (r, change) := SetOnline(h.registry, p.channelId, p.deviceId, true, false).value;
    assert change.previousOwnerId != p.deviceId;
    var told := {Wrote(p, ApprovedEvent(c, e, join, p, x.token))};
    var emitted := EmitPresenceChange(h1.(registry := r), change, p.deviceId);
    var closed := ClosePrevious(Previous(h, p));
    assert ack + closed + emitted + told == ack + (emitted + {} + closed) + told;
  }

  lemma OwnerIsNotAdmitted(r: Registry, r': Registry, lives: map<string, Life>, id: string, j: string)
    requires RegistryInv(r, lives) && OneDecided(r, r', id, j)
    ensures r'.channels[id].ownerId != r.channels[id].pending[j].deviceId
  {
    ChannelFacts(r, lives, id);
  }

  lemma DecideEffect(h: Hub, c: Connection, e: Event, x: Choice)
    requires Decides(h, c, e, x)
    requires var ch := h.registry.channels[c.channelId]; ch.pending[x.join.value].id == x.join.value
    ensures var j := x.join.value; var join := h.registry.channels[c.channelId].pending[j];
            var r := DecideByOwner(h.registry, c.channelId, c.deviceId, j, e.kind.JoinApprove?).value;
            HandleEvent(h, c, e, x) == Decide(h.(registry := r), c, e, join, e.kind.JoinApprove?, x)
  {
    hide DecideByOwner, Decide, CanSend;
  }

  lemma DecideByOwnerMeans(r: Registry, id: string, d: string, j: string, approve: bool)
    requires DecideByOwner(r, id, d, j, approve).Done?
    ensures id in r.channels && r.channels[id].ownerId == d && j in r.channels[id].pending
    ensures var ch := r.channels[id]; var r' := DecideByOwner(r, id, d, j, approve).value;
            && (approve ==> ApproveJoin(ch, j).Done? && r' == r.(channels := r.channels[id := ApproveJoin(ch, j).value]))
            && (!approve ==> r' == r.(channels := r.channels[id := ch.(pending := ch.pending - {j})]))
  {
  }

  lemma DecisionRegistry(w: World, c: Connection, e: Event, x: Choice)
    requires Inv(w) && Decides(w.hub, c, e, x) && c in w.open && c !in w.opening
    ensures c.channelId in w.lives
    ensures var j := x.join.value; var ch := w.hub.registry.channels[c.channelId]; var join := ch.pending[j];
            var r' := DecideByOwner(w.hub.registry, c.channelId, c.deviceId, j, e.kind.JoinApprove?).value;
            && join.id == j && ch.ownerId == c.deviceId
            && OneDecided(w.hub.registry, r', c.channelId, j)
            && (e.kind.JoinApprove? ==> join.deviceId in r'.channels[c.channelId].members)
            && RegistryInv(r', if e.kind.JoinApprove? then Extended(w, c, join) else w.lives)
  {
    hide Inv, RegistryInv, MembersInv, DecideByOwner, OneDecided, ApproveJoin;
    var j := x.join.value;
    DecideByOwnerMeans(w.hub.registry, c.channelId, c.deviceId, j, e.kind.JoinApprove?);
    InvParts(w);
    LivesFollowChannels(w);
    SenderIsOnline(w, c);
    ChannelFacts(w.hub.registry, w.lives, c.channelId);
    if e.kind.JoinApprove? {
      ApprovalRegistry(w, c, j, ApproveJoin(w.hub.registry.channels[c.channelId], j).value);
    } else {
      DenialRegistry(w, c.channelId, j);
    }
  }

  /** A member that may send is online, so it has a non-empty device id. */
  lemma SenderIsOnline(w: World, c: Connection)
    requires Inv(w) && CanSend(w.hub, c) && IsMember(w.hub, c) && c !in w.opening
    ensures OnlineMember(w.hub, SlotOf(c)) && CurrentMember(w.hub, c) && c.deviceId != ""
  {
    hide RegistryInv, PendingInv, PresenceInv, KnowsInv, AckInv;
    ChannelFacts(w.hub.registry, w.lives, c.channelId);
  }

  lemma RecordKeeps(w: World, c: Connection, facts: set<Fact>)
    ensures var w' := Record(w, c, facts);
            && w'.hub == w.hub && w'.open == w.open && w'.seen == w.seen && w'.opening == w.opening
            && w'.sent == w.sent && w'.facts == w.facts
  {
  }

  /** A decision step is AfterDecision, up to the waiting connection and what it is told. */
  lemma DecisionStep(w: World, c: Connection, e: Event, x: Choice, join: JoinRequest, r': Registry, effect: Effect)
    requires effect == HandleEvent(w.hub, c, e, x)
    requires effect.facts == {Decided(c, e.id, join.id, join.deviceId, e.kind.JoinApprove?)}
    requires Wrote(c, DecisionAckEvent(c, e.id, join.id, join.deviceId, e.kind.JoinApprove?)) in effect.out
    ensures var w1 := AfterDecision(w, c, e, join, r');
            AfterReceive(w, c, e, x) == w1.(hub := effect.hub, sent := w1.sent + effect.out)
  {
    hide HandleEvent, Record;
    RecordKeeps(w, c, effect.facts);
    var w1 := AfterDecision(w, c, e, join, r');
    assert w.sent + effect.out == w1.sent + effect.out;
  }

  /** The decision has no waiting connection to tell. */
  lemma UnseenDecisionKeeps(w: World, c: Connection, e: Event, x: Choice)
    requires Inv(w) && Enabled(w, Receive(c, e, x)) && Decides(w.hub, c, e, x)
    requires x.join.Some? && x.join.value !in w.hub.pending
    ensures Inv(AfterReceive(w, c, e, x))
  {
    hide Inv, RegistryInv, DecideByOwner, OneDecided, HandleEvent, Record, IsTarget, IsJoin, Decides;
    DecidesMeans(w.hub, c, e, x);
    DecisionRegistry(w, c, e, x);
    DecideEffect(w.hub, c, e, x);
    var join := w.hub.registry.channels[c.channelId].pending[x.join.value];
    var r' := DecideByOwner(w.hub.registry, c.channelId, c.deviceId, join.id, e.kind.JoinApprove?).value;
    DecisionKeeps(w, c, e, join, r');
    assert w.hub.pending - {join.id} == w.hub.pending;
    DecisionStep(w, c, e, x, join, r', HandleEvent(w.hub, c, e, x));
    var w1 := AfterDecision(w, c, e, join, r');
    assert w1.sent + HandleEvent(w.hub, c, e, x).out == w1.sent;
  }

  lemma DecidesMeans(h: Hub, c: Connection, e: Event, x: Choice)
    requires Decides(h, c, e, x)
    ensures c.channelId in h.registry.channels && x.join.Some? && x.join.value in h.registry.channels[c.channelId].pending
    ensures DecideByOwner(h.registry, c.channelId, c.deviceId, x.join.value, e.kind.JoinApprove?).Done?
    ensures e.kind.JoinApprove? || e.kind.JoinDeny?
  {
    hide DecideByOwner, CanSend;
  }

  lemma DenialEffect(h: Hub, c: Connection, e: Event, join: JoinRequest, x: Choice)
    requires join.id in h.pending && h.pending[join.id].joinRequestId == join.id
    ensures var ack := Wrote(c, DecisionAckEvent(c, e.id, join.id, join.deviceId, false));
            Decide(h, c, e, join, false, x)
              == Effect(h.(pending := h.pending - {join.id}), {ack} + DenialOut(c, e, join, h.pending[join.id]),
                        {Decided(c, e.id, join.id, join.deviceId, false)})
  {
  }

  lemma DenialKeeps(w: World, c: Connection, e: Event, x: Choice)
    requires Inv(w) && Enabled(w, Receive(c, e, x)) && Decides(w.hub, c, e, x)
    requires x.join.Some? && x.join.value in w.hub.pending && e.kind.JoinDeny?
    ensures Inv(AfterReceive(w, c, e, x))
  {
    hide Inv, RegistryInv, PendingInv, SocketsInv, DecideByOwner, OneDecided, HandleEvent, Record, IsTarget, IsJoin, Decides, AckInv, NoAcks;
    hide Decide, AfterDecision, AfterReceive, DenialOut, MembersInv, PresenceInv, KnowsInv, DecidedInv, CanSend;
    DecidesMeans(w.hub, c, e, x);
    DecisionRegistry(w, c, e, x);
    DecideEffect(w.hub, c, e, x);
    InvParts(w);
    var join := w.hub.registry.channels[c.channelId].pending[x.join.value];
    var r' := DecideByOwner(w.hub.registry, c.channelId, c.deviceId, join.id, e.kind.JoinApprove?).value;
    DecisionKeeps(w, c, e, join, r');
    var w1, w' := AfterDecision(w, c, e, join, r'), AfterReceive(w, c, e, x);
    PendingUnder(w, join.id);
    DenialEffect(w.hub.(registry := r'), c, e, join, x);
    var effect := HandleEvent(w.hub, c, e, x);
    DecisionStep(w, c, e, x, join, r', effect);
    AfterDecisionMeans(w, c, e, join, r');
    SentExtra(w1, w', Wrote(c, DecisionAckEvent(c, e.id, join.id, join.deviceId, false)),
              DenialOut(c, e, join, w.hub.pending[join.id]), effect.out) by {
      DenialOutNoAcks(c, e, join, w.hub.pending[join.id]);
      DecisionSent(w, c, e, join, r');
    }
  }

  lemma DecisionSent(w: World, c: Connection, e: Event, join: JoinRequest, r': Registry)
    ensures var w1 := AfterDecision(w, c, e, join, r');
            Wrote(c, DecisionAckEvent(c, e.id, join.id, join.deviceId, e.kind.JoinApprove?)) in w1.sent
            && w1.hub == w.hub.(registry := r', pending := w.hub.pending - {join.id})
  {
    RecordKeeps(w, c, {Decided(c, e.id, join.id, join.deviceId, e.kind.JoinApprove?)});
  }

  /** Writing notices besides an acknowledgement that is already recorded. */
  lemma SentExtra(w: World, w': World, ack: Out, extra: set<Out>, out: set<Out>)
    requires Inv(w) && NoAcks(extra) && ack in w.sent && out == {ack} + extra
    requires w' == w.(hub := w'.hub, sent := w.sent + out) && w'.hub == w.hub
    ensures Inv(w')
  {
    hide Inv, AckInv, NoAcks;
    InvParts(w);
    assert w.sent + out == w.sent + extra;
    AckQuiet(w, w', extra);
    SentOnly(w, w');
  }

  lemma PendingUnder(w: World, j: string)
    requires PendingInv(w) && j in w.hub.pending
    ensures w.hub.pending[j].joinRequestId == j
  {
  }

  lemma DenialOutNoAcks(c: Connection, e: Event, join: JoinRequest, waiting: Connection)
    ensures NoAcks(DenialOut(c, e, join, waiting))
  {
  }

  lemma AdmissionKeeps(w: World, c: Connection, e: Event, x: Choice)
    requires Inv(w) && Enabled(w, Receive(c, e, x)) && Decides(w.hub, c, e, x)
    requires x.join.Some? && x.join.value in w.hub.pending && e.kind.JoinApprove?
    ensures Inv(AfterReceive(w, c, e, x))
  {
    hide Inv, DecideByOwner, OneDecided, IsTarget, IsJoin, Decides, CanSend, AfterDecision, AfterReceive, AfterPromote, AfterEnd;
    DecidesMeans(w.hub, c, e, x);
    DecisionRegistry(w, c, e, x);
    var join := w.hub.registry.channels[c.channelId].pending[x.join.value];
    var r' := DecideByOwner(w.hub.registry, c.channelId, c.deviceId, join.id, e.kind.JoinApprove?).value;
    var p := w.hub.pending[join.id];
    PromotionKeeps(w, c, e, join, r');
    AdmissionReaches(w, c, e, x, join, r');
    var w2 := AfterPromote(AfterDecision(w, c, e, join, r'), p);
    ToldNoAcks(c, e, join, p, x.token);
    SocketsOf(w);
    ReopenedKeeps(AfterEnd(w2, p), w.opening, {Wrote(p, ApprovedEvent(c, e, join, p, x.token))});
  }

  lemma SocketsOf(w: World)
    requires Inv(w)
    ensures w.opening.Keys <= w.open
  {
    hide RegistryInv, DecidedInv, MembersInv, PendingInv, PresenceInv, KnowsInv, AckInv;
  }

  /** Deciding, promoting and ending the handshake each keep the invariant. */
  lemma PromotionKeeps(w: World, c: Connection, e: Event, join: JoinRequest, r': Registry)
    requires Inv(w) && OneDecided(w.hub.registry, r', c.channelId, join.id) && c.channelId in w.lives
    requires c.channelId in w.hub.registry.channels && join.id in w.hub.registry.channels[c.channelId].pending
    requires w.hub.registry.channels[c.channelId].pending[join.id] == join
    requires w.hub.registry.channels[c.channelId].ownerId == c.deviceId
    requires RegistryInv(r', if e.kind.JoinApprove? then Extended(w, c, join) else w.lives)
    requires join.id in w.hub.pending && c.channelId in r'.channels
    requires join.deviceId in r'.channels[c.channelId].members
    ensures var w2 := AfterPromote(AfterDecision(w, c, e, join, r'), w.hub.pending[join.id]);
            && w.hub.pending[join.id] in w2.opening && IsMember(w2.hub, w.hub.pending[join.id])
            && Inv(w2) && Inv(AfterEnd(w2, w.hub.pending[join.id]))
  {
    hide Inv, RegistryInv, PendingInv, SocketsInv, MembersInv, PresenceInv, KnowsInv, DecidedInv, AckInv;
    hide OneDecided, Detached, AfterDecision, AfterEnd;
    InvParts(w);
    DecisionKeeps(w, c, e, join, r');
    var p := w.hub.pending[join.id];
    var w1 := AfterDecision(w, c, e, join, r');
    AfterDecisionMeans(w, c, e, join, r');
    WaitingIsDetached(w, w1, join.id);
    PromoteKeeps(w1, p);
    WaitingSpeaksForJoiner(w, c.channelId, join.id);
    EndRegistered(AfterPromote(w1, p), p);
  }

  lemma ToldNoAcks(c: Connection, e: Event, join: JoinRequest, p: Connection, token: Option<string>)
    ensures NoAcks({Wrote(p, ApprovedEvent(c, e, join, p, token))})
  {
  }

  lemma AfterDecisionMeans(w: World, c: Connection, e: Event, join: JoinRequest, r': Registry)
    requires c.channelId in w.lives && c.channelId in w.hub.registry.channels
    ensures var w1 := AfterDecision(w, c, e, join, r');
            && w1.open == w.open && w1.opening == w.opening && w1.seen == w.seen
            && w1.hub == w.hub.(registry := r', pending := w.hub.pending - {join.id})
  {
    RecordOne(w, c, e.id, join.id, join.deviceId, e.kind.JoinApprove?);
  }

  lemma AdmissionEffect(h: Hub, c: Connection, e: Event, x: Choice, join: JoinRequest, r': Registry, p: Connection)
    requires Decides(h, c, e, x) && e.kind.JoinApprove? && c.channelId in h.registry.channels
    requires x.join.Some? && x.join.value in h.registry.channels[c.channelId].pending && join.id == x.join.value
    requires join == h.registry.channels[c.channelId].pending[x.join.value]
    requires DecideByOwner(h.registry, c.channelId, c.deviceId, join.id, true) == Done(r')
    requires join.id in h.pending && h.pending[join.id] == p && p.joinRequestId == join.id
    requires p.channelId in r'.channels && p.deviceId in r'.channels[p.channelId].members
    requires r'.channels[p.channelId].ownerId != p.deviceId
    ensures var ack := Wrote(c, DecisionAckEvent(c, e.id, join.id, join.deviceId, true));
            var h0 := h.(registry := r', pending := h.pending - {join.id});
            var h1 := RegisterMember(h0, p).(promoted := h0.promoted + {p});
            var finish := FinishMember(h1, p, Previous(h0, p));
            HandleEvent(h, c, e, x)
              == Effect(finish.hub, {ack} + finish.out + {Wrote(p, ApprovedEvent(c, e, join, p, x.token))},
                        {Decided(c, e.id, join.id, join.deviceId, true)})
  {
    hide DecideByOwner, Decides, HandleEvent, Admit, CanSend, FinishMember, RegisterMember;
    DecideEffect(h, c, e, x);
    AdmitEffect(h.(registry := r'), c, e, join, x, {Wrote(c, DecisionAckEvent(c, e.id, join.id, join.deviceId, true))},
                {Decided(c, e.id, join.id, join.deviceId, true)});
    assert h.(registry := r').(pending := h.pending - {join.id}) == h.(registry := r', pending := h.pending - {join.id});
  }

  /** A promotion leaves a handshake that has not ended as it is. */
  ghost function Reopened(w: World, opening: map<Connection, Option<Connection>>, told: set<Out>): World {
    w.(opening := opening, sent := w.sent + told)
  }

  /** It only lessens what is promised to regard a handshake as not ended. */
  lemma ReopenedKeeps(w: World, opening: map<Connection, Option<Connection>>, told: set<Out>)
    requires Inv(w) && NoAcks(told) && w.opening.Keys <= opening.Keys <= w.open
    ensures Inv(Reopened(w, opening, told))
  {
    hide Inv, AckInv, NoAcks, RegistryInv, DecidedInv, PendingInv, PresenceInv, MembersInv, KnowsInv, SocketsInv;
    InvParts(w);
    var w' := Reopened(w, opening, told);
    AckQuiet(w, w', told);
    ReopenedMaps(w, w');
    ReopenedKnows(w, w');
    SamePresence(w, w');
    InvFrom(w');
  }

  lemma ReopenedMaps(w: World, w': World)
    requires MembersInv(w) && PendingInv(w) && SocketsInv(w)
    requires w'.hub == w.hub && w'.open == w.open && w'.seen == w.seen && w.opening.Keys <= w'.opening.Keys <= w.open
    ensures MembersInv(w') && PendingInv(w') && SocketsInv(w')
  {
    hide OnlineMember, Vouched;
  }

  lemma ReopenedKnows(w: World, w': World)
    requires KnowsInv(w) && w'.hub == w.hub && w.sent <= w'.sent && w.opening.Keys <= w'.opening.Keys
    ensures KnowsInv(w')
  {
    hide JoinRequestEvent;
  }

  /** The approving step arrives where deciding, promoting and ending the handshake arrive. */
  lemma AdmissionReaches(w: World, c: Connection, e: Event, x: Choice, join: JoinRequest, r': Registry)
    requires Inv(w) && Decides(w.hub, c, e, x) && e.kind.JoinApprove?
    requires c.channelId in w.hub.registry.channels && x.join.Some? && x.join.value in w.hub.registry.channels[c.channelId].pending
    requires x.join.value in w.hub.pending && join == w.hub.registry.channels[c.channelId].pending[x.join.value]
    requires DecideByOwner(w.hub.registry, c.channelId, c.deviceId, join.id, true) == Done(r') && c.channelId in w.lives
    requires join.id == x.join.value && OneDecided(w.hub.registry, r', c.channelId, join.id)
    requires c.channelId in r'.channels && join.deviceId in r'.channels[c.channelId].members
    ensures var p := w.hub.pending[join.id];
            var w2 := AfterPromote(AfterDecision(w, c, e, join, r'), p);
            p in w2.opening
            && var w3 := AfterEnd(w2, p);
               w3.opening.Keys <= w.opening.Keys && w3.open == w.open
               && AfterReceive(w, c, e, x) == Reopened(w3, w.opening, {Wrote(p, ApprovedEvent(c, e, join, p, x.token))})
  {
    hide Inv, RegistryInv, PendingInv, SocketsInv, MembersInv, PresenceInv, KnowsInv, DecidedInv, AckInv;
    hide DecideByOwner, OneDecided, Decides, HandleEvent, Admit, Detached, CanSend, AfterReceive, AfterDecision, FinishMember;
    hide RegisterMember, AfterEnd;
    InvParts(w);
    var p := w.hub.pending[join.id];
    var w1 := AfterDecision(w, c, e, join, r');
    AfterDecisionMeans(w, c, e, join, r');
    WaitingIsDetached(w, w1, join.id);
    WaitingSpeaksForJoiner(w, c.channelId, join.id);
    OwnerIsNotAdmitted(w.hub.registry, r', w.lives, c.channelId, join.id);
    var ack := Wrote(c, DecisionAckEvent(c, e.id, join.id, join.deviceId, true));
    AdmissionEffect(w.hub, c, e, x, join, r', p);
    DecisionStep(w, c, e, x, join, r', HandleEvent(w.hub, c, e, x));
    DecisionSent(w, c, e, join, r');
    StillRegistered(w1, p);
    EndRejoins(w1, p, ack, {Wrote(p, ApprovedEvent(c, e, join, p, x.token))}, HandleEvent(w.hub, c, e, x));
  }

  lemma FinishFacts(h: Hub, c: Connection, previous: Option<Connection>)
    ensures FinishMember(h, c, previous).facts == {}
  {
  }

  lemma StillRegistered(w: World, p: Connection)
    requires p.channelId in w.hub.registry.channels && p.deviceId in w.hub.registry.channels[p.channelId].members
    ensures Registered(AfterPromote(w, p).hub, p)
  {
  }

  /** A promotion that ends at once leaves no trace among the unfinished handshakes. */
  lemma EndRejoins(w: World, p: Connection, ack: Out, told: set<Out>, effect: Effect)
    requires ack in w.sent
    requires var w2 := AfterPromote(w, p);
             Registered(w2.hub, p)
              && var finish := FinishMember(w2.hub, p, Previous(w.hub, p));
                effect.hub == finish.hub && effect.out == {ack} + finish.out + told
    ensures var w2 := AfterPromote(w, p);
            p in w2.opening
            && var w3 := AfterEnd(w2, p);
               w3.opening.Keys <= w.opening.Keys && w3.open == w.open
               && w.(hub := effect.hub, sent := w.sent + effect.out) == Reopened(w3, w.opening, told)
  {
    FinishFacts(AfterPromote(w, p).hub, p, Previous(w.hub, p));
    assert SlotOf(p) in AfterPromote(w, p).hub.members;
    hide FinishMember, RegisterMember;
    var w2 := AfterPromote(w, p);
    var finish := FinishMember(w2.hub, p, Previous(w.hub, p));
    assert w.sent + effect.out == w.sent + finish.out + told;
  }

  lemma ReceiveKeeps(w: World, c: Connection, e: Event, x: Choice)
    requires Inv(w) && Enabled(w, Receive(c, e, x))
    ensures Inv(AfterReceive(w, c, e, x))
  {
    hide Inv, AfterReceive, Decides, CanSend, IsTarget, IsJoin;
    if !CanSend(w.hub, c) {
      RejectKeeps(w, c, e, x);
    } else if !Decides(w.hub, c, e, x) {
      PlainKeeps(w, c, e, x);
    } else {
      DecidesMeans(w.hub, c, e, x);
      if x.join.value !in w.hub.pending {
        UnseenDecisionKeeps(w, c, e, x);
      } else if e.kind.JoinApprove? {
        AdmissionKeeps(w, c, e, x);
      } else {
        DenialKeeps(w, c, e, x);
      }
    }
  }
}
