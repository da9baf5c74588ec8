/** What the relay tells whom: presence and ownership news, messages, and the outcome of decisions. */
module RelayNews {
  import opened Options
  import opened Identifiers
  import opened Protocol
  import opened Connections
  import opened RegistrySpec
  import opened HubSpec
  import opened RelayRuns
  import opened RegistryProofs
  import opened RelayProofs
  import opened RelayEventProofs
  import opened RelayTheorems
  import opened RelayGuarantees
  import opened RelayAnswers
  import opened RelayMaps
  import opened RelayPresence
  import opened RelayPromises

  // ----- presence and ownership news -----

  /** Every other connected device of the channel has been sent the news about slot. */
  ghost predicate Informed(h: Hub, previousOwnerId: string, sent: set<Out>, slot: Slot) {
    slot.0 in h.registry.channels && slot.1 in h.registry.channels[slot.0].members
    && var ch := h.registry.channels[slot.0];
       forall s | s in h.members && s.0 == slot.0 && s.1 != slot.1 ::
         && Wrote(h.members[s], PresenceChangedEvent(ch, s.1, slot.1)) in sent
         && (ch.ownerId != previousOwnerId ==> Wrote(h.members[s], OwnerChangedEvent(slot.0, s.1, previousOwnerId, ch.ownerId)) in sent)
  }

  lemma EmissionInforms(h: Hub, change: PresenceChange, slot: Slot)
    requires slot.0 in h.registry.channels && change.channel == Some(h.registry.channels[slot.0])
    requires h.registry.channels[slot.0].id == slot.0 && slot.1 in h.registry.channels[slot.0].members
    requires !change.deleted && change.changed && change.currentOwnerId == h.registry.channels[slot.0].ownerId
    ensures Informed(h, change.previousOwnerId, EmitPresenceChange(h, change, slot.1), slot)
  {
    var ch := h.registry.channels[slot.0];
    forall s | s in h.members && s.0 == slot.0 && s.1 != slot.1
      ensures Wrote(h.members[s], PresenceChangedEvent(ch, s.1, slot.1)) in EmitPresenceChange(h, change, slot.1)
      ensures ch.ownerId != change.previousOwnerId ==>
                Wrote(h.members[s], OwnerChangedEvent(slot.0, s.1, change.previousOwnerId, ch.ownerId)) in EmitPresenceChange(h, change, slot.1)
    {
      assert Wrote(h.members[s], PresenceChangedEvent(ch, s.1, slot.1)) in BroadcastPresenceChanged(h, ch, slot.1);
      assert Wrote(h.members[s], OwnerChangedEvent(slot.0, s.1, change.previousOwnerId, ch.ownerId))
          in BroadcastOwnerChanged(h, ch, change.previousOwnerId, slot.1);
    }
  }

  lemma MoreInformed(h: Hub, owner: string, sent: set<Out>, sent': set<Out>, slot: Slot)
    requires Informed(h, owner, sent, slot) && sent <= sent'
    ensures Informed(h, owner, sent', slot)
  {
    hide PresenceChangedEvent, OwnerChangedEvent;
  }

  /** The channel still exists, and the device has come online or gone offline. */
  ghost predicate Changed(h: Hub, h': Hub, slot: Slot) {
    slot.0 in h'.registry.channels && (OnlineMember(h, slot) <==> !OnlineMember(h', slot))
  }

  /** The registry's change of one device's presence says what has changed. */
  lemma ChangeSays(w: World, h: Hub, id: string, d: string, online: bool, deleteIfEmpty: bool)
    requires h.registry == w.hub.registry && Inv(w) && SetOnline(h.registry, id, d, online, deleteIfEmpty).Some?
    ensures var (r', change) := SetOnline(h.registry, id, d, online, deleteIfEmpty).value;
            !change.deleted ==>
              && id in r'.channels && change.channel == Some(r'.channels[id]) && r'.channels[id].id == id
              && d in r'.channels[id].members && change.currentOwnerId == r'.channels[id].ownerId
              && change.previousOwnerId == OwnerOf(h, id)
              && (OnlineMember(h, (id, d)) != online ==> change.changed)
  {
    hide Inv, Elect;
    SetOnlineFacts(h.registry, id, d, online, deleteIfEmpty);
    IdOfChannel(w, id);
  }

  lemma EndInforms(w: World, c: Connection, slot: Slot)
    requires Inv(w) && c in w.opening && Changed(w.hub, AfterEnd(w, c).hub, slot)
    ensures Informed(AfterEnd(w, c).hub, OwnerOf(w.hub, slot.0), AfterEnd(w, c).sent, slot)
  {
    hide Inv, SetOnline, EmitPresenceChange, NotifyOwnerOfPendingJoins, Informed, OnlineMember, PresenceSet, Unregister, NoAcks;
    SetOnlineDefined(w.hub.registry, c.channelId, c.deviceId, true, false);
    if Registered(w.hub, c) {
      var (r', change) := SetOnline(w.hub.registry, c.channelId, c.deviceId, true, false).value;
      SetOnlineFacts(w.hub.registry, c.channelId, c.deviceId, true, false);
      EndOut(w.hub, c, w.opening[c]);
      OnlineSeen(w.hub, r', SlotOf(c), slot);
      SameOnline(w.hub.(registry := r'), AfterEnd(w, c).hub, slot);
      ChangeSays(w, w.hub, c.channelId, c.deviceId, true, false);
      EmissionInforms(w.hub.(registry := r'), change, slot);
      EmittedAtEnd(w, c);
      MoreInformed(w.hub.(registry := r'), OwnerOf(w.hub, slot.0), EmitPresenceChange(w.hub.(registry := r'), change, c.deviceId),
                   AfterEnd(w, c).sent, slot);
    } else {
      UnregisteredEnd(w, c);
      UnregisterKeeps(w.hub, c);
      SameOnline(w.hub, AfterEnd(w, c).hub, slot);
    }
  }

  lemma UnregisterKeeps(h: Hub, c: Connection)
    ensures Unregister(h, c).registry == h.registry
  {
  }

  lemma EmittedAtEnd(w: World, c: Connection)
    requires c in w.opening && SetOnline(w.hub.registry, c.channelId, c.deviceId, true, false).Some?
    ensures var (r', change) := SetOnline(w.hub.registry, c.channelId, c.deviceId, true, false).value;
            EmitPresenceChange(w.hub.(registry := r'), change, c.deviceId) <= AfterEnd(w, c).sent
  {
    hide SetOnline, EmitPresenceChange, NotifyOwnerOfPendingJoins;
  }

  lemma ExpiryInforms(w: World, t: Slot, slot: Slot)
    requires Inv(w) && Changed(w.hub, AfterExpiry(w, t).hub, slot)
    ensures Informed(AfterExpiry(w, t).hub, OwnerOf(w.hub, slot.0), AfterExpiry(w, t).sent, slot)
  {
    hide Inv, Expire, SetOnline, EmitPresenceChange, NotifyOwnerOfPendingJoins, Informed, OnlineMember, PresenceSet, NoAcks, RegistryInv;
    if t in w.hub.members || SetOnline(w.hub.registry, t.0, t.1, false, true).None? {
      QuietExpiry(w.hub, t);
      SameOnline(w.hub, AfterExpiry(w, t).hub, slot);
    } else {
      var (r', change) := SetOnline(w.hub.registry, t.0, t.1, false, true).value;
      SetOnlineFacts(w.hub.registry, t.0, t.1, false, true);
      ExpiryOut(w.hub, t);
      SameOnline(w.hub.(registry := r'), AfterExpiry(w, t).hub, slot);
      if change.deleted {
        UnchangedElsewhere(w.hub, r', t.0, slot);
      } else {
        OfflineSeen(w.hub, r', t, slot);
        ChangeSays(w, w.hub, t.0, t.1, false, true);
        var h' := w.hub.(registry := r', timers := w.hub.timers - {t});
        EmissionInforms(h', change, slot);
        EmittedAtExpiry(w, t);
        MoreInformed(h', OwnerOf(w.hub, slot.0), EmitPresenceChange(h', change, t.1), AfterExpiry(w, t).sent, slot);
      }
    }
  }

  lemma UnchangedElsewhere(h: Hub, r': Registry, id: string, slot: Slot)
    requires r'.channels == h.registry.channels - {id} && slot.0 in r'.channels
    ensures OnlineMember(h.(registry := r'), slot) <==> OnlineMember(h, slot)
  {
  }

  lemma EmittedAtExpiry(w: World, t: Slot)
    requires t !in w.hub.members && SetOnline(w.hub.registry, t.0, t.1, false, true).Some?
    requires !SetOnline(w.hub.registry, t.0, t.1, false, true).value.1.deleted
    ensures var (r', change) := SetOnline(w.hub.registry, t.0, t.1, false, true).value;
            EmitPresenceChange(w.hub.(registry := r', timers := w.hub.timers - {t}), change, t.1) <= AfterExpiry(w, t).sent
  {
    hide SetOnline, EmitPresenceChange;
    assert w.hub.(timers := w.hub.timers - {t}).(registry := SetOnline(w.hub.registry, t.0, t.1, false, true).value.0)
        == w.hub.(registry := SetOnline(w.hub.registry, t.0, t.1, false, true).value.0, timers := w.hub.timers - {t});
  }

  // ----- decisions -----

  lemma AdmissionInforms(w: World, c: Connection, e: Event, x: Choice, slot: Slot)
    requires Inv(w) && Enabled(w, Receive(c, e, x)) && Decides(w.hub, c, e, x)
    requires x.join.Some? && x.join.value in w.hub.pending && e.kind.JoinApprove?
    requires Changed(w.hub, AfterReceive(w, c, e, x).hub, slot)
    ensures Informed(AfterReceive(w, c, e, x).hub, OwnerOf(w.hub, slot.0), AfterReceive(w, c, e, x).sent, slot)
  {
    hide Inv, DecideByOwner, OneDecided, IsTarget, IsJoin, Decides, CanSend, AfterDecision, AfterReceive, AfterEnd, Informed, OnlineMember;
    hide RegistryInv, ApprovedEvent;
    DecidesMeans(w.hub, c, e, x);
    DecisionRegistry(w, c, e, x);
    var join := w.hub.registry.channels[c.channelId].pending[x.join.value];
    var r' := DecideByOwner(w.hub.registry, c.channelId, c.deviceId, join.id, e.kind.JoinApprove?).value;
    var p := w.hub.pending[join.id];
    DecidedStillThere(w.hub.registry, r', c.channelId, join.id);
    PromotionKeeps(w, c, e, join, r');
    AdmissionReaches(w, c, e, x, join, r');
    AfterDecisionMeans(w, c, e, join, r');
    var w2 := AfterPromote(AfterDecision(w, c, e, join, r'), p);
    DecisionChangesNobody(w.hub, r', c.channelId, join.id, slot);
    SameOnline(w.hub.(registry := r'), w2.hub, slot);
    EndInforms(w2, p, slot);
    MoreInformed(AfterEnd(w2, p).hub, OwnerOf(w.hub, slot.0), AfterEnd(w2, p).sent, AfterReceive(w, c, e, x).sent, slot);
  }

  lemma ReceiveInforms(w: World, c: Connection, e: Event, x: Choice, slot: Slot)
    requires Inv(w) && Enabled(w, Receive(c, e, x)) && Changed(w.hub, AfterReceive(w, c, e, x).hub, slot)
    ensures Informed(AfterReceive(w, c, e, x).hub, OwnerOf(w.hub, slot.0), AfterReceive(w, c, e, x).sent, slot)
  {
    hide Inv, AfterReceive, Decides, CanSend, IsTarget, IsJoin, Informed, OnlineMember;
    if Decides(w.hub, c, e, x) {
      DecidesMeans(w.hub, c, e, x);
    }
    if Decides(w.hub, c, e, x) && x.join.value in w.hub.pending && e.kind.JoinApprove? {
      AdmissionInforms(w, c, e, x, slot);
    } else {
      OtherEventsChangeNobody(w, c, e, x, slot);
    }
  }

  // ----- every step -----

  lemma RegistryKept(w: World, w': World, slot: Slot)
    requires w'.hub.registry == w.hub.registry
    ensures !Changed(w.hub, w'.hub, slot)
  {
  }

  lemma StepInforms(w: World, s: Step, slot: Slot)
    requires Inv(w) && Enabled(w, s) && Changed(w.hub, Next(w, s).hub, slot)
    ensures Informed(Next(w, s).hub, OwnerOf(w.hub, slot.0), Next(w, s).sent, slot)
  {
    hide Inv, Informed, OnlineMember, AfterHttpConnect, AfterBegin, AfterEnd, AfterBeginJoiner, AfterEndJoiner, AfterReceive, AfterClose, AfterExpiry;
    match s
    case HttpConnect(name, pin, d, deviceName) => ConnectChangesNobody(w, name, pin, d, deviceName, slot);
    case OpenMember(c) =>
      BeginKeeps(w, c);
      QuietSteps(w, c);
      var w1 := AfterBegin(w, c);
      SameOnline(w.hub, w1.hub, slot);
      BegunOpening(w, c);
      EndInforms(w1, c, slot);
    case BeginMember(c) =>
      QuietSteps(w, c);
      RegistryKept(w, AfterBegin(w, c), slot);
    case EndMember(c) => EndInforms(w, c, slot);
    case OpenJoiner(c) =>
      QuietSteps(w, c);
      BegunOpening(w, c);
      QuietSteps(AfterBeginJoiner(w, c), c);
      RegistryKept(w, AfterEndJoiner(AfterBeginJoiner(w, c), c), slot);
    case BeginJoiner(c) =>
      QuietSteps(w, c);
      RegistryKept(w, AfterBeginJoiner(w, c), slot);
    case EndJoiner(c) =>
      QuietSteps(w, c);
      RegistryKept(w, AfterEndJoiner(w, c), slot);
    case Receive(c, e, x) => ReceiveInforms(w, c, e, x, slot);
    case Close(c) =>
      QuietSteps(w, c);
      RegistryKept(w, AfterClose(w, c), slot);
    case Expiry(t) => ExpiryInforms(w, t, slot);
  }

  /**
   * Whenever a device comes online or goes offline in a channel that goes on, every other connected device of the
   * channel is sent its new presence, and the new owner when the owner has changed.
   */
  lemma NewsReachesEveryone(ws: seq<World>, steps: seq<Step>, k: nat, slot: Slot)
    requires Behaviour(ws, steps) && k < |steps| && Changed(ws[k].hub, ws[k + 1].hub, slot)
    ensures Informed(ws[k + 1].hub, OwnerOf(ws[k].hub, slot.0), ws[k + 1].sent, slot)
  {
    hide Inv, Enabled, Next, Changed, Informed;
    Always(ws, steps, k);
    assert Goes(ws, steps, k);
    StepInforms(ws[k], steps[k], slot);
  }

  // ----- replaced connections -----

  lemma EndClosesReplaced(w: World, c: Connection)
    requires c in w.opening
    ensures Registered(w.hub, c) && w.opening[c].Some? ==>
              Closed(w.opening[c].value, "connection superseded") in AfterEnd(w, c).sent
    ensures !Registered(w.hub, c) ==> AfterEnd(w, c).sent == w.sent + {Closed(c, "member is not registered")}
  {
    hide AfterEnd, Unregister, RegistryMemberExists;
    if Registered(w.hub, c) {
      RegisteredEndCloses(w, c);
    } else {
      UnregisteredEnd(w, c);
    }
  }

  lemma RegisteredEndCloses(w: World, c: Connection)
    requires c in w.opening && Registered(w.hub, c)
    ensures ClosePrevious(w.opening[c]) <= AfterEnd(w, c).sent
  {
    SetOnlineDefined(w.hub.registry, c.channelId, c.deviceId, true, false);
    hide SetOnline, EmitPresenceChange, NotifyOwnerOfPendingJoins;
  }

  lemma JoinerClosesReplaced(w: World, c: Connection)
    requires c in w.opening && w.opening[c].Some?
    ensures Closed(w.opening[c].value, "connection superseded") in AfterEndJoiner(w, c).sent
  {
    hide JoinNotice;
  }

  /**
   * The connection that a handshake replaces is closed when the handshake ends, with one exception: a member's handshake
   * that fails, because the device is no longer a member, writes nothing but the closing of its own connection.
   */
  lemma SupersededIsClosed(ws: seq<World>, steps: seq<Step>, k: nat, previous: Connection)
    requires Behaviour(ws, steps) && k < |steps| && Replaced(ws[k], steps[k]) == Some(previous)
    ensures if steps[k].EndMember? && !Registered(ws[k].hub, steps[k].conn)
            then ws[k + 1].sent == ws[k].sent + {Closed(steps[k].conn, "member is not registered")} && steps[k].conn != previous
            else Closed(previous, "connection superseded") in ws[k + 1].sent
  {
    hide Inv, AfterEnd, AfterEndJoiner, RegistryMemberExists;
    Always(ws, steps, k);
    assert Goes(ws, steps, k);
    var w, c := ws[k], steps[k].conn;
    match steps[k]
    case OpenMember(_) =>
      RegisteredStays(w, c);
      EndClosesReplaced(AfterBegin(w, c), c);
    case EndMember(_) =>
      EndClosesReplaced(w, c);
      ReplacesAnother(ws, steps, k, c);
    case OpenJoiner(_) => JoinerClosesReplaced(AfterBeginJoiner(w, c), c);
    case EndJoiner(_) => JoinerClosesReplaced(w, c);
  }

  lemma RegisteredStays(w: World, c: Connection)
    requires Enabled(w, OpenMember(c))
    ensures Registered(AfterBegin(w, c).hub, c)
  {
  }

  /** No connection is remembered as the one it has replaced itself. */
  lemma {:induction false} ReplacesAnother(ws: seq<World>, steps: seq<Step>, k: nat, c: Connection)
    requires Behaviour(ws, steps) && k < |ws| && c in ws[k].opening
    ensures ws[k].opening[c] != Some(c)
  {
    hide Inv, Enabled, Next;
    if k > 0 {
      assert Goes(ws, steps, k - 1);
      if c in ws[k - 1].opening {
        ReplacesAnother(ws, steps, k - 1, c);
      }
      OpeningKept(ws[k - 1], steps[k - 1], c);
    }
  }

  lemma OpeningKept(w: World, s: Step, c: Connection)
    requires Enabled(w, s) && c in Next(w, s).opening
    ensures Next(w, s).opening[c] != Some(c) || (c in w.opening && w.opening[c] == Some(c))
  {
    hide FinishMember, FinishPending, Expire, HandleEvent, Unregister, Connect, ValidChoice, RegisterMember;
  }

  // ----- messages -----

  /** A member's broadcast is written to every other connected member of its channel. */
  lemma BroadcastReachesEveryone(ws: seq<World>, steps: seq<Step>, k: nat, c: Connection, e: Event, x: Choice, s: Slot)
    requires Behaviour(ws, steps) && k < |steps| && steps[k] == Receive(c, e, x) && e.kind.MessageBroadcast?
    requires CurrentMember(ws[k].hub, c) && (e.channelId == "" || e.channelId == c.channelId)
    requires s in ws[k].hub.members && s.0 == c.channelId && s.1 != c.deviceId
    ensures Wrote(ws[k].hub.members[s], RoutedEvent(c, e, e.to)) in ws[k + 1].sent
  {
    hide Inv, Record, ValidChoice;
    Always(ws, steps, k);
    assert Goes(ws, steps, k);
    MembersSpeak(ws[k], c);
    MembersSpeak(ws[k], ws[k].hub.members[s]);
    RecordSends(ws[k], c, HandleEvent(ws[k].hub, c, e, x).facts);
  }

  lemma MembersSpeak(w: World, c: Connection)
    requires Inv(w) && SlotOf(c) in w.hub.members && w.hub.members[SlotOf(c)] == c
    ensures IsMember(w.hub, c) && CanSend(w.hub, c)
    ensures forall s | s in w.hub.members :: SlotOf(w.hub.members[s]) == s && IsMember(w.hub, w.hub.members[s])
  {
    hide RegistryInv, DecidedInv, PendingInv, PresenceInv, SocketsInv, KnowsInv, AckInv;
  }

  /** The target is the device of that id, if it is connected, or else an online member of that name. */
  ghost predicate Addressed(h: Hub, channelId: string, to: string, target: Connection) {
    if (channelId, to) in h.members then target == h.members[(channelId, to)]
    else exists s: Slot :: NamedTarget(h, channelId, to, s) && h.members[s] == target
  }

  /**
   * A member's message is written to one connection that it addresses, by device id or by name, and to nobody else, if
   * there is one; its success is acknowledged and recorded, its failure and the lack of a target are answered with an error.
   */
  lemma AddressedTargetIsReached(ws: seq<World>, steps: seq<Step>, k: nat, c: Connection, e: Event, x: Choice)
    requires Behaviour(ws, steps) && k < |steps| && steps[k] == Receive(c, e, x) && Routable(e.kind) && e.to != ""
    requires CurrentMember(ws[k].hub, c) && (e.channelId == "" || e.channelId == c.channelId)
    ensures x.target.None? ==>
              && (c.channelId, e.to) !in ws[k].hub.members
              && (forall s :: !NamedTarget(ws[k].hub, c.channelId, e.to, s))
              && Wrote(c, ErrorEvent(c, "unknown_target", e.id)) in ws[k + 1].sent && ws[k + 1].facts == ws[k].facts
              && (forall o | o in ws[k + 1].sent - ws[k].sent && o.Wrote? :: !IsMessage(o.event.kind))
    ensures x.target.Some? ==>
              var target := x.target.value; var routed := RoutedEvent(c, e, target.deviceId);
              && Addressed(ws[k].hub, c.channelId, e.to, target) && CurrentMember(ws[k].hub, target)
              && Wrote(target, routed) in ws[k + 1].sent
              && (forall o | o in ws[k + 1].sent - ws[k].sent && o.Wrote? && IsMessage(o.event.kind) :: o == Wrote(target, routed))
              && (x.writeOk ==> Routed(c, e.id, target, routed) in ws[k + 1].facts
                                && Wrote(c, MessageAckEvent(c, e.id, target.deviceId)) in ws[k + 1].sent)
              && (!x.writeOk ==> ws[k + 1].facts == ws[k].facts
                                 && Wrote(c, ErrorEvent(c, "target_unreachable", e.id)) in ws[k + 1].sent)
  {
    hide Inv, Record, CanSend, NamedTarget;
    Always(ws, steps, k);
    assert Goes(ws, steps, k);
    MembersSpeak(ws[k], c);
    if x.target.Some? {
      FoundIsMember(ws[k], c.channelId, e.to, x.target.value);
    }
    RecordSends(ws[k], c, HandleEvent(ws[k].hub, c, e, x).facts);
    RecordKeeps(ws[k], c, HandleEvent(ws[k].hub, c, e, x).facts);
  }

  lemma FoundIsMember(w: World, channelId: string, to: string, target: Connection)
    requires Inv(w) && IsTarget(w.hub, channelId, to, Some(target))
    ensures CurrentMember(w.hub, target) && IsMember(w.hub, target) && target.channelId == channelId
    ensures Addressed(w.hub, channelId, to, target)
  {
    hide RegistryInv, DecidedInv, PendingInv, PresenceInv, SocketsInv, KnowsInv, AckInv, OnlineMember;
  }

  // ----- decisions take effect -----

  /** What the waiting connection of a decided join is told, and what becomes of it. */
  ghost predicate LetIn(w: World, c: Connection, e: Event, join: JoinRequest, waiting: Connection, token: Option<string>) {
    && CurrentMember(w.hub, waiting) && OnlineMember(w.hub, SlotOf(waiting)) && SlotOf(waiting) == (c.channelId, join.deviceId)
    && Wrote(waiting, ApprovedEvent(c, e, join, waiting, token)) in w.sent
  }

  /**
   * When a decision is applied, the join is gone and recorded; an approved device is a member. If the joiner waits, an
   * approval makes its very connection the device's member connection and online, and closes one that it replaces, and
   * a denial closes it.
   */
  lemma DecisionTakesEffect(ws: seq<World>, steps: seq<Step>, k: nat, c: Connection, e: Event, x: Choice)
    requires Behaviour(ws, steps) && k < |steps| && steps[k] == Receive(c, e, x) && Decides(ws[k].hub, c, e, x)
    ensures c.channelId in ws[k].hub.registry.channels && x.join.Some? && x.join.value in ws[k].hub.registry.channels[c.channelId].pending
    ensures var j := x.join.value; var join := ws[k].hub.registry.channels[c.channelId].pending[j];
            var w' := ws[k + 1];
            && c.channelId in w'.hub.registry.channels && j !in w'.hub.registry.channels[c.channelId].pending
            && j in w'.decided && w'.decided[j] == e.kind.JoinApprove?
            && (e.kind.JoinApprove? ==> join.deviceId in w'.hub.registry.channels[c.channelId].members)
            && (j in ws[k].hub.pending && e.kind.JoinApprove? ==>
                  && LetIn(w', c, e, join, ws[k].hub.pending[j], x.token)
                  && ClosePrevious(Previous(ws[k].hub, ws[k].hub.pending[j])) <= w'.sent)
            && (j in ws[k].hub.pending && e.kind.JoinDeny? ==>
                  j !in w'.hub.pending && DenialOut(c, e, join, ws[k].hub.pending[j]) <= w'.sent)
  {
    hide Inv, AfterReceive, Decides, DenialOut, ApprovedEvent, IsTarget, IsJoin, LetIn;
    Always(ws, steps, k);
    assert Goes(ws, steps, k);
    DecidesMeans(ws[k].hub, c, e, x);
    DecisionEffects(ws[k], c, e, x);
    if x.join.value in ws[k].hub.pending {
      if e.kind.JoinApprove? {
        AdmissionEffects(ws[k], c, e, x);
      } else {
        DenialEffects(ws[k], c, e, x);
      }
    }
  }

  lemma AdmissionEffects(w: World, c: Connection, e: Event, x: Choice)
    requires Inv(w) && Enabled(w, Receive(c, e, x)) && Decides(w.hub, c, e, x)
    requires c.channelId in w.hub.registry.channels && x.join.Some? && x.join.value in w.hub.registry.channels[c.channelId].pending
    requires x.join.value in w.hub.pending && e.kind.JoinApprove?
    ensures LetIn(AfterReceive(w, c, e, x), c, e, w.hub.registry.channels[c.channelId].pending[x.join.value],
                     w.hub.pending[x.join.value], x.token)
    ensures ClosePrevious(Previous(w.hub, w.hub.pending[x.join.value])) <= AfterReceive(w, c, e, x).sent
  {
    hide Inv, RegistryInv, DecideByOwner, OneDecided, IsTarget, IsJoin, Decides, CanSend, AfterDecision, AfterReceive, AfterPromote, AfterEnd;
    hide OnlineMember, CurrentMember, ApprovedEvent, PendingInv, MembersInv, PresenceInv, SocketsInv, KnowsInv, DecidedInv, AckInv;
    DecidesMeans(w.hub, c, e, x);
    DecisionRegistry(w, c, e, x);
    var join := w.hub.registry.channels[c.channelId].pending[x.join.value];
    var r' := DecideByOwner(w.hub.registry, c.channelId, c.deviceId, join.id, e.kind.JoinApprove?).value;
    var p := w.hub.pending[join.id];
    InvParts(w);
    WaitingSpeaksForJoiner(w, c.channelId, join.id);
    DecidedStillThere(w.hub.registry, r', c.channelId, join.id);
    AdmissionReaches(w, c, e, x, join, r');
    AfterDecisionMeans(w, c, e, join, r');
    PromotedEnd(AfterDecision(w, c, e, join, r'), p);
    var w3 := AfterEnd(AfterPromote(AfterDecision(w, c, e, join, r'), p), p);
    SameCurrent(w3.hub, AfterReceive(w, c, e, x).hub, p);
  }

  lemma SameCurrent(h: Hub, h': Hub, p: Connection)
    requires h' == h && CurrentMember(h, p) && OnlineMember(h, SlotOf(p))
    ensures CurrentMember(h', p) && OnlineMember(h', SlotOf(p))
  {
  }

  /** A promoted connection is its device's member connection, and the device is online. */
  lemma PromotedEnd(w: World, p: Connection)
    requires p.channelId in w.hub.registry.channels && p.deviceId in w.hub.registry.channels[p.channelId].members
    ensures var w2 := AfterPromote(w, p);
            && p in w2.opening && CurrentMember(AfterEnd(w2, p).hub, p) && OnlineMember(AfterEnd(w2, p).hub, SlotOf(p))
            && ClosePrevious(Previous(w.hub, p)) <= AfterEnd(w2, p).sent
  {
    hide SetOnline, EmitPresenceChange, NotifyOwnerOfPendingJoins, NoAcks, OnlineMember, PresenceSet;
    var w2 := AfterPromote(w, p);
    RegisteredEndCloses(w2, p);
    SetOnlineDefined(w2.hub.registry, p.channelId, p.deviceId, true, false);
    SetOnlineFacts(w2.hub.registry, p.channelId, p.deviceId, true, false);
    EndOut(w2.hub, p, w2.opening[p]);
    var r' := SetOnline(w2.hub.registry, p.channelId, p.deviceId, true, false).value.0;
    OnlineSeen(w2.hub, r', SlotOf(p), SlotOf(p));
    SameOnline(w2.hub.(registry := r'), AfterEnd(w2, p).hub, SlotOf(p));
  }

  lemma DenialEffects(w: World, c: Connection, e: Event, x: Choice)
    requires Inv(w) && Enabled(w, Receive(c, e, x)) && Decides(w.hub, c, e, x)
    requires c.channelId in w.hub.registry.channels && x.join.Some? && x.join.value in w.hub.registry.channels[c.channelId].pending
    requires x.join.value in w.hub.pending && e.kind.JoinDeny?
    ensures var j := x.join.value; var w' := AfterReceive(w, c, e, x);
            j !in w'.hub.pending
            && DenialOut(c, e, w.hub.registry.channels[c.channelId].pending[j], w.hub.pending[j]) <= w'.sent
  {
    hide Inv, RegistryInv, DecideByOwner, OneDecided, HandleEvent, IsTarget, IsJoin, Decides, Decide, DenialOut, Record;
    hide PendingInv, MembersInv, PresenceInv, SocketsInv, KnowsInv, DecidedInv, AckInv, CanSend;
    DecidesMeans(w.hub, c, e, x);
    DecisionRegistry(w, c, e, x);
    DecideEffect(w.hub, c, e, x);
    InvParts(w);
    var join := w.hub.registry.channels[c.channelId].pending[x.join.value];
    var r' := DecideByOwner(w.hub.registry, c.channelId, c.deviceId, join.id, e.kind.JoinApprove?).value;
    PendingUnder(w, join.id);
    DenialEffect(w.hub.(registry := r'), c, e, join, x);
  }

  lemma DecisionEffects(w: World, c: Connection, e: Event, x: Choice)
    requires Inv(w) && Enabled(w, Receive(c, e, x)) && Decides(w.hub, c, e, x)
    ensures c.channelId in w.hub.registry.channels && x.join.Some? && x.join.value in w.hub.registry.channels[c.channelId].pending
    ensures var j := x.join.value; var join := w.hub.registry.channels[c.channelId].pending[j];
            var w' := AfterReceive(w, c, e, x);
            && c.channelId in w'.hub.registry.channels && j !in w'.hub.registry.channels[c.channelId].pending
            && j in w'.decided && w'.decided[j] == e.kind.JoinApprove?
            && (e.kind.JoinApprove? ==> join.deviceId in w'.hub.registry.channels[c.channelId].members)
  {
    hide Inv, RegistryInv, DecideByOwner, HandleEvent, IsTarget, IsJoin, Decides, Decide;
    DecidesMeans(w.hub, c, e, x);
    DecisionRegistry(w, c, e, x);
    DecideEffect(w.hub, c, e, x);
    var join := w.hub.registry.channels[c.channelId].pending[x.join.value];
    var r' := DecideByOwner(w.hub.registry, c.channelId, c.deviceId, join.id, e.kind.JoinApprove?).value;
    DecideKeepsDecision(w.hub.(registry := r'), c, e, join, x);
    RecordOne(w, c, e.id, join.id, join.deviceId, e.kind.JoinApprove?);
  }

  /** What follows the registry's decision touches only presence. */
  lemma DecideKeepsDecision(h: Hub, c: Connection, e: Event, join: JoinRequest, x: Choice)
    ensures var effect := Decide(h, c, e, join, e.kind.JoinApprove?, x);
            && effect.facts == {Decided(c, e.id, join.id, join.deviceId, e.kind.JoinApprove?)}
            && effect.hub.registry.channels.Keys == h.registry.channels.Keys
            && forall id | id in h.registry.channels ::
                 && effect.hub.registry.channels[id].pending == h.registry.channels[id].pending
                 && effect.hub.registry.channels[id].members.Keys == h.registry.channels[id].members.Keys
  {
    hide EmitPresenceChange, SetOnline, ClosePrevious, ApprovedEvent, DenialOut, DecisionAckEvent, ErrorEvent, Previous, PresenceSet;
    if join.id in h.pending {
      var p := h.pending[join.id];
      SetOnlineKeepsPeople(h.registry, p.channelId, p.deviceId);
    }
  }

  lemma SetOnlineKeepsPeople(r: Registry, id: string, d: string)
    ensures SetOnline(r, id, d, true, false).Some? ==>
              var r' := SetOnline(r, id, d, true, false).value.0;
              && r'.channels.Keys == r.channels.Keys
              && forall i | i in r.channels ::
                   r'.channels[i].pending == r.channels[i].pending && r'.channels[i].members.Keys == r.channels[i].members.Keys
  {
    hide Elect;
  }
}
