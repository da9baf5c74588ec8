/** Who is online after each step of the relay. */
module RelayPresence {
  import opened Options
  import opened Identifiers
  import opened Protocol
  import opened Connections
  import opened RegistrySpec
  import opened HubSpec
  import opened RelayRuns
  import opened RegistryProofs
  import opened RelayProofs
  import opened RelayEventProofs
  import opened RelayTheorems
  import opened RelayGuarantees
  import opened RelayMaps

  ghost function OwnerOf(h: Hub, id: string): string {
    if id in h.registry.channels then h.registry.channels[id].ownerId else ""
  }

  /** A decision by itself changes nobody's presence and not the owner. */
  lemma DecisionChangesNobody(h: Hub, r': Registry, id: string, j: string, slot: Slot)
    requires OneDecided(h.registry, r', id, j)
    ensures OnlineMember(h.(registry := r'), slot) <==> OnlineMember(h, slot)
    ensures OwnerOf(h.(registry := r'), slot.0) == OwnerOf(h, slot.0)
  {
  }

  /** Every other event leaves everybody's presence as it was. */
  lemma OtherEventsChangeNobody(w: World, c: Connection, e: Event, x: Choice, slot: Slot)
    requires Inv(w) && Enabled(w, Receive(c, e, x))
    requires Decides(w.hub, c, e, x) ==> x.join.Some? && (e.kind.JoinDeny? || x.join.value !in w.hub.pending)
    ensures OnlineMember(AfterReceive(w, c, e, x).hub, slot) <==> OnlineMember(w.hub, slot)
  {
    hide Inv, CanSend, Decides, HandleEvent, Record, NoAcks, IsTarget, IsJoin, OnlineMember, DecideByOwner, OneDecided, PendingInv, RegistryInv;
    var effect := HandleEvent(w.hub, c, e, x);
    if !CanSend(w.hub, c) {
      RejectEffect(w.hub, c, e, x);
    } else if Decides(w.hub, c, e, x) {
      DecidesMeans(w.hub, c, e, x);
      DecisionRegistry(w, c, e, x);
      DecideEffect(w.hub, c, e, x);
      var join := w.hub.registry.channels[c.channelId].pending[x.join.value];
      var r' := DecideByOwner(w.hub.registry, c.channelId, c.deviceId, join.id, e.kind.JoinApprove?).value;
      DecisionChangesNobody(w.hub, r', c.channelId, join.id, slot);
      DecidedQuietly(w.hub.(registry := r'), c, e, join, x);
      SameOnline(w.hub.(registry := r'), effect.hub, slot);
    } else if Delivers(w.hub, c, e, x) {
      DeliveryEffect(w.hub, c, e, x);
    } else {
      PlainEffect(w.hub, c, e, x);
    }
    SameOnline(effect.hub, AfterReceive(w, c, e, x).hub, slot);
    if !CanSend(w.hub, c) {
      SameOnline(w.hub, effect.hub, slot);
    }
  }

  lemma DecidedQuietly(h: Hub, c: Connection, e: Event, join: JoinRequest, x: Choice)
    requires join.id !in h.pending || !e.kind.JoinApprove?
    ensures Decide(h, c, e, join, e.kind.JoinApprove?, x).hub.registry == h.registry
  {
  }

  lemma ConnectChangesNobody(w: World, name: string, pin: string, d: string, deviceName: string, slot: Slot)
    requires Inv(w) && Enabled(w, HttpConnect(name, pin, d, deviceName))
    ensures OnlineMember(AfterHttpConnect(w, name, pin, d, deviceName).hub, slot) <==> OnlineMember(w.hub, slot)
  {
    hide Inv, RegistryInv, Connect, Grown, OnlyNew, OnlineMember;
    InvRegistry(w);
    ConnectFacts(w.hub.registry, w.lives, name, pin, d, deviceName);
    var (r', result) := Connect(w.hub.registry, name, pin, d, deviceName);
    GrowthChangesNobody(w.hub, w.hub.(registry := r'), (result.channelId, d), result.Created?, slot);
    SameOnline(w.hub.(registry := r'), AfterHttpConnect(w, name, pin, d, deviceName).hub, slot);
  }

  lemma GrowthChangesNobody(h: Hub, h': Hub, newcomer: Slot, created: bool, slot: Slot)
    requires Grown(h.registry, h'.registry) && OnlyNew(h.registry, h'.registry, newcomer, created)
    ensures OnlineMember(h', slot) <==> OnlineMember(h, slot)
  {
    hide Issued;
    if slot.0 in h.registry.channels {
      assert Similar(h.registry.channels[slot.0], h'.registry.channels[slot.0], h.registry.joinSeq);
    }
  }

  lemma QuietSteps(w: World, c: Connection)
    ensures AfterBegin(w, c).hub.registry == w.hub.registry && AfterBeginJoiner(w, c).hub.registry == w.hub.registry
    ensures c in w.opening ==> AfterEndJoiner(w, c).hub.registry == w.hub.registry
    ensures AfterClose(w, c).hub.registry == w.hub.registry
  {
  }

  // ----- a device that is online -----

  lemma OnlineAfterEnd(w: World, c: Connection, slot: Slot)
    requires c in w.opening && OnlineMember(w.hub, slot)
    ensures OnlineMember(AfterEnd(w, c).hub, slot)
  {
    hide SetOnline, OnlineMember, PresenceSet, AfterEnd;
    SetOnlineDefined(w.hub.registry, c.channelId, c.deviceId, true, false);
    if Registered(w.hub, c) {
      SetOnlineFacts(w.hub.registry, c.channelId, c.deviceId, true, false);
      EndHub(w, c);
      OnlineSeen(w.hub, AfterEnd(w, c).hub.registry, SlotOf(c), slot);
    } else {
      UnregisteredEnd(w, c);
      DropSame(w, c);
      SameOnline(w.hub, AfterEnd(w, c).hub, slot);
    }
  }

  lemma OnlineAfterExpiry(w: World, t: Slot, slot: Slot)
    requires Inv(w) && OnlineMember(w.hub, slot) && t != slot
    ensures OnlineMember(AfterExpiry(w, t).hub, slot)
  {
    hide Inv, RegistryInv, Expire, SetOnline, NoAcks, NotifyOwnerOfPendingJoins, OnlineMember, PresenceSet, Elect;
    if t in w.hub.members || SetOnline(w.hub.registry, t.0, t.1, false, true).None? {
      QuietExpiry(w.hub, t);
      SameOnline(w.hub, AfterExpiry(w, t).hub, slot);
    } else {
      ExpiryOut(w.hub, t);
      SetOnlineFacts(w.hub.registry, t.0, t.1, false, true);
      InvRegistry(w);
      var (r', change) := SetOnline(w.hub.registry, t.0, t.1, false, true).value;
      if change.deleted {
        NobodyElseOnline(w, t, slot);
        OnlineElsewhere(w.hub, r', t.0, slot);
      } else {
        OfflineSeen(w.hub, r', t, slot);
      }
      SameOnline(w.hub.(registry := r'), AfterExpiry(w, t).hub, slot);
    }
  }

  lemma OnlineAfterAdmission(w: World, c: Connection, e: Event, x: Choice, slot: Slot)
    requires Inv(w) && Enabled(w, Receive(c, e, x)) && Decides(w.hub, c, e, x) && OnlineMember(w.hub, slot)
    requires x.join.Some? && x.join.value in w.hub.pending && e.kind.JoinApprove?
    ensures OnlineMember(AfterReceive(w, c, e, x).hub, slot)
  {
    hide Inv, DecideByOwner, OneDecided, IsTarget, IsJoin, Decides, CanSend, AfterDecision, AfterReceive, AfterEnd, OnlineMember;
    hide RegistryInv, ApprovedEvent;
    DecidesMeans(w.hub, c, e, x);
    DecisionRegistry(w, c, e, x);
    var join := w.hub.registry.channels[c.channelId].pending[x.join.value];
    var r' := DecideByOwner(w.hub.registry, c.channelId, c.deviceId, join.id, e.kind.JoinApprove?).value;
    var p := w.hub.pending[join.id];
    DecidedStillThere(w.hub.registry, r', c.channelId, join.id);
    AdmissionReaches(w, c, e, x, join, r');
    AfterDecisionMeans(w, c, e, join, r');
    var w2 := AfterPromote(AfterDecision(w, c, e, join, r'), p);
    DecisionChangesNobody(w.hub, r', c.channelId, join.id, slot);
    SameOnline(w.hub.(registry := r'), w2.hub, slot);
    OnlineAfterEnd(w2, p, slot);
    SameOnline(AfterEnd(w2, p).hub, AfterReceive(w, c, e, x).hub, slot);
  }

  lemma DecidedStillThere(r: Registry, r': Registry, id: string, j: string)
    requires OneDecided(r, r', id, j)
    ensures id in r'.channels
  {
  }

  lemma OnlineAfterReceive(w: World, c: Connection, e: Event, x: Choice, slot: Slot)
    requires Inv(w) && Enabled(w, Receive(c, e, x)) && OnlineMember(w.hub, slot)
    ensures OnlineMember(AfterReceive(w, c, e, x).hub, slot)
  {
    hide Inv, AfterReceive, Decides, CanSend, IsTarget, IsJoin, OnlineMember;
    if Decides(w.hub, c, e, x) {
      DecidesMeans(w.hub, c, e, x);
    }
    if Decides(w.hub, c, e, x) && x.join.value in w.hub.pending && e.kind.JoinApprove? {
      OnlineAfterAdmission(w, c, e, x, slot);
    } else {
      OtherEventsChangeNobody(w, c, e, x, slot);
    }
  }

  /** Nothing but its own expiry takes a device offline. */
  lemma StaysOnline(w: World, s: Step, slot: Slot)
    requires Inv(w) && Enabled(w, s) && OnlineMember(w.hub, slot) && s != Expiry(slot)
    ensures OnlineMember(Next(w, s).hub, slot)
  {
    hide Inv, OnlineMember, AfterHttpConnect, AfterBegin, AfterEnd, AfterBeginJoiner, AfterEndJoiner, AfterReceive, AfterClose, AfterExpiry;
    match s
    case HttpConnect(name, pin, d, deviceName) => ConnectChangesNobody(w, name, pin, d, deviceName, slot);
    case OpenMember(c) =>
      QuietSteps(w, c);
      BegunOpening(w, c);
      SameOnline(w.hub, AfterBegin(w, c).hub, slot);
      OnlineAfterEnd(AfterBegin(w, c), c, slot);
    case BeginMember(c) =>
      QuietSteps(w, c);
      SameOnline(w.hub, AfterBegin(w, c).hub, slot);
    case EndMember(c) => OnlineAfterEnd(w, c, slot);
    case OpenJoiner(c) =>
      QuietSteps(w, c);
      BegunOpening(w, c);
      EndJoinerHub(AfterBeginJoiner(w, c), c);
      SameOnline(w.hub, AfterBeginJoiner(w, c).hub, slot);
    case BeginJoiner(c) =>
      QuietSteps(w, c);
      SameOnline(w.hub, AfterBeginJoiner(w, c).hub, slot);
    case EndJoiner(c) => EndJoinerHub(w, c);
    case Receive(c, e, x) => OnlineAfterReceive(w, c, e, x, slot);
    case Close(c) =>
      QuietSteps(w, c);
      SameOnline(w.hub, AfterClose(w, c).hub, slot);
    case Expiry(t) => OnlineAfterExpiry(w, t, slot);
  }

  lemma BegunOpening(w: World, c: Connection)
    ensures c in AfterBegin(w, c).opening && c in AfterBeginJoiner(w, c).opening
  {
  }

  // ----- a device that nobody keeps track of -----

  /** A connection of the device is registered, or a timer callback for it runs. */
  ghost predicate Touches(s: Step, slot: Slot) {
    s == Expiry(slot) || ((s.OpenMember? || s.BeginMember?) && SlotOf(s.conn) == slot)
  }

  /** What a decision does to the connection and the timer of a device that is online: nothing. */
  lemma DecisionLeavesConnections(w: World, c: Connection, e: Event, x: Choice, slot: Slot)
    requires Inv(w) && Enabled(w, Receive(c, e, x)) && Decides(w.hub, c, e, x) && OnlineMember(w.hub, slot)
    ensures var h' := HandleEvent(w.hub, c, e, x).hub;
            (slot in h'.members <==> slot in w.hub.members) && (slot in h'.timers <==> slot in w.hub.timers)
  {
    hide Inv, RegistryInv, PendingInv, DecideByOwner, HandleEvent, IsTarget, IsJoin, Decides, Decide, OneDecided;
    DecidesMeans(w.hub, c, e, x);
    DecisionRegistry(w, c, e, x);
    DecideEffect(w.hub, c, e, x);
    InvParts(w);
    var join := w.hub.registry.channels[c.channelId].pending[x.join.value];
    var r' := DecideByOwner(w.hub.registry, c.channelId, c.deviceId, join.id, e.kind.JoinApprove?).value;
    if join.id in w.hub.pending {
      PendingUnder(w, join.id);
      WaitingSpeaksForJoiner(w, c.channelId, join.id);
      ChannelFacts(w.hub.registry, w.lives, c.channelId);
      DecidedStillThere(w.hub.registry, r', c.channelId, join.id);
      WaitingIsMember(w, r', e, c.channelId, join.id);
    }
    DecideConnections(w.hub.(registry := r'), c, e, join, e.kind.JoinApprove?, x, slot);
  }

  lemma WaitingIsMember(w: World, r': Registry, e: Event, id: string, j: string)
    requires OneDecided(w.hub.registry, r', id, j) && j in w.hub.pending
    requires SlotOf(w.hub.pending[j]) == (id, w.hub.registry.channels[id].pending[j].deviceId)
    requires e.kind.JoinApprove? ==> id in r'.channels && w.hub.registry.channels[id].pending[j].deviceId in r'.channels[id].members
    ensures var p := w.hub.pending[j]; e.kind.JoinApprove? ==> SetOnline(r', p.channelId, p.deviceId, true, false).Some?
  {
    var p := w.hub.pending[j];
    SetOnlineDefined(r', p.channelId, p.deviceId, true, false);
    hide SetOnline;
  }

  lemma DecideConnections(h: Hub, c: Connection, e: Event, join: JoinRequest, approve: bool, x: Choice, slot: Slot)
    requires join.id in h.pending ==>
               var p := h.pending[join.id];
               SlotOf(p) != slot && (approve ==> SetOnline(h.registry, p.channelId, p.deviceId, true, false).Some?)
    ensures var h' := Decide(h, c, e, join, approve, x).hub;
            (slot in h'.members <==> slot in h.members) && (slot in h'.timers <==> slot in h.timers)
  {
    hide SetOnline, EmitPresenceChange, ApprovedEvent;
  }

  lemma ReceiveLeavesConnections(w: World, c: Connection, e: Event, x: Choice, slot: Slot)
    requires Inv(w) && Enabled(w, Receive(c, e, x)) && OnlineMember(w.hub, slot)
    ensures var h' := AfterReceive(w, c, e, x).hub;
            (slot in h'.members <==> slot in w.hub.members) && (slot in h'.timers <==> slot in w.hub.timers)
  {
    hide Inv, CanSend, Decides, HandleEvent, Record, NoAcks, IsTarget, IsJoin, OnlineMember;
    RecordKeeps(w, c, HandleEvent(w.hub, c, e, x).facts);
    if !CanSend(w.hub, c) {
      RejectEffect(w.hub, c, e, x);
    } else if Decides(w.hub, c, e, x) {
      DecisionLeavesConnections(w, c, e, x, slot);
    } else if Delivers(w.hub, c, e, x) {
      DeliveryEffect(w.hub, c, e, x);
    } else {
      PlainEffect(w.hub, c, e, x);
    }
  }

  lemma EndLeavesConnections(w: World, c: Connection, slot: Slot)
    requires c in w.opening
    ensures var h' := AfterEnd(w, c).hub;
            && (slot in h'.members ==> slot in w.hub.members)
            && (slot in h'.timers ==> slot in w.hub.timers || slot in w.hub.members)
  {
    hide SetOnline, AfterEnd;
    SetOnlineDefined(w.hub.registry, c.channelId, c.deviceId, true, false);
    if Registered(w.hub, c) {
      EndHub(w, c);
    } else {
      UnregisteredEnd(w, c);
      CloseLeavesConnections(w.(opening := w.opening - {c}), c, slot);
    }
  }

  lemma CloseLeavesConnections(w: World, c: Connection, slot: Slot)
    ensures var h' := AfterClose(w, c).hub;
            && (slot in h'.members ==> slot in w.hub.members)
            && (slot in h'.timers ==> slot in w.hub.timers || slot in w.hub.members)
  {
  }

  lemma ExpiryLeavesConnections(h: Hub, t: Slot)
    ensures Expire(h, t).hub.members == h.members && Expire(h, t).hub.timers <= h.timers
  {
    hide SetOnline, EmitPresenceChange;
  }

  lemma ConnectLeavesConnections(w: World, name: string, pin: string, d: string, deviceName: string, slot: Slot)
    requires Inv(w) && Enabled(w, HttpConnect(name, pin, d, deviceName)) && slot.0 in w.hub.registry.channels
    ensures var h' := AfterHttpConnect(w, name, pin, d, deviceName).hub;
            h'.members == w.hub.members && (slot in h'.timers <==> slot in w.hub.timers)
  {
    hide Inv, RegistryInv, Connect, Grown, OnlyNew;
    InvRegistry(w);
    ConnectFacts(w.hub.registry, w.lives, name, pin, d, deviceName);
  }

  /** No other step ends it: a lost device is lost until a connection of its own comes or a timer callback for it runs. */
  lemma LostStays(w: World, s: Step, slot: Slot)
    requires Inv(w) && Enabled(w, s) && Lost(w, slot) && !Touches(s, slot)
    ensures Lost(Next(w, s), slot)
  {
    hide Inv, AfterHttpConnect, AfterEnd, AfterReceive, AfterClose, FinishPending, Expire, OnlineMember;
    StaysOnline(w, s, slot);
    match s
    case HttpConnect(name, pin, d, deviceName) =>
      OnlineHasChannel(w.hub, slot);
      ConnectLeavesConnections(w, name, pin, d, deviceName, slot);
    case OpenMember(c) => EndLeavesConnections(AfterBegin(w, c), c, slot);
    case BeginMember(c) =>
    case EndMember(c) => EndLeavesConnections(w, c, slot);
    case OpenJoiner(c) => EndJoinerHub(AfterBeginJoiner(w, c), c);
    case BeginJoiner(c) =>
    case EndJoiner(c) => EndJoinerHub(w, c);
    case Receive(c, e, x) => ReceiveLeavesConnections(w, c, e, x, slot);
    case Close(c) => CloseLeavesConnections(w, c, slot);
    case Expiry(t) => ExpiryLeavesConnections(w.hub, t);
  }

  lemma OnlineHasChannel(h: Hub, slot: Slot)
    requires OnlineMember(h, slot)
    ensures slot.0 in h.registry.channels
  {
  }

  /** Those steps do end it. */
  lemma TouchEndsLoss(w: World, s: Step, slot: Slot)
    requires Inv(w) && Enabled(w, s) && Lost(w, slot) && Touches(s, slot)
    ensures !Lost(Next(w, s), slot)
  {
    hide Inv, SetOnline, Expire, AfterEnd, OnlineMember;
    match s
    case Expiry(t) =>
      OnlineHasChannel(w.hub, slot);
      ExpiryTakesOffline(w, slot);
    case OpenMember(c) =>
      OpenedIsConnected(w, c);
    case BeginMember(c) =>
  }

  lemma ExpiryTakesOffline(w: World, slot: Slot)
    requires slot !in w.hub.members
    ensures !OnlineMember(AfterExpiry(w, slot).hub, slot)
  {
    hide NoAcks, NotifyOwnerOfPendingJoins, EmitPresenceChange, Elect, SetOnline, Expire, PresenceSet;
    SetOnlineDefined(w.hub.registry, slot.0, slot.1, false, true);
    if SetOnline(w.hub.registry, slot.0, slot.1, false, true).None? {
      QuietExpiry(w.hub, slot);
    } else {
      SetOnlineFacts(w.hub.registry, slot.0, slot.1, false, true);
      ExpiryOut(w.hub, slot);
      var (r', change) := SetOnline(w.hub.registry, slot.0, slot.1, false, true).value;
      if !change.deleted {
        OfflineSeen(w.hub, r', slot, slot);
        SameOnline(w.hub.(registry := r'), AfterExpiry(w, slot).hub, slot);
      }
    }
  }

  lemma OpenedIsConnected(w: World, c: Connection)
    requires Enabled(w, OpenMember(c))
    ensures SlotOf(c) in Next(w, OpenMember(c)).hub.members
  {
    hide AfterEnd, SetOnline;
    SetOnlineDefined(w.hub.registry, c.channelId, c.deviceId, true, false);
    EndHub(AfterBegin(w, c), c);
  }

  /** Both directions at once. */
  lemma LostUntilTouched(w: World, s: Step, slot: Slot)
    requires Inv(w) && Enabled(w, s) && Lost(w, slot)
    ensures Lost(Next(w, s), slot) <==> !Touches(s, slot)
  {
    hide Inv, Lost, Enabled, Next;
    if Touches(s, slot) {
      TouchEndsLoss(w, s, slot);
    } else {
      LostStays(w, s, slot);
    }
  }

  // ----- how a device is lost -----

  lemma CloseKeepsTrack(w: World, o: Connection, slot: Slot)
    ensures var h' := AfterClose(w, o).hub;
            slot in w.hub.members || slot in w.hub.timers ==> slot in h'.members || slot in h'.timers
  {
  }

  lemma EndKeepsTrack(w: World, o: Connection, slot: Slot)
    requires o in w.opening
    ensures var h' := AfterEnd(w, o).hub;
            slot in w.hub.members || slot in w.hub.timers ==> slot in h'.members || slot in h'.timers
  {
    hide SetOnline, AfterEnd;
    SetOnlineDefined(w.hub.registry, o.channelId, o.deviceId, true, false);
    if Registered(w.hub, o) {
      EndHub(w, o);
    } else {
      UnregisteredEnd(w, o);
      CloseKeepsTrack(w.(opening := w.opening - {o}), o, slot);
    }
  }

  lemma OnlineBeforeExpiry(w: World, t: Slot, slot: Slot)
    requires OnlineMember(AfterExpiry(w, t).hub, slot)
    ensures OnlineMember(w.hub, slot)
  {
    hide NoAcks, NotifyOwnerOfPendingJoins, SetOnline, Expire, PresenceSet, OnlineMember;
    if t in w.hub.members || SetOnline(w.hub.registry, t.0, t.1, false, true).None? {
      QuietExpiry(w.hub, t);
      SameOnline(w.hub, AfterExpiry(w, t).hub, slot);
    } else {
      ExpiryOut(w.hub, t);
      SetOnlineFacts(w.hub.registry, t.0, t.1, false, true);
      var (r', change) := SetOnline(w.hub.registry, t.0, t.1, false, true).value;
      SameOnline(w.hub.(registry := r'), AfterExpiry(w, t).hub, slot);
      if change.deleted {
        OnlineInMore(w.hub, r', t.0, slot);
      } else {
        OfflineSeen(w.hub, r', t, slot);
      }
    }
  }

  lemma OnlineInMore(h: Hub, r': Registry, id: string, slot: Slot)
    requires r'.channels == h.registry.channels - {id} && OnlineMember(h.(registry := r'), slot)
    ensures OnlineMember(h, slot)
  {
  }

  lemma ExpiryOthers(w: World, t: Slot)
    ensures var w' := AfterExpiry(w, t);
            w'.opening == w.opening && w'.hub.promoted == w.hub.promoted && w'.hub.members == w.hub.members && w'.open == w.open
  {
    hide SetOnline, EmitPresenceChange;
  }

  lemma ConnectKeepsTrack(w: World, name: string, pin: string, d: string, deviceName: string)
    requires Indexed(w.hub.registry)
    ensures var h' := AfterHttpConnect(w, name, pin, d, deviceName).hub;
            h'.members == w.hub.members && w.hub.timers <= h'.timers
  {
    hide Connect;
  }

  /** After an admission, the device that comes online is connected. */
  lemma AdmittedIsConnected(w: World, c: Connection, e: Event, x: Choice, slot: Slot)
    requires Inv(w) && Enabled(w, Receive(c, e, x)) && Decides(w.hub, c, e, x)
    requires x.join.Some? && x.join.value in w.hub.pending && e.kind.JoinApprove?
    requires OnlineMember(AfterReceive(w, c, e, x).hub, slot) && !OnlineMember(w.hub, slot)
    ensures slot in AfterReceive(w, c, e, x).hub.members
  {
    hide Inv, DecideByOwner, OneDecided, IsTarget, IsJoin, Decides, CanSend, AfterDecision, AfterReceive, AfterEnd, OnlineMember;
    hide RegistryInv, ApprovedEvent;
    DecidesMeans(w.hub, c, e, x);
    DecisionRegistry(w, c, e, x);
    var join := w.hub.registry.channels[c.channelId].pending[x.join.value];
    var r' := DecideByOwner(w.hub.registry, c.channelId, c.deviceId, join.id, e.kind.JoinApprove?).value;
    var p := w.hub.pending[join.id];
    DecidedStillThere(w.hub.registry, r', c.channelId, join.id);
    AdmissionReaches(w, c, e, x, join, r');
    AfterDecisionMeans(w, c, e, join, r');
    var w2 := AfterPromote(AfterDecision(w, c, e, join, r'), p);
    DecisionChangesNobody(w.hub, r', c.channelId, join.id, slot);
    SameOnline(w.hub.(registry := r'), w2.hub, slot);
    SameOnline(AfterEnd(w2, p).hub, AfterReceive(w, c, e, x).hub, slot);
    OnlyItselfComesOnline(w2, p, slot);
  }

  /** The end of a handshake brings only its own device online, and leaves the connections of members alone. */
  lemma OnlyItselfComesOnline(w: World, c: Connection, slot: Slot)
    requires c in w.opening && OnlineMember(AfterEnd(w, c).hub, slot) && !OnlineMember(w.hub, slot)
    ensures slot == SlotOf(c) && Registered(w.hub, c)
    ensures AfterEnd(w, c).hub.members == w.hub.members && AfterEnd(w, c).hub.timers == w.hub.timers
  {
    hide SetOnline, OnlineMember, PresenceSet, AfterEnd;
    SetOnlineDefined(w.hub.registry, c.channelId, c.deviceId, true, false);
    if Registered(w.hub, c) {
      SetOnlineFacts(w.hub.registry, c.channelId, c.deviceId, true, false);
      EndHub(w, c);
      OnlineSeen(w.hub, AfterEnd(w, c).hub.registry, SlotOf(c), slot);
    } else {
      UnregisteredEnd(w, c);
      DropSame(w, c);
      SameOnline(w.hub, AfterEnd(w, c).hub, slot);
    }
  }

  lemma ReceiveTracks(w: World, c: Connection, e: Event, x: Choice, slot: Slot)
    requires Inv(w) && Enabled(w, Receive(c, e, x)) && !Lost(w, slot)
    ensures !Lost(AfterReceive(w, c, e, x), slot)
  {
    hide Inv, AfterReceive, Decides, CanSend, IsTarget, IsJoin, OnlineMember;
    if OnlineMember(w.hub, slot) {
      ReceiveLeavesConnections(w, c, e, x, slot);
    } else if OnlineMember(AfterReceive(w, c, e, x).hub, slot) {
      if Decides(w.hub, c, e, x) {
        DecidesMeans(w.hub, c, e, x);
      }
      if Decides(w.hub, c, e, x) && x.join.value in w.hub.pending && e.kind.JoinApprove? {
        AdmittedIsConnected(w, c, e, x, slot);
      } else {
        OtherEventsChangeNobody(w, c, e, x, slot);
      }
    }
  }

  /** A device is lost only by the untracked end of a handshake of its own. */
  lemma LossBegins(w: World, s: Step, slot: Slot)
    requires Inv(w) && Enabled(w, s) && !Lost(w, slot) && Lost(Next(w, s), slot)
    ensures s.EndMember? && SlotOf(s.conn) == slot && !Tracked(w, s.conn)
  {
    hide Inv, AfterHttpConnect, AfterEnd, AfterBeginJoiner, AfterEndJoiner, AfterReceive, AfterClose, AfterExpiry, OnlineMember;
    hide RegistryMemberExists;
    match s
    case HttpConnect(name, pin, d, deviceName) =>
      ConnectChangesNobody(w, name, pin, d, deviceName, slot);
      ConnectKeepsTrack(w, name, pin, d, deviceName);
    case OpenMember(c) =>
      BegunOpening(w, c);
      OpenedTracks(w, c, slot);
    case BeginMember(c) => SameOnline(w.hub, AfterBegin(w, c).hub, slot);
    case EndMember(c) =>
      if OnlineMember(w.hub, slot) {
        EndKeepsTrack(w, c, slot);
      } else {
        OnlyItselfComesOnline(w, c, slot);
      }
    case OpenJoiner(c) =>
      BegunOpening(w, c);
      EndJoinerHub(AfterBeginJoiner(w, c), c);
      JoinerTracks(w, c, slot);
    case BeginJoiner(c) => JoinerTracks(w, c, slot);
    case EndJoiner(c) => EndJoinerHub(w, c);
    case Receive(c, e, x) => ReceiveTracks(w, c, e, x, slot);
    case Close(c) =>
      QuietSteps(w, c);
      SameOnline(w.hub, AfterClose(w, c).hub, slot);
      CloseKeepsTrack(w, c, slot);
    case Expiry(t) => ExpiryTracks(w, t, slot);
  }

  lemma JoinerTracks(w: World, c: Connection, slot: Slot)
    ensures Lost(AfterBeginJoiner(w, c), slot) == Lost(w, slot)
  {
  }

  lemma OpenedTracks(w: World, c: Connection, slot: Slot)
    requires Enabled(w, OpenMember(c)) && !Lost(w, slot)
    ensures !Lost(Next(w, OpenMember(c)), slot)
  {
    hide AfterEnd, SetOnline, PresenceSet, OnlineMember;
    var w1 := AfterBegin(w, c);
    SetOnlineDefined(w1.hub.registry, c.channelId, c.deviceId, true, false);
    SetOnlineFacts(w1.hub.registry, c.channelId, c.deviceId, true, false);
    EndHub(w1, c);
    OnlineSeen(w1.hub, AfterEnd(w1, c).hub.registry, SlotOf(c), slot);
    SameOnline(w.hub, w1.hub, slot);
  }

  lemma ExpiryTracks(w: World, t: Slot, slot: Slot)
    requires Inv(w) && !Lost(w, slot)
    ensures !Lost(AfterExpiry(w, t), slot)
  {
    hide Inv, AfterExpiry, OnlineMember;
    ExpiryOthers(w, t);
    ExpiryTimersOf(w, t);
    if OnlineMember(AfterExpiry(w, t).hub, slot) {
      OnlineBeforeExpiry(w, t, slot);
      if t == slot && slot !in w.hub.members {
        ExpiryTakesOffline(w, slot);
      }
    }
  }

  lemma ExpiryTimersOf(w: World, t: Slot)
    ensures AfterExpiry(w, t).hub.timers == w.hub.timers - {t}
  {
    hide Expire;
    ExpiryTimers(w.hub, t);
  }

  /** What the end of a handshake does to each device's loss. */
  lemma EndDecidesLoss(w: World, c: Connection, slot: Slot)
    requires Inv(w) && Enabled(w, EndMember(c))
    ensures Lost(AfterEnd(w, c), slot) <==> if slot == SlotOf(c) then !Tracked(w, c) else Lost(w, slot)
  {
    hide Inv, AfterEnd, OnlineMember;
    if slot == SlotOf(c) && !Tracked(w, c) {
      UntrackedEndIsLost(w, c);
    } else if Lost(w, slot) {
      if slot == SlotOf(c) {
        OnlineIsRegistered(w, c);
      }
      LostStays(w, EndMember(c), slot);
    } else if Lost(AfterEnd(w, c), slot) {
      LossBegins(w, EndMember(c), slot);
    }
  }

  lemma EndDecidesAll(w: World, c: Connection)
    requires Inv(w) && Enabled(w, EndMember(c))
    ensures forall slot :: Lost(AfterEnd(w, c), slot) <==> if slot == SlotOf(c) then !Tracked(w, c) else Lost(w, slot)
  {
    hide Inv, AfterEnd, Lost, Tracked;
    forall slot ensures Lost(AfterEnd(w, c), slot) <==> if slot == SlotOf(c) then !Tracked(w, c) else Lost(w, slot) {
      EndDecidesLoss(w, c, slot);
    }
  }

  lemma OnlineIsRegistered(w: World, c: Connection)
    requires OnlineMember(w.hub, SlotOf(c))
    ensures Registered(w.hub, c)
  {
  }

  // ----- channels with an owner -----

  lemma OwnerIsOnline(w: World, id: string)
    requires Inv(w) && id in w.hub.registry.channels && w.hub.registry.channels[id].ownerId != ""
    ensures OnlineMember(w.hub, (id, w.hub.registry.channels[id].ownerId))
  {
    hide Inv, RegistryInv;
    InvRegistry(w);
    ChannelFacts(w.hub.registry, w.lives, id);
  }

  lemma OwnerAfterExpiry(w: World, t: Slot)
    requires t !in w.hub.members && RegistryMember(AfterExpiry(w, t).hub, t)
    ensures AfterExpiry(w, t).hub.registry.channels[t.0].ownerId != ""
  {
    hide NoAcks, NotifyOwnerOfPendingJoins, SetOnline, Expire, PresenceSet;
    SetOnlineDefined(w.hub.registry, t.0, t.1, false, true);
    if SetOnline(w.hub.registry, t.0, t.1, false, true).None? {
      QuietExpiry(w.hub, t);
    } else {
      ExpiryOut(w.hub, t);
      SetOnlineFacts(w.hub.registry, t.0, t.1, false, true);
      if !SetOnline(w.hub.registry, t.0, t.1, false, true).value.1.deleted {
        SurvivorHasOwner(w.hub.registry, t);
      }
    }
  }

  ghost predicate RegistryMember(h: Hub, t: Slot) {
    t.0 in h.registry.channels && t.1 in h.registry.channels[t.0].members
  }

  lemma StaysRegistered(w: World, t: Slot, c: Connection)
    requires Registered(w.hub, c) && c.channelId in AfterExpiry(w, t).hub.registry.channels
    ensures Registered(AfterExpiry(w, t).hub, c)
  {
    hide NoAcks, NotifyOwnerOfPendingJoins, SetOnline, Expire;
    if t in w.hub.members || SetOnline(w.hub.registry, t.0, t.1, false, true).None? {
      QuietExpiry(w.hub, t);
    } else {
      ExpiryOut(w.hub, t);
      SetOnlineFacts(w.hub.registry, t.0, t.1, false, true);
    }
  }

  /** Once somebody of a channel has been online, the channel has an owner until it goes. */
  lemma OwnerStays(w: World, s: Step, id: string)
    requires Inv(w) && Enabled(w, s) && Inv(Next(w, s)) && id in w.hub.registry.channels && id in Next(w, s).hub.registry.channels
    requires w.hub.registry.channels[id].ownerId != ""
    ensures Next(w, s).hub.registry.channels[id].ownerId != ""
  {
    hide Inv, Enabled, Next, OnlineMember;
    var owner := (id, w.hub.registry.channels[id].ownerId);
    OwnerIsOnline(w, id);
    if s == Expiry(owner) && owner !in w.hub.members {
      OwnerExpires(w, s, owner);
    } else {
      if s == Expiry(owner) {
        QuietForConnected(w, s, owner);
      } else {
        StaysOnline(w, s, owner);
      }
      SomebodyOnline(Next(w, s), owner);
    }
  }

  lemma OwnerExpires(w: World, s: Step, owner: Slot)
    requires Enabled(w, s) && s == Expiry(owner) && owner !in w.hub.members && OnlineMember(w.hub, owner)
    requires owner.0 in Next(w, s).hub.registry.channels
    ensures Next(w, s).hub.registry.channels[owner.0].ownerId != ""
  {
    hide AfterExpiry;
    MemberStays(w, owner);
    OwnerAfterExpiry(w, owner);
  }

  lemma MemberStays(w: World, t: Slot)
    requires RegistryMember(w.hub, t) && t.0 in AfterExpiry(w, t).hub.registry.channels
    ensures RegistryMember(AfterExpiry(w, t).hub, t)
  {
    hide NoAcks, NotifyOwnerOfPendingJoins, SetOnline, Expire;
    if t in w.hub.members || SetOnline(w.hub.registry, t.0, t.1, false, true).None? {
      QuietExpiry(w.hub, t);
    } else {
      ExpiryOut(w.hub, t);
      SetOnlineFacts(w.hub.registry, t.0, t.1, false, true);
    }
  }

  lemma QuietForConnected(w: World, s: Step, slot: Slot)
    requires Enabled(w, s) && s == Expiry(slot) && slot in w.hub.members
    ensures OnlineMember(Next(w, s).hub, slot) <==> OnlineMember(w.hub, slot)
  {
    hide Expire, OnlineMember;
    QuietExpiry(w.hub, slot);
    SameOnline(w.hub, AfterExpiry(w, slot).hub, slot);
  }

  lemma SomebodyOnline(w: World, slot: Slot)
    requires Inv(w) && OnlineMember(w.hub, slot)
    ensures slot.0 in w.hub.registry.channels && w.hub.registry.channels[slot.0].ownerId != ""
  {
    hide Inv;
    if w.hub.registry.channels[slot.0].ownerId == "" {
      OwnerlessHasCreatorOnly(w, slot.0);
    }
  }
}
