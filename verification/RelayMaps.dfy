/** What the hub's maps still mention after each step: pending connections without a join, timers without a use. */
module RelayMaps {
  import opened Options
  import opened Identifiers
  import opened Protocol
  import opened Connections
  import opened RegistrySpec
  import opened HubSpec
  import opened RelayRuns
  import opened RegistryProofs
  import opened RelayProofs
  import opened RelayEventProofs
  import opened RelayTheorems
  import opened RelayGuarantees

  // ----- timers -----

  /** A timer that matters: its device is a member, and online or alone in an ownerless channel. */
  ghost predicate TimerOk(h: Hub, s: Slot) {
    && s.0 in h.registry.channels && s.1 in h.registry.channels[s.0].members
    && (h.registry.channels[s.0].members[s.1].online || h.registry.channels[s.0].ownerId == "")
  }

  /**
   * The step is the end of a handshake that fails, because the device is no longer a member, though its connection is
   * current: it is dropped like any other, and a timer armed.
   */
  ghost predicate FailsToEnd(w: World, s: Step, slot: Slot) {
    s.EndMember? && SlotOf(s.conn) == slot && !Registered(w.hub, s.conn) && CurrentMember(w.hub, s.conn)
  }

  /** A handshake that fails arms a timer exactly if its connection is current. */
  lemma FailureTimers(w: World, c: Connection)
    requires c in w.opening && !Registered(w.hub, c)
    ensures AfterEnd(w, c).hub.registry == w.hub.registry
    ensures AfterEnd(w, c).hub.timers == if CurrentMember(w.hub, c) then w.hub.timers + {SlotOf(c)} else w.hub.timers
  {
    hide AfterEnd;
    UnregisteredEnd(w, c);
  }

  lemma TimerAfterHttpConnect(w: World, name: string, pin: string, d: string, deviceName: string, t: Slot)
    requires Inv(w) && Enabled(w, HttpConnect(name, pin, d, deviceName)) && (t in w.hub.timers ==> TimerOk(w.hub, t))
    requires t in AfterHttpConnect(w, name, pin, d, deviceName).hub.timers
    ensures TimerOk(AfterHttpConnect(w, name, pin, d, deviceName).hub, t)
  {
    hide Inv, RegistryInv, Connect, Grown, OnlyNew, TimerOk;
    InvRegistry(w);
    ConnectFacts(w.hub.registry, w.lives, name, pin, d, deviceName);
    var r' := Connect(w.hub.registry, name, pin, d, deviceName).0;
    var h' := AfterHttpConnect(w, name, pin, d, deviceName).hub;
    if t in w.hub.timers {
      GrownTimer(w.hub, h', t);
    } else {
      NewChannelIsThere(w.hub.registry, name, pin, d, deviceName);
      NewTimer(h', t);
    }
  }

  lemma GrownTimer(h: Hub, h': Hub, t: Slot)
    requires Grown(h.registry, h'.registry) && TimerOk(h, t)
    ensures TimerOk(h', t)
  {
    hide Issued;
    assert Similar(h.registry.channels[t.0], h'.registry.channels[t.0], h.registry.joinSeq);
  }

  lemma NewTimer(h: Hub, t: Slot)
    requires t.0 in h.registry.channels && t.1 in h.registry.channels[t.0].members && h.registry.channels[t.0].ownerId == ""
    ensures TimerOk(h, t)
  {
  }

  lemma NewChannelIsThere(r: Registry, name: string, pin: string, d: string, deviceName: string)
    requires Indexed(r)
    ensures var (r', result) := Connect(r, name, pin, d, deviceName);
            result.Created? ==>
              && result.channelId in r'.channels && d in r'.channels[result.channelId].members
              && r'.channels[result.channelId].ownerId == ""
  {
    hide ChannelKey, Elect, AskToJoin, ChannelIdForKey;
  }

  lemma OneAlone(w: World, id: string, a: string, b: string)
    requires Inv(w) && id in w.hub.registry.channels && w.hub.registry.channels[id].ownerId == ""
    requires a in w.hub.registry.channels[id].members && b in w.hub.registry.channels[id].members
    ensures a == b
  {
    hide Inv;
    OwnerlessHasCreatorOnly(w, id);
    assert a in w.hub.registry.channels[id].members.Keys && b in w.hub.registry.channels[id].members.Keys;
  }

  /** Going online leaves every timer of a member that is online as it was. */
  lemma TimerAfterOnline(w: World, h': Hub, slot: Slot, t: Slot)
    requires Inv(w) && TimerOk(w.hub, t) && PresenceSet(w.hub.registry, h'.registry, slot.0, slot.1, true)
    ensures TimerOk(h', t)
  {
    hide Inv;
    if t.0 == slot.0 && w.hub.registry.channels[t.0].ownerId == "" {
      OneAlone(w, t.0, t.1, slot.1);
    }
  }

  lemma TimerAfterEnd(w: World, c: Connection, t: Slot)
    requires Inv(w) && c in w.opening && IsMember(w.hub, c) && !FailsToEnd(w, EndMember(c), t)
    requires t in AfterEnd(w, c).hub.timers && (t in w.hub.timers ==> TimerOk(w.hub, t))
    ensures TimerOk(AfterEnd(w, c).hub, t)
  {
    hide Inv, SetOnline, PresenceSet, NoAcks, FinishMember, NotifyOwnerOfPendingJoins, TimerOk, AfterEnd, CurrentMember;
    SetOnlineDefined(w.hub.registry, c.channelId, c.deviceId, true, false);
    if Registered(w.hub, c) {
      SetOnlineFacts(w.hub.registry, c.channelId, c.deviceId, true, false);
      EndHub(w, c);
      TimerAfterOnline(w, AfterEnd(w, c).hub, SlotOf(c), t);
    } else {
      FailureTimers(w, c);
      SameTimer(w.hub, AfterEnd(w, c).hub, t);
    }
  }

  lemma EndHub(w: World, c: Connection)
    requires c in w.opening && SetOnline(w.hub.registry, c.channelId, c.deviceId, true, false).Some?
    ensures AfterEnd(w, c).hub == w.hub.(registry := SetOnline(w.hub.registry, c.channelId, c.deviceId, true, false).value.0)
  {
    hide SetOnline, EmitPresenceChange, NotifyOwnerOfPendingJoins;
  }

  lemma TimerAfterOpen(w: World, c: Connection, t: Slot)
    requires Inv(w) && Enabled(w, OpenMember(c)) && (t in w.hub.timers ==> TimerOk(w.hub, t))
    requires t in Next(w, OpenMember(c)).hub.timers
    ensures TimerOk(Next(w, OpenMember(c)).hub, t)
  {
    hide Inv, AfterEnd, TimerOk;
    BeginKeeps(w, c);
    var w1 := AfterBegin(w, c);
    if t in w1.hub.timers {
      SameTimer(w.hub, w1.hub, t);
    }
    TimerAfterEnd(w1, c, t);
  }

  lemma TimerAfterExpiry(w: World, slot: Slot, t: Slot)
    requires Inv(w) && t in AfterExpiry(w, slot).hub.timers && (t in w.hub.timers ==> TimerOk(w.hub, t))
    ensures TimerOk(AfterExpiry(w, slot).hub, t)
  {
    hide Inv, RegistryInv, Expire, SetOnline, NoAcks, NotifyOwnerOfPendingJoins, Elect, TimerOk;
    if slot in w.hub.members || SetOnline(w.hub.registry, slot.0, slot.1, false, true).None? {
      QuietExpiry(w.hub, slot);
      SameTimer(w.hub, AfterExpiry(w, slot).hub, t);
    } else {
      ExpiryOut(w.hub, slot);
      OthersStayTimed(w, slot, t);
      SameTimer(w.hub.(registry := SetOnline(w.hub.registry, slot.0, slot.1, false, true).value.0), AfterExpiry(w, slot).hub, t);
    }
  }

  /** A timer of another device of the channel shows that this device does not empty the channel. */
  lemma OthersStayTimed(w: World, slot: Slot, s: Slot)
    requires Inv(w) && TimerOk(w.hub, s) && s != slot && slot !in w.hub.members
    requires SetOnline(w.hub.registry, slot.0, slot.1, false, true).Some?
    ensures var (r', change) := SetOnline(w.hub.registry, slot.0, slot.1, false, true).value;
            (change.deleted ==> s.0 != slot.0) && TimerOk(w.hub.(registry := r'), s)
  {
    hide Inv, RegistryInv, SetOnline, Elect;
    SetOnlineFacts(w.hub.registry, slot.0, slot.1, false, true);
    InvRegistry(w);
    if s.0 == slot.0 {
      if w.hub.registry.channels[s.0].ownerId == "" {
        OneAlone(w, s.0, s.1, slot.1);
      } else {
        if SetOnline(w.hub.registry, slot.0, slot.1, false, true).value.1.deleted {
          NobodyElseOnline(w, slot, s);
        }
      }
    }
  }

  /** The effect of an applied decision on registry and timers: one decision, and perhaps one device online. */
  lemma TimerAfterDecision(w: World, c: Connection, e: Event, x: Choice, t: Slot)
    requires Inv(w) && Enabled(w, Receive(c, e, x)) && Decides(w.hub, c, e, x) && (t in w.hub.timers ==> TimerOk(w.hub, t))
    ensures t in HandleEvent(w.hub, c, e, x).hub.timers ==> TimerOk(HandleEvent(w.hub, c, e, x).hub, t)
  {
    hide Inv, RegistryInv, PendingInv, DecideByOwner, HandleEvent, IsTarget, IsJoin, Decides, Decide, OneDecided, TimerOk, OnlineMember;
    DecidesMeans(w.hub, c, e, x);
    DecisionRegistry(w, c, e, x);
    DecideEffect(w.hub, c, e, x);
    InvParts(w);
    var join := w.hub.registry.channels[c.channelId].pending[x.join.value];
    var r' := DecideByOwner(w.hub.registry, c.channelId, c.deviceId, join.id, e.kind.JoinApprove?).value;
    var h := w.hub.(registry := r');
    if t in h.timers {
      DecisionTimer(w.hub, r', c.channelId, join.id, t);
    }
    if join.id in w.hub.pending {
      WaitingSpeaksForJoiner(w, c.channelId, join.id);
      PendingUnder(w, join.id);
      DecideTimer(h, c, e, join, e.kind.JoinApprove?, x, t);
    } else {
      UnseenTimers(h, c, e, join, e.kind.JoinApprove?, x);
    }
  }

  lemma DecisionTimer(h: Hub, r': Registry, id: string, j: string, s: Slot)
    requires OneDecided(h.registry, r', id, j) && TimerOk(h, s)
    ensures TimerOk(h.(registry := r'), s) && (s.0 == id ==> OnlineMember(h.(registry := r'), s))
  {
  }

  lemma UnseenTimers(h: Hub, c: Connection, e: Event, join: JoinRequest, approve: bool, x: Choice)
    requires join.id !in h.pending
    ensures Decide(h, c, e, join, approve, x).hub == h
  {
  }

  lemma DecideTimer(h: Hub, c: Connection, e: Event, join: JoinRequest, approve: bool, x: Choice, t: Slot)
    requires join.id in h.pending && h.pending[join.id].joinRequestId == join.id
    requires t in h.timers ==> TimerOk(h, t) && (t.0 == h.pending[join.id].channelId ==> OnlineMember(h, t))
    ensures t in Decide(h, c, e, join, approve, x).hub.timers ==> TimerOk(Decide(h, c, e, join, approve, x).hub, t)
  {
    var p := h.pending[join.id];
    SetOnlineFacts'(h.registry, p.channelId, p.deviceId);
    hide SetOnline, EmitPresenceChange, PresenceSet;
    var h' := Decide(h, c, e, join, approve, x).hub;
    if t in h'.timers {
      assert t in h.timers;
      if approve && SetOnline(h.registry, p.channelId, p.deviceId, true, false).Some? {
        OnlineTimer(h, SetOnline(h.registry, p.channelId, p.deviceId, true, false).value.0, SlotOf(p), t);
      }
    }
  }

  lemma SetOnlineFacts'(r: Registry, id: string, d: string)
    ensures SetOnline(r, id, d, true, false).Some? ==> PresenceSet(r, SetOnline(r, id, d, true, false).value.0, id, d, true)
  {
    if SetOnline(r, id, d, true, false).Some? {
      SetOnlineFacts(r, id, d, true, false);
    }
  }

  lemma OnlineTimer(h: Hub, r': Registry, slot: Slot, s: Slot)
    requires PresenceSet(h.registry, r', slot.0, slot.1, true) && TimerOk(h, s)
    requires s.0 == slot.0 ==> OnlineMember(h, s)
    ensures TimerOk(h.(registry := r'), s)
  {
  }

  lemma TimerAfterReceive(w: World, c: Connection, e: Event, x: Choice, t: Slot)
    requires Inv(w) && Enabled(w, Receive(c, e, x)) && (t in w.hub.timers ==> TimerOk(w.hub, t))
    requires t in AfterReceive(w, c, e, x).hub.timers
    ensures TimerOk(AfterReceive(w, c, e, x).hub, t)
  {
    hide Inv, CanSend, Decides, HandleEvent, Record, NoAcks, IsTarget, IsJoin, TimerOk;
    var effect := HandleEvent(w.hub, c, e, x);
    RecordKeeps(w, c, effect.facts);
    if !CanSend(w.hub, c) {
      RejectEffect(w.hub, c, e, x);
      SameTimer(w.hub, effect.hub, t);
    } else if Decides(w.hub, c, e, x) {
      TimerAfterDecision(w, c, e, x, t);
    } else if Delivers(w.hub, c, e, x) {
      DeliveryEffect(w.hub, c, e, x);
    } else {
      PlainEffect(w.hub, c, e, x);
    }
  }

  lemma SameTimer(h: Hub, h': Hub, t: Slot)
    requires h.registry == h'.registry
    ensures TimerOk(h, t) == TimerOk(h', t)
  {
  }

  lemma TimerAfterClose(w: World, c: Connection, t: Slot)
    requires Inv(w) && Enabled(w, Close(c)) && (t in w.hub.timers ==> TimerOk(w.hub, t)) && t in AfterClose(w, c).hub.timers
    ensures TimerOk(AfterClose(w, c).hub, t)
  {
    hide Inv, OnlineMember, TimerOk;
    if t in w.hub.timers {
      SameTimer(w.hub, AfterClose(w, c).hub, t);
    } else {
      CurrentIsOnline(w, c);
      OnlineIsTimerOk(w.hub, AfterClose(w, c).hub, t);
    }
  }

  lemma OnlineIsTimerOk(h: Hub, h': Hub, s: Slot)
    requires OnlineMember(h, s) && h'.registry == h.registry
    ensures TimerOk(h', s)
  {
  }

  /** Only a handshake that fails to end arms a timer without a use, and no other step makes a timer useless. */
  lemma TimerKept(w: World, s: Step, t: Slot)
    requires Inv(w) && Enabled(w, s) && !FailsToEnd(w, s, t)
    requires t in Next(w, s).hub.timers && (t in w.hub.timers ==> TimerOk(w.hub, t))
    ensures TimerOk(Next(w, s).hub, t)
  {
    hide Inv, AfterHttpConnect, AfterEnd, AfterReceive, AfterClose, AfterExpiry, TimerOk, FinishPending;
    match s
    case HttpConnect(name, pin, d, deviceName) => TimerAfterHttpConnect(w, name, pin, d, deviceName, t);
    case OpenMember(c) => TimerAfterOpen(w, c, t);
    case BeginMember(c) => SameTimer(w.hub, AfterBegin(w, c).hub, t);
    case EndMember(c) => TimerAfterEnd(w, c, t);
    case OpenJoiner(c) =>
      EndJoinerHub(AfterBeginJoiner(w, c), c);
      SameTimer(w.hub, AfterBeginJoiner(w, c).hub, t);
    case BeginJoiner(c) => SameTimer(w.hub, AfterBeginJoiner(w, c).hub, t);
    case EndJoiner(c) => EndJoinerHub(w, c);
    case Receive(c, e, x) => TimerAfterReceive(w, c, e, x, t);
    case Close(c) => TimerAfterClose(w, c, t);
    case Expiry(slot) => TimerAfterExpiry(w, slot, t);
  }

  lemma EndJoinerHub(w: World, c: Connection)
    requires c in w.opening
    ensures AfterEndJoiner(w, c).hub == w.hub
  {
  }

  // ----- pending connections -----

  /** If c still waits, it waited before, and its join is pending exactly if it was. */
  ghost predicate WaitKept(h: Hub, h': Hub, c: Connection) {
    CurrentPending(h', c) ==> CurrentPending(h, c) && (PendingExists(h', c) <==> PendingExists(h, c))
  }

  ghost predicate FewerPending(h: Hub, h': Hub) {
    forall j | j in h'.pending :: j in h.pending && h'.pending[j] == h.pending[j]
  }

  ghost predicate SameJoins(r: Registry, r': Registry) {
    r'.channels.Keys == r.channels.Keys && forall i | i in r.channels :: r'.channels[i].pending == r.channels[i].pending
  }

  lemma SameJoinsKeep(h: Hub, h': Hub, c: Connection)
    requires SameJoins(h.registry, h'.registry) && FewerPending(h, h')
    ensures WaitKept(h, h', c)
  {
  }

  lemma WaitAfterHttpConnect(w: World, name: string, pin: string, d: string, deviceName: string, c: Connection)
    requires Inv(w) && Enabled(w, HttpConnect(name, pin, d, deviceName))
    ensures WaitKept(w.hub, AfterHttpConnect(w, name, pin, d, deviceName).hub, c)
  {
    hide Inv, RegistryInv, Connect, Grown, OnlyNew, PendingInv, MembersInv, SocketsInv, PresenceInv, KnowsInv, AckInv, DecidedInv;
    hide AfterHttpConnect, PendingExists, Issued;
    InvRegistry(w);
    InvParts(w);
    ConnectFacts(w.hub.registry, w.lives, name, pin, d, deviceName);
    ConnectPending(w, name, pin, d, deviceName);
    var result := Connect(w.hub.registry, name, pin, d, deviceName).1;
    if CurrentPending(w.hub, c) {
      WaitingIsVouched(w, c);
      GrownWait(w.hub, AfterHttpConnect(w, name, pin, d, deviceName).hub, (result.channelId, d), result.Created?, c);
    }
  }

  lemma GrownWait(h: Hub, h': Hub, slot: Slot, created: bool, c: Connection)
    requires Grown(h.registry, h'.registry) && OnlyNew(h.registry, h'.registry, slot, created)
    requires Issued(c.joinRequestId, h.registry.joinSeq)
    ensures PendingExists(h', c) <==> PendingExists(h, c)
  {
    hide Issued;
    if c.channelId in h.registry.channels {
      assert Similar(h.registry.channels[c.channelId], h'.registry.channels[c.channelId], h.registry.joinSeq);
    }
  }

  lemma ConnectPending(w: World, name: string, pin: string, d: string, deviceName: string)
    requires Indexed(w.hub.registry)
    ensures AfterHttpConnect(w, name, pin, d, deviceName).hub.pending == w.hub.pending
    ensures AfterHttpConnect(w, name, pin, d, deviceName).hub.registry == Connect(w.hub.registry, name, pin, d, deviceName).0
  {
    hide Connect;
  }

  lemma WaitingIsVouched(w: World, c: Connection)
    requires PendingInv(w) && CurrentPending(w.hub, c)
    ensures Issued(c.joinRequestId, w.hub.registry.joinSeq) && c !in w.hub.promoted && c.claimed.PendingRole?
  {
    hide Issued;
    assert Vouched(w.hub.registry, c);
  }

  lemma UnregisterPending(h: Hub, c: Connection)
    ensures FewerPending(h, Unregister(h, c)) && FewerPending(h, RemovePending(h, c))
  {
  }

  lemma PresenceSameJoins(r: Registry, r': Registry, id: string, d: string, online: bool)
    requires PresenceSet(r, r', id, d, online)
    ensures SameJoins(r, r')
  {
  }

  lemma WaitAfterEnd(w: World, c: Connection)
    requires c in w.opening
    ensures SameJoins(w.hub.registry, AfterEnd(w, c).hub.registry) && FewerPending(w.hub, AfterEnd(w, c).hub)
  {
    hide SetOnline, PresenceSet, NoAcks, FinishMember, NotifyOwnerOfPendingJoins, AfterEnd, Unregister;
    SetOnlineDefined(w.hub.registry, c.channelId, c.deviceId, true, false);
    if Registered(w.hub, c) {
      SetOnlineFacts(w.hub.registry, c.channelId, c.deviceId, true, false);
      EndHub(w, c);
      PresenceSameJoins(w.hub.registry, AfterEnd(w, c).hub.registry, c.channelId, c.deviceId, true);
    } else {
      UnregisteredEnd(w, c);
      DropSame(w, c);
      UnregisterPending(w.hub, c);
    }
  }

  lemma WaitAfterOpen(w: World, c: Connection)
    requires Enabled(w, OpenMember(c))
    ensures SameJoins(w.hub.registry, Next(w, OpenMember(c)).hub.registry) && FewerPending(w.hub, Next(w, OpenMember(c)).hub)
  {
    hide AfterEnd;
    WaitAfterEnd(AfterBegin(w, c), c);
  }

  lemma WaitAfterExpiry(w: World, slot: Slot, c: Connection)
    requires Inv(w)
    ensures WaitKept(w.hub, AfterExpiry(w, slot).hub, c)
  {
    hide Inv, Expire, SetOnline, NoAcks, NotifyOwnerOfPendingJoins, PresenceSet;
    var h' := AfterExpiry(w, slot).hub;
    if slot in w.hub.members || SetOnline(w.hub.registry, slot.0, slot.1, false, true).None? {
      QuietExpiry(w.hub, slot);
    } else {
      ExpiryOut(w.hub, slot);
      SetOnlineFacts(w.hub.registry, slot.0, slot.1, false, true);
      if !SetOnline(w.hub.registry, slot.0, slot.1, false, true).value.1.deleted {
        PresenceSameJoins(w.hub.registry, h'.registry, slot.0, slot.1, false);
      }
    }
  }

  /** A decision takes one join, and the connection that waits for it. */
  lemma DecisionWaits(h: Hub, h': Hub, id: string, j: string, c: Connection)
    requires OneDecided(h.registry, h'.registry, id, j) && FewerPending(h, h') && j !in h'.pending
    ensures WaitKept(h, h', c)
  {
    if c.channelId in h.registry.channels && c.channelId != id {
      assert h'.registry.channels[c.channelId] == h.registry.channels[c.channelId];
    }
  }

  lemma WaitAfterDecision(w: World, s: Connection, e: Event, x: Choice, c: Connection)
    requires Inv(w) && Enabled(w, Receive(s, e, x)) && Decides(w.hub, s, e, x)
    ensures WaitKept(w.hub, HandleEvent(w.hub, s, e, x).hub, c)
  {
    hide Inv, RegistryInv, PendingInv, DecideByOwner, HandleEvent, IsTarget, IsJoin, Decides, Decide, OneDecided, WaitKept;
    hide FewerPending, SameJoins, CurrentPending, PendingExists;
    DecidesMeans(w.hub, s, e, x);
    DecisionRegistry(w, s, e, x);
    DecideEffect(w.hub, s, e, x);
    InvParts(w);
    var join := w.hub.registry.channels[s.channelId].pending[x.join.value];
    var r' := DecideByOwner(w.hub.registry, s.channelId, s.deviceId, join.id, e.kind.JoinApprove?).value;
    var h, h' := w.hub.(registry := r'), HandleEvent(w.hub, s, e, x).hub;
    if join.id in w.hub.pending {
      PendingUnder(w, join.id);
    }
    DecidePending(h, s, e, join, e.kind.JoinApprove?, x);
    var h1 := h'.(registry := r');
    FewerPendingSame(h, w.hub, h', h1);
    DecisionWaits(w.hub, h1, s.channelId, join.id, c);
    WaitSame(w.hub, h1, h', c);
  }

  lemma FewerPendingSame(h: Hub, g: Hub, h': Hub, g': Hub)
    requires FewerPending(h, h') && g.pending == h.pending && g'.pending == h'.pending
    ensures FewerPending(g, g')
  {
  }

  lemma WaitSame(h: Hub, h1: Hub, h2: Hub, c: Connection)
    requires WaitKept(h, h1, c) && SameJoins(h1.registry, h2.registry) && h2.pending == h1.pending
    ensures WaitKept(h, h2, c)
  {
  }

  lemma DecidePending(h: Hub, c: Connection, e: Event, join: JoinRequest, approve: bool, x: Choice)
    requires join.id in h.pending ==> h.pending[join.id].joinRequestId == join.id
    ensures var h' := Decide(h, c, e, join, approve, x).hub;
            FewerPending(h, h') && join.id !in h'.pending && SameJoins(h.registry, h'.registry)
  {
    hide SetOnline, EmitPresenceChange, PresenceSet, SameJoins;
    SameJoinsReflexive(h.registry);
    if join.id in h.pending {
      var p := h.pending[join.id];
      SetOnlineFacts'(h.registry, p.channelId, p.deviceId);
      if SetOnline(h.registry, p.channelId, p.deviceId, true, false).Some? {
        PresenceSameJoins(h.registry, SetOnline(h.registry, p.channelId, p.deviceId, true, false).value.0, p.channelId, p.deviceId, true);
      }
    }
  }

  lemma SameJoinsReflexive(r: Registry)
    ensures SameJoins(r, r)
  {
  }

  lemma WaitAfterReceive(w: World, s: Connection, e: Event, x: Choice, c: Connection)
    requires Inv(w) && Enabled(w, Receive(s, e, x))
    ensures WaitKept(w.hub, AfterReceive(w, s, e, x).hub, c)
  {
    hide Inv, CanSend, Decides, HandleEvent, Record, NoAcks, IsTarget, IsJoin, WaitKept, RemovePending;
    var effect := HandleEvent(w.hub, s, e, x);
    RecordKeeps(w, s, effect.facts);
    if !CanSend(w.hub, s) {
      RejectEffect(w.hub, s, e, x);
      UnregisterPending(w.hub, s);
      RemovePendingKept(w.hub, s);
      SameJoinsKeep(w.hub, effect.hub, c);
    } else if Decides(w.hub, s, e, x) {
      WaitAfterDecision(w, s, e, x, c);
    } else if Delivers(w.hub, s, e, x) {
      DeliveryEffect(w.hub, s, e, x);
      SameJoinsKeep(w.hub, effect.hub, c);
    } else {
      PlainEffect(w.hub, s, e, x);
      SameJoinsKeep(w.hub, effect.hub, c);
    }
  }

  lemma RemovePendingKept(h: Hub, c: Connection)
    ensures RemovePending(h, c).registry == h.registry
  {
  }

  /** Once a connection is registered, nothing but a decision of its join or the end of its channel changes its claims. */
  lemma StepKeepsWait(w: World, s: Step, c: Connection)
    requires Inv(w) && Enabled(w, s) && c in w.seen
    ensures WaitKept(w.hub, Next(w, s).hub, c)
  {
    hide Inv, AfterHttpConnect, AfterEnd, AfterReceive, AfterExpiry, FinishPending, WaitKept, Unregister, RegisterMember;
    match s
    case HttpConnect(name, pin, d, deviceName) => WaitAfterHttpConnect(w, name, pin, d, deviceName, c);
    case OpenMember(o) =>
      WaitAfterOpen(w, o);
      SameJoinsKeep(w.hub, Next(w, s).hub, c);
    case BeginMember(o) => BeginWaits(w, o, c);
    case EndMember(o) =>
      WaitAfterEnd(w, o);
      SameJoinsKeep(w.hub, Next(w, s).hub, c);
    case OpenJoiner(o) =>
      JoinerWaits(w, o, c);
      EndJoinerHub(AfterBeginJoiner(w, o), o);
    case BeginJoiner(o) => JoinerWaits(w, o, c);
    case EndJoiner(o) =>
      EndJoinerHub(w, o);
      SameJoinsKeep(w.hub, w.hub, c);
    case Receive(o, e, x) => WaitAfterReceive(w, o, e, x, c);
    case Close(o) =>
      UnregisterPending(w.hub, o);
      UnregisterKeptRegistry(w.hub, o);
      SameJoinsKeep(w.hub, Next(w, s).hub, c);
    case Expiry(slot) => WaitAfterExpiry(w, slot, c);
  }

  lemma UnregisterKeptRegistry(h: Hub, c: Connection)
    ensures Unregister(h, c).registry == h.registry
  {
  }

  lemma BeginWaits(w: World, o: Connection, c: Connection)
    ensures WaitKept(w.hub, AfterBegin(w, o).hub, c)
  {
  }

  lemma JoinerWaits(w: World, o: Connection, c: Connection)
    requires o !in w.seen && c in w.seen
    ensures WaitKept(w.hub, AfterBeginJoiner(w, o).hub, c)
  {
  }

  /** Joins only go, except for new ones with fresh ids. */
  lemma ReceiveJoins(w: World, s: Connection, e: Event, x: Choice)
    requires Inv(w) && Enabled(w, Receive(s, e, x))
    ensures FewerJoins(w.hub.registry, AfterReceive(w, s, e, x).hub.registry)
  {
    hide Inv, CanSend, Decides, HandleEvent, Record, NoAcks, IsTarget, IsJoin, RemovePending, FewerJoins;
    RecordKeeps(w, s, HandleEvent(w.hub, s, e, x).facts);
    SameAreFewer(w.hub.registry, w.hub.registry);
    if !CanSend(w.hub, s) {
      RejectEffect(w.hub, s, e, x);
      RemovePendingKept(w.hub, s);
    } else if Decides(w.hub, s, e, x) {
      DecisionFewer(w, s, e, x);
    } else if Delivers(w.hub, s, e, x) {
      DeliveryEffect(w.hub, s, e, x);
    } else {
      PlainEffect(w.hub, s, e, x);
    }
  }

  lemma SameAreFewer(r: Registry, r': Registry)
    requires SameJoins(r, r') && r'.joinSeq == r.joinSeq
    ensures FewerJoins(r, r')
  {
  }

  lemma FewerTwice(a: Registry, b: Registry, c: Registry)
    requires FewerJoins(a, b) && FewerJoins(b, c)
    ensures FewerJoins(a, c)
  {
  }

  lemma DecisionFewer(w: World, s: Connection, e: Event, x: Choice)
    requires Inv(w) && Enabled(w, Receive(s, e, x)) && Decides(w.hub, s, e, x)
    ensures FewerJoins(w.hub.registry, HandleEvent(w.hub, s, e, x).hub.registry)
  {
    hide Inv, RegistryInv, PendingInv, DecideByOwner, HandleEvent, IsTarget, IsJoin, Decides, Decide, OneDecided, FewerJoins, SameJoins;
    DecidesMeans(w.hub, s, e, x);
    DecisionRegistry(w, s, e, x);
    DecideEffect(w.hub, s, e, x);
    InvParts(w);
    var join := w.hub.registry.channels[s.channelId].pending[x.join.value];
    var r' := DecideByOwner(w.hub.registry, s.channelId, s.deviceId, join.id, e.kind.JoinApprove?).value;
    if join.id in w.hub.pending {
      PendingUnder(w, join.id);
    }
    DecidePending(w.hub.(registry := r'), s, e, join, e.kind.JoinApprove?, x);
    DecideJoinSeq(w.hub.(registry := r'), s, e, join, e.kind.JoinApprove?, x);
    DecisionJoins(w.hub.registry, r', s.channelId, join.id);
    SameAreFewer(r', HandleEvent(w.hub, s, e, x).hub.registry);
    FewerTwice(w.hub.registry, r', HandleEvent(w.hub, s, e, x).hub.registry);
  }

  lemma DecideJoinSeq(h: Hub, c: Connection, e: Event, join: JoinRequest, approve: bool, x: Choice)
    ensures Decide(h, c, e, join, approve, x).hub.registry.joinSeq == h.registry.joinSeq
  {
    hide EmitPresenceChange, Elect;
  }

  lemma ExpiryJoins(w: World, slot: Slot)
    ensures FewerJoins(w.hub.registry, AfterExpiry(w, slot).hub.registry)
  {
    hide Expire, SetOnline, NoAcks, NotifyOwnerOfPendingJoins, PresenceSet;
    if slot in w.hub.members || SetOnline(w.hub.registry, slot.0, slot.1, false, true).None? {
      QuietExpiry(w.hub, slot);
    } else {
      ExpiryOut(w.hub, slot);
      SetOnlineFacts(w.hub.registry, slot.0, slot.1, false, true);
      var (r', change) := SetOnline(w.hub.registry, slot.0, slot.1, false, true).value;
      if !change.deleted {
        PresenceJoins(w.hub.registry, r', slot.0, slot.1, false);
      }
    }
  }

  lemma EndJoins(w: World, c: Connection)
    requires c in w.opening
    ensures FewerJoins(w.hub.registry, AfterEnd(w, c).hub.registry)
  {
    hide SetOnline, PresenceSet, AfterEnd, FewerJoins;
    SetOnlineDefined(w.hub.registry, c.channelId, c.deviceId, true, false);
    if Registered(w.hub, c) {
      SetOnlineFacts(w.hub.registry, c.channelId, c.deviceId, true, false);
      EndHub(w, c);
      PresenceJoins(w.hub.registry, AfterEnd(w, c).hub.registry, c.channelId, c.deviceId, true);
    } else {
      UnregisteredEnd(w, c);
      DropSame(w, c);
      SameAreFewer(w.hub.registry, w.hub.registry);
    }
  }

  /** Whoever is vouched for stays so, whatever happens. */
  lemma StepKeepsVouched(w: World, s: Step, c: Connection)
    requires Inv(w) && Enabled(w, s) && Vouched(w.hub.registry, c)
    ensures Vouched(Next(w, s).hub.registry, c)
  {
    hide Inv, RegistryInv, AfterHttpConnect, AfterEnd, AfterReceive, AfterExpiry, FinishPending, Vouched, Unregister, RegisterMember;
    hide FewerJoins, Grown, OnlyNew, Connect;
    var r, r' := w.hub.registry, Next(w, s).hub.registry;
    match s
    case HttpConnect(name, pin, d, deviceName) =>
      InvRegistry(w);
      ConnectFacts(r, w.lives, name, pin, d, deviceName);
      ConnectPending(w, name, pin, d, deviceName);
      var result := Connect(r, name, pin, d, deviceName).1;
      VouchedGrows(r, r', (result.channelId, d), result.Created?, c);
    case OpenMember(o) =>
      BeginKept(w, o);
      EndJoins(AfterBegin(w, o), o);
      VouchedStill(r, r', c);
    case BeginMember(o) => BeginKept(w, o);
    case EndMember(o) =>
      EndJoins(w, o);
      VouchedStill(r, r', c);
    case OpenJoiner(o) => EndJoinerHub(AfterBeginJoiner(w, o), o);
    case BeginJoiner(o) =>
    case EndJoiner(o) => EndJoinerHub(w, o);
    case Receive(o, e, x) =>
      ReceiveJoins(w, o, e, x);
      VouchedStill(r, r', c);
    case Close(o) => UnregisterKeptRegistry(w.hub, o);
    case Expiry(slot) =>
      ExpiryJoins(w, slot);
      VouchedStill(r, r', c);
  }

  lemma BeginKept(w: World, c: Connection)
    ensures AfterBegin(w, c).hub.registry == w.hub.registry
  {
  }

  /** Who may not send: a superseded connection, or a joiner without a pending join that is not a member either. */
  lemma RejectedExactlyWhen(w: World, c: Connection)
    requires Inv(w)
    ensures CanSend(w.hub, c) <==>
              if IsMember(w.hub, c) then CurrentMember(w.hub, c)
              else CurrentPending(w.hub, c) && (PendingExists(w.hub, c) || RegistryMemberExists(w.hub, c))
  {
    hide RegistryInv, DecidedInv, PendingInv, PresenceInv, KnowsInv, AckInv, SocketsInv, PendingExists, OnlineMember;
  }
}
