/** Timers without a use: how they come about, and what ends them. */
module RelayTimers {
  import opened Options
  import opened Identifiers
  import opened Protocol
  import opened Connections
  import opened RegistrySpec
  import opened HubSpec
  import opened RelayRuns
  import opened RegistryProofs
  import opened RelayProofs
  import opened RelayEventProofs
  import opened RelayTheorems
  import opened RelayGuarantees
  import opened RelayMaps

  /** A timer for nobody: its device is no member, or an offline member of a channel that has an owner. */
  ghost predicate StaleTimer(h: Hub, t: Slot) {
    t in h.timers && !TimerOk(h, t)
  }

  /** The step is the approval of a join of the device whose connection waits. */
  ghost predicate Promotes(w: World, s: Step, t: Slot) {
    && s.Receive? && Decides(w.hub, s.conn, s.event, s.choice) && s.event.kind.JoinApprove?
    && s.choice.join.value in w.hub.pending && SlotOf(w.hub.pending[s.choice.join.value]) == t
  }

  /** The step creates the channel of the slot anew, for its device. */
  ghost predicate Creates(w: World, s: Step, t: Slot) {
    && s.HttpConnect? && s.deviceId == t.1 && t.0 !in w.hub.registry.channels
    && t.0 == ChannelIdForKey(ChannelKey(s.name, s.pin))
  }

  /**
   * The timer callback runs, a connection of the device is registered or promoted, a handshake of it ends with the device
   * as a member, or the device creates the channel anew.
   */
  ghost predicate Clears(w: World, s: Step, t: Slot) {
    || s == Expiry(t)
    || ((s.OpenMember? || s.BeginMember?) && SlotOf(s.conn) == t)
    || (s.EndMember? && SlotOf(s.conn) == t && Registered(w.hub, s.conn))
    || Promotes(w, s, t) || Creates(w, s, t)
  }

  // ----- how it begins -----

  lemma StaleBegins(w: World, s: Step, t: Slot)
    requires Inv(w) && Enabled(w, s) && !StaleTimer(w.hub, t)
    ensures StaleTimer(Next(w, s).hub, t) <==> FailsToEnd(w, s, t)
  {
    hide Inv, Enabled, Next, TimerOk, FailsToEnd;
    if FailsToEnd(w, s, t) {
      FailureIsStale(w, s, t);
    } else if StaleTimer(Next(w, s).hub, t) {
      TimerKept(w, s, t);
    }
  }

  lemma FailureIsStale(w: World, s: Step, t: Slot)
    requires Enabled(w, s) && FailsToEnd(w, s, t)
    ensures StaleTimer(Next(w, s).hub, t)
  {
    hide AfterEnd;
    FailureTimers(w, s.conn);
  }

  // ----- how it goes on -----

  lemma StaleAfterPresence(h: Hub, h': Hub, slot: Slot, online: bool, t: Slot)
    requires PresenceSet(h.registry, h'.registry, slot.0, slot.1, online) && slot != t
    requires h'.registry.channels[slot.0].ownerId != "" && !TimerOk(h, t)
    ensures !TimerOk(h', t)
  {
  }

  lemma StaleAfterEnd(w: World, c: Connection, t: Slot)
    requires Inv(w) && c in w.opening && StaleTimer(w.hub, t) && (SlotOf(c) == t ==> !Registered(w.hub, c))
    ensures StaleTimer(AfterEnd(w, c).hub, t)
  {
    hide Inv, RegistryInv, SetOnline, PresenceSet, TimerOk, AfterEnd, CurrentMember;
    SetOnlineDefined(w.hub.registry, c.channelId, c.deviceId, true, false);
    if Registered(w.hub, c) {
      InvRegistry(w);
      SetOnlineFacts(w.hub.registry, c.channelId, c.deviceId, true, false);
      OnlineOwnerInRun(w.hub.registry, w.lives, c.channelId, c.deviceId);
      EndHub(w, c);
      StaleAfterPresence(w.hub, AfterEnd(w, c).hub, SlotOf(c), true, t);
    } else {
      FailureTimers(w, c);
      SameTimer(w.hub, AfterEnd(w, c).hub, t);
    }
  }

  lemma StaleAfterOpen(w: World, c: Connection, t: Slot)
    requires Inv(w) && Enabled(w, OpenMember(c)) && StaleTimer(w.hub, t) && SlotOf(c) != t
    ensures StaleTimer(Next(w, OpenMember(c)).hub, t)
  {
    hide Inv, AfterEnd, TimerOk;
    BeginKeeps(w, c);
    SameTimer(w.hub, AfterBegin(w, c).hub, t);
    StaleAfterEnd(AfterBegin(w, c), c, t);
  }

  lemma StaleAfterHttpConnect(w: World, name: string, pin: string, d: string, deviceName: string, t: Slot)
    requires Inv(w) && Enabled(w, HttpConnect(name, pin, d, deviceName)) && StaleTimer(w.hub, t)
    ensures StaleTimer(AfterHttpConnect(w, name, pin, d, deviceName).hub, t)
       <==> !Creates(w, HttpConnect(name, pin, d, deviceName), t)
  {
    hide Inv, RegistryInv, Connect, Grown, OnlyNew, TimerOk, AfterHttpConnect, ChannelKey, ChannelIdForKey;
    InvRegistry(w);
    ConnectFacts(w.hub.registry, w.lives, name, pin, d, deviceName);
    HttpConnectIs(w, name, pin, d, deviceName);
    CreatedId(w.hub.registry, w.lives, name, pin, d, deviceName);
    NewChannelIsThere(w.hub.registry, name, pin, d, deviceName);
    var result := Connect(w.hub.registry, name, pin, d, deviceName).1;
    var h' := AfterHttpConnect(w, name, pin, d, deviceName).hub;
    if result.Created? && t == (result.channelId, d) {
      NewTimer(h', t);
    } else {
      StaleAfterGrowth(w.hub, h', (result.channelId, d), result.Created?, t);
    }
  }

  /** A channel is created exactly when no channel has the id of its name and PIN. */
  lemma CreatedId(r: Registry, lives: map<string, Life>, name: string, pin: string, d: string, deviceName: string)
    requires RegistryInv(r, lives) && Indexed(r)
    ensures var result := Connect(r, name, pin, d, deviceName).1; var id := ChannelIdForKey(ChannelKey(name, pin));
            (result.Created? <==> id !in r.channels) && (result.Created? ==> result.channelId == id)
  {
    hide RegistryInv, ChannelKey, ChannelIdForKey, AskToJoin, Elect, Inverse;
    var key := ChannelKey(name, pin);
    if key !in r.channelByKey {
      FreeIdInRun(r, lives, key);
    } else {
      IndexedId(r, lives, key);
    }
  }

  lemma IndexedId(r: Registry, lives: map<string, Life>, key: string)
    requires RegistryInv(r, lives) && key in r.channelByKey
    ensures ChannelIdForKey(key) in r.channels
  {
    hide ChannelInv, SoundChannel, ChannelIdForKey;
  }

  lemma StaleAfterGrowth(h: Hub, h': Hub, slot: Slot, created: bool, t: Slot)
    requires Grown(h.registry, h'.registry) && OnlyNew(h.registry, h'.registry, slot, created)
    requires StaleTimer(h, t) && h.timers <= h'.timers && !(created && t == slot)
    ensures StaleTimer(h', t)
  {
    hide Issued;
    if t.0 in h.registry.channels {
      assert Similar(h.registry.channels[t.0], h'.registry.channels[t.0], h.registry.joinSeq);
    }
  }

  lemma StaleAfterExpiry(w: World, slot: Slot, t: Slot)
    requires Inv(w) && StaleTimer(w.hub, t) && slot != t
    ensures StaleTimer(AfterExpiry(w, slot).hub, t)
  {
    hide Inv, RegistryInv, Expire, SetOnline, NoAcks, NotifyOwnerOfPendingJoins, PresenceSet, TimerOk;
    ExpiryTimers(w.hub, slot);
    var h' := AfterExpiry(w, slot).hub;
    if slot in w.hub.members || SetOnline(w.hub.registry, slot.0, slot.1, false, true).None? {
      QuietExpiry(w.hub, slot);
      SameTimer(w.hub, h', t);
    } else {
      ExpiryOut(w.hub, slot);
      SetOnlineFacts(w.hub.registry, slot.0, slot.1, false, true);
      if SetOnline(w.hub.registry, slot.0, slot.1, false, true).value.1.deleted {
        StaleAfterDeletion(w.hub, h', slot.0, t);
      } else {
        SurvivorHasOwner(w.hub.registry, slot);
        StaleAfterPresence(w.hub, h', slot, false, t);
      }
    }
  }

  lemma StaleAfterDeletion(h: Hub, h': Hub, id: string, t: Slot)
    requires h'.registry.channels == h.registry.channels - {id} && !TimerOk(h, t)
    ensures !TimerOk(h', t)
  {
  }

  // ----- decisions -----

  lemma StaleAfterReceive(w: World, c: Connection, e: Event, x: Choice, t: Slot)
    requires Inv(w) && Enabled(w, Receive(c, e, x)) && StaleTimer(w.hub, t)
    ensures StaleTimer(AfterReceive(w, c, e, x).hub, t) <==> !Promotes(w, Receive(c, e, x), t)
  {
    hide Inv, CanSend, Decides, HandleEvent, Record, NoAcks, IsTarget, IsJoin, TimerOk;
    var effect := HandleEvent(w.hub, c, e, x);
    RecordKeeps(w, c, effect.facts);
    if !CanSend(w.hub, c) {
      RejectEffect(w.hub, c, e, x);
      SameTimer(w.hub, effect.hub, t);
      OnlySendersDecide(w.hub, c, e, x);
    } else if Decides(w.hub, c, e, x) {
      DecidesMeans(w.hub, c, e, x);
      StaleAfterDecision(w, c, e, x, t);
    } else if Delivers(w.hub, c, e, x) {
      DeliveryEffect(w.hub, c, e, x);
    } else {
      PlainEffect(w.hub, c, e, x);
    }
  }

  lemma OnlySendersDecide(h: Hub, c: Connection, e: Event, x: Choice)
    requires !CanSend(h, c)
    ensures !Decides(h, c, e, x)
  {
    hide CanSend, DecideByOwner;
  }

  lemma StaleAfterDecision(w: World, c: Connection, e: Event, x: Choice, t: Slot)
    requires Inv(w) && Enabled(w, Receive(c, e, x)) && Decides(w.hub, c, e, x) && StaleTimer(w.hub, t) && x.join.Some?
    ensures StaleTimer(HandleEvent(w.hub, c, e, x).hub, t)
       <==> !(e.kind.JoinApprove? && x.join.value in w.hub.pending && SlotOf(w.hub.pending[x.join.value]) == t)
  {
    hide Inv, RegistryInv, PendingInv, DecideByOwner, HandleEvent, IsTarget, IsJoin, Decides, Decide, OneDecided, TimerOk;
    DecidesMeans(w.hub, c, e, x);
    DecisionRegistry(w, c, e, x);
    DecideEffect(w.hub, c, e, x);
    InvParts(w);
    var join := w.hub.registry.channels[c.channelId].pending[x.join.value];
    var r' := DecideByOwner(w.hub.registry, c.channelId, c.deviceId, join.id, e.kind.JoinApprove?).value;
    var lives' := if e.kind.JoinApprove? then Extended(w, c, join) else w.lives;
    var h := w.hub.(registry := r');
    StaleAfterRegistry(w.hub, h, c.channelId, join.id, t);
    if join.id in w.hub.pending {
      var p := w.hub.pending[join.id];
      WaitingSpeaksForJoiner(w, c.channelId, join.id);
      PendingUnder(w, join.id);
      WaitingIsIn(w.hub.registry, r', c.channelId, join.id, p, e.kind.JoinApprove?);
      DecideLeavesTimers(h, c, e, join, e.kind.JoinApprove?, x, lives', t);
    } else {
      UnseenTimers(h, c, e, join, e.kind.JoinApprove?, x);
    }
  }

  lemma StaleAfterRegistry(h: Hub, h': Hub, id: string, j: string, t: Slot)
    requires OneDecided(h.registry, h'.registry, id, j) && StaleTimer(h, t) && h'.timers == h.timers
    ensures StaleTimer(h', t)
  {
  }

  lemma WaitingIsIn(r: Registry, r': Registry, id: string, j: string, p: Connection, approve: bool)
    requires OneDecided(r, r', id, j) && SlotOf(p) == (id, r.channels[id].pending[j].deviceId)
    requires approve ==> r.channels[id].pending[j].deviceId in r'.channels[id].members
    ensures approve ==> SetOnline(r', p.channelId, p.deviceId, true, false).Some?
  {
    SetOnlineDefined(r', p.channelId, p.deviceId, true, false);
    hide SetOnline;
  }

  lemma DecideLeavesTimers(h: Hub, c: Connection, e: Event, join: JoinRequest, approve: bool, x: Choice, lives: map<string, Life>, t: Slot)
    requires RegistryInv(h.registry, lives) && StaleTimer(h, t)
    requires join.id in h.pending && h.pending[join.id].joinRequestId == join.id
    requires approve ==> SetOnline(h.registry, h.pending[join.id].channelId, h.pending[join.id].deviceId, true, false).Some?
    ensures StaleTimer(Decide(h, c, e, join, approve, x).hub, t) <==> !(approve && SlotOf(h.pending[join.id]) == t)
  {
    hide RegistryInv, SetOnline, PresenceSet, TimerOk, Decide;
    var p := h.pending[join.id];
    DecideShows(h, c, e, join, approve, x);
    var h' := Decide(h, c, e, join, approve, x).hub;
    if approve {
      SetOnlineFacts(h.registry, p.channelId, p.deviceId, true, false);
      OnlineOwnerInRun(h.registry, lives, p.channelId, p.deviceId);
      if SlotOf(p) != t {
        StaleAfterPresence(h, h', SlotOf(p), true, t);
      }
    } else {
      SameTimer(h, h', t);
    }
  }

  /** What a decision on a waiting connection does to the registry and the timers. */
  lemma DecideShows(h: Hub, c: Connection, e: Event, join: JoinRequest, approve: bool, x: Choice)
    requires join.id in h.pending
    requires approve ==> SetOnline(h.registry, h.pending[join.id].channelId, h.pending[join.id].deviceId, true, false).Some?
    ensures var p := h.pending[join.id]; var h' := Decide(h, c, e, join, approve, x).hub;
            if approve then
              && h'.registry == SetOnline(h.registry, p.channelId, p.deviceId, true, false).value.0
              && h'.timers == h.timers - {SlotOf(p)}
            else h'.registry == h.registry && h'.timers == h.timers
  {
    hide SetOnline, EmitPresenceChange, ApprovedEvent;
  }

  // ----- all steps -----

  /** A timer without a use is so exactly until the device has a use for it, or it is gone. */
  lemma StaleUntilCleared(w: World, s: Step, t: Slot)
    requires Inv(w) && Enabled(w, s) && StaleTimer(w.hub, t)
    ensures StaleTimer(Next(w, s).hub, t) <==> !Clears(w, s, t)
  {
    hide Inv, AfterHttpConnect, AfterEnd, AfterReceive, AfterClose, AfterExpiry, TimerOk, FinishPending, RegistryMemberExists;
    hide Promotes, Creates;
    OnlyEventsPromote(w, s, t);
    match s
    case HttpConnect(name, pin, d, deviceName) => StaleAfterHttpConnect(w, name, pin, d, deviceName, t);
    case OpenMember(c) =>
      if SlotOf(c) == t {
        OpenedHasNoTimer(w, c);
      } else {
        StaleAfterOpen(w, c, t);
      }
    case BeginMember(c) => SameTimer(w.hub, AfterBegin(w, c).hub, t);
    case EndMember(c) =>
      if SlotOf(c) == t && Registered(w.hub, c) {
        EndedHasUse(w, c);
      } else {
        StaleAfterEnd(w, c, t);
      }
    case OpenJoiner(c) =>
      EndJoinerHub(AfterBeginJoiner(w, c), c);
      SameTimer(w.hub, AfterBeginJoiner(w, c).hub, t);
    case BeginJoiner(c) => SameTimer(w.hub, AfterBeginJoiner(w, c).hub, t);
    case EndJoiner(c) => EndJoinerHub(w, c);
    case Receive(c, e, x) => StaleAfterReceive(w, c, e, x, t);
    case Close(c) =>
      CloseTimers(w, c);
      SameTimer(w.hub, AfterClose(w, c).hub, t);
    case Expiry(slot) =>
      if slot == t {
        ExpiryClears(w, t);
      } else {
        StaleAfterExpiry(w, slot, t);
      }
  }

  lemma OnlyEventsPromote(w: World, s: Step, t: Slot)
    ensures (Promotes(w, s, t) ==> s.Receive?) && (Creates(w, s, t) ==> s.HttpConnect?)
  {
    hide Decides, ChannelKey, ChannelIdForKey;
  }

  lemma OpenedHasNoTimer(w: World, c: Connection)
    requires Enabled(w, OpenMember(c))
    ensures SlotOf(c) !in Next(w, OpenMember(c)).hub.timers
  {
    hide AfterEnd, SetOnline;
    SetOnlineDefined(w.hub.registry, c.channelId, c.deviceId, true, false);
    EndHub(AfterBegin(w, c), c);
  }

  lemma EndedHasUse(w: World, c: Connection)
    requires c in w.opening && Registered(w.hub, c)
    ensures TimerOk(AfterEnd(w, c).hub, SlotOf(c))
  {
    hide AfterEnd, SetOnline;
    SetOnlineDefined(w.hub.registry, c.channelId, c.deviceId, true, false);
    SetOnlineFacts(w.hub.registry, c.channelId, c.deviceId, true, false);
    EndHub(w, c);
  }

  lemma CloseTimers(w: World, c: Connection)
    ensures AfterClose(w, c).hub.registry == w.hub.registry && w.hub.timers <= AfterClose(w, c).hub.timers
  {
  }

  lemma ExpiryClears(w: World, t: Slot)
    ensures AfterExpiry(w, t).hub.timers == w.hub.timers - {t}
  {
    hide Expire;
    ExpiryTimers(w.hub, t);
  }
}
