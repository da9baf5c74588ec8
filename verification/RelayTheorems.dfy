/** What holds in every run of the relay. */
module RelayTheorems {
  import opened Options
  import opened Identifiers
  import opened Protocol
  import opened Connections
  import opened RegistrySpec
  import opened HubSpec
  import opened RelayRuns
  import opened RegistryProofs
  import opened RelayProofs
  import opened RelayEventProofs

  // ----- every step -----

  lemma EndKeeps(w: World, c: Connection)
    requires Inv(w) && c in w.opening && IsMember(w.hub, c)
    ensures Inv(AfterEnd(w, c))
  {
    hide Inv, AfterEnd, Registered;
    if Registered(w.hub, c) {
      EndRegistered(w, c);
    } else {
      EndUnregistered(w, c);
    }
  }

  lemma NextKeeps(w: World, s: Step)
    requires Inv(w) && Enabled(w, s)
    ensures Inv(Next(w, s))
  {
    hide Inv, AfterHttpConnect, AfterEnd, AfterBeginJoiner, AfterEndJoiner, AfterReceive, AfterClose, AfterExpiry;
    match s
    case HttpConnect(name, pin, d, deviceName) => HttpConnectKeeps(w, name, pin, d, deviceName);
    case OpenMember(c) =>
      BeginKeeps(w, c);
      EndKeeps(AfterBegin(w, c), c);
    case BeginMember(c) => BeginKeeps(w, c);
    case EndMember(c) => EndKeeps(w, c);
    case OpenJoiner(c) => OpenJoinerKeeps(w, c);
    case BeginJoiner(c) => BeginJoinerKeeps(w, c);
    case EndJoiner(c) => EndJoinerKeeps(w, c);
    case Receive(c, e, x) => ReceiveKeeps(w, c, e, x);
    case Close(c) => CloseKeeps(w, c);
    case Expiry(slot) => ExpiryKeeps(w, slot);
  }

  // ----- presence -----

  /** An online device without a connection and without a timer. */
  ghost predicate Lost(w: World, slot: Slot) {
    OnlineMember(w.hub, slot) && slot !in w.hub.members && slot !in w.hub.timers
  }

  /** Every device that is online is connected or in its grace period. */
  ghost predicate Present(w: World) {
    forall s | OnlineMember(w.hub, s) :: s in w.hub.members || s in w.hub.timers
  }

  /** The end of an untracked handshake leaves its device in that state. */
  lemma UntrackedEndIsLost(w: World, c: Connection)
    requires c in w.opening && !Tracked(w, c)
    ensures Lost(AfterEnd(w, c), SlotOf(c))
  {
    SetOnlineDefined(w.hub.registry, c.channelId, c.deviceId, true, false);
    SetOnlineFacts(w.hub.registry, c.channelId, c.deviceId, true, false);
    EndOut(w.hub, c, w.opening[c]);
    hide SetOnline, FinishMember, NoAcks, NotifyOwnerOfPendingJoins;
    assert OnlineMember(AfterEnd(w, c).hub, SlotOf(c));
  }

  /** The registry, the connections and the timers agree. */
  lemma PresenceAt(w: World)
    requires Inv(w)
    ensures var h := w.hub;
            && (forall s | s in h.members && h.members[s] !in w.opening :: OnlineMember(h, s))
            && (forall s | s in h.timers :: s !in h.members)
  {
    hide RegistryInv, DecidedInv, PendingInv, SocketsInv, KnowsInv, AckInv, OnlineMember;
  }

  /** A channel without an owner has only its creator, who has never been online and is given time to connect. */
  lemma OwnerlessAt(w: World, id: string)
    requires Inv(w) && id in w.hub.registry.channels && w.hub.registry.channels[id].ownerId == ""
    ensures id in w.lives
    ensures var ch := w.hub.registry.channels[id]; var creator := (id, w.lives[id].creator);
            && ch.members.Keys == {creator.1} && !ch.members[creator.1].online
            && (creator in w.hub.timers || (creator in w.hub.members && w.hub.members[creator] in w.opening))
  {
    hide RegistryInv, DecidedInv, PendingInv, SocketsInv, KnowsInv, AckInv;
    OwnerlessHasCreatorOnly(w, id);
    assert w.lives[id].creator in w.hub.registry.channels[id].members.Keys;
  }

  lemma OwnerlessHasCreatorOnly(w: World, id: string)
    requires Inv(w) && id in w.hub.registry.channels && w.hub.registry.channels[id].ownerId == ""
    ensures id in w.lives
    ensures var ch := w.hub.registry.channels[id];
            ch.members.Keys == {w.lives[id].creator} && !ch.members[w.lives[id].creator].online
  {
    hide Inv, RegistryInv;
    InvParts(w);
    LivesFollowChannels(w);
    ChannelInvOf(w, id);
    ChannelFacts(w.hub.registry, w.lives, id);
    OrderLength(w.lives[id]);
    var ch := w.hub.registry.channels[id];
    var creator := w.lives[id].creator;
    assert Order(w.lives[id])[0] == creator && creator in ch.members;
    OnlyMember(ch.members.Keys, creator);
  }

  lemma OnlyMember<T>(s: set<T>, x: T)
    requires |s| == 1 && x in s
    ensures s == {x}
  {
    assert |s - {x}| == 0;
  }

  /** The connection of the current owner has been told of every waiting join. */
  lemma OwnerKnowsAt(w: World, id: string, j: string)
    requires Inv(w) && id in w.hub.registry.channels && j in w.hub.registry.channels[id].pending
    requires j in w.hub.pending && w.hub.pending[j] !in w.opening
    requires var owner := (id, w.hub.registry.channels[id].ownerId);
             owner in w.hub.members && w.hub.members[owner] !in w.opening
    ensures var ch := w.hub.registry.channels[id];
            Wrote(w.hub.members[(id, ch.ownerId)], JoinRequestEvent(id, ch.pending[j], ch.ownerId)) in w.sent
  {
    hide Inv, RegistryInv, DecidedInv, PendingInv, PresenceInv, AckInv, SocketsInv, JoinRequestEvent;
    InvParts(w);
    ChannelFacts(w.hub.registry, w.lives, id);
    var owner := (id, w.hub.registry.channels[id].ownerId);
    assert SlotOf(w.hub.members[owner]) == owner && OnlineMember(w.hub, owner);
  }

  // ----- drain: no immortal channel -----

  /** A step of closing down: a handshake ends, a socket closes, an armed timer fires. */
  ghost predicate Drains(w: World, s: Step) {
    match s
    case EndMember(c) => Enabled(w, s)
    case EndJoiner(c) => Enabled(w, s)
    case Close(c) => Enabled(w, s)
    case Expiry(slot) => slot in w.hub.timers
    case _ => false
  }

  ghost function Measure(w: World): nat {
    |w.opening| + 2 * |w.open| + |w.hub.timers|
  }

  lemma AddOne<T>(s: set<T>, x: T)
    ensures |s + {x}| <= |s| + 1
  {
    if x in s {
      assert s + {x} == s;
    }
  }

  lemma UnregisterTimers(h: Hub, c: Connection)
    ensures |Unregister(h, c).timers| <= |h.timers| + 1
  {
    AddOne(h.timers, SlotOf(c));
  }

  lemma DrainEnd(w: World, c: Connection)
    requires Inv(w) && c in w.opening
    ensures Measure(AfterEnd(w, c)) < Measure(w)
  {
    hide AfterEnd, Unregister, RegistryInv, DecidedInv, MembersInv, PendingInv, KnowsInv, AckInv, PresenceInv;
    RemovalSize(w.opening, c);
    UnregisterTimers(w.hub, c);
    assert c in w.open;
    if Registered(w.hub, c) {
      RegisteredEndShows(w, c);
    } else {
      UnregisteredEnd(w, c);
    }
  }

  lemma RegisteredEndShows(w: World, c: Connection)
    requires c in w.opening && Registered(w.hub, c)
    ensures var w' := AfterEnd(w, c);
            && w'.opening == w.opening - {c} && w'.open == w.open && w'.seen == w.seen
            && w'.hub.timers == w.hub.timers && w'.hub.members == w.hub.members && w'.hub.promoted == w.hub.promoted
            && w'.hub.pending == w.hub.pending
  {
    SetOnlineDefined(w.hub.registry, c.channelId, c.deviceId, true, false);
    hide SetOnline, EmitPresenceChange, NotifyOwnerOfPendingJoins;
  }

  lemma ExpiryTimers(h: Hub, slot: Slot)
    ensures Expire(h, slot).hub.timers == h.timers - {slot}
  {
    hide SetOnline, EmitPresenceChange;
  }

  lemma DrainStepDecreases(w: World, s: Step)
    requires Inv(w) && Drains(w, s)
    ensures Enabled(w, s) && Measure(Next(w, s)) < Measure(w)
  {
    hide Inv, AfterEnd, AfterEndJoiner, AfterClose, AfterExpiry, Measure;
    match s
    case EndMember(c) => DrainEnd(w, c);
    case EndJoiner(c) => DrainJoiner(w, c);
    case Close(c) => DrainClose(w, c);
    case Expiry(slot) => DrainExpiry(w, slot);
  }

  lemma DrainJoiner(w: World, c: Connection)
    requires c in w.opening
    ensures Measure(AfterEndJoiner(w, c)) < Measure(w)
  {
    hide JoinNotice;
    RemovalSize(w.opening, c);
  }

  lemma DrainClose(w: World, c: Connection)
    requires c in w.open
    ensures Measure(AfterClose(w, c)) < Measure(w)
  {
    hide Unregister;
    UnregisterTimers(w.hub, c);
  }

  lemma DrainExpiry(w: World, slot: Slot)
    requires slot in w.hub.timers
    ensures Measure(AfterExpiry(w, slot)) < Measure(w)
  {
    hide Expire;
    ExpiryTimers(w.hub, slot);
  }

  /** Nothing is left in the registry or the hub. */
  ghost predicate Empty(h: Hub) {
    && h.registry.channels == map[] && h.registry.channelByKey == map[]
    && h.members == map[] && h.pending == map[] && h.timers == {}
  }

  /** Somebody of every channel is connected or in the grace period. */
  lemma EveryChannelIsTracked(w: World, id: string) returns (d: string)
    requires Inv(w) && Present(w) && id in w.hub.registry.channels
    ensures (id, d) in w.hub.members || (id, d) in w.hub.timers
  {
    hide RegistryInv, DecidedInv, MembersInv, PendingInv, SocketsInv, KnowsInv, AckInv;
    ChannelFacts(w.hub.registry, w.lives, id);
    var ch := w.hub.registry.channels[id];
    if ch.ownerId == "" {
      OwnerlessHasCreatorOnly(w, id);
      d := w.lives[id].creator;
      assert d in ch.members;
    } else {
      d := ch.ownerId;
      assert OnlineMember(w.hub, (id, d));
    }
  }

  lemma NoSocketNoTimerIsEmpty(w: World)
    requires Inv(w) && Present(w) && w.open == {} && w.hub.timers == {}
    ensures Empty(w.hub)
  {
    hide Inv, RegistryInv, DecidedInv, KnowsInv, AckInv, Present;
    InvParts(w);
    assert forall s :: s !in w.hub.members;
    assert forall j :: j !in w.hub.pending;
    forall id ensures id !in w.hub.registry.channels {
      if id in w.hub.registry.channels {
        var d := EveryChannelIsTracked(w, id);
      }
    }
    KeysFollowChannels(w);
  }

  lemma KeysFollowChannels(w: World)
    requires RegistryInv(w.hub.registry, w.lives)
    ensures forall k | k in w.hub.registry.channelByKey :: w.hub.registry.channelByKey[k] in w.hub.registry.channels
  {
    hide ChannelInv, SoundChannel;
  }

  /** Closing down never gets stuck: while something is open or armed, some step of it can be taken. */
  lemma DrainProgress(w: World) returns (s: Step)
    requires Inv(w) && (w.open != {} || w.hub.timers != {})
    ensures Drains(w, s)
  {
    hide Inv;
    if w.hub.timers != {} {
      var slot :| slot in w.hub.timers;
      s := Expiry(slot);
    } else {
      var c :| c in w.open;
      s := if c !in w.opening then Close(c) else if IsMember(w.hub, c) then EndMember(c) else EndJoiner(c);
    }
  }
}
