/** Every step of the relay keeps the invariant. */
module RelayProofs {
  import opened Options
  import opened Identifiers
  import opened Protocol
  import opened Connections
  import opened RegistrySpec
  import opened HubSpec
  import opened RelayRuns
  import opened RegistryProofs

  lemma StartKeeps()
    ensures Inv(Start())
  {
  }

  // ----- facts about the registry that the hub relies on -----

  lemma ChannelFacts(r: Registry, lives: map<string, Life>, id: string)
    requires RegistryInv(r, lives) && id in r.channels
    ensures var ch := r.channels[id];
            && ch.id == id && ch.ownerId == Elect(ch.members) && "" !in ch.members
            && (ch.ownerId != "" ==> ch.ownerId in ch.members && ch.members[ch.ownerId].online)
            && (ch.ownerId == "" ==> |ch.members| == 1 && forall d | d in ch.members :: !ch.members[d].online)
            && (forall j | j in ch.pending :: ch.pending[j].id == j && ch.pending[j].deviceId !in ch.members)
  {
    var ch := r.channels[id];
    assert ChannelInv(ch, lives[id], r.joinSeq);
    OwnerIsEarliestOnline(ch.members, Order(lives[id]));
    if ch.ownerId == "" {
      OrderLength(lives[id]);
    }
  }

  /** r' differs from r in the presence of one member, and in the owner that follows from it. */
  ghost predicate PresenceSet(r: Registry, r': Registry, id: string, d: string, online: bool) {
    && r'.channels.Keys == r.channels.Keys && r'.joinSeq == r.joinSeq
    && (forall i | i in r.channels && i != id :: r'.channels[i] == r.channels[i])
    && id in r.channels && d in r.channels[id].members
    && var ch := r.channels[id]; var ch' := r'.channels[id];
       && ch'.id == ch.id && ch'.pending == ch.pending
       && ch'.members == ch.members[d := ch.members[d].(online := online)]
  }

  lemma SetOnlineFacts(r: Registry, id: string, d: string, online: bool, deleteIfEmpty: bool)
    requires SetOnline(r, id, d, online, deleteIfEmpty).Some?
    ensures var (r', change) := SetOnline(r, id, d, online, deleteIfEmpty).value;
            && id in r.channels && d in r.channels[id].members
            && change.previousOwnerId == r.channels[id].ownerId
            && (change.deleted ==>
                  && deleteIfEmpty && r'.channels == r.channels - {id} && r'.joinSeq == r.joinSeq
                  && Elect(r.channels[id].members[d := r.channels[id].members[d].(online := online)]) == "")
            && (!change.deleted ==>
                  && PresenceSet(r, r', id, d, online) && change.channel == Some(r'.channels[id])
                  && change.currentOwnerId == r'.channels[id].ownerId
                  && (change.previousOwnerId != change.currentOwnerId ==> change.changed))
  {
    hide Elect;
  }

  lemma OnlineOwnerInRun(r: Registry, lives: map<string, Life>, id: string, d: string)
    requires RegistryInv(r, lives) && SetOnline(r, id, d, true, false).Some?
    ensures var ch' := SetOnline(r, id, d, true, false).value.0.channels[id];
            ch'.ownerId != "" && (ch'.ownerId == d || ch'.ownerId == r.channels[id].ownerId)
  {
    ChannelFacts(r, lives, id);
    OnlineOwner(r.channels[id].members, d);
  }

  // ----- the parts of the invariant -----

  lemma InvParts(w: World)
    requires Inv(w)
    ensures RegistryInv(w.hub.registry, w.lives) && DecidedInv(w.hub.registry, w.lives, w.decided)
    ensures MembersInv(w) && PendingInv(w) && PresenceInv(w) && SocketsInv(w) && KnowsInv(w) && AckInv(w)
  {
  }

  lemma InvFrom(w: World)
    requires RegistryInv(w.hub.registry, w.lives) && DecidedInv(w.hub.registry, w.lives, w.decided)
    requires MembersInv(w) && PendingInv(w) && PresenceInv(w) && SocketsInv(w) && KnowsInv(w) && AckInv(w)
    ensures Inv(w)
  {
  }

  // ----- claims -----

  /** r' has no pending join that r has not. */
  ghost predicate FewerJoins(r: Registry, r': Registry) {
    && r'.joinSeq == r.joinSeq
    && forall i | i in r'.channels :: i in r.channels
         && forall j | j in r'.channels[i].pending :: j in r.channels[i].pending && r'.channels[i].pending[j] == r.channels[i].pending[j]
  }

  lemma VouchedStill(r: Registry, r': Registry, c: Connection)
    requires Vouched(r, c) && FewerJoins(r, r')
    ensures Vouched(r', c)
  {
    hide Issued;
  }

  /** Claims that pass the check are vouched for. */
  lemma ValidIsVouched(r: Registry, lives: map<string, Life>, h: Hub, c: Connection)
    requires RegistryInv(r, lives) && h.registry == r && ValidPendingClaims(h, c)
    ensures Vouched(r, c)
  {
    hide RegistryInv, Issued;
    PendingIssued(r, lives);
    forall id | id in r.channels && c.joinRequestId in r.channels[id].pending
      ensures SlotOf(c) == (id, r.channels[id].pending[c.joinRequestId].deviceId)
    {
      OneChannelPerJoin(r, lives, id, c.channelId, c.joinRequestId);
    }
  }

  // ----- sockets that open and close -----

  lemma BeginMaps(w: World, c: Connection)
    requires MembersInv(w) && PendingInv(w) && SocketsInv(w) && PresenceInv(w) && Enabled(w, BeginMember(c))
    ensures var w' := AfterBegin(w, c); MembersInv(w') && PendingInv(w') && SocketsInv(w') && PresenceInv(w')
  {
    hide Vouched, OnlineMember;
    forall s ensures OnlineMember(AfterBegin(w, c).hub, s) <==> OnlineMember(w.hub, s) {
      SameOnline(AfterBegin(w, c).hub, w.hub, s);
    }
  }

  lemma BeginKnows(w: World, c: Connection)
    requires KnowsInv(w)
    ensures KnowsInv(AfterBegin(w, c))
  {
    hide JoinRequestEvent;
  }

  lemma BeginKeeps(w: World, c: Connection)
    requires Inv(w) && Enabled(w, BeginMember(c))
    ensures Inv(AfterBegin(w, c))
  {
    hide Inv, RegistryInv, DecidedInv, MembersInv, PendingInv, PresenceInv, SocketsInv, KnowsInv, AckInv;
    InvParts(w);
    BeginMaps(w, c);
    BeginKnows(w, c);
    AckFrame(w, AfterBegin(w, c));
    InvFrom(AfterBegin(w, c));
  }

  /** Acknowledgements stay backed while writes, facts and decisions are only added to. */
  lemma AckFrame(w: World, w': World)
    requires AckInv(w) && w'.sent == w.sent && w'.facts == w.facts && w'.decided == w.decided
    requires w.hub.promoted <= w'.hub.promoted
    ensures AckInv(w')
  {
    forall o | o in w'.sent && o.Wrote? && o.event.kind.MessageAck? ensures AckBacked(w', o) {
      assert AckBacked(w, o);
    }
    forall o | o in w'.sent && o.Wrote? && o.event.kind.JoinDecisionAck? ensures DecisionBacked(w', o) {
      assert DecisionBacked(w, o);
    }
    forall f | f in w'.facts && f.Routed? ensures RoutedWell(w', f) {
      assert RoutedWell(w, f);
    }
  }

  lemma CloseHubMaps(w: World, c: Connection)
    requires MembersInv(w) && PendingInv(w) && SocketsInv(w) && Enabled(w, Close(c))
    ensures MembersInv(AfterClose(w, c)) && PendingInv(AfterClose(w, c)) && SocketsInv(AfterClose(w, c))
  {
  }

  /** A closed connection leaves a running timer behind, so the device stays tracked. */
  lemma ClosePresence(w: World, c: Connection)
    requires PresenceInv(w) && Enabled(w, Close(c))
    ensures PresenceInv(AfterClose(w, c))
  {
  }

  lemma CloseKnows(w: World, c: Connection)
    requires KnowsInv(w) && Enabled(w, Close(c))
    ensures KnowsInv(AfterClose(w, c))
  {
  }

  lemma CloseKeeps(w: World, c: Connection)
    requires Inv(w) && Enabled(w, Close(c))
    ensures Inv(AfterClose(w, c))
  {
    hide RegistryInv, DecidedInv, MembersInv, PendingInv, PresenceInv, SocketsInv, KnowsInv, AckInv;
    CloseHubMaps(w, c);
    ClosePresence(w, c);
    CloseKnows(w, c);
    AckFrame(w, AfterClose(w, c));
  }

  // ----- what is written besides acknowledgements -----

  ghost predicate NoAcks(out: set<Out>) {
    forall o | o in out && o.Wrote? :: !o.event.kind.MessageAck? && !o.event.kind.JoinDecisionAck?
  }

  lemma EmitNoAcks(h: Hub, change: PresenceChange, d: string)
    ensures NoAcks(EmitPresenceChange(h, change, d))
    ensures change.channel.Some? ==> NoAcks(NotifyOwnerOfPendingJoins(h, change.channel.value))
  {
  }

  lemma AckGrow(w: World, w': World)
    requires AckInv(w) && w.facts <= w'.facts && w.sent <= w'.sent && w.hub.promoted <= w'.hub.promoted
    requires forall j | j in w.decided :: j in w'.decided && w'.decided[j] == w.decided[j]
    requires forall o | o in w'.sent - w.sent && o.Wrote? && o.event.kind.MessageAck? :: AckBacked(w', o)
    requires forall o | o in w'.sent - w.sent && o.Wrote? && o.event.kind.JoinDecisionAck? :: DecisionBacked(w', o)
    requires forall f | f in w'.facts - w.facts && f.Routed? :: RoutedWell(w', f)
    requires forall f | f in w'.facts - w.facts && f.Decided? :: f.joinId in w'.decided && w'.decided[f.joinId] == f.approved
    ensures AckInv(w')
  {
    forall o | o in w'.sent && o.Wrote? && o.event.kind.MessageAck? ensures AckBacked(w', o) {
      if o in w.sent {
        assert AckBacked(w, o);
      }
    }
    forall o | o in w'.sent && o.Wrote? && o.event.kind.JoinDecisionAck? ensures DecisionBacked(w', o) {
      if o in w.sent {
        assert DecisionBacked(w, o);
      }
    }
    forall f | f in w'.facts && f.Routed? ensures RoutedWell(w', f) {
      if f in w.facts {
        assert RoutedWell(w, f);
      }
    }
  }

  lemma AckQuiet(w: World, w': World, out: set<Out>)
    requires AckInv(w) && NoAcks(out) && w'.sent == w.sent + out && w'.facts == w.facts && w'.decided == w.decided
    requires w.hub.promoted <= w'.hub.promoted
    ensures AckInv(w')
  {
    AckGrow(w, w');
  }

  /** The notice that a connection of the owner gets for each pending join. */
  lemma NotifyTells(h: Hub, ch: Channel, j: string)
    requires ch.ownerId != "" && (ch.id, ch.ownerId) in h.members && j in ch.pending
    ensures var owner := h.members[(ch.id, ch.ownerId)];
            Wrote(owner, JoinRequestEvent(ch.id, ch.pending[j], owner.deviceId)) in NotifyOwnerOfPendingJoins(h, ch)
  {
  }

  lemma EmitNotifies(h: Hub, change: PresenceChange, d: string)
    requires !change.deleted && change.channel.Some? && change.changed
    requires change.previousOwnerId != change.currentOwnerId
    ensures NotifyOwnerOfPendingJoins(h, change.channel.value) <= EmitPresenceChange(h, change, d)
  {
  }

  // ----- HTTP connect -----

  /** The channel as before, except for names and for join requests with fresh ids. */
  ghost predicate Similar(ch: Channel, ch': Channel, joinSeq: nat) {
    && ch'.id == ch.id && ch'.ownerId == ch.ownerId && ch'.members.Keys == ch.members.Keys
    && (forall d | d in ch.members :: ch'.members[d].online == ch.members[d].online)
    && (forall j | j in ch.pending :: j in ch'.pending && (Issued(j, joinSeq) ==> ch'.pending[j] == ch.pending[j]))
    && (forall j | j in ch'.pending :: j in ch.pending || !Issued(j, joinSeq))
  }

  ghost predicate Grown(r: Registry, r': Registry) {
    r.joinSeq <= r'.joinSeq
    && forall i | i in r.channels :: i in r'.channels && Similar(r.channels[i], r'.channels[i], r.joinSeq)
  }

  /** At most the channel of the slot is new, and then it holds just that offline device. */
  ghost predicate OnlyNew(r: Registry, r': Registry, slot: Slot, created: bool) {
    forall i | i in r'.channels && i !in r.channels ::
      && created && i == slot.0 && r'.channels[i].members.Keys == {slot.1} && !r'.channels[i].members[slot.1].online
      && r'.channels[i].pending == map[]
  }

  lemma ConnectFacts(r: Registry, lives: map<string, Life>, name: string, pin: string, d: string, deviceName: string)
    requires RegistryInv(r, lives) && d != ""
    ensures var (r', result) := Connect(r, name, pin, d, deviceName);
            && Grown(r, r') && OnlyNew(r, r', (result.channelId, d), result.Created?)
            && (result.Created? ==> result.channelId !in r.channels)
  {
    hide RegistryInv, Inverse, ChannelKey, ChannelIdForKey, Grown, OnlyNew, AskToJoin, Elect;
    var key := ChannelKey(name, pin);
    if key !in r.channelByKey {
      FreeIdInRun(r, lives, key);
      CreatedFacts(r, Channel(ChannelIdForKey(key), name, key, map[d := Member(deviceName, false, 1)], map[], ""), key, d);
    } else {
      var ch := KeyedChannel(r, lives, key);
      if d in ch.members {
        RenamedFacts(r, ch, d, deviceName);
      } else {
        AskedFacts(r, ch, d, deviceName);
      }
    }
  }

  lemma CreatedFacts(r: Registry, ch: Channel, key: string, d: string)
    requires ch.id !in r.channels && ch.members.Keys == {d} && !ch.members[d].online && ch.pending == map[]
    ensures var r' := r.(channels := r.channels[ch.id := ch], channelByKey := r.channelByKey[key := ch.id]);
            Grown(r, r') && OnlyNew(r, r', (ch.id, d), true)
  {
    hide Issued;
  }

  lemma RenamedFacts(r: Registry, ch: Channel, d: string, deviceName: string)
    requires ch.id in r.channels && r.channels[ch.id] == ch && d in ch.members && ch.ownerId == Elect(ch.members)
    ensures var r' := r.(channels := r.channels[ch.id := WithMembers(ch, ch.members[d := ch.members[d].(deviceName := deviceName)])]);
            Grown(r, r') && OnlyNew(r, r', (ch.id, d), false)
  {
    hide Issued;
    RenameKeepsOwner(ch.members, d, deviceName);
    hide Elect;
  }

  lemma AskedFacts(r: Registry, ch: Channel, d: string, deviceName: string)
    requires ch.id in r.channels && r.channels[ch.id] == ch
    ensures var r' := AskToJoin(r, ch, d, deviceName).0; Grown(r, r') && OnlyNew(r, r', (ch.id, d), false)
  {
    hide JoinId, Issued, HasJoinOf;
    NextJoinIdIsFresh(ch.id, d, r.joinSeq);
  }

  lemma FreeIdInRun(r: Registry, lives: map<string, Life>, key: string)
    requires RegistryInv(r, lives) && key !in r.channelByKey
    ensures ChannelIdForKey(key) !in r.channels
  {
    hide ChannelInv, SoundChannel;
    FreeKeyFreeId(r, key);
  }

  lemma PendingIssued(r: Registry, lives: map<string, Life>)
    requires RegistryInv(r, lives)
    ensures forall i | i in r.channels :: forall j | j in r.channels[i].pending :: Issued(j, r.joinSeq)
  {
    hide Issued, Consistent;
    forall i | i in r.channels ensures forall j | j in r.channels[i].pending :: Issued(j, r.joinSeq) {
      assert ChannelInv(r.channels[i], lives[i], r.joinSeq);
    }
  }

  lemma HttpConnectDecided(w: World, w': World, slot: Slot, created: bool)
    requires DecidedInv(w.hub.registry, w.lives, w.decided) && Grown(w.hub.registry, w'.hub.registry)
    requires OnlyNew(w.hub.registry, w'.hub.registry, slot, created) && w'.decided == w.decided
    requires w'.lives == w.lives || exists life: Life :: life.admissions == [] && w'.lives == w.lives[slot.0 := life]
    ensures DecidedInv(w'.hub.registry, w'.lives, w'.decided)
  {
    IssuedLater(w.hub.registry.joinSeq, w'.hub.registry.joinSeq);
    hide Issued;
    forall j, i | j in w'.decided && i in w'.hub.registry.channels ensures j !in w'.hub.registry.channels[i].pending {
      if i in w.hub.registry.channels {
        assert Similar(w.hub.registry.channels[i], w'.hub.registry.channels[i], w.hub.registry.joinSeq);
      }
    }
  }

  lemma VouchedGrows(r: Registry, r': Registry, slot: Slot, created: bool, c: Connection)
    requires Vouched(r, c) && Grown(r, r') && OnlyNew(r, r', slot, created)
    ensures Vouched(r', c)
  {
    IssuedLater(r.joinSeq, r'.joinSeq);
    hide Issued;
    forall id | id in r'.channels && c.joinRequestId in r'.channels[id].pending
      ensures SlotOf(c) == (id, r'.channels[id].pending[c.joinRequestId].deviceId)
    {
      assert id in r.channels && Similar(r.channels[id], r'.channels[id], r.joinSeq);
    }
  }

  lemma HttpConnectMaps(w: World, w': World, slot: Slot, created: bool)
    requires MembersInv(w) && PendingInv(w) && SocketsInv(w) && Grown(w.hub.registry, w'.hub.registry)
    requires OnlyNew(w.hub.registry, w'.hub.registry, slot, created)
    requires w'.hub.members == w.hub.members && w'.hub.pending == w.hub.pending && w'.hub.promoted == w.hub.promoted
    requires w'.open == w.open && w'.opening == w.opening && w'.seen == w.seen && w'.sent == w.sent
    ensures MembersInv(w') && PendingInv(w') && SocketsInv(w')
  {
    hide Issued, OnlyNew, Vouched;
    var r, r' := w.hub.registry, w'.hub.registry;
    forall s | s in w'.hub.members && OnlineMember(w.hub, s) ensures OnlineMember(w'.hub, s) {
      assert Similar(r.channels[s.0], r'.channels[s.0], r.joinSeq);
    }
    forall j | j in w'.hub.pending ensures Vouched(r', w'.hub.pending[j]) {
      VouchedGrows(r, r', slot, created, w.hub.pending[j]);
    }
  }

  lemma HttpConnectKnows(w: World, w': World, slot: Slot, created: bool)
    requires MembersInv(w) && PendingInv(w) && KnowsInv(w) && Grown(w.hub.registry, w'.hub.registry)
    requires OnlyNew(w.hub.registry, w'.hub.registry, slot, created)
    requires w'.hub.members == w.hub.members && w'.hub.pending == w.hub.pending
    requires w'.opening == w.opening && w'.sent == w.sent
    ensures KnowsInv(w')
  {
    hide Issued, JoinRequestEvent;
    var r, r' := w.hub.registry, w'.hub.registry;
    forall id, j | id in r'.channels && j in r'.channels[id].pending && j in w'.hub.pending && w'.hub.pending[j] !in w'.opening
                   && r'.channels[id].ownerId != "" && (id, r'.channels[id].ownerId) in w'.hub.members
                   && w'.hub.members[(id, r'.channels[id].ownerId)] !in w'.opening
      ensures Told(w', r'.channels[id], w'.hub.members[(id, r'.channels[id].ownerId)], j)
    {
      assert Vouched(r, w.hub.pending[j]);
      assert id in r.channels && Similar(r.channels[id], r'.channels[id], r.joinSeq);
      assert Told(w, r.channels[id], w.hub.members[(id, r.channels[id].ownerId)], j);
    }
  }

  /** A new channel is ownerless, and its creator is already connected or in its grace period. */
  lemma HttpConnectPresence(w: World, w': World, slot: Slot, created: bool)
    requires PresenceInv(w) && Grown(w.hub.registry, w'.hub.registry)
    requires OnlyNew(w.hub.registry, w'.hub.registry, slot, created)
    requires w'.hub.members == w.hub.members
    requires w'.hub.timers == if created && slot !in w.hub.members then w.hub.timers + {slot} else w.hub.timers
    ensures PresenceInv(w')
  {
    hide Issued;
    var r, r' := w.hub.registry, w'.hub.registry;
    forall id, e | id in r'.channels && r'.channels[id].ownerId == "" && e in r'.channels[id].members
      ensures (id, e) in w'.hub.members || (id, e) in w'.hub.timers
    {
      if id in r.channels {
        assert Similar(r.channels[id], r'.channels[id], r.joinSeq);
      }
    }
  }

  /** What connecting does to the world: only the registry, and a timer and a history for a new channel. */
  lemma HttpConnectIs(w: World, name: string, pin: string, d: string, deviceName: string)
    requires Indexed(w.hub.registry)
    ensures var (r', result) := Connect(w.hub.registry, name, pin, d, deviceName);
            var w' := AfterHttpConnect(w, name, pin, d, deviceName);
            && w' == w.(hub := w'.hub, lives := w'.lives)
            && w'.hub == w.hub.(registry := r', timers := w'.hub.timers)
            && w'.hub.timers == (if result.Created? && (result.channelId, d) !in w.hub.members
                                 then w.hub.timers + {(result.channelId, d)} else w.hub.timers)
            && w'.lives == if result.Created? then w.lives[result.channelId := Life(name, pin, d, [])] else w.lives
  {
    hide Connect;
  }

  lemma HttpConnectKeeps(w: World, name: string, pin: string, d: string, deviceName: string)
    requires Inv(w) && Enabled(w, HttpConnect(name, pin, d, deviceName))
    ensures Inv(AfterHttpConnect(w, name, pin, d, deviceName))
  {
    hide Inv, RegistryInv, DecidedInv, MembersInv, PendingInv, PresenceInv, SocketsInv, KnowsInv, AckInv, Connect, Grown, OnlyNew;
    hide AfterHttpConnect, Indexed;
    InvParts(w);
    HttpConnectIs(w, name, pin, d, deviceName);
    ConnectKeeps(w.hub.registry, w.lives, name, pin, d, deviceName);
    ConnectFacts(w.hub.registry, w.lives, name, pin, d, deviceName);
    var w' := AfterHttpConnect(w, name, pin, d, deviceName);
    var result := Connect(w.hub.registry, name, pin, d, deviceName).1;
    HttpConnectDecided(w, w', (result.channelId, d), result.Created?);
    HttpConnectMaps(w, w', (result.channelId, d), result.Created?);
    HttpConnectKnows(w, w', (result.channelId, d), result.Created?);
    HttpConnectPresence(w, w', (result.channelId, d), result.Created?);
    AckFrame(w, w');
    InvFrom(w');
  }

  // ----- presence changes -----

  lemma PresenceDecided(r: Registry, r': Registry, lives: map<string, Life>, decided: map<string, bool>,
                        id: string, d: string, online: bool)
    requires DecidedInv(r, lives, decided) && PresenceSet(r, r', id, d, online)
    ensures DecidedInv(r', lives, decided)
  {
    hide Issued;
    forall j, i | j in decided && i in r'.channels ensures j !in r'.channels[i].pending {
      assert r'.channels[i].pending == r.channels[i].pending;
    }
  }

  /** Going online is seen as the device being online, and takes no one else offline. */
  lemma OnlineSeen(h: Hub, r': Registry, slot: Slot, s: Slot)
    requires PresenceSet(h.registry, r', slot.0, slot.1, true)
    ensures OnlineMember(h.(registry := r'), s) <==> s == slot || OnlineMember(h, s)
  {
  }

  lemma OfflineSeen(h: Hub, r': Registry, slot: Slot, s: Slot)
    requires PresenceSet(h.registry, r', slot.0, slot.1, false)
    ensures OnlineMember(h.(registry := r'), s) <==> s != slot && OnlineMember(h, s)
  {
  }

  lemma PresenceJoins(r: Registry, r': Registry, id: string, d: string, online: bool)
    requires PresenceSet(r, r', id, d, online)
    ensures FewerJoins(r, r')
  {
    forall i | i in r'.channels ensures r'.channels[i].pending == r.channels[i].pending {
    }
  }

  // ----- the second half of the member handshake -----

  lemma EndMaps(w: World, c: Connection, r': Registry)
    requires MembersInv(w) && PendingInv(w) && SocketsInv(w) && c in w.opening
    requires PresenceSet(w.hub.registry, r', c.channelId, c.deviceId, true)
    ensures var w' := w.(hub := w.hub.(registry := r'), opening := w.opening - {c});
            MembersInv(w') && PendingInv(w') && SocketsInv(w')
  {
    hide PresenceSet, OnlineMember, Vouched, FewerJoins;
    PresenceJoins(w.hub.registry, r', c.channelId, c.deviceId, true);
    var w' := w.(hub := w.hub.(registry := r'), opening := w.opening - {c});
    forall s | s in w.hub.members && w.hub.members[s] !in w'.opening ensures OnlineMember(w'.hub, s) {
      OnlineSeen(w.hub, r', SlotOf(c), s);
    }
    forall j | j in w.hub.pending ensures Vouched(r', w.hub.pending[j]) {
      VouchedStill(w.hub.registry, r', w.hub.pending[j]);
    }
  }

  lemma OnlinePresence(w: World, slot: Slot, r': Registry)
    requires PresenceInv(w) && PresenceSet(w.hub.registry, r', slot.0, slot.1, true)
    requires r'.channels[slot.0].ownerId != ""
    ensures PresenceInv(w.(hub := w.hub.(registry := r')))
  {
    var w' := w.(hub := w.hub.(registry := r'));
    forall id, d | id in r'.channels && r'.channels[id].ownerId == "" && d in r'.channels[id].members
      ensures (id, d) in w'.hub.members || (id, d) in w'.hub.timers
    {
      assert id in w.hub.registry.channels && r'.channels[id] == w.hub.registry.channels[id];
    }
  }

  /** Whoever owns the channel after a presence change has been told of every waiting join. */
  lemma PresenceKnows(w: World, w': World, slot: Slot, online: bool)
    requires KnowsInv(w) && MembersInv(w) && PresenceSet(w.hub.registry, w'.hub.registry, slot.0, slot.1, online)
    requires forall i | i in w.hub.registry.channels :: w.hub.registry.channels[i].id == i
    requires w.sent <= w'.sent && w'.hub.members == w.hub.members && w'.hub.pending == w.hub.pending
    requires forall c | c in w.opening :: c in w'.opening || (online && SlotOf(c) == slot)
    requires forall j | j in w.hub.pending && w.hub.pending[j] in w.opening :: w.hub.pending[j] in w'.opening
    requires var ch := w'.hub.registry.channels[slot.0];
             ch.ownerId != w.hub.registry.channels[slot.0].ownerId || (online && ch.ownerId == slot.1) ==>
               NotifyOwnerOfPendingJoins(w'.hub, ch) <= w'.sent
    ensures KnowsInv(w')
  {
    var r, r' := w.hub.registry, w'.hub.registry;
    forall id, j | id in r'.channels && j in r'.channels[id].pending && j in w'.hub.pending && w'.hub.pending[j] !in w'.opening
                   && r'.channels[id].ownerId != "" && (id, r'.channels[id].ownerId) in w'.hub.members
                   && w'.hub.members[(id, r'.channels[id].ownerId)] !in w'.opening
      ensures Told(w', r'.channels[id], w'.hub.members[(id, r'.channels[id].ownerId)], j)
    {
      var ch := r'.channels[id];
      var owner := w.hub.members[(id, ch.ownerId)];
      if id == slot.0 && (ch.ownerId != r.channels[id].ownerId || (online && ch.ownerId == slot.1)) {
        NotifyTells(w'.hub, ch, j);
      } else {
        assert SlotOf(owner) == (id, ch.ownerId) && owner !in w.opening;
        assert Told(w, r.channels[id], owner, j);
      }
    }
  }

  lemma SetOnlineDefined(r: Registry, id: string, d: string, online: bool, deleteIfEmpty: bool)
    ensures SetOnline(r, id, d, online, deleteIfEmpty).Some? <==> id in r.channels && d in r.channels[id].members
  {
  }

  lemma ChannelIds(r: Registry, lives: map<string, Life>)
    requires RegistryInv(r, lives)
    ensures forall i | i in r.channels :: r.channels[i].id == i
  {
    hide ChannelInv, SoundChannel;
  }

  lemma NoAcksUnion(a: set<Out>, b: set<Out>)
    requires NoAcks(a) && NoAcks(b)
    ensures NoAcks(a + b)
  {
  }

  /** What a finished handshake writes: notices only, among them all pending joins for an owner. */
  lemma EndOut(h: Hub, c: Connection, previous: Option<Connection>)
    requires SetOnline(h.registry, c.channelId, c.deviceId, true, false).Some?
    ensures var (r', change) := SetOnline(h.registry, c.channelId, c.deviceId, true, false).value;
            var effect := FinishMember(h, c, previous);
            && effect.hub == h.(registry := r') && effect.facts == {} && NoAcks(effect.out)
            && (r'.channels[c.channelId].ownerId != h.registry.channels[c.channelId].ownerId
                || r'.channels[c.channelId].ownerId == c.deviceId ==>
                  NotifyOwnerOfPendingJoins(effect.hub, r'.channels[c.channelId]) <= effect.out)
  {
    var (r', change) := SetOnline(h.registry, c.channelId, c.deviceId, true, false).value;
    SetOnlineFacts(h.registry, c.channelId, c.deviceId, true, false);
    hide SetOnline, EmitPresenceChange, NotifyOwnerOfPendingJoins, NoAcks, PresenceSet;
    var h' := h.(registry := r');
    EmitNoAcks(h', change, c.deviceId);
    if change.previousOwnerId != change.currentOwnerId {
      EmitNotifies(h', change, c.deviceId);
    }
    ClosingsNoAcks(previous);
    NoAcksUnion(EmitPresenceChange(h', change, c.deviceId), NotifyOwnerOfPendingJoins(h', change.channel.value));
    NoAcksUnion(EmitPresenceChange(h', change, c.deviceId) + NotifyOwnerOfPendingJoins(h', change.channel.value),
                ClosePrevious(previous));
    NoAcksUnion(EmitPresenceChange(h', change, c.deviceId) + {}, ClosePrevious(previous));
  }

  lemma ClosingsNoAcks(previous: Option<Connection>)
    ensures NoAcks(ClosePrevious(previous)) && NoAcks({})
  {
  }

  lemma EndRegisteredState(w: World, c: Connection, r': Registry)
    requires Inv(w) && c in w.opening && IsMember(w.hub, c) && Registered(w.hub, c)
    requires SetOnline(w.hub.registry, c.channelId, c.deviceId, true, false).Some?
    requires SetOnline(w.hub.registry, c.channelId, c.deviceId, true, false).value.0 == r'
    ensures RegistryInv(r', w.lives) && DecidedInv(r', w.lives, w.decided)
    ensures var w' := w.(hub := w.hub.(registry := r'), opening := w.opening - {c});
            MembersInv(w') && PendingInv(w') && SocketsInv(w') && PresenceInv(w')
  {
    hide RegistryInv, DecidedInv, MembersInv, PendingInv, PresenceInv, SocketsInv, KnowsInv, AckInv;
    hide PresenceSet, SetOnline, Elect;
    var r, slot := w.hub.registry, SlotOf(c);
    SetOnlineFacts(r, slot.0, slot.1, true, false);
    SetOnlineKeeps(r, w.lives, slot.0, slot.1, true);
    PresenceDecided(r, r', w.lives, w.decided, slot.0, slot.1, true);
    EndMaps(w, c, r');
    OnlineOwnerInRun(r, w.lives, slot.0, slot.1);
    OnlinePresence(w, slot, r');
    SamePresence(w.(hub := w.hub.(registry := r')), w.(hub := w.hub.(registry := r'), opening := w.opening - {c}));
  }

  lemma EndRegisteredLog(w: World, c: Connection)
    requires Inv(w) && c in w.opening && IsMember(w.hub, c) && Registered(w.hub, c)
    requires SetOnline(w.hub.registry, c.channelId, c.deviceId, true, false).Some?
    ensures KnowsInv(AfterEnd(w, c)) && AckInv(AfterEnd(w, c))
    ensures FinishMember(w.hub, c, w.opening[c]).hub
         == w.hub.(registry := SetOnline(w.hub.registry, c.channelId, c.deviceId, true, false).value.0)
  {
    hide RegistryInv, DecidedInv, MembersInv, PendingInv, PresenceInv, SocketsInv, KnowsInv, AckInv;
    hide PresenceSet, SetOnline, FinishMember, NotifyOwnerOfPendingJoins, NoAcks, Elect;
    var r, slot, w' := w.hub.registry, SlotOf(c), AfterEnd(w, c);
    SetOnlineFacts(r, slot.0, slot.1, true, false);
    EndOut(w.hub, c, w.opening[c]);
    ChannelIds(r, w.lives);
    MembersAreNotPending(w, c);
    PresenceKnows(w, w', slot, true);
    AckQuiet(w, w', FinishMember(w.hub, c, w.opening[c]).out);
  }

  lemma MembersAreNotPending(w: World, c: Connection)
    requires PendingInv(w) && IsMember(w.hub, c)
    ensures forall j | j in w.hub.pending :: w.hub.pending[j] != c
  {
    hide Vouched;
  }

  /** The handshake of a registered member ends: the device is online. */
  lemma EndRegistered(w: World, c: Connection)
    requires Inv(w) && c in w.opening && IsMember(w.hub, c) && Registered(w.hub, c)
    ensures Inv(AfterEnd(w, c))
  {
    SetOnlineDefined(w.hub.registry, c.channelId, c.deviceId, true, false);
    hide Inv, RegistryInv, DecidedInv, MembersInv, PendingInv, PresenceInv, SocketsInv, KnowsInv, AckInv;
    hide SetOnline, FinishMember;
    var r' := SetOnline(w.hub.registry, c.channelId, c.deviceId, true, false).value.0;
    EndRegisteredState(w, c, r');
    EndRegisteredLog(w, c);
    var w1 := w.(hub := w.hub.(registry := r'), opening := w.opening - {c});
    SameViews(w1, AfterEnd(w, c));
    SamePresence(w1, AfterEnd(w, c));
    InvFrom(AfterEnd(w, c));
  }

  /** The end of the handshake of a device that is no longer registered: the connection is closed and unregistered. */
  lemma UnregisteredEnd(w: World, c: Connection)
    requires c in w.opening && !Registered(w.hub, c)
    ensures AfterEnd(w, c) == AfterClose(w.(opening := w.opening - {c}), c)
                                .(sent := w.sent + {Closed(c, "member is not registered")})
  {
    SetOnlineDefined(w.hub.registry, c.channelId, c.deviceId, true, false);
    hide SetOnline, Unregister;
    assert FinishMember(w.hub, c, w.opening[c]).facts == {};
    assert w.facts + {} == w.facts;
  }

  lemma EndUnregistered(w: World, c: Connection)
    requires Inv(w) && c in w.opening && IsMember(w.hub, c) && !Registered(w.hub, c)
    ensures Inv(AfterEnd(w, c))
  {
    hide RegistryInv, DecidedInv, MembersInv, PendingInv, PresenceInv, SocketsInv, KnowsInv, AckInv;
    hide SetOnline, AfterEnd, AfterClose, Registered, NoAcks;
    var w' := AfterEnd(w, c);
    var w1 := AfterClose(w.(opening := w.opening - {c}), c);
    UnregisteredEnd(w, c);
    DropConnection(w, c);
    DropSame(w, c);
    SameViews(w1, w');
    SamePresence(w1, w');
    SameKnows(w1, w');
    FewNoAcks(c);
    AckQuiet(w, w', {Closed(c, "member is not registered")});
  }

  lemma DropSame(w: World, c: Connection)
    ensures var w1 := AfterClose(w.(opening := w.opening - {c}), c);
            && w1.sent == w.sent && w1.facts == w.facts && w1.decided == w.decided && w1.lives == w.lives
            && w1.hub.registry == w.hub.registry && w1.hub.promoted == w.hub.promoted
  {
  }

  lemma FewNoAcks(c: Connection)
    ensures NoAcks({Closed(c, "member is not registered")})
  {
  }

  lemma DropConnection(w: World, c: Connection)
    requires MembersInv(w) && PendingInv(w) && SocketsInv(w) && PresenceInv(w) && KnowsInv(w)
    requires c in w.opening && IsMember(w.hub, c)
    ensures var w' := AfterClose(w.(opening := w.opening - {c}), c);
            MembersInv(w') && PendingInv(w') && SocketsInv(w') && PresenceInv(w') && KnowsInv(w')
  {
    DropMaps(w, c);
    DropPresence(w, c);
    DropKnows(w, c);
  }

  lemma DropMaps(w: World, c: Connection)
    requires MembersInv(w) && PendingInv(w) && SocketsInv(w) && c in w.opening
    ensures var w' := AfterClose(w.(opening := w.opening - {c}), c);
            MembersInv(w') && PendingInv(w') && SocketsInv(w')
  {
  }

  lemma DropPresence(w: World, c: Connection)
    requires PresenceInv(w) && c in w.opening
    ensures PresenceInv(AfterClose(w.(opening := w.opening - {c}), c))
  {
  }

  lemma DropKnows(w: World, c: Connection)
    requires MembersInv(w) && PendingInv(w) && KnowsInv(w) && c in w.opening && IsMember(w.hub, c)
    ensures KnowsInv(AfterClose(w.(opening := w.opening - {c}), c))
  {
  }

  lemma SameKnows(w: World, w': World)
    requires KnowsInv(w) && w.hub == w'.hub && w.opening == w'.opening && w.sent <= w'.sent
    ensures KnowsInv(w')
  {
  }

  /** These parts of the invariant do not look at what was written. */
  lemma SameViews(w: World, w': World)
    requires w.hub == w'.hub && w.open == w'.open && w.seen == w'.seen && w.opening == w'.opening
    ensures MembersInv(w) ==> MembersInv(w')
    ensures PendingInv(w) ==> PendingInv(w')
    ensures SocketsInv(w) ==> SocketsInv(w')
  {
    hide OnlineMember, Vouched;
  }

  lemma SamePresence(w: World, w': World)
    requires w.hub == w'.hub && PresenceInv(w)
    ensures PresenceInv(w')
  {
  }

  // ----- a pending device opens its connection -----

  lemma BeginJoinerMaps(w: World, c: Connection)
    requires MembersInv(w) && PendingInv(w) && SocketsInv(w) && PresenceInv(w) && Enabled(w, BeginJoiner(c))
    ensures var w' := AfterBeginJoiner(w, c);
            MembersInv(w') && PendingInv(w') && SocketsInv(w') && PresenceInv(w')
  {
    hide Vouched;
  }

  /** Until its handshake has ended nobody need be told of the new connection. */
  lemma BeginJoinerKnows(w: World, c: Connection)
    requires KnowsInv(w) && MembersInv(w) && SocketsInv(w) && c !in w.seen
    ensures KnowsInv(AfterBeginJoiner(w, c))
  {
    hide JoinRequestEvent;
  }

  lemma BeginJoinerKeeps(w: World, c: Connection)
    requires Inv(w) && Enabled(w, BeginJoiner(c))
    ensures Inv(AfterBeginJoiner(w, c))
  {
    hide RegistryInv, DecidedInv, MembersInv, PendingInv, PresenceInv, SocketsInv, KnowsInv, AckInv, Vouched;
    BeginJoinerMaps(w, c);
    BeginJoinerKnows(w, c);
    AckFrame(w, AfterBeginJoiner(w, c));
  }

  lemma OneChannelPerJoin(r: Registry, lives: map<string, Life>, a: string, b: string, j: string)
    requires RegistryInv(r, lives) && a in r.channels && b in r.channels
    requires j in r.channels[a].pending && j in r.channels[b].pending
    ensures a == b
  {
    hide ChannelInv, Consistent;
  }

  lemma NoticeNoAcks(h: Hub, c: Connection, previous: Option<Connection>)
    ensures NoAcks(FinishPending(h, c, previous).out)
  {
  }

  /** The owner is told of the join that the connection waits for. */
  lemma NoticeTells(h: Hub, c: Connection, previous: Option<Connection>, id: string)
    requires id in h.registry.channels && h.registry.channels[id].id == id && Vouched(h.registry, c)
    requires c.joinRequestId in h.registry.channels[id].pending
    requires (id, h.registry.channels[id].ownerId) in h.members
    ensures var ch := h.registry.channels[id]; var owner := h.members[(id, ch.ownerId)];
            Wrote(owner, JoinRequestEvent(id, ch.pending[c.joinRequestId], owner.deviceId)) in FinishPending(h, c, previous).out
  {
    hide JoinRequestEvent;
  }

  lemma EndJoinerKnows(w: World, c: Connection)
    requires RegistryInv(w.hub.registry, w.lives) && KnowsInv(w) && PendingInv(w) && MembersInv(w)
    requires c in w.opening && !IsMember(w.hub, c)
    ensures KnowsInv(AfterEndJoiner(w, c))
  {
    hide RegistryInv, JoinRequestEvent, Vouched, FinishPending, OnlineMember;
    FinishPendingKeeps(w.hub, c, w.opening[c]);
    var r, w' := w.hub.registry, AfterEndJoiner(w, c);
    ChannelIds(r, w.lives);
    forall id, j | id in r.channels && j in r.channels[id].pending && j in w'.hub.pending && w'.hub.pending[j] !in w'.opening
                   && r.channels[id].ownerId != "" && (id, r.channels[id].ownerId) in w'.hub.members
                   && w'.hub.members[(id, r.channels[id].ownerId)] !in w'.opening
      ensures Told(w', r.channels[id], w'.hub.members[(id, r.channels[id].ownerId)], j)
    {
      if w.hub.pending[j] == c {
        assert c.joinRequestId == j && Vouched(r, c);
        NoticeTells(w.hub, c, w.opening[c], id);
      } else {
        assert w.hub.members[(id, r.channels[id].ownerId)] != c;
        assert Told(w, r.channels[id], w.hub.members[(id, r.channels[id].ownerId)], j);
      }
    }
  }

  lemma FinishPendingKeeps(h: Hub, c: Connection, previous: Option<Connection>)
    ensures FinishPending(h, c, previous).hub == h && FinishPending(h, c, previous).facts == {}
  {
  }

  lemma EndJoinerMaps(w: World, c: Connection)
    requires MembersInv(w) && PendingInv(w) && SocketsInv(w) && c in w.opening && !IsMember(w.hub, c)
    ensures var w' := w.(opening := w.opening - {c}); MembersInv(w') && PendingInv(w') && SocketsInv(w')
  {
    hide Vouched, OnlineMember;
  }

  lemma EndJoinerKeeps(w: World, c: Connection)
    requires Inv(w) && c in w.opening && !IsMember(w.hub, c)
    ensures Inv(AfterEndJoiner(w, c))
  {
    hide RegistryInv, DecidedInv, MembersInv, PendingInv, PresenceInv, SocketsInv, KnowsInv, AckInv, FinishPending, NoAcks;
    var w1, w' := w.(opening := w.opening - {c}), AfterEndJoiner(w, c);
    FinishPendingKeeps(w.hub, c, w.opening[c]);
    EndJoinerMaps(w, c);
    SameViews(w1, w');
    SamePresence(w, w');
    EndJoinerKnows(w, c);
    NoticeNoAcks(w.hub, c, w.opening[c]);
    AckQuiet(w, w', FinishPending(w.hub, c, w.opening[c]).out);
  }

  lemma OpenJoinerKeeps(w: World, c: Connection)
    requires Inv(w) && Enabled(w, OpenJoiner(c))
    ensures Inv(AfterBeginJoiner(w, c)) && Inv(AfterEndJoiner(AfterBeginJoiner(w, c), c))
    ensures !IsMember(AfterBeginJoiner(w, c).hub, c) && Vouched(w.hub.registry, c)
  {
    hide Inv, RegistryInv, ValidPendingClaims, AfterEndJoiner;
    InvRegistry(w);
    ClaimsArePending(w.hub, c);
    ValidIsVouched(w.hub.registry, w.lives, w.hub, c);
    BeginJoinerKeeps(w, c);
    NotYetPromoted(w, c);
    EndJoinerKeeps(AfterBeginJoiner(w, c), c);
  }

  lemma ClaimsArePending(h: Hub, c: Connection)
    requires ValidPendingClaims(h, c)
    ensures c.claimed.PendingRole?
  {
  }

  lemma InvRegistry(w: World)
    requires Inv(w)
    ensures RegistryInv(w.hub.registry, w.lives)
  {
  }

  lemma NotYetPromoted(w: World, c: Connection)
    requires Inv(w) && c !in w.seen && c.claimed.PendingRole?
    ensures !IsMember(AfterBeginJoiner(w, c).hub, c)
  {
    hide RegistryInv, DecidedInv, MembersInv, PendingInv, PresenceInv, KnowsInv, AckInv;
  }

  // ----- expiry -----

  lemma CancelTimerKeeps(w: World, slot: Slot)
    requires Inv(w) && (slot in w.hub.members || SetOnline(w.hub.registry, slot.0, slot.1, false, true).None?)
    ensures Inv(w.(hub := w.hub.(timers := w.hub.timers - {slot})))
  {
    SetOnlineDefined(w.hub.registry, slot.0, slot.1, false, true);
    hide RegistryInv, DecidedInv, AckBacked, DecisionBacked, RoutedWell, SetOnline;
    AckFrame(w, w.(hub := w.hub.(timers := w.hub.timers - {slot})));
  }

  /** The channel outlives the expiry: its owner is somebody else now, or still. */
  lemma ExpiryMaps(w: World, slot: Slot, r': Registry)
    requires MembersInv(w) && PendingInv(w) && SocketsInv(w) && PresenceInv(w) && slot !in w.hub.members
    requires PresenceSet(w.hub.registry, r', slot.0, slot.1, false) && r'.channels[slot.0].ownerId != ""
    ensures var w' := w.(hub := w.hub.(registry := r', timers := w.hub.timers - {slot}));
            MembersInv(w') && PendingInv(w') && SocketsInv(w') && PresenceInv(w')
  {
    hide PresenceSet, OnlineMember, Vouched, FewerJoins;
    PresenceJoins(w.hub.registry, r', slot.0, slot.1, false);
    var w' := w.(hub := w.hub.(registry := r', timers := w.hub.timers - {slot}));
    forall s | s in w.hub.members && OnlineMember(w.hub, s) ensures OnlineMember(w'.hub, s) {
      OfflineSeen(w'.hub.(registry := w.hub.registry), r', slot, s);
      SameOnline(w.hub, w'.hub.(registry := w.hub.registry), s);
    }
    forall j | j in w.hub.pending ensures Vouched(r', w.hub.pending[j]) {
      VouchedStill(w.hub.registry, r', w.hub.pending[j]);
    }
    ExpiryPresence(w, slot, r');
  }

  lemma SameOnline(h: Hub, h': Hub, s: Slot)
    requires h.registry == h'.registry
    ensures OnlineMember(h, s) <==> OnlineMember(h', s)
  {
  }

  lemma ExpiryPresence(w: World, slot: Slot, r': Registry)
    requires PresenceInv(w) && slot !in w.hub.members
    requires PresenceSet(w.hub.registry, r', slot.0, slot.1, false) && r'.channels[slot.0].ownerId != ""
    ensures PresenceInv(w.(hub := w.hub.(registry := r', timers := w.hub.timers - {slot})))
  {
    var w' := w.(hub := w.hub.(registry := r', timers := w.hub.timers - {slot}));
    forall id, d | id in r'.channels && r'.channels[id].ownerId == "" && d in r'.channels[id].members
      ensures (id, d) in w'.hub.members || (id, d) in w'.hub.timers
    {
      assert id in w.hub.registry.channels && r'.channels[id] == w.hub.registry.channels[id];
    }
  }

  lemma ExpiryOut(h: Hub, slot: Slot)
    requires slot !in h.members && SetOnline(h.registry, slot.0, slot.1, false, true).Some?
    ensures var (r', change) := SetOnline(h.registry, slot.0, slot.1, false, true).value;
            var effect := Expire(h, slot);
            && effect.facts == {} && NoAcks(effect.out)
            && (!change.deleted ==>
                  && effect.hub == h.(registry := r', timers := h.timers - {slot})
                  && (r'.channels[slot.0].ownerId != h.registry.channels[slot.0].ownerId ==>
                        NotifyOwnerOfPendingJoins(effect.hub, r'.channels[slot.0]) <= effect.out))
            && (change.deleted ==>
                  effect.hub == h.(registry := r', timers := h.timers - {slot},
                                   pending := map j | j in h.pending && h.pending[j].channelId != slot.0 :: h.pending[j]))
  {
    var (r', change) := SetOnline(h.registry, slot.0, slot.1, false, true).value;
    SetOnlineFacts(h.registry, slot.0, slot.1, false, true);
    hide SetOnline, EmitPresenceChange, NotifyOwnerOfPendingJoins, PresenceSet;
    var h' := h.(registry := r', timers := h.timers - {slot});
    assert h.(timers := h.timers - {slot}).(registry := r') == h';
    if !change.deleted {
      hide NoAcks;
      EmitNoAcks(h', change, slot.1);
      if change.previousOwnerId != change.currentOwnerId {
        EmitNotifies(h', change, slot.1);
      }
    }
  }

  lemma ExpirySurvived(w: World, slot: Slot)
    requires Inv(w) && slot !in w.hub.members
    requires SetOnline(w.hub.registry, slot.0, slot.1, false, true).Some?
    requires !SetOnline(w.hub.registry, slot.0, slot.1, false, true).value.1.deleted
    ensures Inv(Apply(w, Expire(w.hub, slot)))
    ensures Expire(w.hub, slot).hub.registry.channels.Keys == w.hub.registry.channels.Keys
  {
    hide RegistryInv, DecidedInv, MembersInv, PendingInv, PresenceInv, SocketsInv, KnowsInv, AckInv;
    hide SetOnline, Expire, NotifyOwnerOfPendingJoins, NoAcks, Elect;
    var r, w' := w.hub.registry, Apply(w, Expire(w.hub, slot));
    var (r', change) := SetOnline(r, slot.0, slot.1, false, true).value;
    SetOnlineFacts(r, slot.0, slot.1, false, true);
    ExpiryOut(w.hub, slot);
    ChannelIds(r, w.lives);
    SetOnlineKeeps(r, w.lives, slot.0, slot.1, false);
    SurvivorHasOwner(r, slot);
    hide PresenceSet;
    PresenceDecided(r, r', w.lives, w.decided, slot.0, slot.1, false);
    var w1 := w.(hub := w.hub.(registry := r', timers := w.hub.timers - {slot}));
    ExpiryMaps(w, slot, r');
    SameViews(w1, w');
    SamePresence(w1, w');
    PresenceKnows(w, w', slot, false);
    AckQuiet(w, w', Expire(w.hub, slot).out);
  }

  lemma SurvivorHasOwner(r: Registry, slot: Slot)
    requires SetOnline(r, slot.0, slot.1, false, true).Some?
    requires !SetOnline(r, slot.0, slot.1, false, true).value.1.deleted
    ensures var r' := SetOnline(r, slot.0, slot.1, false, true).value.0;
            slot.0 in r'.channels && r'.channels[slot.0].ownerId != ""
  {
    hide Elect;
  }

  /** When an expiry deletes a channel, none of its members was online except the expired device itself. */
  lemma NobodyElseOnline(w: World, slot: Slot, s: Slot)
    requires RegistryInv(w.hub.registry, w.lives)
    requires SetOnline(w.hub.registry, slot.0, slot.1, false, true).Some?
    requires SetOnline(w.hub.registry, slot.0, slot.1, false, true).value.1.deleted
    ensures OnlineMember(w.hub, s) && s.0 == slot.0 ==> s == slot
  {
    hide RegistryInv, SetOnline, PresenceSet, Elect;
    SetOnlineFacts(w.hub.registry, slot.0, slot.1, false, true);
    ChannelFacts(w.hub.registry, w.lives, slot.0);
    if OnlineMember(w.hub, s) && s.0 == slot.0 && s != slot {
      SomeoneLeads(w.hub.registry.channels[slot.0].members, slot.1, s.1);
    }
  }

  lemma SomeoneLeads(members: map<string, Member>, d: string, e: string)
    requires d in members && e in members && e != d && members[e].online && "" !in members
    ensures Elect(members[d := members[d].(online := false)]) != ""
  {
    var members' := members[d := members[d].(online := false)];
    assert Eligible(members', e);
  }

  ghost predicate Without(h: Hub, h': Hub, slot: Slot) {
    && h'.registry.channels == h.registry.channels - {slot.0} && h'.registry.joinSeq == h.registry.joinSeq
    && h'.members == h.members && h'.timers == h.timers - {slot} && h'.promoted == h.promoted
    && h'.pending == map j | j in h.pending && h.pending[j].channelId != slot.0 :: h.pending[j]
  }

  lemma DeletionMaps(w: World, w': World, slot: Slot)
    requires MembersInv(w) && PendingInv(w) && SocketsInv(w) && PresenceInv(w) && KnowsInv(w) && slot !in w.hub.members
    requires Without(w.hub, w'.hub, slot)
    requires w'.open == w.open && w'.seen == w.seen && w'.opening == w.opening
    requires forall s | OnlineMember(w.hub, s) && s.0 == slot.0 :: s == slot
    ensures MembersInv(w') && PendingInv(w') && SocketsInv(w') && PresenceInv(w')
  {
    forall s ensures OnlineMember(w'.hub, s) <==> OnlineMember(w.hub, s) && s.0 != slot.0 {
    }
    hide Vouched;
    forall j | j in w'.hub.pending ensures Vouched(w'.hub.registry, w'.hub.pending[j]) {
      VouchedStill(w.hub.registry, w'.hub.registry, w.hub.pending[j]);
    }
  }

  lemma DeletionKnows(w: World, w': World, slot: Slot)
    requires KnowsInv(w) && Without(w.hub, w'.hub, slot) && w'.opening == w.opening && w.sent <= w'.sent
    ensures KnowsInv(w')
  {
    hide JoinRequestEvent;
  }

  lemma DeletionDecided(w: World, r': Registry, id: string)
    requires DecidedInv(w.hub.registry, w.lives, w.decided)
    requires r'.channels == w.hub.registry.channels - {id} && r'.joinSeq == w.hub.registry.joinSeq
    ensures DecidedInv(r', w.lives - {id}, w.decided)
  {
    hide Issued;
  }

  lemma ExpiryDeleted(w: World, slot: Slot)
    requires Inv(w) && slot !in w.hub.members
    requires SetOnline(w.hub.registry, slot.0, slot.1, false, true).Some?
    requires SetOnline(w.hub.registry, slot.0, slot.1, false, true).value.1.deleted
    ensures Inv(Apply(w, Expire(w.hub, slot)).(lives := w.lives - {slot.0}))
    ensures Expire(w.hub, slot).hub.registry.channels == w.hub.registry.channels - {slot.0}
  {
    hide RegistryInv, DecidedInv, MembersInv, PendingInv, PresenceInv, SocketsInv, KnowsInv, AckInv;
    hide SetOnline, Expire, NoAcks, Elect, OnlineMember;
    var r, w' := w.hub.registry, Apply(w, Expire(w.hub, slot)).(lives := w.lives - {slot.0});
    SetOnlineFacts(r, slot.0, slot.1, false, true);
    ExpiryOut(w.hub, slot);
    SetOnlineKeeps(r, w.lives, slot.0, slot.1, false);
    DeletionDecided(w, w'.hub.registry, slot.0);
    forall s | OnlineMember(w.hub, s) && s.0 == slot.0 ensures s == slot {
      NobodyElseOnline(w, slot, s);
    }
    DeletionMaps(w, w', slot);
    DeletionKnows(w, w', slot);
    AckQuiet(w, w', Expire(w.hub, slot).out);
  }

  lemma LivesFollowChannels(w: World)
    requires Inv(w)
    ensures w.lives.Keys == w.hub.registry.channels.Keys
  {
    hide Consistent, ChannelInv;
  }

  lemma ExpiryKeeps(w: World, slot: Slot)
    requires Inv(w)
    ensures Inv(AfterExpiry(w, slot))
  {
    hide Inv, Expire, SetOnline;
    var w1 := Apply(w, Expire(w.hub, slot));
    LivesFollowChannels(w);
    var change := SetOnline(w.hub.registry, slot.0, slot.1, false, true);
    if slot in w.hub.members || change.None? {
      CancelTimerKeeps(w, slot);
      QuietExpiry(w.hub, slot);
      assert w1 == w.(hub := w1.hub);
      assert AfterExpiry(w, slot).lives == w.lives;
    } else if change.value.1.deleted {
      ExpiryDeleted(w, slot);
      assert AfterExpiry(w, slot).lives == w.lives - {slot.0};
    } else {
      ExpirySurvived(w, slot);
      assert AfterExpiry(w, slot).lives == w.lives;
    }
  }

  lemma QuietExpiry(h: Hub, slot: Slot)
    requires slot in h.members || SetOnline(h.registry, slot.0, slot.1, false, true).None?
    ensures Expire(h, slot) == Effect(h.(timers := h.timers - {slot}), {}, {})
  {
  }
}
