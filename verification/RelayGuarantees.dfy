/** What single steps of a reachable relay do and do not do. */
module RelayGuarantees {
  import opened Options
  import Maps
  import opened Identifiers
  import opened Protocol
  import opened Connections
  import opened RegistrySpec
  import opened HubSpec
  import opened RelayRuns
  import opened RegistryProofs
  import opened RelayProofs
  import opened RelayEventProofs
  import opened RelayTheorems

  // ----- safe expiry, in every interleaving -----

  /** An expiry, however stale, takes no connected device offline. */
  lemma ExpirySparesConnected(w: World, slot: Slot, s: Slot)
    requires Inv(w) && s in w.hub.members && OnlineMember(w.hub, s)
    ensures OnlineMember(AfterExpiry(w, slot).hub, s)
    ensures slot in w.hub.members ==> AfterExpiry(w, slot).hub.registry == w.hub.registry
  {
    hide Inv, RegistryInv, Expire, SetOnline, NoAcks, NotifyOwnerOfPendingJoins, OnlineMember, PresenceSet, Elect;
    if slot in w.hub.members || SetOnline(w.hub.registry, slot.0, slot.1, false, true).None? {
      QuietExpiry(w.hub, slot);
      SameOnline(w.hub, AfterExpiry(w, slot).hub, s);
    } else {
      ExpiryOut(w.hub, slot);
      SetOnlineFacts(w.hub.registry, slot.0, slot.1, false, true);
      InvRegistry(w);
      var (r', change) := SetOnline(w.hub.registry, slot.0, slot.1, false, true).value;
      if change.deleted {
        NobodyElseOnline(w, slot, s);
        OnlineElsewhere(w.hub, r', slot.0, s);
      } else {
        OfflineSeen(w.hub, r', slot, s);
      }
      SameOnline(w.hub.(registry := r'), AfterExpiry(w, slot).hub, s);
    }
  }

  lemma OnlineElsewhere(h: Hub, r': Registry, id: string, s: Slot)
    requires r'.channels == h.registry.channels - {id} && s.0 != id && OnlineMember(h, s)
    ensures OnlineMember(h.(registry := r'), s)
  {
  }

  /**
   * No settled member connection of the channel is left, its pending connections are closed and forgotten, and nobody
   * else of it was online.
   */
  ghost predicate CleanlyDeleted(w: World, w': World, slot: Slot) {
    && (forall s | s in w'.hub.members && s.0 == slot.0 :: w'.hub.members[s] in w'.opening)
    && (forall j | j in w'.hub.pending :: w'.hub.pending[j].channelId != slot.0)
    && (forall j | j in w.hub.pending && w.hub.pending[j].channelId == slot.0 ::
          Closed(w.hub.pending[j], "channel deleted") in w'.sent)
    && (forall s | OnlineMember(w.hub, s) && s.0 == slot.0 :: s == slot)
  }

  lemma DeletionIsClean(w: World, slot: Slot)
    requires Inv(w) && slot.0 in w.hub.registry.channels
    requires slot.0 !in AfterExpiry(w, slot).hub.registry.channels
    ensures CleanlyDeleted(w, AfterExpiry(w, slot), slot)
  {
    hide Inv, RegistryInv, Expire, SetOnline, OnlineMember, AfterExpiry;
    var w' := AfterExpiry(w, slot);
    ExpiryShows(w, slot);
    ExpiryKeeps(w, slot);
    SettledAreOnline(w', slot.0);
    if slot in w.hub.members || SetOnline(w.hub.registry, slot.0, slot.1, false, true).None? {
      QuietExpiry(w.hub, slot);
    } else {
      DeletedMeans(w.hub, slot);
      DeletionCloses(w.hub, slot);
      InvRegistry(w);
      forall s | OnlineMember(w.hub, s) && s.0 == slot.0 ensures s == slot {
        NobodyElseOnline(w, slot, s);
      }
    }
  }

  lemma ExpiryShows(w: World, slot: Slot)
    ensures AfterExpiry(w, slot).hub == Expire(w.hub, slot).hub && AfterExpiry(w, slot).sent == w.sent + Expire(w.hub, slot).out
  {
    hide Expire;
  }

  lemma SettledAreOnline(w: World, id: string)
    requires Inv(w) && id !in w.hub.registry.channels
    ensures forall s | s in w.hub.members && s.0 == id :: w.hub.members[s] in w.opening
  {
    hide RegistryInv, DecidedInv, PendingInv, PresenceInv, SocketsInv, KnowsInv, AckInv;
  }

  lemma DeletedMeans(h: Hub, slot: Slot)
    requires slot !in h.members && SetOnline(h.registry, slot.0, slot.1, false, true).Some?
    requires slot.0 !in Expire(h, slot).hub.registry.channels
    ensures SetOnline(h.registry, slot.0, slot.1, false, true).value.1.deleted
    ensures forall j | j in Expire(h, slot).hub.pending :: Expire(h, slot).hub.pending[j].channelId != slot.0
  {
    ExpiryOut(h, slot);
    SetOnlineFacts(h.registry, slot.0, slot.1, false, true);
    hide SetOnline, Expire, NoAcks, NotifyOwnerOfPendingJoins;
  }

  lemma DeletionCloses(h: Hub, slot: Slot)
    requires slot !in h.members && SetOnline(h.registry, slot.0, slot.1, false, true).Some?
    requires SetOnline(h.registry, slot.0, slot.1, false, true).value.1.deleted
    ensures forall j | j in h.pending && h.pending[j].channelId == slot.0 ::
              Closed(h.pending[j], "channel deleted") in Expire(h, slot).out
  {
    SetOnlineFacts(h.registry, slot.0, slot.1, false, true);
    hide SetOnline, EmitPresenceChange;
  }

  // ----- superseding -----

  /** Closing a superseded connection changes no map and starts no timer. */
  lemma SupersededCloseIsInvisible(w: World, c: Connection)
    requires !CurrentMember(w.hub, c) && !CurrentPending(w.hub, c)
    ensures AfterClose(w, c) == w.(open := w.open - {c})
  {
  }

  /** An event of a superseded connection has no effect but the closing of that connection. */
  lemma SupersededEventIsIgnored(w: World, c: Connection, e: Event, x: Choice)
    requires !CurrentMember(w.hub, c) && !CurrentPending(w.hub, c)
    ensures var w' := AfterReceive(w, c, e, x);
            w' == w.(sent := w'.sent) && forall o | o in w'.sent - w.sent :: o.Closed? && o.conn == c
  {
    hide Dispatch;
    assert !CanSend(w.hub, c);
    RecordNothing(w, c, HandleEvent(w.hub, c, e, x).facts);
  }

  /** Setting online a member that is online already changes nothing. */
  lemma OnlineAgain(w: World, slot: Slot)
    requires Inv(w) && OnlineMember(w.hub, slot)
    ensures var r := w.hub.registry; var ch := r.channels[slot.0];
            SetOnline(r, slot.0, slot.1, true, false)
              == Some((r, PresenceChange(Some(ch), ch.ownerId, ch.ownerId, false, false)))
  {
    hide Inv, RegistryInv, Elect;
    InvParts(w);
    ChannelFacts(w.hub.registry, w.lives, slot.0);
    SameMembers(w.hub.registry.channels[slot.0], slot.1);
    Maps.UpdateSame(w.hub.registry.channels, slot.0);
  }

  lemma SameMembers(ch: Channel, d: string)
    requires d in ch.members && ch.members[d].online && ch.ownerId == Elect(ch.members)
    ensures WithMembers(ch, ch.members[d := ch.members[d].(online := true)]) == ch
  {
    Maps.UpdateSame(ch.members, d);
  }

  /**
   * Closing a member's connection and opening a new one before the device expires leaves the registry as it was,
   * replaces the connection, and writes nothing but pending join requests to the new connection of an owner.
   */
  lemma ReconnectIsInvisible(w: World, c: Connection, c': Connection)
    requires Inv(w) && Enabled(w, Close(c)) && CurrentMember(w.hub, c)
    requires c' !in w.seen && c'.claimed.MemberRole? && SlotOf(c') == SlotOf(c)
    ensures OnlineMember(w.hub, SlotOf(c)) && Enabled(AfterClose(w, c), OpenMember(c'))
    ensures var w' := Next(AfterClose(w, c), OpenMember(c'));
            && w'.hub == w.hub.(members := w.hub.members[SlotOf(c) := c'])
            && w'.sent == w.sent + (if w.hub.registry.channels[c.channelId].ownerId == c.deviceId
                                    then NotifyOwnerOfPendingJoins(w'.hub, w.hub.registry.channels[c.channelId]) else {})
  {
    hide Inv, NotifyOwnerOfPendingJoins, FinishMember, AfterEnd, AfterClose;
    CurrentIsOnline(w, c);
    NotPending(w, c);
    TimerOnlyAfterClose(w, c);
    var w1 := AfterClose(w, c);
    var w2 := AfterBegin(w1, c');
    assert w2.hub == w.hub.(members := w.hub.members[SlotOf(c) := c']);
    OnlineAgain(w, SlotOf(c));
    QuietFinish(w2, c', w.hub.registry);
    assert ClosePrevious(w2.opening[c']) == {};
  }

  lemma CurrentIsOnline(w: World, c: Connection)
    requires Inv(w) && CurrentMember(w.hub, c) && c !in w.opening
    ensures OnlineMember(w.hub, SlotOf(c))
  {
    hide RegistryInv, DecidedInv, PendingInv, PresenceInv, KnowsInv, AckInv, SocketsInv;
  }

  /** The end of a handshake that changes no presence. */
  lemma QuietFinish(w: World, c: Connection, r: Registry)
    requires c in w.opening && w.hub.registry == r && OnlineMember(w.hub, SlotOf(c))
    requires var ch := r.channels[c.channelId];
             SetOnline(r, c.channelId, c.deviceId, true, false)
               == Some((r, PresenceChange(Some(ch), ch.ownerId, ch.ownerId, false, false)))
    ensures var w' := AfterEnd(w, c); var ch := r.channels[c.channelId];
            && w'.hub == w.hub
            && w'.sent == w.sent + ((if ch.ownerId == c.deviceId then NotifyOwnerOfPendingJoins(w.hub, ch) else {})
                                    + ClosePrevious(w.opening[c]))
  {
    hide SetOnline, NotifyOwnerOfPendingJoins;
    var ch := r.channels[c.channelId];
    var finish := FinishMember(w.hub, c, w.opening[c]);
    assert finish.out == (if ch.ownerId == c.deviceId then NotifyOwnerOfPendingJoins(w.hub, ch) else {})
                       + ClosePrevious(w.opening[c]);
  }

  /** The end of the handshake of a device that is online already. */
  lemma QuietEnd(w: World, c: Connection)
    requires Inv(w) && c in w.opening && OnlineMember(w.hub, SlotOf(c))
    ensures var w' := AfterEnd(w, c);
            && w'.hub == w.hub && w.sent <= w'.sent
            && forall o | o in w'.sent - w.sent ::
                 || (o.Wrote? && o.event.kind.JoinRequest? && SlotOf(o.conn) == SlotOf(c))
                 || (o.Closed? && w.opening[c] == Some(o.conn))
  {
    hide Inv, SetOnline, AfterEnd, RegistryInv;
    OnlineAgain(w, SlotOf(c));
    QuietFinish(w, c, w.hub.registry);
    InvRegistry(w);
    ChannelFacts(w.hub.registry, w.lives, c.channelId);
    NoticesGoToTheOwner(w, c.channelId);
  }

  lemma NoticesGoToTheOwner(w: World, id: string)
    requires Inv(w) && id in w.hub.registry.channels && w.hub.registry.channels[id].id == id
    ensures var ch := w.hub.registry.channels[id];
            forall o | o in NotifyOwnerOfPendingJoins(w.hub, ch) ::
              o.Wrote? && o.event.kind.JoinRequest? && SlotOf(o.conn) == (id, ch.ownerId)
  {
    hide RegistryInv, DecidedInv, PendingInv, PresenceInv, KnowsInv, AckInv, SocketsInv;
  }

  lemma NotPending(w: World, c: Connection)
    requires Inv(w) && CurrentMember(w.hub, c)
    ensures !CurrentPending(w.hub, c)
  {
    hide RegistryInv, DecidedInv, PresenceInv, KnowsInv, AckInv;
  }

  lemma TimerOnlyAfterClose(w: World, c: Connection)
    requires Inv(w) && CurrentMember(w.hub, c) && !CurrentPending(w.hub, c)
    ensures AfterClose(w, c).hub == w.hub.(members := w.hub.members - {SlotOf(c)}, timers := w.hub.timers + {SlotOf(c)})
    ensures AfterClose(w, c).hub.timers - {SlotOf(c)} == w.hub.timers
    ensures AfterClose(w, c).seen == w.seen && AfterClose(w, c).sent == w.sent
    ensures AfterClose(w, c).opening == w.opening
  {
    hide RegistryInv, DecidedInv, MembersInv, PendingInv, KnowsInv, AckInv;
  }
}
