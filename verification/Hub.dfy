/** The hub as the relay runs it: maps and connection roles updated in place, writes and closings recorded. */
module RelayHub {
  import opened Options
  import Maps
  import opened Protocol
  import opened Connections
  import Spec = RegistrySpec
  import opened HubSpec
  import ChannelRegistry

  // ----- nested maps and their flat form -----

  ghost function Slots(m: map<string, map<string, Connection>>): set<Slot> {
    set id, d | id in m && d in m[id] :: (id, d)
  }

  ghost function Flat(m: map<string, map<string, Connection>>): map<Slot, Connection> {
    map s | s in Slots(m) :: m[s.0][s.1]
  }

  function Inner(m: map<string, map<string, Connection>>, id: string): map<string, Connection> {
    if id in m then m[id] else map[]
  }

  ghost function FlatSet(m: map<string, set<string>>): set<Slot> {
    set id, d | id in m && d in m[id] :: (id, d)
  }

  function InnerSet(m: map<string, set<string>>, id: string): set<string> {
    if id in m then m[id] else {}
  }

  lemma FlatAt(m: map<string, map<string, Connection>>, s: Slot)
    ensures s in Flat(m) <==> s.0 in m && s.1 in m[s.0]
    ensures s in Flat(m) ==> Flat(m)[s] == m[s.0][s.1]
  {
    assert s == (s.0, s.1);
  }

  lemma FlatPut(m: map<string, map<string, Connection>>, id: string, d: string, c: Connection)
    ensures Flat(m[id := Inner(m, id)[d := c]]) == Flat(m)[(id, d) := c]
  {
    hide Flat;
    var m' := m[id := Inner(m, id)[d := c]];
    forall s: Slot ensures s in Flat(m') <==> s in Flat(m)[(id, d) := c] {
      FlatAt(m, s);
      FlatAt(m', s);
    }
    forall s | s in Flat(m') ensures Flat(m')[s] == Flat(m)[(id, d) := c][s] {
      FlatAt(m, s);
      FlatAt(m', s);
    }
  }

  lemma FlatReplace(m: map<string, map<string, Connection>>, id: string, d: string)
    requires id in m
    ensures Flat(m[id := m[id] - {d}]) == Flat(m) - {(id, d)}
  {
    hide Flat;
    var m' := m[id := m[id] - {d}];
    forall s: Slot ensures s in Flat(m') <==> s in Flat(m) - {(id, d)} {
      FlatAt(m, s);
      FlatAt(m', s);
    }
    forall s | s in Flat(m') ensures Flat(m')[s] == Flat(m)[s] {
      FlatAt(m, s);
      FlatAt(m', s);
    }
  }

  lemma FlatForget(m: map<string, map<string, Connection>>, id: string)
    requires id in m && m[id] == map[]
    ensures Flat(m - {id}) == Flat(m)
  {
    hide Flat;
    forall s: Slot ensures s in Flat(m - {id}) <==> s in Flat(m) {
      FlatAt(m, s);
      FlatAt(m - {id}, s);
    }
    forall s | s in Flat(m) ensures Flat(m - {id})[s] == Flat(m)[s] {
      FlatAt(m, s);
      FlatAt(m - {id}, s);
    }
  }

  lemma FlatDrop(m: map<string, map<string, Connection>>, id: string, d: string)
    requires id in m
    ensures Flat(m[id := m[id] - {d}]) == Flat(m) - {(id, d)}
    ensures m[id] - {d} == map[] ==> Flat(m - {id}) == Flat(m) - {(id, d)}
  {
    hide Flat;
    FlatReplace(m, id, d);
    if m[id] - {d} == map[] {
      FlatForget(m[id := m[id] - {d}], id);
      Maps.UpdateThenRemove(m, id, m[id] - {d});
    }
  }

  lemma FlatSetPut(m: map<string, set<string>>, id: string, d: string)
    ensures FlatSet(m[id := InnerSet(m, id) + {d}]) == FlatSet(m) + {(id, d)}
  {
  }

  lemma FlatSetWithout(m: map<string, set<string>>, id: string, d: string)
    requires id !in m
    ensures FlatSet(m) - {(id, d)} == FlatSet(m)
  {
  }

  lemma FlatSetDrop(m: map<string, set<string>>, id: string, d: string)
    requires id in m
    ensures FlatSet(m[id := m[id] - {d}]) == FlatSet(m) - {(id, d)}
    ensures m[id] - {d} == {} ==> FlatSet(m - {id}) == FlatSet(m) - {(id, d)}
  {
    assert m[id] - {d} == {} ==> forall e | e in m[id] :: e == d by {
      assert forall e | e in m[id] && e != d :: e in m[id] - {d};
    }
  }

  // ----- the record of writes -----

  lemma OneMore(log: multiset<Out>, out: set<Out>, o: Out)
    requires o !in out
    ensures log + multiset(out) + multiset{o} == log + multiset(out + {o})
  {
  }

  lemma Both(log: multiset<Out>, a: set<Out>, b: set<Out>)
    requires a !! b
    ensures log + multiset(a) + multiset(b) == log + multiset(a + b)
  {
  }

  class Hub {
    const registry: ChannelRegistry.Registry
    var members: map<string, map<string, Connection>>
    var pending: map<string, Connection>
    var offlineTimers: map<string, set<string>>
    /** Every connection ever registered, everything written and closed, and what was done for whom. */
    ghost var conns: set<Connection>
    ghost var log: multiset<Out>
    ghost var facts: set<Fact>

    ghost function State(): HubSpec.Hub
      reads `members, `pending, `offlineTimers, `conns, registry, registry.channels.Values, conns
    {
      HubSpec.Hub(registry.State(), Flat(members), pending, FlatSet(offlineTimers), Promoted())
    }

    ghost function Promoted(): set<Connection>
      reads `conns, conns
    {
      set c | c in conns && c.claimed.PendingRole? && c.role.MemberRole?
    }

    /** No inner map is empty, and every connection is filed under its own ids. */
    ghost predicate Filed()
      reads `members, `pending, `offlineTimers, `conns, conns
    {
      && (forall id | id in members :: members[id] != map[])
      && (forall id | id in offlineTimers :: offlineTimers[id] != {})
      && (forall s | s in Flat(members) :: Flat(members)[s] in conns && SlotOf(Flat(members)[s]) == s)
      && (forall j | j in pending :: pending[j] in conns && pending[j].joinRequestId == j && pending[j].claimed.PendingRole?)
      && (forall c | c in conns && c.claimed.MemberRole? :: c.role.MemberRole?)
    }

    ghost predicate Valid()
      reads `members, `pending, `offlineTimers, `conns, registry, registry.channels.Values, conns
    {
      registry.Valid() && Filed()
    }

    constructor ()
      ensures Valid() && fresh(registry) && fresh(registry.channels.Values) && conns == {}
      ensures State() == HubSpec.Hub(Spec.Registry(map[], map[], 0), map[], map[], {}, {})
      ensures log == multiset{} && facts == {}
    {
      registry := new ChannelRegistry.Registry();
      members, pending, offlineTimers := map[], map[], map[];
      conns, log, facts := {}, multiset{}, {};
    }

    // ----- writes -----

    method WriteEvent(c: Connection, e: Event) returns (ok: bool)
      modifies this`log
      ensures log == old(log) + multiset{Wrote(c, e)}
    {
      log := log + multiset{Wrote(c, e)};
      ok := *;
    }

    method CloseConnection(c: Connection, reason: string)
      modifies this`log
      ensures log == old(log) + multiset{Closed(c, reason)}
    {
      log := log + multiset{Closed(c, reason)};
    }

    method SendError(c: Connection, code: string, replyTo: string)
      modifies this`log
      ensures log == old(log) + multiset({Wrote(c, ErrorEvent(c, code, replyTo))})
    {
      var _ := WriteEvent(c, ErrorEvent(c, code, replyTo));
    }

    // ----- timers -----

    method StartOfflineTimer(channelId: string, deviceId: string)
      requires Filed()
      modifies this`offlineTimers
      ensures Filed() && FlatSet(offlineTimers) == old(FlatSet(offlineTimers)) + {(channelId, deviceId)}
    {
      hide Flat, FlatSet, ChannelRegistry.Registry.State, ChannelRegistry.Registry.Valid;
      CancelOfflineTimer(channelId, deviceId);
      FlatSetPut(offlineTimers, channelId, deviceId);
      offlineTimers := offlineTimers[channelId := InnerSet(offlineTimers, channelId) + {deviceId}];
    }

    method CancelOfflineTimer(channelId: string, deviceId: string)
      requires Filed()
      modifies this`offlineTimers
      ensures Filed() && FlatSet(offlineTimers) == old(FlatSet(offlineTimers)) - {(channelId, deviceId)}
    {
      hide Flat, FlatSet, ChannelRegistry.Registry.State, ChannelRegistry.Registry.Valid;
      if channelId !in offlineTimers {
        FlatSetWithout(offlineTimers, channelId, deviceId);
        return;
      }
      FlatSetDrop(offlineTimers, channelId, deviceId);
      var channelTimers := offlineTimers[channelId] - {deviceId};
      if channelTimers == {} {
        offlineTimers := offlineTimers - {channelId};
      } else {
        offlineTimers := offlineTimers[channelId := channelTimers];
      }
    }

    method ScheduleOfflineExpiry(channelId: string, deviceId: string)
      requires Valid()
      modifies this`offlineTimers
      ensures Valid() && State() == HubSpec.ScheduleOfflineExpiry(old(State()), (channelId, deviceId))
    {
      hide Flat, FlatSet, ChannelRegistry.Registry.State, ChannelRegistry.Registry.Valid;
      FlatAt(members, (channelId, deviceId));
      if channelId in members && deviceId in members[channelId] {
        return;
      }
      StartOfflineTimer(channelId, deviceId);
    }

    // ----- registration -----

    twostate lemma PromotedSame(c: Connection)
      requires conns == old(conns) + {c} && c.role == c.claimed
      requires forall k | k in old(conns) :: unchanged(k)
      ensures Promoted() == old(Promoted())
    {
    }

    twostate lemma PromotedMore(c: Connection)
      requires conns == old(conns) && c in conns && c.claimed.PendingRole? && c.role.MemberRole?
      requires forall k | k in conns && k != c :: unchanged(k)
      ensures Promoted() == old(Promoted()) + {c}
    {
    }

    method Register(c: Connection) returns (previous: Option<Connection>)
      requires Valid() && c !in conns && c.role == c.claimed
      modifies this`members, this`pending, this`offlineTimers, this`conns
      ensures Valid() && conns == old(conns) + {c}
      ensures c.claimed.MemberRole? ==> State() == RegisterMember(old(State()), c) && previous == Previous(old(State()), c)
      ensures c.claimed.PendingRole? ==> State() == RegisterPending(old(State()), c) && previous == PreviousPending(old(State()), c)
    {
      hide Flat, FlatSet, ChannelRegistry.Registry.State, ChannelRegistry.Registry.Valid, Promoted;
      conns := conns + {c};
      if c.role.MemberRole? {
        previous := SetMember(c);
      } else {
        previous := if c.joinRequestId in pending && pending[c.joinRequestId] != c then Some(pending[c.joinRequestId]) else None;
        pending := pending[c.joinRequestId := c];
      }
      PromotedSame(c);
    }

    /** The part of registration and promotion that files a member connection. */
    method SetMember(c: Connection) returns (previous: Option<Connection>)
      requires Filed() && c in conns
      modifies this`members, this`offlineTimers
      ensures Filed()
      ensures Flat(members) == old(Flat(members))[SlotOf(c) := c]
      ensures FlatSet(offlineTimers) == old(FlatSet(offlineTimers)) - {SlotOf(c)}
      ensures previous == if SlotOf(c) in old(Flat(members)) && old(Flat(members))[SlotOf(c)] != c
                          then Some(old(Flat(members))[SlotOf(c)]) else None
    {
      hide Flat, FlatSet, ChannelRegistry.Registry.State, ChannelRegistry.Registry.Valid;
      CancelOfflineTimer(c.channelId, c.deviceId);
      FlatAt(members, SlotOf(c));
      previous := if c.channelId in members && c.deviceId in members[c.channelId] && members[c.channelId][c.deviceId] != c
                  then Some(members[c.channelId][c.deviceId]) else None;
      FlatPut(members, c.channelId, c.deviceId, c);
      members := members[c.channelId := Inner(members, c.channelId)[c.deviceId := c]];
      assert c.deviceId in members[c.channelId];
    }

    method RemovePending(c: Connection)
      requires Valid()
      modifies this`pending
      ensures Valid() && State() == HubSpec.RemovePending(old(State()), c)
    {
      hide Flat, FlatSet, ChannelRegistry.Registry.State, ChannelRegistry.Registry.Valid;
      if c.joinRequestId in pending && pending[c.joinRequestId] == c {
        pending := pending - {c.joinRequestId};
      }
    }

    method RemoveMember(c: Connection) returns (removed: bool)
      requires Filed()
      modifies this`members
      ensures Filed()
      ensures removed == (SlotOf(c) in old(Flat(members)) && old(Flat(members))[SlotOf(c)] == c)
      ensures Flat(members) == if removed then old(Flat(members)) - {SlotOf(c)} else old(Flat(members))
    {
      hide Flat, FlatSet, ChannelRegistry.Registry.State, ChannelRegistry.Registry.Valid;
      FlatAt(members, SlotOf(c));
      if c.channelId in members && c.deviceId in members[c.channelId] && members[c.channelId][c.deviceId] == c {
        FlatDrop(members, c.channelId, c.deviceId);
        var channelMembers := members[c.channelId] - {c.deviceId};
        if channelMembers == map[] {
          members := members - {c.channelId};
        } else {
          members := members[c.channelId := channelMembers];
        }
        return true;
      }
      return false;
    }

    method Unregister(c: Connection)
      requires Valid()
      modifies this`members, this`pending, this`offlineTimers
      ensures Valid() && State() == HubSpec.Unregister(old(State()), c)
    {
      hide Flat, FlatSet, ChannelRegistry.Registry.State, ChannelRegistry.Registry.Valid;
      RemovePending(c);
      var removed := RemoveMember(c);
      if removed {
        StartOfflineTimer(c.channelId, c.deviceId);
      }
    }

    method PromotePending(c: Connection) returns (previous: Option<Connection>)
      requires Valid() && c in conns && c.claimed.PendingRole?
      modifies this`members, this`pending, this`offlineTimers, c`role
      ensures Valid() && State() == Promote(old(State()), c)
      ensures previous == Previous(old(State()), c)
    {
      hide Flat, FlatSet, ChannelRegistry.Registry.State, ChannelRegistry.Registry.Valid, Promoted;
      hide HubSpec.RemovePending, RegisterMember, Previous;
      PromoteParts(c);
      RemovePending(c);
      previous := FileMember(c);
    }

    lemma PromoteParts(c: Connection)
      ensures var h := HubSpec.RemovePending(State(), c);
              && Promote(State(), c) == RegisterMember(h, c).(promoted := h.promoted + {c})
              && Previous(h, c) == Previous(State(), c)
    {
      hide State;
    }

    /** The connection is filed as its device's member connection and becomes a member itself. */
    method FileMember(c: Connection) returns (previous: Option<Connection>)
      requires Valid() && c in conns && c.claimed.PendingRole?
      modifies this`members, this`offlineTimers, c`role
      ensures Valid() && State() == RegisterMember(old(State()), c).(promoted := old(State()).promoted + {c})
      ensures previous == Previous(old(State()), c)
    {
      hide Flat, FlatSet, ChannelRegistry.Registry.State, ChannelRegistry.Registry.Valid, Promoted;
      previous := SetMember(c);
      c.role := MemberRole;
      PromotedMore(c);
    }

    // ----- notifications -----

    function MemberConnection(channelId: string, deviceId: string): (c: Option<Connection>)
      reads `members, `pending, `offlineTimers, `conns, registry, registry.channels.Values, conns
      ensures c == HubSpec.MemberConnection(State(), channelId, deviceId)
    {
      FlatAt(members, (channelId, deviceId));
      if channelId in members && deviceId in members[channelId] then Some(members[channelId][deviceId]) else None
    }

    function MemberConnections(channelId: string): (cs: set<Connection>)
      requires Filed()
      reads `members, `pending, `offlineTimers, `conns, conns
      ensures forall c | c in cs :: c.channelId == channelId && SlotOf(c) in Flat(members) && Flat(members)[SlotOf(c)] == c
      ensures forall s | s in Flat(members) && s.0 == channelId :: Flat(members)[s] in cs
    {
      assert forall id, d | id in members && d in members[id] :: (id, d) in Flat(members) && Flat(members)[(id, d)] == members[id][d];
      if channelId in members then members[channelId].Values else {}
    }

    method NotifyOwnerOfJoinRequest(ch: Spec.Channel, join: Spec.JoinRequest)
      modifies this`log
      ensures log == old(log) + multiset(HubSpec.NotifyOwnerOfJoin(State(), ch, join))
    {
      hide Flat, FlatSet, ChannelRegistry.Registry.State, ChannelRegistry.Registry.Valid, Promoted;
      var owner := MemberConnection(ch.id, ch.ownerId);
      if owner.None? {
        return;
      }
      var _ := WriteEvent(owner.value, JoinRequestEvent(ch.id, join, owner.value.deviceId));
    }

    method NotifyOwnerOfPendingJoins(ch: Spec.Channel)
      requires forall j | j in ch.pending :: ch.pending[j].id == j
      modifies this`log
      ensures log == old(log) + multiset(HubSpec.NotifyOwnerOfPendingJoins(State(), ch))
    {
      hide Flat, FlatSet, ChannelRegistry.Registry.State, ChannelRegistry.Registry.Valid, Promoted;
      if ch.ownerId == "" {
        return;
      }
      ghost var owner := MemberConnection(ch.id, ch.ownerId);
      var rest := ch.pending.Keys;
      while rest != {}
        invariant rest <= ch.pending.Keys
        invariant log == old(log) + multiset(JoinNotices(owner, ch, ch.pending.Keys - rest))
        decreases rest
      {
        var j :| j in rest;
        NotifyOwnerOfJoinRequest(ch, ch.pending[j]);
        OneNotice(old(log), owner, ch, ch.pending.Keys - rest, j);
        assert ch.pending.Keys - (rest - {j}) == ch.pending.Keys - rest + {j};
        rest := rest - {j};
      }
    }

    /** The loops of broadcastOwnerChanged and broadcastPresenceChanged: the same event to every other device. */
    method WriteToOthers(channelId: string, exclude: string, e: Event)
      requires Valid()
      modifies this`log
      ensures log == old(log) + multiset(ToOthers(MemberConnections(channelId), exclude, e))
    {
      hide Flat, ToOthers, MemberConnections;
      var targets := MemberConnections(channelId);
      var rest := targets;
      NoOthers(exclude, e);
      assert targets - rest == {};
      while rest != {}
        invariant rest <= targets
        invariant log == old(log) + multiset(ToOthers(targets - rest, exclude, e))
        decreases rest
      {
        var target :| target in rest;
        MoreOthers(old(log), targets - rest, target, exclude, e);
        assert targets - (rest - {target}) == targets - rest + {target};
        if target.deviceId != exclude {
          var _ := WriteEvent(target, e.(to := target.deviceId));
        }
        rest := rest - {target};
      }
      assert targets - rest == targets;
    }

    method BroadcastOwnerChanged(ch: Spec.Channel, previousOwnerId: string, exclude: string)
      requires Valid()
      modifies this`log
      ensures log == old(log) + multiset(HubSpec.BroadcastOwnerChanged(State(), ch, previousOwnerId, exclude))
    {
      hide Flat, FlatSet, ChannelRegistry.Registry.State, Promoted;
      var e := OwnerChangedEvent(ch.id, "", previousOwnerId, ch.ownerId);
      WriteToOthers(ch.id, exclude, e);
      assert ToOthers(MemberConnections(ch.id), exclude, e)
          == HubSpec.BroadcastOwnerChanged(State(), ch, previousOwnerId, exclude);
    }

    method BroadcastPresenceChanged(ch: Spec.Channel, deviceId: string)
      requires Valid()
      modifies this`log
      ensures log == old(log) + multiset(HubSpec.BroadcastPresenceChanged(State(), ch, deviceId))
    {
      hide Flat, FlatSet, ChannelRegistry.Registry.State, Promoted;
      if deviceId !in ch.members {
        return;
      }
      var e := PresenceChangedEvent(ch, "", deviceId);
      WriteToOthers(ch.id, deviceId, e);
      assert ToOthers(MemberConnections(ch.id), deviceId, e)
          == HubSpec.BroadcastPresenceChanged(State(), ch, deviceId);
    }

    method EmitPresenceChange(change: Spec.PresenceChange, deviceId: string)
      requires Valid()
      requires SoundChange(change)
      modifies this`log
      ensures log == old(log) + multiset(HubSpec.EmitPresenceChange(State(), change, deviceId))
    {
      hide State, Valid, HubSpec.BroadcastOwnerChanged, HubSpec.NotifyOwnerOfPendingJoins, HubSpec.BroadcastPresenceChanged;
      if change.deleted || change.channel.None? || !change.changed {
        return;
      }
      var ch := change.channel.value;
      EmitInTurn(old(log), State(), change, deviceId);
      if change.previousOwnerId != change.currentOwnerId {
        BroadcastOwnerChanged(ch, change.previousOwnerId, deviceId);
        NotifyOwnerOfPendingJoins(ch);
      }
      BroadcastPresenceChanged(ch, deviceId);
    }

    // ----- the registry on behalf of the hub -----

    lemma RegistryPart()
      requires Valid()
      ensures State().registry == registry.State() && Spec.Indexed(State().registry)
    {
    }

    /** Connect changes nothing of the hub but the registry. */
    method Connect(name: string, pin: string, deviceId: string, deviceName: string) returns (result: Spec.ConnectResult)
      requires Valid() && deviceId != ""
      modifies registry, registry.channels.Values
      ensures Valid() && fresh(registry.channels.Values - old(registry.channels.Values))
      ensures State() == old(State()).(registry := registry.State())
      ensures (registry.State(), result) == Spec.Connect(old(registry.State()), name, pin, deviceId, deviceName)
    {
      hide Flat, FlatSet, ChannelRegistry.Registry.State, Promoted, Spec.Connect;
      result := registry.Connect(name, pin, deviceId, deviceName);
    }

    // ----- opening connections -----

    function FindChannel(channelId: string): (ch: Option<Spec.Channel>)
      reads `members, `pending, `offlineTimers, `conns, registry, registry.channels.Values, conns
      ensures ch == HubSpec.FindChannel(State(), channelId)
    {
      registry.Lookup(channelId)
    }

    function RegistryMemberExists(c: Connection): (found: bool)
      reads `members, `pending, `offlineTimers, `conns, registry, registry.channels.Values, conns
      ensures found == HubSpec.RegistryMemberExists(State(), c)
    {
      var ch := FindChannel(c.channelId);
      ch.Some? && c.deviceId in ch.value.members
    }

    function PendingExists(c: Connection): (found: bool)
      reads `members, `pending, `offlineTimers, `conns, registry, registry.channels.Values, conns
      ensures found == HubSpec.PendingExists(State(), c)
    {
      var ch := FindChannel(c.channelId);
      ch.Some? && Spec.JoinOf(ch.value, c.joinRequestId, c.deviceId)
    }

    function ValidateClaims(c: Connection): (valid: bool)
      reads `members, `pending, `offlineTimers, `conns, registry, registry.channels.Values, conns
      ensures valid <==> if c.claimed.MemberRole? then HubSpec.RegistryMemberExists(State(), c) else HubSpec.PendingExists(State(), c)
    {
      if c.claimed.MemberRole? then RegistryMemberExists(c) else PendingExists(c)
    }

    method SetOnline(channelId: string, deviceId: string, online: bool, deleteIfEmpty: bool)
      returns (change: Option<Spec.PresenceChange>)
      requires Valid()
      modifies registry, registry.channels.Values
      ensures Valid() && registry.channels.Values <= old(registry.channels.Values)
      ensures match Spec.SetOnline(old(State()).registry, channelId, deviceId, online, deleteIfEmpty)
              case None => change == None && State() == old(State())
              case Some((r, presence)) =>
                change == Some(presence) && State() == old(State()).(registry := r) && SoundChange(presence)
    {
      hide Flat, FlatSet, ChannelRegistry.Registry.State, Promoted, Spec.SetOnline;
      change := registry.SetOnline(channelId, deviceId, online, deleteIfEmpty);
      ChangeIsSound(old(registry.State()), channelId, deviceId, online, deleteIfEmpty);
    }

    method AbandonMember(c: Connection)
      requires Valid()
      modifies this`members, this`pending, this`offlineTimers, this`log
      ensures Valid() && State() == HubSpec.Unregister(old(State()), c)
      ensures log == old(log) + multiset({Closed(c, "member is not registered")})
    {
      hide State, Valid, HubSpec.Unregister;
      Unregister(c);
      CloseConnection(c, "member is not registered");
    }

    method AnnounceMember(c: Connection, change: Spec.PresenceChange, previous: Option<Connection>)
      requires Valid() && SoundChange(change)
      modifies this`log
      ensures log == old(log) + multiset(HubSpec.EmitPresenceChange(State(), change, c.deviceId))
                       + (if change.channel.Some? && change.previousOwnerId == change.currentOwnerId == c.deviceId
                          then multiset(HubSpec.NotifyOwnerOfPendingJoins(State(), change.channel.value)) else multiset{})
                       + multiset(ClosePrevious(previous))
    {
      hide State, Valid, HubSpec.EmitPresenceChange, HubSpec.NotifyOwnerOfPendingJoins;
      EmitPresenceChange(change, c.deviceId);
      if change.channel.Some? && change.previousOwnerId == change.currentOwnerId == c.deviceId {
        NotifyOwnerOfPendingJoins(change.channel.value);
      }
      ClosePreviousConnection(previous);
    }

    /** The member handshake after registration; it fails when the member has disappeared meanwhile. */
    method FinishMember(c: Connection, previous: Option<Connection>) returns (served: bool)
      requires Valid()
      modifies this`members, this`pending, this`offlineTimers, this`log, registry, registry.channels.Values
      ensures registry.channels.Values <= old(registry.channels.Values)
      ensures Valid()
      ensures var effect := HubSpec.FinishMember(old(State()), c, previous);
              State() == effect.hub && log == old(log) + multiset(effect.out)
      ensures served == HubSpec.RegistryMemberExists(old(State()), c)
    {
      hide State, Valid, HubSpec.EmitPresenceChange, HubSpec.NotifyOwnerOfPendingJoins, HubSpec.FinishMember, Spec.SetOnline;
      FinishInTurn(log, State(), c, previous);
      var change := SetOnline(c.channelId, c.deviceId, true, false);
      if change.None? {
        AbandonMember(c);
        return false;
      }
      AnnounceMember(c, change.value, previous);
      return true;
    }

    method NotifyOwnerOfJoin(c: Connection)
      requires Valid()
      modifies this`log
      ensures log == old(log) + multiset(JoinNotice(State(), c))
    {
      var ch := FindChannel(c.channelId);
      hide State, Valid, HubSpec.NotifyOwnerOfJoin;
      if ch.Some? && c.joinRequestId in ch.value.pending {
        NotifyOwnerOfJoinRequest(ch.value, ch.value.pending[c.joinRequestId]);
      }
    }

    /** The joiner's handshake after registration. */
    method FinishPending(c: Connection, previous: Option<Connection>)
      requires Valid()
      modifies this`log
      ensures State() == old(State()) && Valid()
      ensures log == old(log) + multiset(HubSpec.FinishPending(State(), c, previous).out)
    {
      NoticeIsWrite(State(), c);
      hide State, Valid, HubSpec.JoinNotice;
      Both(log, ClosePrevious(previous), HubSpec.JoinNotice(State(), c));
      ClosePreviousConnection(previous);
      NotifyOwnerOfJoin(c);
    }

    method OpenPending(c: Connection)
      requires Valid() && c !in conns && c.role == c.claimed && c.claimed.PendingRole?
      modifies this`members, this`pending, this`offlineTimers, this`conns, this`log
      ensures Valid() && conns == old(conns) + {c}
      ensures State() == RegisterPending(old(State()), c)
      ensures log == old(log) + multiset(HubSpec.FinishPending(State(), c, PreviousPending(old(State()), c)).out)
    {
      hide State, Valid, RegisterPending, HubSpec.FinishPending, PreviousPending;
      var previous := Register(c);
      FinishPending(c, previous);
    }

    /** The handshake after registration, by the role that the connection has by now. */
    method Finish(c: Connection, previous: Option<Connection>) returns (served: bool)
      requires Valid() && c in conns
      modifies this`members, this`pending, this`offlineTimers, this`log, registry, registry.channels.Values
      ensures registry.channels.Values <= old(registry.channels.Values)
      ensures Valid()
      ensures var effect := if HubSpec.IsMember(old(State()), c) then HubSpec.FinishMember(old(State()), c, previous)
                            else HubSpec.FinishPending(old(State()), c, previous);
              State() == effect.hub && log == old(log) + multiset(effect.out)
      ensures served <==> !HubSpec.IsMember(old(State()), c) || HubSpec.RegistryMemberExists(old(State()), c)
    {
      RoleIsState(c);
      hide State, Valid, HubSpec.FinishMember, HubSpec.FinishPending, HubSpec.IsMember, HubSpec.RegistryMemberExists;
      if c.role.MemberRole? {
        served := FinishMember(c, previous);
      } else {
        SamePending(c, previous);
        FinishPending(c, previous);
        served := true;
      }
    }

    lemma RoleIsState(c: Connection)
      requires Valid() && c in conns
      ensures c.role.MemberRole? <==> HubSpec.IsMember(State(), c)
    {
    }

    lemma SamePending(c: Connection, previous: Option<Connection>)
      ensures HubSpec.FinishPending(State(), c, previous).hub == State()
    {
    }

    method ClosePreviousConnection(previous: Option<Connection>)
      modifies this`log
      ensures log == old(log) + multiset(ClosePrevious(previous))
    {
      if previous.Some? {
        CloseConnection(previous.value, "connection superseded");
      }
    }

    method OpenMember(c: Connection)
      requires Valid() && c !in conns && c.role == c.claimed && c.claimed.MemberRole?
      modifies this`members, this`pending, this`offlineTimers, this`conns, this`log, registry, registry.channels.Values
      ensures registry.channels.Values <= old(registry.channels.Values)
      ensures Valid() && conns == old(conns) + {c}
      ensures var effect := HubSpec.FinishMember(RegisterMember(old(State()), c), c, Previous(old(State()), c));
              State() == effect.hub && log == old(log) + multiset(effect.out)
    {
      hide State, Valid, RegisterMember, HubSpec.FinishMember, Previous;
      var previous := Register(c);
      var _ := FinishMember(c, previous);
    }

    /** The handshake: claims are checked against the registry before the connection is registered. */
    method Open(c: Connection) returns (accepted: bool)
      requires Valid() && c !in conns && c.role == c.claimed
      modifies this`members, this`pending, this`offlineTimers, this`conns, this`log, registry, registry.channels.Values
      ensures registry.channels.Values <= old(registry.channels.Values)
      ensures Valid()
      ensures accepted == old(ValidateClaims(c))
      ensures !accepted ==> State() == old(State()) && log == old(log) && conns == old(conns)
      ensures accepted ==> conns == old(conns) + {c}
      ensures accepted ==>
                var effect := if c.claimed.MemberRole?
                              then HubSpec.FinishMember(RegisterMember(old(State()), c), c, Previous(old(State()), c))
                              else HubSpec.FinishPending(RegisterPending(old(State()), c), c, PreviousPending(old(State()), c));
                State() == effect.hub && log == old(log) + multiset(effect.out)
    {
      hide State, Valid, RegisterMember, HubSpec.FinishMember, Previous, RegisterPending, PreviousPending, HubSpec.JoinNotice, ValidateClaims;
      accepted := ValidateClaims(c);
      if !accepted {
        return;
      }
      if c.claimed.MemberRole? {
        OpenMember(c);
      } else {
        OpenPending(c);
      }
    }

    // ----- reconnect grace -----

    method ClosePendingForChannel(channelId: string)
      requires Valid()
      modifies this`pending, this`log
      ensures Valid()
      ensures var (h, out) := HubSpec.ClosePendingForChannel(old(State()), channelId);
              State() == h && log == old(log) + multiset(out)
    {
      hide Flat, FlatSet, ChannelRegistry.Registry.State, ChannelRegistry.Registry.Valid;
      var closing := TakePending(channelId);
      assert Closings(closing) == HubSpec.ClosePendingForChannel(old(State()), channelId).1;
      CloseAll(closing);
    }

    /** Deletes the pending connections of a channel while scanning them. */
    method TakePending(channelId: string) returns (closing: set<Connection>)
      modifies this`pending
      ensures pending == map j | j in old(pending) && old(pending)[j].channelId != channelId :: old(pending)[j]
      ensures closing == set j | j in old(pending) && old(pending)[j].channelId == channelId :: old(pending)[j]
    {
      closing := {};
      var rest := pending.Keys;
      while rest != {}
        invariant rest <= pending.Keys <= old(pending).Keys
        invariant pending == map j | j in old(pending) && (j in rest || old(pending)[j].channelId != channelId) :: old(pending)[j]
        invariant closing == set j | j in old(pending) && j !in rest && old(pending)[j].channelId == channelId :: old(pending)[j]
        decreases rest
      {
        var j :| j in rest;
        rest := rest - {j};
        var conn := pending[j];
        if conn.channelId == channelId {
          closing := closing + {conn};
          pending := pending - {j};
        }
      }
    }

    method CloseAll(closing: set<Connection>)
      modifies this`log
      ensures log == old(log) + multiset(Closings(closing))
    {
      var rest := closing;
      assert Closings(closing - rest) == {};
      while rest != {}
        invariant rest <= closing
        invariant log == old(log) + multiset(Closings(closing - rest))
        decreases rest
      {
        var c :| c in rest;
        OneMore(old(log), Closings(closing - rest), Closed(c, "channel deleted"));
        assert Closings(closing - (rest - {c})) == Closings(closing - rest) + {Closed(c, "channel deleted")};
        CloseConnection(c, "channel deleted");
        rest := rest - {c};
      }
      assert closing - rest == closing;
    }

    method ExpireOfflineMember(channelId: string, deviceId: string)
      requires Valid()
      modifies this`pending, this`offlineTimers, this`log, registry, registry.channels.Values
      ensures registry.channels.Values <= old(registry.channels.Values)
      ensures Valid()
      ensures var effect := Expire(old(State()), (channelId, deviceId));
              State() == effect.hub && log == old(log) + multiset(effect.out)
    {
      hide State, Valid, HubSpec.ClosePendingForChannel, HubSpec.EmitPresenceChange, Spec.SetOnline;
      ForgetTimer(channelId, deviceId);
      if MemberConnection(channelId, deviceId).Some? {
        return;
      }
      var change := SetOnline(channelId, deviceId, false, true);
      if change.None? {
        return;
      }
      if change.value.deleted {
        ClosePendingForChannel(channelId);
      } else {
        EmitPresenceChange(change.value, deviceId);
      }
    }

    method ForgetTimer(channelId: string, deviceId: string)
      requires Valid()
      modifies this`offlineTimers
      ensures Valid() && State() == old(State()).(timers := old(State()).timers - {(channelId, deviceId)})
    {
      hide Flat, FlatSet, ChannelRegistry.Registry.State, ChannelRegistry.Registry.Valid;
      CancelOfflineTimer(channelId, deviceId);
    }

    // ----- events -----

    function SpeaksAsMember(c: Connection): (member: bool)
      requires Valid() && c in conns
      reads `members, `pending, `offlineTimers, `conns, registry, registry.channels.Values, conns
      ensures member == IsMember(State(), c)
    {
      c.role.MemberRole?
    }

    function IsCurrentMember(c: Connection): (current: bool)
      reads `members, `pending, `offlineTimers, `conns, registry, registry.channels.Values, conns
      ensures current == CurrentMember(State(), c)
    {
      MemberConnection(c.channelId, c.deviceId) == Some(c)
    }

    function IsCurrentPending(c: Connection): (current: bool)
      reads `members, `pending, `offlineTimers, `conns, registry, registry.channels.Values, conns
      ensures current == CurrentPending(State(), c)
    {
      c.joinRequestId in pending && pending[c.joinRequestId] == c
    }

    method ConnectionCanSend(c: Connection) returns (ok: bool)
      requires Valid() && c in conns
      modifies this`pending, this`log
      ensures Valid() && ok == CanSend(old(State()), c)
      ensures ok ==> State() == old(State()) && log == old(log)
      ensures !ok ==> State() == Reject(old(State()), c).hub && log == old(log) + multiset(Reject(old(State()), c).out)
    {
      hide State, Valid, IsMember, CurrentMember, CurrentPending, SpeaksAsMember, IsCurrentMember, IsCurrentPending;
      hide PendingExists, RegistryMemberExists, HubSpec.PendingExists, HubSpec.RegistryMemberExists;
      if SpeaksAsMember(c) {
        ok := IsCurrentMember(c);
        if !ok {
          CloseConnection(c, "connection superseded");
        }
        return;
      }
      if PendingExists(c) {
        ok := IsCurrentPending(c);
        if !ok {
          CloseConnection(c, "connection superseded");
        }
        return;
      }
      if RegistryMemberExists(c) && (IsCurrentPending(c) || IsCurrentMember(c)) {
        return true;
      }
      RemovePending(c);
      CloseConnection(c, "join request is no longer pending");
      return false;
    }

    method MemberConnectionByTarget(channelId: string, target: string) returns (conn: Option<Connection>)
      requires Valid() && target != ""
      ensures IsTarget(State(), channelId, target, conn)
      ensures conn.Some? ==> conn.value in conns
    {
      conn := MemberConnection(channelId, target);
      if conn.Some? {
        return;
      }
      var ch := FindChannel(channelId);
      if ch.None? {
        return;
      }
      var rest := ch.value.members.Keys;
      while rest != {}
        invariant rest <= ch.value.members.Keys
        invariant forall d | d in ch.value.members && d !in rest :: !NamedTarget(State(), channelId, target, (channelId, d))
        decreases rest
      {
        hide Flat, FlatSet, ChannelRegistry.Registry.State, ChannelRegistry.Registry.Valid, Promoted;
        var d :| d in rest;
        rest := rest - {d};
        var member := ch.value.members[d];
        if member.online && member.deviceName == target {
          conn := MemberConnection(channelId, d);
          if conn.Some? {
            assert NamedTarget(State(), channelId, target, (channelId, d));
            return;
          }
        }
      }
      return None;
    }

    method HandleMessageSend(c: Connection, e: Event) returns (ghost x: Choice)
      requires Valid() && c in conns && Routable(e.kind)
      modifies this`log, this`facts
      ensures IsTarget(State(), c.channelId, e.to, x.target)
      ensures var effect := HubSpec.HandleMessageSend(State(), c, e, x);
              effect.hub == State() && log == old(log) + multiset(effect.out) && facts == old(facts) + effect.facts
    {
      hide State, Valid, SpeaksAsMember, IsTarget, IsMember;
      x := Choice(AnyTarget(State(), c.channelId, e.to), None, true, None);
      if !SpeaksAsMember(c) {
        SendError(c, "unauthorized", e.id);
        return;
      }
      if e.to == "" {
        SendError(c, "invalid_event", e.id);
        return;
      }
      var target := MemberConnectionByTarget(c.channelId, e.to);
      x := Choice(target, None, true, None);
      if target.None? || !SpeaksAsMember(target.value) {
        SendError(c, "unknown_target", e.id);
        return;
      }
      var ok := Deliver(c, e, target.value);
      x := Choice(target, None, ok, None);
    }

    method Deliver(c: Connection, e: Event, target: Connection) returns (ok: bool)
      requires Routable(e.kind)
      modifies this`log, this`facts
      ensures var routed := Wrote(target, RoutedEvent(c, e, target.deviceId));
              && log == old(log) + multiset({routed, Wrote(c, if ok then MessageAckEvent(c, e.id, target.deviceId)
                                                              else ErrorEvent(c, "target_unreachable", e.id))})
              && facts == old(facts) + (if ok then {Routed(c, e.id, target, routed.event)} else {})
    {
      var routed := RoutedEvent(c, e, target.deviceId);
      ok := WriteEvent(target, routed);
      if !ok {
        SendError(c, "target_unreachable", e.id);
        TwoWrites(old(log), Wrote(target, routed), Wrote(c, ErrorEvent(c, "target_unreachable", e.id)), e.kind);
        return;
      }
      var _ := WriteEvent(c, MessageAckEvent(c, e.id, target.deviceId));
      TwoWrites(old(log), Wrote(target, routed), Wrote(c, MessageAckEvent(c, e.id, target.deviceId)), e.kind);
      facts := facts + {Routed(c, e.id, target, routed)};
    }

    method HandleMessageBroadcast(c: Connection, e: Event)
      requires Valid() && c in conns
      modifies this`log
      ensures log == old(log) + multiset(HubSpec.HandleMessageBroadcast(State(), c, e).out)
    {
      hide Flat, FlatSet, ChannelRegistry.Registry.State, ChannelRegistry.Registry.Valid, Promoted, MemberConnections;
      if !SpeaksAsMember(c) {
        SendError(c, "unauthorized", e.id);
        return;
      }
      var routed := RoutedEvent(c, e, e.to);
      var targets := MemberConnections(c.channelId);
      var rest := targets;
      assert Copies(State(), targets - rest, c, routed) == {};
      while rest != {}
        invariant rest <= targets
        invariant log == old(log) + multiset(Copies(State(), targets - rest, c, routed))
        decreases rest
      {
        hide Copies, IsMember;
        var target :| target in rest;
        MoreCopies(old(log), State(), targets - rest, target, c, routed);
        assert targets - (rest - {target}) == targets - rest + {target};
        if target.deviceId != c.deviceId && SpeaksAsMember(target) {
          var _ := WriteEvent(target, routed);
        }
        rest := rest - {target};
      }
      assert targets - rest == targets;
      assert Copies(State(), targets, c, routed) == HubSpec.HandleMessageBroadcast(State(), c, e).out;
    }

    method SendList(c: Connection, replyTo: string)
      requires Valid() && c in conns
      modifies this`log
      ensures log == old(log) + multiset(HubSpec.SendList(State(), c, replyTo).out)
    {
      var ch := FindChannel(c.channelId);
      if !SpeaksAsMember(c) {
        SendError(c, "unauthorized", replyTo);
      } else if ch.None? {
        SendError(c, "invalid_event", replyTo);
      } else {
        var members := set d | d in ch.value.members ::
          (d, ch.value.members[d].deviceName, ch.value.members[d].online, d == ch.value.ownerId);
        var _ := WriteEvent(c, Event("", ListResponse, c.channelId, "", c.deviceId, replyTo, Roster(ch.value.ownerId, members)));
      }
    }

    method SendStatus(c: Connection, replyTo: string)
      requires Valid() && c in conns
      modifies this`log
      ensures log == old(log) + multiset(HubSpec.SendStatus(State(), c, replyTo).out)
    {
      var ch := FindChannel(c.channelId);
      if ch.None? {
        SendError(c, "invalid_event", replyTo);
      } else {
        var _ := WriteEvent(c, Event("", StatusResponse, c.channelId, "", c.deviceId, replyTo,
                                     Status(!SpeaksAsMember(c), c.channelId, c.deviceId, ch.value.ownerId, c.joinRequestId)));
      }
    }

    /** The decided request: named by the payload or the target, or else asked for by the target device. */
    static method FindJoin(ch: Spec.Channel, e: Event) returns (join: Option<string>)
      ensures IsJoin(ch, e, join)
    {
      var joinId := JoinIdFromEvent(e);
      if joinId in ch.pending {
        return Some(joinId);
      }
      if e.to == "" {
        return None;
      }
      var rest := ch.pending.Keys;
      while rest != {}
        invariant rest <= ch.pending.Keys
        invariant forall j | j in ch.pending && j !in rest :: ch.pending[j].deviceId != e.to
        decreases rest
      {
        var j :| j in rest;
        rest := rest - {j};
        if ch.pending[j].deviceId == e.to {
          return Some(j);
        }
      }
      return None;
    }

    method DecideByOwner(channelId: string, ownerId: string, joinId: string, approve: bool)
      returns (error: Option<Spec.JoinError>)
      requires Valid()
      modifies registry.channels.Values
      ensures Valid()
      ensures match Spec.DecideByOwner(old(State()).registry, channelId, ownerId, joinId, approve)
              case Done(r) => error == None && State() == old(State()).(registry := r)
              case Fail(f) => error == Some(f) && State() == old(State())
    {
      hide Flat, FlatSet, ChannelRegistry.Registry.State, Promoted, Spec.DecideByOwner;
      error := registry.DecideByOwner(channelId, ownerId, joinId, approve);
    }

    method HandleJoinDecision(c: Connection, e: Event, approve: bool) returns (ghost x: Choice)
      requires Valid() && c in conns
      modifies this`members, this`pending, this`offlineTimers, this`log, this`facts, registry, registry.channels.Values, conns
      ensures registry.channels.Values <= old(registry.channels.Values)
      ensures Valid() && conns == old(conns)
      ensures c.channelId in old(State()).registry.channels ==> IsJoin(old(State()).registry.channels[c.channelId], e, x.join)
      ensures var effect := HubSpec.HandleJoinDecision(old(State()), c, e, approve, x);
              State() == effect.hub && log == old(log) + multiset(effect.out) && facts == old(facts) + effect.facts
    {
      hide State, Valid, SpeaksAsMember, IsJoin, IsMember, HubSpec.DecideJoin, FindChannel;
      var ch := FindChannel(c.channelId);
      var join: Option<string> := None;
      if ch.Some? {
        join := FindJoin(ch.value, e);
      }
      x := Choice(None, join, true, None);
      var refusal := if !SpeaksAsMember(c) then "unauthorized"
                     else if JoinIdFromEvent(e) == "" || ch.None? then "invalid_event"
                     else if join.None? then "unknown_target"
                     else "";
      if refusal != "" {
        SendError(c, refusal, e.id);
      } else {
        JoinFound(ch.value, e, join.value);
        x := DecideJoin(c, e, ch.value.pending[join.value], join.value, approve, x);
      }
    }

    method DecideJoin(c: Connection, e: Event, join: Spec.JoinRequest, joinId: string, approve: bool, ghost start: Choice)
      returns (ghost x: Choice)
      requires Valid() && c in conns
      modifies this`members, this`pending, this`offlineTimers, this`log, this`facts, registry, registry.channels.Values, conns
      ensures registry.channels.Values <= old(registry.channels.Values)
      ensures Valid() && conns == old(conns) && x == start.(token := x.token)
      ensures var effect := HubSpec.DecideJoin(old(State()), c, e, join, joinId, approve, x);
              State() == effect.hub && log == old(log) + multiset(effect.out) && facts == old(facts) + effect.facts
    {
      hide State, Valid, Decide, Spec.DecideByOwner;
      x := start;
      var error := DecideByOwner(c.channelId, c.deviceId, joinId, approve);
      if error.Some? {
        SendError(c, if error.value.NotCurrentOwner? then "unauthorized" else "invalid_event", e.id);
      } else {
        x := ApplyDecision(c, e, join, approve, x);
      }
    }

    method ApplyDecision(c: Connection, e: Event, join: Spec.JoinRequest, approve: bool, ghost start: Choice)
      returns (ghost x: Choice)
      requires Valid() && c in conns
      modifies this`members, this`pending, this`offlineTimers, this`log, this`facts, registry, registry.channels.Values, conns
      ensures registry.channels.Values <= old(registry.channels.Values)
      ensures Valid() && conns == old(conns) && x == start.(token := x.token)
      ensures var effect := Decide(old(State()), c, e, join, approve, x);
              State() == effect.hub && log == old(log) + multiset(effect.out) && facts == old(facts) + effect.facts
    {
      hide State, Valid, Decide, Admit, HubSpec.RemovePending, DenialOut, PendingConnection;
      x := start;
      var waiting := PendingConnection(join.id);
      WaitingIsPending(join.id);
      var _ := WriteEvent(c, DecisionAckEvent(c, e.id, join.id, join.deviceId, approve));
      facts := facts + {Decided(c, e.id, join.id, join.deviceId, approve)};
      if waiting.Some? {
        if approve {
          x := AdmitWaiting(c, e, join, waiting.value, start);
          AdmitApart(old(log), old(State()), c, e, join, waiting.value, x);
        } else {
          RejectWaiting(c, e, join, waiting.value);
        }
      }
      DecideInTurn(old(log), old(State()), c, e, join, approve, x);
    }

    function PendingConnection(joinId: string): (c: Option<Connection>)
      reads `members, `pending, `offlineTimers, `conns, registry, registry.channels.Values, conns
      ensures c == if joinId in State().pending then Some(State().pending[joinId]) else None
    {
      if joinId in pending then Some(pending[joinId]) else None
    }

    lemma WaitingIsPending(joinId: string)
      requires Valid()
      ensures var c := PendingConnection(joinId); c.Some? ==> c.value in conns && c.value.claimed.PendingRole?
    {
    }

    method RejectWaiting(c: Connection, e: Event, join: Spec.JoinRequest, waiting: Connection)
      requires Valid()
      modifies this`pending, this`log
      ensures Valid() && State() == HubSpec.RemovePending(old(State()), waiting)
      ensures log == old(log) + multiset(DenialOut(c, e, join, waiting))
    {
      hide State, Valid, HubSpec.RemovePending;
      var _ := WriteEvent(waiting, DeniedEvent(c, e, join));
      RemovePending(waiting);
      CloseConnection(waiting, "join denied");
    }

    /** The waiting connection becomes a member connection, others are told, and it gets its token. */
    method AdmitWaiting(c: Connection, e: Event, join: Spec.JoinRequest, waiting: Connection, ghost start: Choice)
      returns (ghost x: Choice)
      requires Valid() && waiting in conns && waiting.claimed.PendingRole?
      modifies this`members, this`pending, this`offlineTimers, this`log, registry, registry.channels.Values, conns
      ensures registry.channels.Values <= old(registry.channels.Values)
      ensures Valid() && conns == old(conns) && x == start.(token := x.token)
      ensures var effect := Admit(old(State()), c, e, join, waiting, x, {}, {});
              State() == effect.hub && log == old(log) + multiset(effect.out)
    {
      hide State, Valid, Admit, Promote, Previous, HubSpec.EmitPresenceChange, Spec.SetOnline, ApprovedEvent, ClosePrevious;
      hide SoundChange, CurrentMember, ErrorEvent;
      x := start;
      var previous, change := BringOnline(waiting);
      if change.None? {
        AdmitInTurn(old(log), old(State()), c, e, join, waiting, x);
        AbandonAdmission(waiting, e.id);
      } else {
        var token := TellAdmitted(c, e, join, waiting, previous, change.value);
        x := start.(token := token);
        AdmitInTurn(old(log), old(State()), c, e, join, waiting, x);
      }
    }

    method BringOnline(waiting: Connection) returns (previous: Option<Connection>, change: Option<Spec.PresenceChange>)
      requires Valid() && waiting in conns && waiting.claimed.PendingRole?
      modifies this`members, this`pending, this`offlineTimers, registry, registry.channels.Values, waiting`role
      ensures Valid() && registry.channels.Values <= old(registry.channels.Values)
      ensures previous == Previous(old(State()), waiting)
      ensures var h1 := Promote(old(State()), waiting);
              match Spec.SetOnline(h1.registry, waiting.channelId, waiting.deviceId, true, false)
              case None => change == None && State() == h1
              case Some((r, presence)) => change == Some(presence) && State() == h1.(registry := r) && SoundChange(presence)
    {
      hide State, Valid, Promote, Previous, Spec.SetOnline, SoundChange;
      previous := PromotePending(waiting);
      change := SetOnline(waiting.channelId, waiting.deviceId, true, false);
    }

    method AbandonAdmission(c: Connection, replyTo: string)
      requires Valid()
      modifies this`members, this`log
      ensures Valid()
      ensures State() == if CurrentMember(old(State()), c) then old(State()).(members := old(State()).members - {SlotOf(c)})
                         else old(State())
      ensures log == old(log) + multiset({Wrote(c, ErrorEvent(c, "invalid_event", replyTo))})
    {
      hide State, Valid, CurrentMember, ErrorEvent;
      DropMember(c);
      SendError(c, "invalid_event", replyTo);
    }

    method TellAdmitted(c: Connection, e: Event, join: Spec.JoinRequest, waiting: Connection,
                        previous: Option<Connection>, change: Spec.PresenceChange) returns (token: Option<string>)
      requires Valid() && SoundChange(change)
      modifies this`log
      ensures log == old(log) + multiset(ClosePrevious(previous))
                       + multiset(HubSpec.EmitPresenceChange(State(), change, waiting.deviceId))
                       + multiset{Wrote(waiting, ApprovedEvent(c, e, join, waiting, token))}
    {
      hide State, Valid, HubSpec.EmitPresenceChange, ClosePrevious;
      ClosePreviousConnection(previous);
      EmitPresenceChange(change, waiting.deviceId);
      token := *;
      var _ := WriteEvent(waiting, ApprovedEvent(c, e, join, waiting, token));
    }

    method DropMember(c: Connection)
      requires Valid()
      modifies this`members
      ensures Valid()
      ensures State() == if CurrentMember(old(State()), c) then old(State()).(members := old(State()).members - {SlotOf(c)})
                         else old(State())
    {
      hide Flat, FlatSet, ChannelRegistry.Registry.State, ChannelRegistry.Registry.Valid;
      var _ := RemoveMember(c);
    }

    /** What the read loop does with an event: the choices are those that lookups and writes have made. */
    method HandleEvent(c: Connection, e: Event) returns (ghost x: Choice)
      requires Valid() && c in conns
      modifies this`members, this`pending, this`offlineTimers, this`log, this`facts, registry, registry.channels.Values, conns
      ensures registry.channels.Values <= old(registry.channels.Values)
      ensures Valid() && conns == old(conns) && ValidChoice(old(State()), c, e, x)
      ensures var effect := HubSpec.HandleEvent(old(State()), c, e, x);
              State() == effect.hub && log == old(log) + multiset(effect.out) && facts == old(facts) + effect.facts
    {
      hide State, Valid, CanSend, Reject, HubSpec.Dispatch, ValidChoice;
      var ok := ConnectionCanSend(c);
      if ok {
        x := Dispatch(c, e);
      } else {
        x := AnyChoice(old(State()), c, e);
        RejectIsQuiet(old(State()), c);
      }
    }

    method Dispatch(c: Connection, e: Event) returns (ghost x: Choice)
      requires Valid() && c in conns
      modifies this`members, this`pending, this`offlineTimers, this`log, this`facts, registry, registry.channels.Values, conns
      ensures registry.channels.Values <= old(registry.channels.Values)
      ensures Valid() && conns == old(conns) && ValidChoice(old(State()), c, e, x)
      ensures var effect := HubSpec.Dispatch(old(State()), c, e, x);
              State() == effect.hub && log == old(log) + multiset(effect.out) && facts == old(facts) + effect.facts
    {
      hide State, Valid, IsTarget, IsJoin, Answer, HubSpec.HandleMessageSend, HubSpec.HandleJoinDecision;
      if e.channelId != "" && e.channelId != c.channelId {
        x := AnyChoice(State(), c, e);
        SendError(c, "unauthorized", e.id);
      } else if Routable(e.kind) {
        x := HandleMessageSend(c, e);
      } else if e.kind.JoinApprove? || e.kind.JoinDeny? {
        x := HandleJoinDecision(c, e, e.kind.JoinApprove?);
      } else {
        x := AnyChoice(State(), c, e);
        AnswerMeans(State(), c, e, x);
        SendAnswer(c, e);
      }
    }

    /** The events that change nothing. */
    method SendAnswer(c: Connection, e: Event)
      requires Valid() && c in conns
      modifies this`log
      ensures log == old(log) + multiset(Answer(State(), c, e).out)
    {
      hide State, Valid, HubSpec.HandleMessageBroadcast, HubSpec.SendList, HubSpec.SendStatus;
      if e.kind.MessageBroadcast? {
        HandleMessageBroadcast(c, e);
      } else if e.kind.ListRequest? {
        SendList(c, e.id);
      } else if e.kind.StatusRequest? {
        SendStatus(c, e.id);
      } else {
        SendError(c, "invalid_event", e.id);
      }
    }
  }

  ghost function Answer(h: HubSpec.Hub, c: Connection, e: Event): Effect {
    if e.kind.MessageBroadcast? then HubSpec.HandleMessageBroadcast(h, c, e)
    else if e.kind.ListRequest? then HubSpec.SendList(h, c, e.id)
    else if e.kind.StatusRequest? then HubSpec.SendStatus(h, c, e.id)
    else HubSpec.SendError(h, c, "invalid_event", e.id)
  }

  lemma AnswerMeans(h: HubSpec.Hub, c: Connection, e: Event, x: Choice)
    requires (e.channelId == "" || e.channelId == c.channelId) && !Routable(e.kind)
    requires !e.kind.JoinApprove? && !e.kind.JoinDeny?
    ensures HubSpec.Dispatch(h, c, e, x) == Answer(h, c, e) && Answer(h, c, e).hub == h && Answer(h, c, e).facts == {}
  {
  }

  ghost function AnyJoin(ch: Spec.Channel, e: Event): (j: Option<string>)
    ensures IsJoin(ch, e, j)
  {
    if JoinIdFromEvent(e) in ch.pending then Some(JoinIdFromEvent(e))
    else if e.to != "" && Spec.HasJoinOf(ch, e.to) then
      var j :| Spec.JoinOf(ch, j, e.to);
      Some(j)
    else None
  }

  ghost function AnyChoice(h: HubSpec.Hub, c: Connection, e: Event): (x: Choice)
    ensures ValidChoice(h, c, e, x)
  {
    Choice(AnyTarget(h, c.channelId, e.to),
           if c.channelId in h.registry.channels then AnyJoin(h.registry.channels[c.channelId], e) else None, true, None)
  }

  lemma JoinFound(ch: Spec.Channel, e: Event, j: string)
    requires IsJoin(ch, e, Some(j))
    ensures j in ch.pending
  {
  }

  lemma RejectIsQuiet(h: HubSpec.Hub, c: Connection)
    ensures Reject(h, c).facts == {}
  {
  }

  lemma DecideInTurn(log: multiset<Out>, h: HubSpec.Hub, c: Connection, e: Event, join: Spec.JoinRequest, approve: bool, x: Choice)
    ensures
      var ack := Wrote(c, DecisionAckEvent(c, e.id, join.id, join.deviceId, approve));
      var facts := {Decided(c, e.id, join.id, join.deviceId, approve)};
      var effect := Decide(h, c, e, join, approve, x);
      if join.id !in h.pending then effect == Effect(h, {ack}, facts)
      else if approve then effect == Admit(h, c, e, join, h.pending[join.id], x, {ack}, facts)
      else
        && effect.hub == HubSpec.RemovePending(h, h.pending[join.id]) && effect.facts == facts
        && log + multiset{ack} + multiset(DenialOut(c, e, join, h.pending[join.id])) == log + multiset(effect.out)
  {
    hide Admit;
    if join.id in h.pending {
      Both(log, {Wrote(c, DecisionAckEvent(c, e.id, join.id, join.deviceId, approve))}, DenialOut(c, e, join, h.pending[join.id]));
    }
  }

  /** The acknowledgement is none of the writes of the admission. */
  lemma AdmitApart(log: multiset<Out>, h: HubSpec.Hub, c: Connection, e: Event, join: Spec.JoinRequest, waiting: Connection, x: Choice)
    ensures var ack := Wrote(c, DecisionAckEvent(c, e.id, join.id, join.deviceId, true));
            var facts := {Decided(c, e.id, join.id, join.deviceId, true)};
            var apart := Admit(h, c, e, join, waiting, x, {}, {});
            var whole := Admit(h, c, e, join, waiting, x, {ack}, facts);
            && whole.hub == apart.hub && whole.facts == facts
            && log + multiset{ack} + multiset(apart.out) == log + multiset(whole.out)
  {
    hide HubSpec.EmitPresenceChange, Spec.SetOnline, ClosePrevious, Promote, Previous;
    var ack := Wrote(c, DecisionAckEvent(c, e.id, join.id, join.deviceId, true));
    var apart := Admit(h, c, e, join, waiting, x, {}, {});
    AckIsApart(h, c, e, join, waiting, x);
    assert Admit(h, c, e, join, waiting, x, {ack}, {Decided(c, e.id, join.id, join.deviceId, true)}).out == {ack} + apart.out;
    Both(log, {ack}, apart.out);
  }

  lemma AckIsApart(h: HubSpec.Hub, c: Connection, e: Event, join: Spec.JoinRequest, waiting: Connection, x: Choice)
    ensures Wrote(c, DecisionAckEvent(c, e.id, join.id, join.deviceId, true)) !in Admit(h, c, e, join, waiting, x, {}, {}).out
  {
    hide Spec.SetOnline, Promote;
  }

  lemma AdmitInTurn(log: multiset<Out>, h: HubSpec.Hub, c: Connection, e: Event, join: Spec.JoinRequest, waiting: Connection, x: Choice)
    ensures
      var h1 := Promote(h, waiting);
      var effect := Admit(h, c, e, join, waiting, x, {}, {});
      match Spec.SetOnline(h1.registry, waiting.channelId, waiting.deviceId, true, false)
      case None =>
        effect == Effect(if CurrentMember(h1, waiting) then h1.(members := h1.members - {SlotOf(waiting)}) else h1,
                         {Wrote(waiting, ErrorEvent(waiting, "invalid_event", e.id))}, {})
      case Some((r, change)) =>
        && effect.hub == h1.(registry := r)
        && log + multiset(ClosePrevious(Previous(h, waiting)))
               + multiset(HubSpec.EmitPresenceChange(effect.hub, change, waiting.deviceId))
               + multiset{Wrote(waiting, ApprovedEvent(c, e, join, waiting, x.token))}
           == log + multiset(effect.out)
  {
    hide Spec.SetOnline, Promote;
    match Spec.SetOnline(Promote(h, waiting).registry, waiting.channelId, waiting.deviceId, true, false)
    case None =>
    case Some((r, change)) =>
      var closed := ClosePrevious(Previous(h, waiting));
      var emitted := HubSpec.EmitPresenceChange(Promote(h, waiting).(registry := r), change, waiting.deviceId);
      var told := {Wrote(waiting, ApprovedEvent(c, e, join, waiting, x.token))};
      assert closed !! emitted && (closed + emitted) !! told;
      hide HubSpec.EmitPresenceChange, ClosePrevious;
      Both(log, closed, emitted);
      Both(log, closed + emitted, told);
      assert {} + closed + emitted + told == closed + emitted + told;
  }

  ghost function AnyTarget(h: HubSpec.Hub, channelId: string, target: string): (t: Option<Connection>)
    ensures IsTarget(h, channelId, target, t)
  {
    if (channelId, target) in h.members then Some(h.members[(channelId, target)])
    else if exists s :: NamedTarget(h, channelId, target, s) then
      var s :| NamedTarget(h, channelId, target, s);
      Some(h.members[s])
    else None
  }

  lemma TwoWrites(log: multiset<Out>, a: Out, b: Out, kind: Kind)
    requires a.Wrote? && b.Wrote? && a.event.kind == kind && b.event.kind != kind
    ensures log + multiset{a} + multiset({b}) == log + multiset({a, b})
    ensures log + multiset{a} + multiset{b} == log + multiset({a, b})
  {
  }

  ghost function Copies(h: HubSpec.Hub, targets: set<Connection>, c: Connection, e: Event): set<Out> {
    set t | t in targets && t.deviceId != c.deviceId && IsMember(h, t) :: Wrote(t, e)
  }

  lemma MoreCopies(log: multiset<Out>, h: HubSpec.Hub, targets: set<Connection>, t: Connection, c: Connection, e: Event)
    requires t !in targets
    ensures log + multiset(Copies(h, targets + {t}, c, e))
         == log + multiset(Copies(h, targets, c, e))
                + (if t.deviceId != c.deviceId && IsMember(h, t) then multiset{Wrote(t, e)} else multiset{})
  {
    if t.deviceId != c.deviceId && IsMember(h, t) {
      OneMore(log, Copies(h, targets, c, e), Wrote(t, e));
      assert Copies(h, targets + {t}, c, e) == Copies(h, targets, c, e) + {Wrote(t, e)};
    } else {
      assert Copies(h, targets + {t}, c, e) == Copies(h, targets, c, e);
    }
  }

  ghost function Closings(closing: set<Connection>): set<Out> {
    set c | c in closing :: Closed(c, "channel deleted")
  }

  lemma NoticeIsWrite(h: HubSpec.Hub, c: Connection)
    ensures forall o | o in HubSpec.JoinNotice(h, c) :: o.Wrote?
  {
  }

  lemma FinishInTurn(log: multiset<Out>, h: HubSpec.Hub, c: Connection, previous: Option<Connection>)
    ensures
      var effect := HubSpec.FinishMember(h, c, previous);
      match Spec.SetOnline(h.registry, c.channelId, c.deviceId, true, false)
      case None => !HubSpec.RegistryMemberExists(h, c) && effect == Effect(HubSpec.Unregister(h, c), {Closed(c, "member is not registered")}, {})
      case Some((r, change)) =>
        && HubSpec.RegistryMemberExists(h, c)
        && effect.hub == h.(registry := r) && effect.facts == {} && !change.deleted && change.channel.Some?
        && log + multiset(HubSpec.EmitPresenceChange(effect.hub, change, c.deviceId))
               + (if change.previousOwnerId == change.currentOwnerId == c.deviceId
                  then multiset(HubSpec.NotifyOwnerOfPendingJoins(effect.hub, change.channel.value)) else multiset{})
               + multiset(ClosePrevious(previous))
           == log + multiset(effect.out)
  {
    hide Spec.Elect;
    match Spec.SetOnline(h.registry, c.channelId, c.deviceId, true, false)
    case None =>
    case Some((r, change)) =>
      var h' := h.(registry := r);
      var emitted := HubSpec.EmitPresenceChange(h', change, c.deviceId);
      var joins := if change.previousOwnerId == change.currentOwnerId == c.deviceId
                   then HubSpec.NotifyOwnerOfPendingJoins(h', change.channel.value) else {};
      assert emitted !! joins && (emitted + joins) !! ClosePrevious(previous);
      hide HubSpec.EmitPresenceChange, HubSpec.NotifyOwnerOfPendingJoins;
      Both(log, emitted, joins);
      Both(log, emitted + joins, ClosePrevious(previous));
  }

  lemma ChangeIsSound(r: Spec.Registry, id: string, d: string, online: bool, deleteIfEmpty: bool)
    ensures
      match Spec.SetOnline(r, id, d, online, deleteIfEmpty)
      case None => true
      case Some((r', change)) => Spec.Consistent(r') ==> SoundChange(change)
  {
    hide Spec.Elect;
    match Spec.SetOnline(r, id, d, online, deleteIfEmpty)
    case None =>
    case Some((r', change)) => assert change.channel.Some? ==> r'.channels[id] == change.channel.value;
  }

  ghost predicate SoundChange(change: Spec.PresenceChange) {
    change.channel.Some? ==> forall j | j in change.channel.value.pending :: change.channel.value.pending[j].id == j
  }

  ghost function ToOthers(targets: set<Connection>, exclude: string, e: Event): set<Out> {
    set c | c in targets && c.deviceId != exclude :: Wrote(c, e.(to := c.deviceId))
  }

  lemma NoOthers(exclude: string, e: Event)
    ensures ToOthers({}, exclude, e) == {}
  {
  }

  lemma MoreOthers(log: multiset<Out>, targets: set<Connection>, c: Connection, exclude: string, e: Event)
    requires c !in targets
    ensures log + multiset(ToOthers(targets + {c}, exclude, e))
         == log + multiset(ToOthers(targets, exclude, e))
                + (if c.deviceId == exclude then multiset{} else multiset{Wrote(c, e.(to := c.deviceId))})
  {
    if c.deviceId == exclude {
      assert ToOthers(targets + {c}, exclude, e) == ToOthers(targets, exclude, e);
    } else {
      OneMore(log, ToOthers(targets, exclude, e), Wrote(c, e.(to := c.deviceId)));
      assert ToOthers(targets + {c}, exclude, e) == ToOthers(targets, exclude, e) + {Wrote(c, e.(to := c.deviceId))};
    }
  }

  /** Notices of the three kinds never coincide. */
  lemma DistinctNotices(h: HubSpec.Hub, ch: Spec.Channel, previousOwnerId: string, d: string)
    ensures HubSpec.BroadcastOwnerChanged(h, ch, previousOwnerId, d) !! HubSpec.NotifyOwnerOfPendingJoins(h, ch)
    ensures (HubSpec.BroadcastOwnerChanged(h, ch, previousOwnerId, d) + HubSpec.NotifyOwnerOfPendingJoins(h, ch))
              !! HubSpec.BroadcastPresenceChanged(h, ch, d)
  {
  }

  lemma EmitInTurn(log: multiset<Out>, h: HubSpec.Hub, change: Spec.PresenceChange, d: string)
    requires !change.deleted && change.channel.Some? && change.changed
    ensures
      var ch := change.channel.value;
      (if change.previousOwnerId != change.currentOwnerId then
         log + multiset(HubSpec.BroadcastOwnerChanged(h, ch, change.previousOwnerId, d))
             + multiset(HubSpec.NotifyOwnerOfPendingJoins(h, ch))
       else log) + multiset(HubSpec.BroadcastPresenceChanged(h, ch, d))
      == log + multiset(HubSpec.EmitPresenceChange(h, change, d))
  {
    var ch := change.channel.value;
    DistinctNotices(h, ch, change.previousOwnerId, d);
    hide HubSpec.BroadcastOwnerChanged, HubSpec.NotifyOwnerOfPendingJoins, HubSpec.BroadcastPresenceChanged;
    var told := HubSpec.BroadcastOwnerChanged(h, ch, change.previousOwnerId, d);
    var joins := HubSpec.NotifyOwnerOfPendingJoins(h, ch);
    var presence := HubSpec.BroadcastPresenceChanged(h, ch, d);
    if change.previousOwnerId != change.currentOwnerId {
      Both(log, told, joins);
      Both(log, told + joins, presence);
    } else {
      assert {} + presence == presence;
    }
  }

  ghost function JoinNotices(owner: Option<Connection>, ch: Spec.Channel, joins: set<string>): set<Out>
    requires joins <= ch.pending.Keys
  {
    match owner
    case None => {}
    case Some(o) => set j | j in joins :: Wrote(o, JoinRequestEvent(ch.id, ch.pending[j], o.deviceId))
  }

  lemma OneNotice(log: multiset<Out>, owner: Option<Connection>, ch: Spec.Channel, joins: set<string>, j: string)
    requires joins <= ch.pending.Keys && j in ch.pending && j !in joins
    requires forall k | k in ch.pending :: ch.pending[k].id == k
    ensures log + multiset(JoinNotices(owner, ch, joins))
              + multiset(match owner case None => {}
                         case Some(o) => {Wrote(o, JoinRequestEvent(ch.id, ch.pending[j], o.deviceId))})
         == log + multiset(JoinNotices(owner, ch, joins + {j}))
  {
    if owner.Some? {
      var o := owner.value;
      var notice := Wrote(o, JoinRequestEvent(ch.id, ch.pending[j], o.deviceId));
      assert JoinNotices(owner, ch, joins + {j}) == JoinNotices(owner, ch, joins) + {notice};
      OneMore(log, JoinNotices(owner, ch, joins), notice);
    }
  }
}
