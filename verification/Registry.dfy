/** The registry as the relay runs it: channel objects updated in place. */
module ChannelRegistry {
  import opened Options
  import opened Identifiers
  import Maps
  import Spec = RegistrySpec

  class Channel {
    const id: string
    const name: string
    const key: string
    var members: map<string, Spec.Member>
    var pendingJoins: map<string, Spec.JoinRequest>
    var currentOwnerId: string

    ghost predicate Valid()
      reads this
    {
      Spec.SoundChannel(Snapshot())
    }

    function Snapshot(): Spec.Channel
      reads this
    {
      Spec.Channel(id, name, key, members, pendingJoins, currentOwnerId)
    }

    constructor (id: string, name: string, key: string, deviceId: string, member: Spec.Member)
      requires deviceId != ""
      ensures Valid() && Snapshot() == Spec.Channel(id, name, key, map[deviceId := member], map[], "")
    {
      this.id, this.name, this.key := id, name, key;
      members, pendingJoins, currentOwnerId := map[deviceId := member], map[], "";
    }

    method RecomputeOwner()
      requires Valid()
      modifies this`currentOwnerId
      ensures currentOwnerId == Spec.Elect(members)
    {
      var ownerId, ownerPriority := "", 0;
      var rest := members.Keys;
      while rest != {}
        invariant rest <= members.Keys
        invariant ownerId == "" ==> forall d | d in members.Keys - rest :: !Spec.Eligible(members, d)
        invariant ownerId != "" ==>
            && ownerId !in rest && Spec.Eligible(members, ownerId) && ownerPriority == members[ownerId].priority
            && forall d | d in members.Keys - rest && d != ownerId && Spec.Eligible(members, d) ::
                 Spec.Before(members, ownerId, d)
        decreases rest
      {
        var d :| d in rest;
        rest := rest - {d};
        var member := members[d];
        if !member.online {
          continue;
        }
        ghost var previous := ownerId;
        if ownerId == "" || member.priority < ownerPriority || (member.priority == ownerPriority && Spec.Less(d, ownerId)) {
          ownerId, ownerPriority := d, member.priority;
        }
        if previous != "" {
          Spec.BeforeTotal(members, previous, d);
          forall e | e in members.Keys - rest && e != ownerId && Spec.Eligible(members, e)
            ensures Spec.Before(members, ownerId, e)
          {
            if ownerId == d && e != previous {
              Spec.BeforeTransitive(members, d, previous, e);
            }
          }
        }
      }
      if ownerId != "" {
        Spec.ElectIs(members, ownerId);
      } else {
        assert Spec.Elect(members) == "";
      }
      currentOwnerId := ownerId;
    }

    method NextPriority() returns (next: nat)
      ensures next == Spec.NextPriority(members)
    {
      var priority := 0;
      var rest := members.Keys;
      while rest != {}
        invariant rest <= members.Keys
        invariant forall d | d in members.Keys - rest :: members[d].priority <= priority
        invariant priority == 0 || exists d :: d in members && members[d].priority == priority
        decreases rest
      {
        var d :| d in rest;
        rest := rest - {d};
        if members[d].priority > priority {
          priority := members[d].priority;
        }
      }
      Spec.NextPriorityIs(members, priority);
      next := priority + 1;
    }

    method PendingJoinForDevice(deviceId: string) returns (join: Option<Spec.JoinRequest>)
      ensures join.Some? ==> exists j :: Spec.JoinOf(Snapshot(), j, deviceId) && join.value == pendingJoins[j]
      ensures join.None? ==> !Spec.HasJoinOf(Snapshot(), deviceId)
    {
      var rest := pendingJoins.Keys;
      while rest != {}
        invariant forall j | j in pendingJoins.Keys - rest :: pendingJoins[j].deviceId != deviceId
        decreases rest
      {
        var j :| j in rest;
        rest := rest - {j};
        if j in pendingJoins && pendingJoins[j].deviceId == deviceId {
          assert Spec.JoinOf(Snapshot(), j, deviceId);
          return Some(pendingJoins[j]);
        }
      }
      return None;
    }

    method DeletePendingJoinsForDevice(deviceId: string)
      requires Valid()
      modifies this`pendingJoins
      ensures Valid() && pendingJoins == Spec.WithoutJoinsOf(old(pendingJoins), deviceId)
    {
      hide Spec.SoundChannel;
      ghost var was := Snapshot();
      var rest := pendingJoins.Keys;
      while rest != {}
        invariant rest <= was.pending.Keys && pendingJoins == Left(was.pending, rest, deviceId)
        decreases rest
      {
        var j :| j in rest;
        LeftStep(was.pending, rest, j, deviceId);
        rest := rest - {j};
        if j in pendingJoins && pendingJoins[j].deviceId == deviceId {
          pendingJoins := pendingJoins - {j};
        }
      }
      assert pendingJoins == Spec.WithoutJoinsOf(was.pending, deviceId);
      FewerIsSound(was, deviceId);
    }

    /** The joins that are left while rest is still to be scanned. */
    static ghost function Left(pending: map<string, Spec.JoinRequest>, rest: set<string>, deviceId: string)
      : map<string, Spec.JoinRequest>
    {
      map j | j in pending && (j in rest || pending[j].deviceId != deviceId) :: pending[j]
    }

    static lemma LeftStep(pending: map<string, Spec.JoinRequest>, rest: set<string>, j: string, deviceId: string)
      requires rest <= pending.Keys && j in rest
      ensures Left(pending, rest - {j}, deviceId)
           == if pending[j].deviceId == deviceId then Left(pending, rest, deviceId) - {j} else Left(pending, rest, deviceId)
    {
    }

    static lemma FewerIsSound(ch: Spec.Channel, deviceId: string)
      requires Spec.SoundChannel(ch)
      ensures Spec.SoundChannel(ch.(pending := Spec.WithoutJoinsOf(ch.pending, deviceId)))
    {
    }

    method Rename(deviceId: string, deviceName: string)
      requires Valid() && deviceId in members
      modifies this
      ensures Valid()
      ensures Snapshot() == Spec.WithMembers(old(Snapshot()),
                old(members)[deviceId := old(members)[deviceId].(deviceName := deviceName)])
    {
      members := members[deviceId := members[deviceId].(deviceName := deviceName)];
      RecomputeOwner();
    }

    method SetOnline(deviceId: string, online: bool)
      requires Valid() && deviceId in members
      modifies this
      ensures Valid()
      ensures Snapshot() == Spec.WithMembers(old(Snapshot()),
                old(members)[deviceId := old(members)[deviceId].(online := online)])
    {
      members := members[deviceId := members[deviceId].(online := online)];
      RecomputeOwner();
    }

    method AddJoin(join: Spec.JoinRequest)
      requires Valid() && join.deviceId != "" && !Spec.HasJoinOf(Snapshot(), join.deviceId)
      modifies this`pendingJoins
      ensures Valid() && Snapshot() == old(Snapshot()).(pending := old(pendingJoins)[join.id := join])
    {
      assert forall j | j in pendingJoins :: Spec.JoinOf(Snapshot(), j, pendingJoins[j].deviceId);
      pendingJoins := pendingJoins[join.id := join];
    }

    method Approve(joinId: string) returns (error: Option<Spec.JoinError>)
      requires Valid()
      modifies this
      ensures Valid()
      ensures match Spec.ApproveJoin(old(Snapshot()), joinId)
              case Done(ch) => error == None && Snapshot() == ch
              case Fail(e) => error == Some(e) && Snapshot() == old(Snapshot())
    {
      if joinId !in pendingJoins {
        return Some(Spec.JoinNotFound);
      }
      var join := pendingJoins[joinId];
      if |members| >= Spec.MAX_MEMBERS {
        return Some(Spec.LimitExceeded);
      }
      if join.deviceId in members {
        return Some(Spec.AlreadyMember);
      }
      var priority := NextPriority();
      members := members[join.deviceId := Spec.Member(join.deviceName, false, priority)];
      DeletePendingJoinsForDevice(join.deviceId);
      RecomputeOwner();
      return None;
    }

    method Deny(joinId: string) returns (error: Option<Spec.JoinError>)
      requires Valid()
      modifies this`pendingJoins
      ensures Valid()
      ensures match Spec.DenyJoin(old(Snapshot()), joinId)
              case Done(ch) => error == None && Snapshot() == ch
              case Fail(e) => error == Some(e) && Snapshot() == old(Snapshot())
    {
      if joinId !in pendingJoins {
        return Some(Spec.JoinNotFound);
      }
      pendingJoins := pendingJoins - {joinId};
      return None;
    }
  }

  class Registry {
    var channels: map<string, Channel>
    var channelByKey: map<string, string>
    var joinSeq: nat

    ghost predicate Valid()
      reads this, channels.Values
    {
      (forall id | id in channels :: channels[id].id == id) && Spec.Consistent(State())
    }

    ghost function State(): Spec.Registry
      reads this, channels.Values
    {
      Spec.Registry(Snapshots(channels), channelByKey, joinSeq)
    }

    static ghost function Snapshots(channels: map<string, Channel>): map<string, Spec.Channel>
      reads channels.Values
    {
      map id | id in channels :: channels[id].Snapshot()
    }

    static lemma SnapshotsInsert(channels: map<string, Channel>, ch: Channel)
      ensures Snapshots(channels[ch.id := ch]) == Snapshots(channels)[ch.id := ch.Snapshot()]
    {
    }

    static lemma SnapshotsRemove(channels: map<string, Channel>, id: string)
      ensures Snapshots(channels - {id}) == Snapshots(channels) - {id}
    {
    }

    /** Updating one channel object updates one entry of the state. */
    twostate lemma OneChannelChanged(ch: Channel)
      requires old(Valid()) && channels == old(channels) && channelByKey == old(channelByKey)
      requires ch.id in channels && channels[ch.id] == ch && ch.Valid()
      requires forall id | id in channels && channels[id] != ch :: unchanged(channels[id])
      ensures Valid()
      ensures State() == old(State()).(channels := old(State()).channels[ch.id := ch.Snapshot()], joinSeq := joinSeq)
    {
      forall id | id in channels && id != ch.id ensures channels[id].Snapshot() == old(channels[id].Snapshot()) {
        assert channels[id] != ch;
      }
      Spec.ReplaceChannel(old(State()), ch.Snapshot(), joinSeq);
      assert State().channels == old(State()).channels[ch.id := ch.Snapshot()];
    }

    constructor ()
      ensures Valid() && channels == map[] && State() == Spec.Registry(map[], map[], 0)
    {
      channels, channelByKey, joinSeq := map[], map[], 0;
    }

    function Lookup(channelId: string): (ch: Option<Spec.Channel>)
      reads this, channels.Values
      ensures ch == if channelId in State().channels then Some(State().channels[channelId]) else None
    {
      if channelId in channels then Some(channels[channelId].Snapshot()) else None
    }

    method NextJoinId(channelId: string, deviceId: string) returns (id: string)
      modifies this`joinSeq
      ensures joinSeq == old(joinSeq) + 1 && id == JoinId(channelId, deviceId, joinSeq)
    {
      joinSeq := joinSeq + 1;
      id := JoinId(channelId, deviceId, joinSeq);
    }

    method Insert(ch: Channel, ghost after: Spec.Registry)
      requires Valid() && ch.id !in channels && Spec.Consistent(after)
      requires after == State().(channels := State().channels[ch.id := ch.Snapshot()],
                                 channelByKey := channelByKey[ch.key := ch.id])
      modifies this`channels, this`channelByKey
      ensures Valid() && channels == old(channels)[ch.id := ch] && State() == after
    {
      hide Spec.Consistent, Snapshots;
      SnapshotsInsert(channels, ch);
      channels := channels[ch.id := ch];
      channelByKey := channelByKey[ch.key := ch.id];
    }

    method Connect(name: string, pin: string, deviceId: string, deviceName: string) returns (result: Spec.ConnectResult)
      requires Valid() && deviceId != ""
      modifies this, channels.Values
      ensures Valid() && fresh(channels.Values - old(channels.Values))
      ensures (State(), result) == Spec.Connect(old(State()), name, pin, deviceId, deviceName)
    {
      hide State, Valid, ChannelKey, Spec.AskToJoin;
      var key := ChannelKey(name, pin);
      KeyedHere();
      if key !in channelByKey {
        result := CreateChannel(name, pin, deviceId, deviceName);
        return;
      }
      var ch := channels[channelByKey[key]];
      ChannelOf(ch);
      if deviceId in ch.members {
        RenameMember(ch, deviceId, deviceName);
        return Spec.Connected(ch.id);
      }
      result := AskToJoin(ch, deviceId, deviceName);
    }

    /** The index leads to the channels. */
    lemma KeyedHere()
      requires Valid()
      ensures Spec.Indexed(State()) && Spec.Inverse(State())
      ensures State().channelByKey == channelByKey && State().channels.Keys == channels.Keys
      ensures forall k | k in channelByKey :: channelByKey[k] in channels && channels[channelByKey[k]].id == channelByKey[k]
    {
    }

    method CreateChannel(name: string, pin: string, deviceId: string, deviceName: string) returns (result: Spec.ConnectResult)
      requires Valid() && deviceId != "" && ChannelKey(name, pin) !in channelByKey
      modifies this`channels, this`channelByKey
      ensures Valid() && fresh(channels.Values - old(channels.Values))
      ensures Spec.Indexed(old(State())) && (State(), result) == Spec.Connect(old(State()), name, pin, deviceId, deviceName)
    {
      hide ChannelKey, ChannelIdForKey, Spec.Consistent, Spec.Inverse;
      KeyedHere();
      var key := ChannelKey(name, pin);
      ghost var after := Spec.Connect(State(), name, pin, deviceId, deviceName).0;
      Spec.FreeKeyFreeId(State(), key);
      Spec.AddChannel(State(), name, pin, deviceId, deviceName);
      var ch := new Channel(ChannelIdForKey(key), name, key, deviceId, Spec.Member(deviceName, false, 1));
      Insert(ch, after);
      return Spec.Created(ch.id);
    }

    method RenameMember(ch: Channel, deviceId: string, deviceName: string)
      requires Valid() && ch.id in channels && channels[ch.id] == ch && deviceId in ch.members
      modifies ch
      ensures Valid()
      ensures State() == old(State()).(channels := old(State()).channels[ch.id := Spec.WithMembers(old(ch.Snapshot()),
                           old(ch.members)[deviceId := old(ch.members)[deviceId].(deviceName := deviceName)])])
    {
      ChannelOf(ch);
      ch.Rename(deviceId, deviceName);
      OneChannelChanged(ch);
    }

    method AskToJoin(ch: Channel, deviceId: string, deviceName: string) returns (result: Spec.ConnectResult)
      requires Valid() && deviceId != "" && ch.id in channels && channels[ch.id] == ch
      modifies this`joinSeq, ch
      ensures Valid()
      ensures (State(), result) == Spec.AskToJoin(old(State()), old(ch.Snapshot()), deviceId, deviceName)
    {
      hide State, Valid;
      ChannelOf(ch);
      var join := ch.PendingJoinForDevice(deviceId);
      if join.Some? {
        UniqueJoin(ch, deviceId);
        return Spec.PendingApproval(ch.id, join.value.id);
      }
      if |ch.members| >= Spec.MAX_MEMBERS {
        return Spec.MembersFull(ch.id);
      }
      if |ch.pendingJoins| >= Spec.MAX_PENDING_JOINS {
        return Spec.PendingJoinsFull(ch.id);
      }
      var id := AddFreshJoin(ch, deviceId, deviceName);
      return Spec.PendingApproval(ch.id, id);
    }

    method AddFreshJoin(ch: Channel, deviceId: string, deviceName: string) returns (id: string)
      requires Valid() && deviceId != "" && ch.id in channels && channels[ch.id] == ch
      requires !Spec.HasJoinOf(ch.Snapshot(), deviceId)
      modifies this`joinSeq, ch`pendingJoins
      ensures Valid() && id == JoinId(ch.id, deviceId, old(joinSeq) + 1)
      ensures State() == old(State()).(channels := old(State()).channels[ch.id := old(ch.Snapshot()).(pending :=
                                           old(ch.pendingJoins)[id := Spec.JoinRequest(id, ch.id, deviceId, deviceName)])],
                                       joinSeq := old(joinSeq) + 1)
    {
      hide Spec.HasJoinOf;
      ChannelOf(ch);
      id := NextJoinId(ch.id, deviceId);
      ch.AddJoin(Spec.JoinRequest(id, ch.id, deviceId, deviceName));
      OneChannelChanged(ch);
    }

    lemma ChannelOf(ch: Channel)
      requires Valid() && ch.id in channels && channels[ch.id] == ch
      ensures ch.id in State().channels && State().channels[ch.id] == ch.Snapshot() && ch.Valid()
      ensures State().joinSeq == joinSeq
    {
      assert State().channels[ch.id] == ch.Snapshot();
    }

    lemma UniqueJoin(ch: Channel, deviceId: string)
      requires ch.Valid()
      ensures forall j, k | Spec.JoinOf(ch.Snapshot(), j, deviceId) && Spec.JoinOf(ch.Snapshot(), k, deviceId) :: j == k
    {
    }

    method DecideByOwner(channelId: string, ownerId: string, joinId: string, approve: bool)
      returns (error: Option<Spec.JoinError>)
      requires Valid()
      modifies channels.Values
      ensures Valid()
      ensures match Spec.DecideByOwner(old(State()), channelId, ownerId, joinId, approve)
              case Done(r) => error == None && State() == r
              case Fail(e) => error == Some(e) && State() == old(State())
    {
      if channelId !in channels {
        return Some(Spec.ChannelNotFound);
      }
      var ch := channels[channelId];
      if ch.currentOwnerId != ownerId {
        return Some(Spec.NotCurrentOwner);
      }
      assert old(State()).channels[channelId] == ch.Snapshot();
      if approve {
        error := ch.Approve(joinId);
      } else {
        error := ch.Deny(joinId);
      }
      OneChannelChanged(ch);
      assert error.Some? ==> State().channels == old(State()).channels;
    }

    method Delete(ch: Channel, ghost after: Spec.Registry)
      requires Valid() && ch.id in channels && channels[ch.id] == ch && Spec.Consistent(after)
      requires after == State().(channels := State().channels - {ch.id}, channelByKey := channelByKey - {ch.key})
      modifies this`channels, this`channelByKey
      ensures Valid() && channels == old(channels) - {ch.id} && State() == after
    {
      SnapshotsRemove(channels, ch.id);
      channels := channels - {ch.id};
      channelByKey := channelByKey - {ch.key};
    }

    method SetOnline(channelId: string, deviceId: string, online: bool, deleteIfEmpty: bool)
      returns (change: Option<Spec.PresenceChange>)
      requires Valid()
      modifies this, channels.Values
      ensures Valid() && channels.Values <= old(channels.Values)
      ensures match Spec.SetOnline(old(State()), channelId, deviceId, online, deleteIfEmpty)
              case None => change == None && State() == old(State())
              case Some((r, c)) => change == Some(c) && State() == r
    {
      if channelId !in channels || deviceId !in channels[channelId].members {
        return None;
      }
      var ch := channels[channelId];
      assert old(State()).channels[channelId] == ch.Snapshot();
      var previousOwnerId, previousOnline := ch.currentOwnerId, ch.members[deviceId].online;
      ch.SetOnline(deviceId, online);
      OneChannelChanged(ch);
      if deleteIfEmpty && ch.currentOwnerId == "" {
        ghost var s := State();
        Spec.RemoveChannel(s, channelId);
        assert s.channels[channelId] == ch.Snapshot();
        Delete(ch, s.(channels := s.channels - {channelId}, channelByKey := s.channelByKey - {ch.key}));
        Maps.UpdateThenRemove(old(State()).channels, channelId, ch.Snapshot());
        return Some(Spec.PresenceChange(None, previousOwnerId, "", true, true));
      }
      return Some(Spec.PresenceChange(Some(ch.Snapshot()), previousOwnerId, ch.currentOwnerId, false,
                                      previousOnline != online || previousOwnerId != ch.currentOwnerId));
    }
  }
}
