/** Every registry operation keeps the registry's part of the invariant. */
module RegistryProofs {
  import opened Options
  import Maps
  import opened Identifiers
  import opened Connections
  import opened RegistrySpec
  import opened RelayRuns

  lemma OrderLength(life: Life)
    ensures |Order(life)| == 1 + |life.admissions|
    ensures Order(life)[0] == life.creator
    ensures forall i | 0 <= i < |life.admissions| :: Order(life)[i + 1] == life.admissions[i].deviceId
  {
  }

  /** The scan for the next priority finds the number of members. */
  lemma NextPriorityIsSizePlusOne(members: map<string, Member>, order: seq<string>)
    requires Ordered(members, order)
    ensures NextPriority(members) == |members| + 1
  {
    if |order| > 0 {
      assert order[|order| - 1] in members && members[order[|order| - 1]].priority == |order|;
    }
    NextPriorityIs(members, |order|);
  }

  /** The owner is the earliest admitted member that is online; "" when nobody is online. */
  lemma OwnerIsEarliestOnline(members: map<string, Member>, order: seq<string>)
    requires Ordered(members, order) && "" !in members
    ensures Elect(members) == "" <==> forall d | d in members :: !members[d].online
    ensures forall i | 0 <= i < |order| ::
              Elect(members) == order[i] <==>
                members[order[i]].online && forall k | 0 <= k < i :: !members[order[k]].online
  {
    var o := Elect(members);
    assert forall d | d in members && members[d].online :: Eligible(members, d);
    forall i | 0 <= i < |order|
      ensures o == order[i] <==> members[order[i]].online && forall k | 0 <= k < i :: !members[order[k]].online
    {
      if o == order[i] {
        forall k | 0 <= k < i ensures !members[order[k]].online {
          assert Eligible(members, order[k]) ==> Before(members, o, order[k]);
        }
      }
      if members[order[i]].online && forall k | 0 <= k < i :: !members[order[k]].online {
        assert Eligible(members, order[i]);
        forall d | d != order[i] && Eligible(members, d) ensures Before(members, order[i], d) {
          assert order[members[d].priority - 1] == d;
        }
        ElectIs(members, order[i]);
      }
    }
  }

  /** A change of name or presence does not reorder the members. */
  lemma UpdateKeepsOrder(members: map<string, Member>, order: seq<string>, d: string, m: Member)
    requires Ordered(members, order) && d in members && m.priority == members[d].priority
    ensures Ordered(members[d := m], order)
  {
    assert members[d := m].Keys == members.Keys;
  }

  lemma AdmissionExtendsOrder(members: map<string, Member>, order: seq<string>, d: string, m: Member)
    requires Ordered(members, order) && d !in members && m.priority == |members| + 1
    ensures Ordered(members[d := m], order + [d])
  {
  }

  /** Adding an offline device changes no election. */
  lemma OfflineDoesNotCount(members: map<string, Member>, d: string, m: Member)
    requires d !in members && !m.online
    ensures Elect(members[d := m]) == Elect(members)
  {
    var members' := members[d := m];
    assert forall e :: Eligible(members', e) <==> Eligible(members, e);
    if Elect(members) != "" {
      assert forall e | e != Elect(members) && Eligible(members', e) :: Before(members, Elect(members), e);
      ElectIs(members', Elect(members));
    } else {
      assert forall e :: !Eligible(members', e);
    }
  }

  lemma RenameKeepsOwner(members: map<string, Member>, d: string, name: string)
    requires d in members
    ensures Elect(members[d := members[d].(deviceName := name)]) == Elect(members)
  {
    var members' := members[d := members[d].(deviceName := name)];
    assert forall e :: Eligible(members', e) <==> Eligible(members, e);
    if Elect(members) != "" {
      assert forall e | e != Elect(members) && Eligible(members', e) :: Before(members, Elect(members), e);
      ElectIs(members', Elect(members));
    } else {
      assert forall e :: !Eligible(members', e);
    }
  }

  /** A device that comes online becomes the owner or leaves the owner as it was. */
  lemma OnlineOwner(members: map<string, Member>, d: string)
    requires d in members && d != ""
    ensures var members' := members[d := members[d].(online := true)];
            Elect(members') != "" && (Elect(members') == d || Elect(members') == Elect(members))
  {
    var members' := members[d := members[d].(online := true)];
    var o := Elect(members');
    assert Eligible(members', d);
    if o != d {
      assert Eligible(members, o);
      assert forall e | e != o && Eligible(members, e) :: Eligible(members', e) && Before(members', o, e);
      ElectIs(members, o);
    }
  }

  lemma IssuedLater(joinSeq: nat, joinSeq': nat)
    requires joinSeq <= joinSeq'
    ensures forall j | Issued(j, joinSeq) :: Issued(j, joinSeq')
  {
  }

  /** Replacing one channel keeps the invariant of the others. */
  lemma ReplaceKeeps(r: Registry, lives: map<string, Life>, ch: Channel, life: Life)
    requires RegistryInv(r, lives) && ch.id in r.channels && ch.key == r.channels[ch.id].key
    requires SoundChannel(ch) && ChannelInv(ch, life, r.joinSeq)
    requires forall j | j in ch.pending :: j in r.channels[ch.id].pending
    ensures RegistryInv(r.(channels := r.channels[ch.id := ch]), lives[ch.id := life])
  {
    hide ChannelInv, SoundChannel, Inverse;
    ReplaceChannel(r, ch, r.joinSeq);
  }

  // ----- one channel -----

  /** Changing the name or the presence of a member, when that leaves an owner where it must. */
  lemma MemberUpdate(ch: Channel, life: Life, joinSeq: nat, d: string, m: Member)
    requires ChannelInv(ch, life, joinSeq) && SoundChannel(ch)
    requires d in ch.members && m.priority == ch.members[d].priority
    requires Elect(ch.members[d := m]) != "" || Elect(ch.members[d := m]) == ch.ownerId
    ensures ChannelInv(WithMembers(ch, ch.members[d := m]), life, joinSeq)
    ensures SoundChannel(WithMembers(ch, ch.members[d := m]))
  {
    hide Elect;
    UpdateKeepsOrder(ch.members, Order(life), d, m);
    assert ch.members[d := m].Keys == ch.members.Keys;
    assert |ch.members[d := m]| == |ch.members[d := m].Keys| == |ch.members.Keys|;
  }

  lemma NewJoin(ch: Channel, life: Life, joinSeq: nat, d: string, deviceName: string)
    requires ChannelInv(ch, life, joinSeq) && SoundChannel(ch) && d != "" && d !in ch.members && !HasJoinOf(ch, d)
    requires |ch.pending| < MAX_PENDING_JOINS
    ensures var id := JoinId(ch.id, d, joinSeq + 1);
            var ch' := ch.(pending := ch.pending[id := JoinRequest(id, ch.id, d, deviceName)]);
            ChannelInv(ch', life, joinSeq + 1) && SoundChannel(ch')
  {
    hide Elect, Order, Ordered, ChannelKey, SoundChannel;
    var id := JoinId(ch.id, d, joinSeq + 1);
    SoundNewJoin(ch, id, d, deviceName);
    NextJoinIdIsFresh(ch.id, d, joinSeq);
    IssuedLater(joinSeq, joinSeq + 1);
    hide Issued, JoinId;
  }

  lemma SoundNewJoin(ch: Channel, id: string, d: string, deviceName: string)
    requires SoundChannel(ch) && d != "" && !HasJoinOf(ch, d)
    ensures SoundChannel(ch.(pending := ch.pending[id := JoinRequest(id, ch.id, d, deviceName)]))
  {
    forall j | j in ch.pending ensures ch.pending[j].deviceId != d {
      assert JoinOf(ch, j, ch.pending[j].deviceId);
    }
  }

  lemma LaterJoinSeq(ch: Channel, life: Life, joinSeq: nat, joinSeq': nat)
    requires ChannelInv(ch, life, joinSeq) && joinSeq <= joinSeq'
    ensures ChannelInv(ch, life, joinSeq')
  {
    hide Elect, Order, Ordered, ChannelKey;
    IssuedLater(joinSeq, joinSeq');
  }

  /** What an approval does to the channel, in plain terms. */
  lemma ApprovalOutcome(ch: Channel, life: Life, joinSeq: nat, joinId: string, ch': Channel)
    requires ChannelInv(ch, life, joinSeq) && SoundChannel(ch) && ApproveJoin(ch, joinId) == Done(ch')
    ensures ch'.ownerId == ch.ownerId && ch'.pending == ch.pending - {joinId} && joinId in ch.pending
    ensures var join := ch.pending[joinId];
            join.deviceId !in ch.members
            && ch'.members == ch.members[join.deviceId := Member(join.deviceName, false, |ch.members| + 1)]
    ensures |ch'.members| + |ch'.pending| == |ch.members| + |ch.pending|
  {
    hide Elect, ChannelKey, Issued, Ordered, Order, SoundChannel, WithoutJoinsOf;
    var join := ch.pending[joinId];
    NextPriorityIsSizePlusOne(ch.members, Order(life));
    OfflineDoesNotCount(ch.members, join.deviceId, Member(join.deviceName, false, NextPriority(ch.members)));
    OneJoinPerDevice(ch, joinId);
    RemovalSize(ch.pending, joinId);
  }

  lemma OneJoinPerDevice(ch: Channel, joinId: string)
    requires SoundChannel(ch) && joinId in ch.pending
    ensures WithoutJoinsOf(ch.pending, ch.pending[joinId].deviceId) == ch.pending - {joinId}
  {
  }

  lemma RemovalSize<K, V>(m: map<K, V>, k: K)
    requires k in m
    ensures |m - {k}| == |m| - 1
  {
    assert m.Keys == (m - {k}).Keys + {k};
  }

  lemma Approval(ch: Channel, life: Life, joinSeq: nat, joinId: string, ch': Channel, a: Admission)
    requires ChannelInv(ch, life, joinSeq) && SoundChannel(ch) && ch.ownerId != ""
    requires ApproveJoin(ch, joinId) == Done(ch') && a.deviceId == ch.pending[joinId].deviceId
    ensures ChannelInv(ch', life.(admissions := life.admissions + [a]), joinSeq) && SoundChannel(ch')
  {
    hide Elect, ChannelKey, Issued, Ordered, Order, SoundChannel;
    ApprovalOutcome(ch, life, joinSeq, joinId, ch');
    ExtendedOrder(ch.members, life, a, Member(ch.pending[joinId].deviceName, false, |ch.members| + 1));
    SoundAfterApproval(ch, joinId, ch');
    PendingShrinks(ch.pending, ch'.pending);
    forall j | j in ch'.pending ensures ch'.pending[j].deviceId !in ch'.members {
      DistinctJoiners(ch, j, joinId);
    }
  }

  lemma DistinctJoiners(ch: Channel, j: string, k: string)
    requires SoundChannel(ch) && j in ch.pending && k in ch.pending && j != k
    ensures ch.pending[j].deviceId != ch.pending[k].deviceId
  {
  }

  lemma ExtendedOrder(members: map<string, Member>, life: Life, a: Admission, m: Member)
    requires Ordered(members, Order(life)) && a.deviceId !in members && m.priority == |members| + 1
    ensures Ordered(members[a.deviceId := m], Order(life.(admissions := life.admissions + [a])))
  {
    AdmissionExtendsOrder(members, Order(life), a.deviceId, m);
    assert Order(life.(admissions := life.admissions + [a])) == Order(life) + [a.deviceId];
  }

  lemma SoundAfterApproval(ch: Channel, joinId: string, ch': Channel)
    requires SoundChannel(ch) && joinId in ch.pending && ch'.pending == ch.pending - {joinId}
    requires ch'.members.Keys == ch.members.Keys + {ch.pending[joinId].deviceId}
    ensures SoundChannel(ch')
  {
  }

  lemma Denial(ch: Channel, life: Life, joinSeq: nat, joinId: string)
    requires ChannelInv(ch, life, joinSeq) && SoundChannel(ch)
    ensures var ch' := ch.(pending := ch.pending - {joinId}); ChannelInv(ch', life, joinSeq) && SoundChannel(ch')
  {
    hide Elect, Order, Ordered, ChannelKey, Issued;
    PendingShrinks(ch.pending, ch.pending - {joinId});
  }

  lemma PendingShrinks(pending: map<string, JoinRequest>, pending': map<string, JoinRequest>)
    requires pending'.Keys <= pending.Keys
    ensures |pending'| <= |pending|
  {
    SubsetSize(pending'.Keys, pending.Keys);
  }

  lemma {:induction false} SubsetSize<T>(a: set<T>, b: set<T>)
    requires a <= b
    ensures |a| <= |b|
    decreases |a|
  {
    if a != {} {
      var x :| x in a;
      SubsetSize(a - {x}, b - {x});
    }
  }

  // ----- the whole registry -----

  lemma FreshChannel(name: string, pin: string, d: string, deviceName: string, joinSeq: nat)
    ensures var key := ChannelKey(name, pin);
            ChannelInv(Channel(ChannelIdForKey(key), name, key, map[d := Member(deviceName, false, 1)], map[], ""),
                       Life(name, pin, d, []), joinSeq)
  {
    hide ChannelKey, ChannelIdForKey;
    assert Order(Life(name, pin, d, [])) == [d];
    assert Ordered(map[d := Member(deviceName, false, 1)], [d]);
    assert Elect(map[d := Member(deviceName, false, 1)]) == "";
  }

  lemma CreateKeeps(r: Registry, lives: map<string, Life>, name: string, pin: string, d: string, deviceName: string)
    requires RegistryInv(r, lives) && d != "" && ChannelKey(name, pin) !in r.channelByKey
    ensures RegistryInv(Connect(r, name, pin, d, deviceName).0,
                        lives[ChannelIdForKey(ChannelKey(name, pin)) := Life(name, pin, d, [])])
  {
    hide ChannelInv, SoundChannel, ChannelKey, ChannelIdForKey, Inverse;
    FreshChannel(name, pin, d, deviceName, r.joinSeq);
    AddChannel(r, name, pin, d, deviceName);
    FreeKeyFreeId(r, ChannelKey(name, pin));
  }

  lemma AskToJoinKeeps(r: Registry, lives: map<string, Life>, ch: Channel, d: string, deviceName: string)
    requires RegistryInv(r, lives) && ch.id in r.channels && r.channels[ch.id] == ch && d != "" && d !in ch.members
    ensures RegistryInv(AskToJoin(r, ch, d, deviceName).0, lives)
  {
    hide RegistryInv, HasJoinOf;
    if !HasJoinOf(ch, d) && |ch.members| < MAX_MEMBERS && |ch.pending| < MAX_PENDING_JOINS {
      NewJoinKeeps(r, lives, ch, d, deviceName);
    }
  }

  lemma NewJoinKeeps(r: Registry, lives: map<string, Life>, ch: Channel, d: string, deviceName: string)
    requires RegistryInv(r, lives) && ch.id in r.channels && r.channels[ch.id] == ch && d != "" && d !in ch.members
    requires !HasJoinOf(ch, d) && |ch.pending| < MAX_PENDING_JOINS
    ensures var seqNo := r.joinSeq + 1; var id := JoinId(ch.id, d, seqNo);
            var ch' := ch.(pending := ch.pending[id := JoinRequest(id, ch.id, d, deviceName)]);
            RegistryInv(r.(channels := r.channels[ch.id := ch'], joinSeq := seqNo), lives)
  {
    hide ChannelInv, SoundChannel, Inverse, HasJoinOf;
    var seqNo := r.joinSeq + 1;
    var id := JoinId(ch.id, d, seqNo);
    NewJoin(ch, lives[ch.id], r.joinSeq, d, deviceName);
    LaterChannels(r, lives, ch.id, d);
    hide JoinId;
    ReplaceChannel(r, ch.(pending := ch.pending[id := JoinRequest(id, ch.id, d, deviceName)]), seqNo);
  }

  /** All channels are as sound with the next sequence number, and none has the fresh id. */
  lemma LaterChannels(r: Registry, lives: map<string, Life>, channelId: string, d: string)
    requires RegistryInv(r, lives)
    ensures forall k | k in r.channels ::
              ChannelInv(r.channels[k], lives[k], r.joinSeq + 1) && JoinId(channelId, d, r.joinSeq + 1) !in r.channels[k].pending
  {
    hide ChannelInv, Consistent;
    forall k | k in r.channels
      ensures ChannelInv(r.channels[k], lives[k], r.joinSeq + 1) && JoinId(channelId, d, r.joinSeq + 1) !in r.channels[k].pending
    {
      LaterJoinSeq(r.channels[k], lives[k], r.joinSeq, r.joinSeq + 1);
      FreshIsNotPending(r.channels[k], lives[k], r.joinSeq, channelId, d);
    }
  }

  lemma FreshIsNotPending(ch: Channel, life: Life, joinSeq: nat, channelId: string, d: string)
    requires ChannelInv(ch, life, joinSeq)
    ensures JoinId(channelId, d, joinSeq + 1) !in ch.pending
  {
    hide Elect, Order, Ordered, ChannelKey;
    NextJoinIdIsFresh(channelId, d, joinSeq);
  }

  lemma ConnectKeeps(r: Registry, lives: map<string, Life>, name: string, pin: string, d: string, deviceName: string)
    requires RegistryInv(r, lives) && d != ""
    ensures var (r', result) := Connect(r, name, pin, d, deviceName);
            RegistryInv(r', if result.Created? then lives[result.channelId := Life(name, pin, d, [])] else lives)
  {
    hide RegistryInv, Inverse, ChannelInv, AskToJoin, SoundChannel, ChannelKey, ChannelIdForKey;
    var key := ChannelKey(name, pin);
    if key !in r.channelByKey {
      CreateKeeps(r, lives, name, pin, d, deviceName);
    } else {
      var ch := KeyedChannel(r, lives, key);
      if d in ch.members {
        var m := ch.members[d].(deviceName := deviceName);
        RenameKeepsOwner(ch.members, d, deviceName);
        MemberUpdateKeeps(r, lives, ch, d, m);
      } else {
        AskToJoinKeeps(r, lives, ch, d, deviceName);
      }
    }
  }

  lemma KeyedChannel(r: Registry, lives: map<string, Life>, key: string) returns (ch: Channel)
    requires RegistryInv(r, lives) && key in r.channelByKey
    ensures r.channelByKey[key] in r.channels && ch == r.channels[r.channelByKey[key]]
    ensures ch.id == r.channelByKey[key] && ch.ownerId == Elect(ch.members)
  {
    ch := r.channels[r.channelByKey[key]];
    assert ChannelInv(ch, lives[ch.id], r.joinSeq);
  }

  lemma MemberUpdateKeeps(r: Registry, lives: map<string, Life>, ch: Channel, d: string, m: Member)
    requires RegistryInv(r, lives) && ch.id in r.channels && r.channels[ch.id] == ch
    requires d in ch.members && m.priority == ch.members[d].priority
    requires Elect(ch.members[d := m]) != "" || Elect(ch.members[d := m]) == ch.ownerId
    ensures RegistryInv(r.(channels := r.channels[ch.id := WithMembers(ch, ch.members[d := m])]), lives)
  {
    hide Inverse, ChannelInv, SoundChannel, Elect;
    assert ChannelInv(ch, lives[ch.id], r.joinSeq) && SoundChannel(ch);
    MemberUpdate(ch, lives[ch.id], r.joinSeq, d, m);
    ReplaceKeeps(r, lives, WithMembers(ch, ch.members[d := m]), lives[ch.id]);
    Maps.UpdateSame(lives, ch.id);
  }

  lemma ApproveKeeps(r: Registry, lives: map<string, Life>, ch: Channel, joinId: string, ch': Channel, a: Admission)
    requires RegistryInv(r, lives) && ch.id in r.channels && r.channels[ch.id] == ch && ch.ownerId != ""
    requires ApproveJoin(ch, joinId) == Done(ch') && a.deviceId == ch.pending[joinId].deviceId
    ensures var life := lives[ch.id];
            RegistryInv(r.(channels := r.channels[ch.id := ch']),
                        lives[ch.id := life.(admissions := life.admissions + [a])])
  {
    hide Inverse, ChannelInv, SoundChannel;
    assert ChannelInv(ch, lives[ch.id], r.joinSeq) && SoundChannel(ch);
    Approval(ch, lives[ch.id], r.joinSeq, joinId, ch', a);
    ReplaceKeeps(r, lives, ch', lives[ch.id].(admissions := lives[ch.id].admissions + [a]));
  }

  lemma DenyKeeps(r: Registry, lives: map<string, Life>, ch: Channel, joinId: string)
    requires RegistryInv(r, lives) && ch.id in r.channels && r.channels[ch.id] == ch
    ensures RegistryInv(r.(channels := r.channels[ch.id := ch.(pending := ch.pending - {joinId})]), lives)
  {
    hide Inverse, ChannelInv, SoundChannel;
    assert ChannelInv(ch, lives[ch.id], r.joinSeq) && SoundChannel(ch);
    Denial(ch, lives[ch.id], r.joinSeq, joinId);
    ReplaceKeeps(r, lives, ch.(pending := ch.pending - {joinId}), lives[ch.id]);
    Maps.UpdateSame(lives, ch.id);
  }

  lemma SetOnlineKeeps(r: Registry, lives: map<string, Life>, id: string, d: string, online: bool)
    requires RegistryInv(r, lives)
    requires SetOnline(r, id, d, online, !online).Some?
    ensures var (r', change) := SetOnline(r, id, d, online, !online).value;
            RegistryInv(r', if change.deleted then lives - {id} else lives)
  {
    hide ChannelInv;
    var ch := r.channels[id];
    assert ch.id == id && SoundChannel(ch);
    var m := ch.members[d].(online := online);
    if !online && Elect(ch.members[d := m]) == "" {
      RemoveChannel(r, id);
    } else {
      if online {
        OnlineOwner(ch.members, d);
      }
      MemberUpdateKeeps(r, lives, ch, d, m);
    }
  }
}
