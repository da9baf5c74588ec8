/** The registry's state as a value, and what each of its operations does to it. */
module RegistrySpec {
  import opened Options
  import opened Identifiers

  const MAX_MEMBERS := 32
  const MAX_PENDING_JOINS := 16

  datatype Member = Member(deviceName: string, online: bool, priority: nat)

  datatype JoinRequest = JoinRequest(id: string, channelId: string, deviceId: string, deviceName: string)

  datatype Channel = Channel(id: string, name: string, key: string, members: map<string, Member>,
                             pending: map<string, JoinRequest>, ownerId: string)

  datatype Registry = Registry(channels: map<string, Channel>, channelByKey: map<string, string>, joinSeq: nat)

  datatype ConnectResult =
    | Created(channelId: string)
    | Connected(channelId: string)
    | PendingApproval(channelId: string, joinId: string)
    | MembersFull(channelId: string)
    | PendingJoinsFull(channelId: string)

  datatype JoinError = ChannelNotFound | NotCurrentOwner | JoinNotFound | LimitExceeded | AlreadyMember

  datatype Outcome<+T> = Done(value: T) | Fail(error: JoinError)

  datatype PresenceChange = PresenceChange(channel: Option<Channel>, previousOwnerId: string,
                                           currentOwnerId: string, deleted: bool, changed: bool)

  // ----- owner election -----

  /** Byte-wise order of device ids. */
  predicate Less(a: string, b: string) {
    b != "" && (a == "" || a[0] < b[0] || (a[0] == b[0] && Less(a[1..], b[1..])))
  }

  lemma {:induction false} LessTotal(a: string, b: string)
    ensures a == b || Less(a, b) || Less(b, a)
    ensures !(Less(a, b) && Less(b, a)) && !Less(a, a)
  {
    if a != "" && b != "" {
      LessTotal(a[1..], b[1..]);
      assert a == [a[0]] + a[1..] && b == [b[0]] + b[1..];
    }
    if a != "" {
      LessTotal(a[1..], a[1..]);
    }
  }

  lemma {:induction false} LessTransitive(a: string, b: string, c: string)
    requires Less(a, b) && Less(b, c)
    ensures Less(a, c)
  {
    if a != "" && a[0] == b[0] == c[0] {
      LessTransitive(a[1..], b[1..], c[1..]);
    }
  }

  predicate Eligible(members: map<string, Member>, d: string) {
    d in members && d != "" && members[d].online
  }

  /** a comes before b in the election: smaller priority, then smaller id. */
  predicate Before(members: map<string, Member>, a: string, b: string)
    requires a in members && b in members
  {
    members[a].priority < members[b].priority || (members[a].priority == members[b].priority && Less(a, b))
  }

  /** o is the online member that comes before every other online member. */
  ghost predicate Leads(members: map<string, Member>, o: string) {
    Eligible(members, o) && forall d | d != o && Eligible(members, d) :: Before(members, o, d)
  }

  lemma BeforeTransitive(members: map<string, Member>, a: string, b: string, c: string)
    requires a in members && b in members && c in members
    requires Before(members, a, b) && Before(members, b, c)
    ensures Before(members, a, c)
  {
    if Less(a, b) && Less(b, c) {
      LessTransitive(a, b, c);
    }
  }

  lemma BeforeTotal(members: map<string, Member>, a: string, b: string)
    requires a in members && b in members && a != b
    ensures Before(members, a, b) != Before(members, b, a)
  {
    LessTotal(a, b);
  }

  /** There is at most one leader, so the election does not depend on the order of the scan. */
  lemma LeaderUnique(members: map<string, Member>, o: string, o': string)
    requires Leads(members, o) && Leads(members, o')
    ensures o == o'
  {
    if o != o' {
      BeforeTotal(members, o, o');
    }
  }

  lemma {:induction false} LeaderExists(members: map<string, Member>, online: set<string>) returns (o: string)
    requires online != {} && forall d | d in online :: d in members && Eligible(members, d)
    ensures o in online && o in members && forall d | d in online && d != o :: Before(members, o, d)
    decreases online
  {
    o :| o in online;
    if online != {o} {
      var best := LeaderExists(members, online - {o});
      BeforeTotal(members, o, best);
      if Before(members, o, best) {
        forall d | d in online && d != o ensures Before(members, o, d) {
          if d != best {
            BeforeTransitive(members, o, best, d);
          }
        }
      } else {
        o := best;
      }
    }
  }

  /** The elected owner: the leader, or "" when nobody is online. */
  ghost function Elect(members: map<string, Member>): (o: string)
    ensures o != "" ==> Leads(members, o)
    ensures o == "" ==> forall d :: !Eligible(members, d)
  {
    var online := set d | d in members && Eligible(members, d);
    if online == {} then
      assert forall d | Eligible(members, d) :: d in online;
      ""
    else
      assert exists o :: Leads(members, o) by {
        var o := LeaderExists(members, online);
        assert forall d | Eligible(members, d) :: d in online;
        assert Leads(members, o);
      }
      var o :| Leads(members, o);
      o
  }

  lemma ElectIs(members: map<string, Member>, o: string)
    requires Leads(members, o)
    ensures Elect(members) == o
  {
    assert Eligible(members, o);
    LeaderUnique(members, o, Elect(members));
  }

  // ----- priorities -----

  ghost predicate IsTop(members: map<string, Member>, p: nat) {
    && (forall d | d in members :: members[d].priority <= p)
    && (p == 0 || exists d :: d in members && members[d].priority == p)
  }

  lemma {:induction false} TopExists(members: map<string, Member>) returns (p: nat)
    ensures IsTop(members, p)
    decreases |members|
  {
    if members == map[] {
      p := 0;
    } else {
      var d :| d in members;
      var rest := members - {d};
      assert |rest| == |members| - 1 by { assert rest.Keys == members.Keys - {d}; }
      var q := TopExists(rest);
      p := if q < members[d].priority then members[d].priority else q;
      if q >= members[d].priority && q > 0 {
        var e :| e in rest && rest[e].priority == q;
        assert e in members && members[e].priority == q;
      }
      assert p == 0 || exists e :: e in members && members[e].priority == p;
      forall e | e in members ensures members[e].priority <= p {
        assert e == d || e in rest;
      }
    }
  }

  /** One more than the largest priority in use. */
  ghost function NextPriority(members: map<string, Member>): (p: nat)
    ensures p > 0 && IsTop(members, p - 1)
  {
    assert exists q: nat :: IsTop(members, q) by { var q := TopExists(members); assert IsTop(members, q); }
    var q: nat :| IsTop(members, q);
    q + 1
  }

  lemma NextPriorityIs(members: map<string, Member>, p: nat)
    requires IsTop(members, p)
    ensures NextPriority(members) == p + 1
  {
    var q := NextPriority(members) - 1;
    assert IsTop(members, q);
  }

  // ----- operations on one channel -----

  ghost function WithMembers(ch: Channel, members: map<string, Member>): Channel {
    ch.(members := members, ownerId := Elect(members))
  }

  /** No pending join of the device. */
  ghost function WithoutJoinsOf(pending: map<string, JoinRequest>, deviceId: string): map<string, JoinRequest> {
    map j | j in pending && pending[j].deviceId != deviceId :: pending[j]
  }

  ghost function ApproveJoin(ch: Channel, joinId: string): Outcome<Channel> {
    if joinId !in ch.pending then Fail(JoinNotFound)
    else if |ch.members| >= MAX_MEMBERS then Fail(LimitExceeded)
    else if ch.pending[joinId].deviceId in ch.members then Fail(AlreadyMember)
    else
      var join := ch.pending[joinId];
      var admitted := Member(join.deviceName, false, NextPriority(ch.members));
      Done(WithMembers(ch, ch.members[join.deviceId := admitted])
           .(pending := WithoutJoinsOf(ch.pending, join.deviceId)))
  }

  ghost function DenyJoin(ch: Channel, joinId: string): Outcome<Channel> {
    if joinId !in ch.pending then Fail(JoinNotFound) else Done(ch.(pending := ch.pending - {joinId}))
  }

  // ----- operations on the registry -----

  /** Every key leads to a channel. */
  ghost predicate Indexed(r: Registry) {
    forall k | k in r.channelByKey :: r.channelByKey[k] in r.channels
  }

  /** id is a pending join of the device. */
  predicate JoinOf(ch: Channel, id: string, deviceId: string) {
    id in ch.pending && ch.pending[id].deviceId == deviceId
  }

  ghost predicate HasJoinOf(ch: Channel, deviceId: string) {
    exists j :: JoinOf(ch, j, deviceId)
  }

  /** What Connect answers a device that is neither new to the channel name nor a member. */
  ghost function AskToJoin(r: Registry, ch: Channel, deviceId: string, deviceName: string)
    : (answer: (Registry, ConnectResult))
    ensures !answer.1.Created? && answer.1.channelId == ch.id
  {
    if HasJoinOf(ch, deviceId) then
      var j :| JoinOf(ch, j, deviceId);
      (r, PendingApproval(ch.id, ch.pending[j].id))
    else if |ch.members| >= MAX_MEMBERS then (r, MembersFull(ch.id))
    else if |ch.pending| >= MAX_PENDING_JOINS then (r, PendingJoinsFull(ch.id))
    else
      var seqNo := r.joinSeq + 1;
      var id := JoinId(ch.id, deviceId, seqNo);
      var ch' := ch.(pending := ch.pending[id := JoinRequest(id, ch.id, deviceId, deviceName)]);
      (r.(channels := r.channels[ch.id := ch'], joinSeq := seqNo), PendingApproval(ch.id, id))
  }

  /** The name is already trimmed and lower-cased. */
  ghost function Connect(r: Registry, name: string, pin: string, deviceId: string, deviceName: string)
    : (Registry, ConnectResult)
    requires Indexed(r)
  {
    var key := ChannelKey(name, pin);
    if key !in r.channelByKey then
      var id := ChannelIdForKey(key);
      var ch := Channel(id, name, key, map[deviceId := Member(deviceName, false, 1)], map[], "");
      (r.(channels := r.channels[id := ch], channelByKey := r.channelByKey[key := id]), Created(id))
    else
      var ch := r.channels[r.channelByKey[key]];
      if deviceId in ch.members then
        var renamed := ch.members[deviceId := ch.members[deviceId].(deviceName := deviceName)];
        (r.(channels := r.channels[r.channelByKey[key] := WithMembers(ch, renamed)]), Connected(ch.id))
      else AskToJoin(r, ch, deviceId, deviceName)
  }

  ghost function DecideByOwner(r: Registry, channelId: string, ownerId: string, joinId: string, approve: bool)
    : Outcome<Registry>
  {
    if channelId !in r.channels then Fail(ChannelNotFound)
    else if r.channels[channelId].ownerId != ownerId then Fail(NotCurrentOwner)
    else
      var ch := r.channels[channelId];
      match (if approve then ApproveJoin(ch, joinId) else DenyJoin(ch, joinId))
      case Fail(error) => Fail(error)
      case Done(ch') => Done(r.(channels := r.channels[channelId := ch']))
  }

  /** None when the channel or the member is missing. */
  ghost function SetOnline(r: Registry, channelId: string, deviceId: string, online: bool, deleteIfEmpty: bool)
    : Option<(Registry, PresenceChange)>
  {
    if channelId !in r.channels || deviceId !in r.channels[channelId].members then None
    else
      var ch := r.channels[channelId];
      var ch' := WithMembers(ch, ch.members[deviceId := ch.members[deviceId].(online := online)]);
      if deleteIfEmpty && ch'.ownerId == "" then
        Some((r.(channels := r.channels - {channelId}, channelByKey := r.channelByKey - {ch.key}),
              PresenceChange(None, ch.ownerId, "", true, true)))
      else
        Some((r.(channels := r.channels[channelId := ch']),
              PresenceChange(Some(ch'), ch.ownerId, ch'.ownerId, false,
                             ch.members[deviceId].online != online || ch.ownerId != ch'.ownerId)))
  }

  // ----- consistency of the two maps -----

  /** Join ids are the keys, ids are not empty, and no device has two pending joins. */
  ghost predicate SoundChannel(ch: Channel) {
    && "" !in ch.members
    && (forall j | j in ch.pending :: ch.pending[j].id == j && ch.pending[j].deviceId != "")
    && (forall j, k | j in ch.pending && k in ch.pending && j != k :: ch.pending[j].deviceId != ch.pending[k].deviceId)
  }

  /** channels and channelByKey are mutually inverse. */
  ghost predicate Inverse(r: Registry) {
    && (forall id | id in r.channels ::
          && r.channels[id].id == id == ChannelIdForKey(r.channels[id].key)
          && r.channels[id].key in r.channelByKey && r.channelByKey[r.channels[id].key] == id)
    && (forall k | k in r.channelByKey :: r.channelByKey[k] in r.channels && r.channels[r.channelByKey[k]].key == k)
  }

  ghost predicate Consistent(r: Registry) {
    Inverse(r) && forall id | id in r.channels :: SoundChannel(r.channels[id])
  }

  /** A key without a channel also has a free channel id. */
  lemma FreeKeyFreeId(r: Registry, key: string)
    requires Inverse(r) && key !in r.channelByKey
    ensures ChannelIdForKey(key) !in r.channels
  {
    if ChannelIdForKey(key) in r.channels {
      ChannelIdForKeyInjective(key, r.channels[ChannelIdForKey(key)].key);
    }
  }

  lemma ReplaceChannel(r: Registry, ch: Channel, joinSeq: nat)
    requires Consistent(r) && ch.id in r.channels && r.channels[ch.id].key == ch.key && SoundChannel(ch)
    ensures Consistent(r.(channels := r.channels[ch.id := ch], joinSeq := joinSeq))
  {
  }

  lemma RemoveChannel(r: Registry, id: string)
    requires Consistent(r) && id in r.channels
    ensures Consistent(r.(channels := r.channels - {id}, channelByKey := r.channelByKey - {r.channels[id].key}))
  {
  }

  lemma InsertChannel(r: Registry, ch: Channel)
    requires Consistent(r) && ch.id !in r.channels && ch.key !in r.channelByKey
    requires ch.id == ChannelIdForKey(ch.key) && SoundChannel(ch)
    ensures Consistent(r.(channels := r.channels[ch.id := ch], channelByKey := r.channelByKey[ch.key := ch.id]))
  {
    var r' := r.(channels := r.channels[ch.id := ch], channelByKey := r.channelByKey[ch.key := ch.id]);
    forall k | k in r'.channelByKey
      ensures r'.channelByKey[k] in r'.channels && r'.channels[r'.channelByKey[k]].key == k
    {
      if k != ch.key {
        assert r.channelByKey[k] in r.channels;
      }
    }
  }

  lemma AddChannel(r: Registry, name: string, pin: string, deviceId: string, deviceName: string)
    requires Consistent(r) && deviceId != "" && ChannelKey(name, pin) !in r.channelByKey
    ensures Consistent(Connect(r, name, pin, deviceId, deviceName).0)
  {
    var key := ChannelKey(name, pin);
    FreeKeyFreeId(r, key);
    InsertChannel(r, Channel(ChannelIdForKey(key), name, key, map[deviceId := Member(deviceName, false, 1)], map[], ""));
  }
}
