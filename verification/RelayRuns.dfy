/** Runs of the relay: the hub together with the sockets it serves and a record of what happened. */
module RelayRuns {
  import opened Options
  import opened Identifiers
  import opened Protocol
  import opened Connections
  import opened RegistrySpec
  import opened HubSpec

  /** One approve decision: who was let in, under which join id, and by whom. */
  datatype Admission = Admission(deviceId: string, joinId: string, ownerId: string, actor: Connection)

  /** The history of one channel from its creation to its deletion. */
  datatype Life = Life(name: string, pin: string, creator: string, admissions: seq<Admission>)

  /**
   * open holds the connections whose handler has not yet run its deferred unregister;
   * opening those of them whose handshake has registered them but has not ended, each with the connection it replaced.
   * decided holds every join id ever decided, with the decision.
   */
  datatype World = World(hub: Hub, open: set<Connection>, seen: set<Connection>,
                         opening: map<Connection, Option<Connection>>, sent: set<Out>, facts: set<Fact>,
                         lives: map<string, Life>, decided: map<string, bool>)

  datatype Step =
    | HttpConnect(name: string, pin: string, deviceId: string, deviceName: string)
    | OpenMember(conn: Connection)
    | BeginMember(conn: Connection)
    | EndMember(conn: Connection)
    | OpenJoiner(conn: Connection)
    | BeginJoiner(conn: Connection)
    | EndJoiner(conn: Connection)
    | Receive(conn: Connection, event: Event, choice: Choice)
    | Close(conn: Connection)
    | Expiry(slot: Slot)

  ghost function Start(): World {
    World(Hub(Registry(map[], map[], 0), map[], map[], {}, {}), {}, {}, map[], {}, {}, map[], map[])
  }

  /** The devices of a channel in the order in which they were let in. */
  ghost function Order(life: Life): seq<string> {
    [life.creator] + seq(|life.admissions|, i requires 0 <= i < |life.admissions| => life.admissions[i].deviceId)
  }

  ghost function Apply(w: World, effect: Effect): World {
    w.(hub := effect.hub, sent := w.sent + effect.out, facts := w.facts + effect.facts)
  }

  ghost function AfterHttpConnect(w: World, name: string, pin: string, deviceId: string, deviceName: string): World
    requires Indexed(w.hub.registry)
  {
    var (r, result) := Connect(w.hub.registry, name, pin, deviceId, deviceName);
    var hub := w.hub.(registry := r);
    if result.Created? then
      w.(hub := ScheduleOfflineExpiry(hub, (result.channelId, deviceId)),
         lives := w.lives[result.channelId := Life(name, pin, deviceId, [])])
    else w.(hub := hub)
  }

  ghost function AfterBegin(w: World, c: Connection): World {
    w.(hub := RegisterMember(w.hub, c), open := w.open + {c}, seen := w.seen + {c},
       opening := w.opening[c := Previous(w.hub, c)])
  }

  /** The member that c speaks for is still registered, so its handshake will succeed. */
  ghost predicate Registered(h: Hub, c: Connection) {
    RegistryMemberExists(h, c)
  }

  /**
   * The device of a handshake that is about to end is still connected, in its grace period, or not a member.
   * It fails only when the handshake was superseded and the superseding connection has come, gone and expired.
   */
  ghost predicate Tracked(w: World, c: Connection) {
    SlotOf(c) in w.hub.members || SlotOf(c) in w.hub.timers || !Registered(w.hub, c)
  }

  ghost function AfterEnd(w: World, c: Connection): World
    requires c in w.opening
  {
    Apply(w, FinishMember(w.hub, c, w.opening[c]))
      .(opening := w.opening - {c}, open := if Registered(w.hub, c) then w.open else w.open - {c})
  }

  ghost function AfterBeginJoiner(w: World, c: Connection): World {
    w.(hub := RegisterPending(w.hub, c), open := w.open + {c}, seen := w.seen + {c},
       opening := w.opening[c := PreviousPending(w.hub, c)])
  }

  ghost function AfterEndJoiner(w: World, c: Connection): World
    requires c in w.opening
  {
    Apply(w, FinishPending(w.hub, c, w.opening[c])).(opening := w.opening - {c})
  }

  /** The history after a decision that the registry has applied. */
  ghost function Record(w: World, c: Connection, facts: set<Fact>): World {
    if f: Fact :| f in facts && f.Decided? then
      var decided := w.decided[f.joinId := f.approved];
      if f.approved && c.channelId in w.lives && c.channelId in w.hub.registry.channels then
        var life := w.lives[c.channelId];
        var admission := Admission(f.deviceId, f.joinId, w.hub.registry.channels[c.channelId].ownerId, c);
        w.(decided := decided, lives := w.lives[c.channelId := life.(admissions := life.admissions + [admission])])
      else w.(decided := decided)
    else w
  }

  ghost function AfterReceive(w: World, c: Connection, e: Event, x: Choice): World {
    var effect := HandleEvent(w.hub, c, e, x);
    Apply(Record(w, c, effect.facts), effect)
  }

  ghost function AfterClose(w: World, c: Connection): World {
    w.(hub := Unregister(w.hub, c), open := w.open - {c})
  }

  ghost function AfterExpiry(w: World, slot: Slot): World {
    var w1 := Apply(w, Expire(w.hub, slot));
    w1.(lives := map id | id in w.lives && id in w1.hub.registry.channels :: w.lives[id])
  }

  /** The claims of a member token pass the check against the registry. */
  ghost predicate ValidMemberClaims(h: Hub, c: Connection) {
    c.claimed.MemberRole? && RegistryMemberExists(h, c)
  }

  ghost predicate ValidPendingClaims(h: Hub, c: Connection) {
    c.claimed.PendingRole? && PendingExists(h, c)
  }

  /**
   * What is left of claims that have passed the check at some time: the join request is of this channel and device,
   * if it is still pending at all.
   */
  ghost predicate Vouched(r: Registry, c: Connection) {
    && Issued(c.joinRequestId, r.joinSeq)
    && forall id | id in r.channels && c.joinRequestId in r.channels[id].pending ::
         SlotOf(c) == (id, r.channels[id].pending[c.joinRequestId].deviceId)
  }

  /** A handshake may end long after its claims have passed the check, and after whatever has happened meanwhile. */
  ghost predicate Enabled(w: World, s: Step) {
    match s
    case HttpConnect(name, pin, deviceId, deviceName) => Indexed(w.hub.registry) && deviceId != ""
    case OpenMember(c) => c !in w.seen && ValidMemberClaims(w.hub, c)
    case BeginMember(c) => c !in w.seen && c.claimed.MemberRole?
    case EndMember(c) => c in w.opening && IsMember(w.hub, c)
    case BeginJoiner(c) => c !in w.seen && c.claimed.PendingRole? && Vouched(w.hub.registry, c)
    case EndJoiner(c) => c in w.opening && !IsMember(w.hub, c)
    case OpenJoiner(c) => c !in w.seen && ValidPendingClaims(w.hub, c)
    case Receive(c, e, x) => c in w.open && c !in w.opening && ValidChoice(w.hub, c, e, x)
    case Close(c) => c in w.open && c !in w.opening
    case Expiry(slot) => true
  }

  ghost function Next(w: World, s: Step): World
    requires Enabled(w, s)
  {
    match s
    case HttpConnect(name, pin, deviceId, deviceName) => AfterHttpConnect(w, name, pin, deviceId, deviceName)
    case OpenMember(c) => AfterEnd(AfterBegin(w, c), c)
    case BeginMember(c) => AfterBegin(w, c)
    case EndMember(c) => AfterEnd(w, c)
    case OpenJoiner(c) => AfterEndJoiner(AfterBeginJoiner(w, c), c)
    case BeginJoiner(c) => AfterBeginJoiner(w, c)
    case EndJoiner(c) => AfterEndJoiner(w, c)
    case Receive(c, e, x) => AfterReceive(w, c, e, x)
    case Close(c) => AfterClose(w, c)
    case Expiry(slot) => AfterExpiry(w, slot)
  }

  // ----- the invariant -----

  /** Priorities are 1, 2, ... in the order of admission. */
  ghost predicate Ordered(members: map<string, Member>, order: seq<string>) {
    && |order| == |members|
    && (forall i | 0 <= i < |order| :: order[i] in members && members[order[i]].priority == i + 1)
    && (forall d | d in members :: 1 <= members[d].priority <= |order| && order[members[d].priority - 1] == d)
  }

  ghost predicate ChannelInv(ch: Channel, life: Life, joinSeq: nat) {
    && ch.key == ChannelKey(life.name, life.pin)
    && Ordered(ch.members, Order(life))
    && ch.ownerId == Elect(ch.members)
    && (ch.ownerId == "" ==> life.admissions == [])
    && |ch.members| <= MAX_MEMBERS && |ch.pending| <= MAX_PENDING_JOINS
    && (forall j | j in ch.pending ::
          && ch.pending[j].channelId == ch.id && ch.pending[j].deviceId !in ch.members && Issued(j, joinSeq))
  }

  ghost predicate RegistryInv(r: Registry, lives: map<string, Life>) {
    && Consistent(r) && r.channels.Keys == lives.Keys
    && (forall id | id in r.channels :: ChannelInv(r.channels[id], lives[id], r.joinSeq))
    && (forall a, b, j | a in r.channels && b in r.channels && j in r.channels[a].pending && j in r.channels[b].pending :: a == b)
  }

  /** Decided joins are no longer pending, and every admission rests on an approval. */
  ghost predicate DecidedInv(r: Registry, lives: map<string, Life>, decided: map<string, bool>) {
    && (forall j | j in decided :: Issued(j, r.joinSeq))
    && (forall j, id | j in decided && id in r.channels :: j !in r.channels[id].pending)
    && (forall id | id in lives :: forall i | 0 <= i < |lives[id].admissions| ::
          var a := lives[id].admissions[i];
          a.joinId in decided && decided[a.joinId] && a.ownerId == a.actor.deviceId && a.actor.channelId == id)
  }

  ghost predicate OnlineMember(h: Hub, slot: Slot) {
    slot.0 in h.registry.channels && slot.1 in h.registry.channels[slot.0].members
    && h.registry.channels[slot.0].members[slot.1].online
  }

  ghost predicate MembersInv(w: World) {
    forall s | s in w.hub.members ::
      var c := w.hub.members[s];
      && SlotOf(c) == s && c in w.open && IsMember(w.hub, c)
      && (c !in w.opening ==> OnlineMember(w.hub, s))
  }

  ghost predicate PendingInv(w: World) {
    forall j | j in w.hub.pending ::
      var c := w.hub.pending[j];
      && c.joinRequestId == j && c in w.open && c !in w.hub.promoted && c.claimed.PendingRole?
      && Vouched(w.hub.registry, c)
  }

  /**
   * No timer runs for a connected device. A device that is alone in an ownerless channel is connected or in its
   * grace period.
   */
  ghost predicate PresenceInv(w: World) {
    && (forall s | s in w.hub.timers :: s !in w.hub.members)
    && (forall id, d | id in w.hub.registry.channels && w.hub.registry.channels[id].ownerId == ""
                       && d in w.hub.registry.channels[id].members ::
          (id, d) in w.hub.members || (id, d) in w.hub.timers)
  }

  ghost predicate SocketsInv(w: World) {
    w.opening.Keys <= w.open <= w.seen && w.hub.promoted <= w.seen
  }

  /** The join request that the connection of the current owner must have been sent. */
  ghost predicate Told(w: World, ch: Channel, owner: Connection, j: string)
    requires j in ch.pending
  {
    Wrote(owner, JoinRequestEvent(ch.id, ch.pending[j], owner.deviceId)) in w.sent
  }

  ghost predicate KnowsInv(w: World) {
    forall id, j | id in w.hub.registry.channels && j in w.hub.registry.channels[id].pending
                   && j in w.hub.pending && w.hub.pending[j] !in w.opening ::
      var ch := w.hub.registry.channels[id];
      ch.ownerId != "" && (id, ch.ownerId) in w.hub.members && w.hub.members[(id, ch.ownerId)] !in w.opening ==>
        Told(w, ch, w.hub.members[(id, ch.ownerId)], j)
  }

  /** Acknowledgements rest on facts, and facts on successful or applied actions. */
  ghost predicate AckInv(w: World) {
    && (forall o | o in w.sent && o.Wrote? && o.event.kind.MessageAck? :: AckBacked(w, o))
    && (forall o | o in w.sent && o.Wrote? && o.event.kind.JoinDecisionAck? :: DecisionBacked(w, o))
    && (forall f | f in w.facts && f.Routed? :: RoutedWell(w, f))
    && (forall f | f in w.facts && f.Decided? :: f.joinId in w.decided && w.decided[f.joinId] == f.approved)
  }

  ghost predicate AckBacked(w: World, o: Out)
    requires o.Wrote?
  {
    exists f :: f in w.facts && f.Routed? && f.actor == o.conn && f.id == o.event.replyTo
                && o.event.payload == Delivered(f.target.deviceId)
  }

  ghost predicate DecisionBacked(w: World, o: Out)
    requires o.Wrote?
  {
    exists f :: f in w.facts && f.Decided? && f.actor == o.conn && f.id == o.event.replyTo
                && o.event.payload == Decision(f.joinId, f.deviceId, f.approved)
  }

  ghost predicate RoutedWell(w: World, f: Fact)
    requires f.Routed?
  {
    && Wrote(f.target, f.event) in w.sent && Routable(f.event.kind) && f.event.id == f.id && IsMember(w.hub, f.target)
    && f.actor.channelId == f.event.channelId == f.target.channelId
    && f.event.from == f.actor.deviceId && f.event.to == f.target.deviceId
  }

  ghost predicate Inv(w: World) {
    && RegistryInv(w.hub.registry, w.lives) && DecidedInv(w.hub.registry, w.lives, w.decided)
    && MembersInv(w) && PendingInv(w) && PresenceInv(w) && SocketsInv(w) && KnowsInv(w) && AckInv(w)
  }
}
