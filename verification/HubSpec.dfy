/** The hub's state as a value, and what each of its critical handlers does to it and writes. */
module HubSpec {
  import opened Options
  import opened Protocol
  import opened Connections
  import opened RegistrySpec

  /** A device of a channel. */
  type Slot = (string, string)

  /** promoted holds the connections that came in as pending and have become members. */
  datatype Hub = Hub(registry: Registry, members: map<Slot, Connection>, pending: map<string, Connection>,
                     timers: set<Slot>, promoted: set<Connection>)

  /** A write to a connection, whether or not it succeeds, or the closing of a connection. */
  datatype Out = Wrote(conn: Connection, event: Event) | Closed(conn: Connection, reason: string)

  /** What the relay did for the request `id` received on connection `actor`. */
  datatype Fact =
    | Routed(actor: Connection, id: string, target: Connection, event: Event)
    | Decided(actor: Connection, id: string, joinId: string, deviceId: string, approved: bool)

  datatype Effect = Effect(hub: Hub, out: set<Out>, facts: set<Fact>)

  /** What the environment decides while an event is handled. */
  datatype Choice = Choice(target: Option<Connection>, join: Option<string>, writeOk: bool, token: Option<string>)

  function SlotOf(c: Connection): Slot {
    (c.channelId, c.deviceId)
  }

  ghost predicate IsMember(h: Hub, c: Connection) {
    c.claimed.MemberRole? || c in h.promoted
  }

  ghost predicate CurrentMember(h: Hub, c: Connection) {
    SlotOf(c) in h.members && h.members[SlotOf(c)] == c
  }

  ghost predicate CurrentPending(h: Hub, c: Connection) {
    c.joinRequestId in h.pending && h.pending[c.joinRequestId] == c
  }

  ghost function MemberConnection(h: Hub, channelId: string, deviceId: string): Option<Connection> {
    if (channelId, deviceId) in h.members then Some(h.members[(channelId, deviceId)]) else None
  }

  ghost function FindChannel(h: Hub, channelId: string): Option<Channel> {
    if channelId in h.registry.channels then Some(h.registry.channels[channelId]) else None
  }

  // ----- membership of the hub's maps, and timers -----

  ghost function ScheduleOfflineExpiry(h: Hub, slot: Slot): Hub {
    if slot in h.members then h else h.(timers := h.timers + {slot})
  }

  /** Registration cancels a running timer of the device. */
  ghost function RegisterMember(h: Hub, c: Connection): Hub {
    h.(members := h.members[SlotOf(c) := c], timers := h.timers - {SlotOf(c)})
  }

  ghost function RegisterPending(h: Hub, c: Connection): Hub {
    h.(pending := h.pending[c.joinRequestId := c])
  }

  ghost function RemovePending(h: Hub, c: Connection): Hub {
    if CurrentPending(h, c) then h.(pending := h.pending - {c.joinRequestId}) else h
  }

  ghost function Unregister(h: Hub, c: Connection): Hub {
    var h1 := RemovePending(h, c);
    if CurrentMember(h1, c) then h1.(members := h1.members - {SlotOf(c)}, timers := h1.timers + {SlotOf(c)}) else h1
  }

  ghost function Promote(h: Hub, c: Connection): Hub {
    var h1 := RegisterMember(RemovePending(h, c), c);
    h1.(promoted := h1.promoted + {c})
  }

  /** The connection that c replaces, if there is one. */
  ghost function Previous(h: Hub, c: Connection): Option<Connection> {
    if SlotOf(c) in h.members && h.members[SlotOf(c)] != c then Some(h.members[SlotOf(c)]) else None
  }

  ghost function PreviousPending(h: Hub, c: Connection): Option<Connection> {
    if c.joinRequestId in h.pending && h.pending[c.joinRequestId] != c then Some(h.pending[c.joinRequestId]) else None
  }

  ghost function ClosePrevious(previous: Option<Connection>): set<Out> {
    if previous.Some? then {Closed(previous.value, "connection superseded")} else {}
  }

  // ----- notifications -----

  function JoinRequestEvent(channelId: string, join: JoinRequest, ownerId: string): Event {
    Event("", Kind.JoinRequest, channelId, join.deviceId, ownerId, "", Waiting(join.id, join.deviceId, join.deviceName))
  }

  ghost function NotifyOwnerOfJoin(h: Hub, ch: Channel, join: JoinRequest): set<Out> {
    match MemberConnection(h, ch.id, ch.ownerId)
    case None => {}
    case Some(owner) => {Wrote(owner, JoinRequestEvent(ch.id, join, owner.deviceId))}
  }

  ghost function NotifyOwnerOfPendingJoins(h: Hub, ch: Channel): set<Out> {
    if ch.ownerId == "" then {} else
    match MemberConnection(h, ch.id, ch.ownerId)
    case None => {}
    case Some(owner) => set j | j in ch.pending :: Wrote(owner, JoinRequestEvent(ch.id, ch.pending[j], owner.deviceId))
  }

  function OwnerChangedEvent(channelId: string, to: string, previousOwnerId: string, ownerId: string): Event {
    Event("", OwnerChanged, channelId, "", to, "", Owners(previousOwnerId, ownerId))
  }

  ghost function BroadcastOwnerChanged(h: Hub, ch: Channel, previousOwnerId: string, exclude: string): set<Out> {
    set s | s in h.members && s.0 == ch.id && s.1 != exclude ::
      Wrote(h.members[s], OwnerChangedEvent(ch.id, s.1, previousOwnerId, ch.ownerId))
  }

  function PresenceChangedEvent(ch: Channel, to: string, deviceId: string): Event
    requires deviceId in ch.members
  {
    var m := ch.members[deviceId];
    Event("", PresenceChanged, ch.id, "", to, "", Presence(deviceId, m.deviceName, m.online, ch.ownerId))
  }

  ghost function BroadcastPresenceChanged(h: Hub, ch: Channel, deviceId: string): set<Out> {
    if deviceId !in ch.members then {} else
    set s | s in h.members && s.0 == ch.id && s.1 != deviceId ::
      Wrote(h.members[s], PresenceChangedEvent(ch, s.1, deviceId))
  }

  ghost function EmitPresenceChange(h: Hub, change: PresenceChange, deviceId: string): set<Out> {
    if change.deleted || change.channel.None? || !change.changed then {} else
    var ch := change.channel.value;
    (if change.previousOwnerId != change.currentOwnerId then
       BroadcastOwnerChanged(h, ch, change.previousOwnerId, deviceId) + NotifyOwnerOfPendingJoins(h, ch)
     else {})
    + BroadcastPresenceChanged(h, ch, deviceId)
  }

  // ----- opening connections -----

  /** The second half of the member handshake: the registry learns that the device is online. */
  ghost function FinishMember(h: Hub, c: Connection, previous: Option<Connection>): Effect {
    match SetOnline(h.registry, c.channelId, c.deviceId, true, false)
    case None => Effect(Unregister(h, c), {Closed(c, "member is not registered")}, {})
    case Some((r, change)) =>
      var h1 := h.(registry := r);
      Effect(h1,
             EmitPresenceChange(h1, change, c.deviceId)
             + (if change.channel.Some? && change.previousOwnerId == change.currentOwnerId == c.deviceId
                then NotifyOwnerOfPendingJoins(h1, change.channel.value) else {})
             + ClosePrevious(previous),
             {})
  }

  /** What the owner is told of the join that c waits for, if it is still pending. */
  ghost function JoinNotice(h: Hub, c: Connection): set<Out> {
    match FindChannel(h, c.channelId)
    case None => {}
    case Some(ch) => if c.joinRequestId in ch.pending then NotifyOwnerOfJoin(h, ch, ch.pending[c.joinRequestId]) else {}
  }

  /** The second half of a joiner's handshake: the owner learns that the joiner waits. */
  ghost function FinishPending(h: Hub, c: Connection, previous: Option<Connection>): Effect {
    Effect(h, ClosePrevious(previous) + JoinNotice(h, c), {})
  }

  // ----- reconnect grace -----

  ghost function ClosePendingForChannel(h: Hub, channelId: string): (Hub, set<Out>) {
    (h.(pending := map j | j in h.pending && h.pending[j].channelId != channelId :: h.pending[j]),
     set j | j in h.pending && h.pending[j].channelId == channelId :: Closed(h.pending[j], "channel deleted"))
  }

  ghost function Expire(h: Hub, slot: Slot): Effect {
    var h1 := h.(timers := h.timers - {slot});
    if slot in h1.members then Effect(h1, {}, {}) else
    match SetOnline(h1.registry, slot.0, slot.1, false, true)
    case None => Effect(h1, {}, {})
    case Some((r, change)) =>
      var h2 := h1.(registry := r);
      if change.deleted then
        var (h3, out) := ClosePendingForChannel(h2, slot.0);
        Effect(h3, out, {})
      else Effect(h2, EmitPresenceChange(h2, change, slot.1), {})
  }

  // ----- events from connections -----

  ghost predicate PendingExists(h: Hub, c: Connection) {
    match FindChannel(h, c.channelId)
    case None => false
    case Some(ch) => JoinOf(ch, c.joinRequestId, c.deviceId)
  }

  ghost predicate RegistryMemberExists(h: Hub, c: Connection) {
    match FindChannel(h, c.channelId)
    case None => false
    case Some(ch) => c.deviceId in ch.members
  }

  ghost predicate CanSend(h: Hub, c: Connection) {
    if IsMember(h, c) then CurrentMember(h, c)
    else if PendingExists(h, c) then CurrentPending(h, c)
    else RegistryMemberExists(h, c) && (CurrentPending(h, c) || CurrentMember(h, c))
  }

  /** What happens to an event of a connection that may no longer send. */
  ghost function Reject(h: Hub, c: Connection): Effect {
    if IsMember(h, c) || PendingExists(h, c) then Effect(h, {Closed(c, "connection superseded")}, {})
    else Effect(RemovePending(h, c), {Closed(c, "join request is no longer pending")}, {})
  }

  function ErrorEvent(c: Connection, code: string, replyTo: string): Event {
    Event("", Error, c.channelId, "", c.deviceId, replyTo, Failure(code))
  }

  ghost function SendError(h: Hub, c: Connection, code: string, replyTo: string): Effect {
    Effect(h, {Wrote(c, ErrorEvent(c, code, replyTo))}, {})
  }

  /** conn is what a lookup by device id, or else by the name of an online member, may return. */
  ghost predicate IsTarget(h: Hub, channelId: string, target: string, conn: Option<Connection>) {
    if (channelId, target) in h.members then conn == Some(h.members[(channelId, target)])
    else match conn
      case Some(found) => exists s :: NamedTarget(h, channelId, target, s) && h.members[s] == found
      case None => forall s :: !NamedTarget(h, channelId, target, s)
  }

  ghost predicate NamedTarget(h: Hub, channelId: string, name: string, s: Slot) {
    && s.0 == channelId && s in h.members && channelId in h.registry.channels
    && var members := h.registry.channels[channelId].members;
       s.1 in members && members[s.1].online && members[s.1].deviceName == name
  }

  function PayloadOrEmpty(payload: Payload): Payload {
    if payload.Missing? then Fields("", "") else payload
  }

  function RoutedEvent(c: Connection, e: Event, to: string): Event {
    e.(channelId := c.channelId, from := c.deviceId, to := to, payload := PayloadOrEmpty(e.payload))
  }

  function MessageAckEvent(c: Connection, replyTo: string, deviceId: string): Event {
    Event("", MessageAck, c.channelId, "", c.deviceId, replyTo, Delivered(deviceId))
  }

  ghost function HandleMessageSend(h: Hub, c: Connection, e: Event, x: Choice): Effect {
    if !IsMember(h, c) then SendError(h, c, "unauthorized", e.id)
    else if e.to == "" then SendError(h, c, "invalid_event", e.id)
    else if x.target.None? || !IsMember(h, x.target.value) then SendError(h, c, "unknown_target", e.id)
    else
      var target := x.target.value;
      var routed := RoutedEvent(c, e, target.deviceId);
      if !x.writeOk then
        Effect(h, {Wrote(target, routed), Wrote(c, ErrorEvent(c, "target_unreachable", e.id))}, {})
      else
        Effect(h, {Wrote(target, routed), Wrote(c, MessageAckEvent(c, e.id, target.deviceId))},
               {Routed(c, e.id, target, routed)})
  }

  ghost function HandleMessageBroadcast(h: Hub, c: Connection, e: Event): Effect {
    if !IsMember(h, c) then SendError(h, c, "unauthorized", e.id)
    else
      Effect(h,
             set s | s in h.members && s.0 == c.channelId && s.1 != c.deviceId && IsMember(h, h.members[s]) ::
               Wrote(h.members[s], RoutedEvent(c, e, e.to)),
             {})
  }

  function JoinIdFromPayload(p: Payload): string {
    match p
    case Fields(j, _) => j
    case Decision(j, _, _) => j
    case Waiting(j, _, _) => j
    case Admitted(j, _, _) => j
    case Refused(j, _) => j
    case Status(_, _, _, _, j) => j
    case _ => ""
  }

  function JoinIdFromEvent(e: Event): string {
    if JoinIdFromPayload(e.payload) != "" then JoinIdFromPayload(e.payload) else e.to
  }

  /** join is what the lookup of the decided request, by id or else by device, may return. */
  ghost predicate IsJoin(ch: Channel, e: Event, join: Option<string>) {
    if JoinIdFromEvent(e) in ch.pending then join == Some(JoinIdFromEvent(e))
    else match join
      case Some(j) => e.to != "" && JoinOf(ch, j, e.to)
      case None => e.to == "" || !HasJoinOf(ch, e.to)
  }

  function DecisionAckEvent(c: Connection, replyTo: string, joinId: string, deviceId: string, approved: bool): Event {
    Event("", JoinDecisionAck, c.channelId, "", c.deviceId, replyTo, Decision(joinId, deviceId, approved))
  }

  ghost function HandleJoinDecision(h: Hub, c: Connection, e: Event, approve: bool, x: Choice): Effect {
    if !IsMember(h, c) then SendError(h, c, "unauthorized", e.id)
    else if JoinIdFromEvent(e) == "" then SendError(h, c, "invalid_event", e.id)
    else match FindChannel(h, c.channelId)
      case None => SendError(h, c, "invalid_event", e.id)
      case Some(ch) =>
        if x.join.None? || x.join.value !in ch.pending then SendError(h, c, "unknown_target", e.id)
        else DecideJoin(h, c, e, ch.pending[x.join.value], x.join.value, approve, x)
  }

  ghost function DecideJoin(h: Hub, c: Connection, e: Event, join: JoinRequest, joinId: string, approve: bool, x: Choice)
    : Effect
  {
    match DecideByOwner(h.registry, c.channelId, c.deviceId, joinId, approve)
    case Fail(NotCurrentOwner) => SendError(h, c, "unauthorized", e.id)
    case Fail(_) => SendError(h, c, "invalid_event", e.id)
    case Done(r) => Decide(h.(registry := r), c, e, join, approve, x)
  }

  /** What the waiting connection of an approved device is told. */
  function ApprovedEvent(c: Connection, e: Event, join: JoinRequest, waiting: Connection, token: Option<string>): Event {
    if token.Some? then
      Event("", JoinApproved, c.channelId, c.deviceId, join.deviceId, e.id, Admitted(join.id, join.deviceId, token.value))
    else ErrorEvent(waiting, "internal_error", e.id)
  }

  function DeniedEvent(c: Connection, e: Event, join: JoinRequest): Event {
    Event("", JoinDenied, c.channelId, c.deviceId, join.deviceId, e.id, Refused(join.id, join.deviceId))
  }

  ghost function DenialOut(c: Connection, e: Event, join: JoinRequest, waiting: Connection): set<Out> {
    {Wrote(waiting, DeniedEvent(c, e, join)), Closed(waiting, "join denied")}
  }

  /** A decision that the registry has applied. */
  ghost function Decide(h: Hub, c: Connection, e: Event, join: JoinRequest, approve: bool, x: Choice): Effect {
    var ack := {Wrote(c, DecisionAckEvent(c, e.id, join.id, join.deviceId, approve))};
    var facts := {Decided(c, e.id, join.id, join.deviceId, approve)};
    if join.id !in h.pending then Effect(h, ack, facts)
    else
      var waiting := h.pending[join.id];
      if approve then Admit(h, c, e, join, waiting, x, ack, facts)
      else
        Effect(RemovePending(h, waiting), ack + DenialOut(c, e, join, waiting), facts)
  }

  /** The waiting connection of an approved device becomes its member connection. */
  ghost function Admit(h: Hub, c: Connection, e: Event, join: JoinRequest, waiting: Connection, x: Choice,
                       ack: set<Out>, facts: set<Fact>): Effect
  {
    var h1 := Promote(h, waiting);
    match SetOnline(h1.registry, waiting.channelId, waiting.deviceId, true, false)
    case None =>
      Effect(if CurrentMember(h1, waiting) then h1.(members := h1.members - {SlotOf(waiting)}) else h1,
             ack + {Wrote(waiting, ErrorEvent(waiting, "invalid_event", e.id))}, facts)
    case Some((r, change)) =>
      var h2 := h1.(registry := r);
      Effect(h2,
             ack + ClosePrevious(Previous(h, waiting)) + EmitPresenceChange(h2, change, waiting.deviceId)
             + {Wrote(waiting, ApprovedEvent(c, e, join, waiting, x.token))},
             facts)
  }

  ghost function SendList(h: Hub, c: Connection, replyTo: string): Effect {
    if !IsMember(h, c) then SendError(h, c, "unauthorized", replyTo)
    else match FindChannel(h, c.channelId)
      case None => SendError(h, c, "invalid_event", replyTo)
      case Some(ch) =>
        var members := set d | d in ch.members :: (d, ch.members[d].deviceName, ch.members[d].online, d == ch.ownerId);
        Effect(h, {Wrote(c, Event("", ListResponse, c.channelId, "", c.deviceId, replyTo, Roster(ch.ownerId, members)))}, {})
  }

  ghost function SendStatus(h: Hub, c: Connection, replyTo: string): Effect {
    match FindChannel(h, c.channelId)
    case None => SendError(h, c, "invalid_event", replyTo)
    case Some(ch) =>
      Effect(h, {Wrote(c, Event("", StatusResponse, c.channelId, "", c.deviceId, replyTo,
                                Status(!IsMember(h, c), c.channelId, c.deviceId, ch.ownerId, c.joinRequestId)))}, {})
  }

  /** The choices that the relay's own lookups can produce for an event. */
  ghost predicate ValidChoice(h: Hub, c: Connection, e: Event, x: Choice) {
    && (Routable(e.kind) ==> IsTarget(h, c.channelId, e.to, x.target))
    && ((e.kind.JoinApprove? || e.kind.JoinDeny?) && c.channelId in h.registry.channels ==>
          IsJoin(h.registry.channels[c.channelId], e, x.join))
  }

  ghost function Dispatch(h: Hub, c: Connection, e: Event, x: Choice): Effect {
    if e.channelId != "" && e.channelId != c.channelId then SendError(h, c, "unauthorized", e.id)
    else if Routable(e.kind) then HandleMessageSend(h, c, e, x)
    else if e.kind.MessageBroadcast? then HandleMessageBroadcast(h, c, e)
    else if e.kind.JoinApprove? then HandleJoinDecision(h, c, e, true, x)
    else if e.kind.JoinDeny? then HandleJoinDecision(h, c, e, false, x)
    else if e.kind.ListRequest? then SendList(h, c, e.id)
    else if e.kind.StatusRequest? then SendStatus(h, c, e.id)
    else SendError(h, c, "invalid_event", e.id)
  }

  ghost function HandleEvent(h: Hub, c: Connection, e: Event, x: Choice): Effect {
    if CanSend(h, c) then Dispatch(h, c, e, x) else Reject(h, c)
  }
}
