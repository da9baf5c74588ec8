/** The running relay: every method of the hub is one step of the run model, so its invariant always holds. */
module RelayServer {
  import opened Options
  import opened Protocol
  import opened Connections
  import Spec = RegistrySpec
  import opened HubSpec
  import opened RelayRuns
  import RelayProofs
  import RelayTheorems
  import RelayHub

  ghost function Elements(log: multiset<Out>): set<Out> {
    set o | o in log
  }

  lemma ElementsGrow(log: multiset<Out>, out: set<Out>)
    ensures Elements(log + multiset(out)) == Elements(log) + out
  {
  }

  ghost function AfterOpen(w: World, c: Connection): World {
    if c.claimed.MemberRole? then AfterEnd(AfterBegin(w, c), c) else AfterEndJoiner(AfterBeginJoiner(w, c), c)
  }

  class Relay {
    const hub: RelayHub.Hub
    /** The state of the run model that the objects represent, with its history. */
    ghost var world: World

    ghost predicate Valid()
      reads this, hub, hub.registry, hub.registry.channels.Values, hub.conns
    {
      && hub.Valid() && Inv(world)
      && hub.State() == world.hub && hub.conns == world.seen
      && Elements(hub.log) == world.sent && hub.facts == world.facts
    }

    constructor ()
      ensures Valid() && world == Start()
      ensures fresh(hub) && fresh(hub.registry) && fresh(hub.registry.channels.Values)
    {
      hide Inv, RelayHub.Hub.State, RelayHub.Hub.Valid;
      hub := new RelayHub.Hub();
      world := Start();
      RelayProofs.StartKeeps();
    }

    /** POST /connect: the channel or the join request is found or made, and a creator gets a grace timer. */
    method HandleConnect(name: string, pin: string, deviceId: string, deviceName: string) returns (result: Spec.ConnectResult)
      requires Valid() && deviceId != ""
      modifies this, hub`offlineTimers, hub.registry, hub.registry.channels.Values
      ensures Valid() && fresh(hub.registry.channels.Values - old(hub.registry.channels.Values))
      ensures Spec.Indexed(old(world).hub.registry)
      ensures world == AfterHttpConnect(old(world), name, pin, deviceId, deviceName)
      ensures result == Spec.Connect(old(world).hub.registry, name, pin, deviceId, deviceName).1
    {
      hide Inv, Spec.Connect, Elements, RelayHub.Hub.State, RelayHub.Hub.Valid, Spec.Indexed, HubSpec.ScheduleOfflineExpiry;
      hub.RegistryPart();
      result := hub.Connect(name, pin, deviceId, deviceName);
      RelayProofs.HttpConnectKeeps(world, name, pin, deviceId, deviceName);
      if result.Created? {
        hub.ScheduleOfflineExpiry(result.channelId, deviceId);
      }
      world := AfterHttpConnect(world, name, pin, deviceId, deviceName);
    }

    /** The WebSocket handshake as one step. */
    method Serve(c: Connection) returns (accepted: bool)
      requires Valid() && c !in world.seen && c.role == c.claimed
      modifies this, hub, hub.registry, hub.registry.channels.Values
      ensures Valid() && hub.registry.channels.Values <= old(hub.registry.channels.Values)
      ensures accepted <==> ValidMemberClaims(old(world).hub, c) || ValidPendingClaims(old(world).hub, c)
      ensures world == if accepted then AfterOpen(old(world), c) else old(world)
    {
      hide Inv, Elements, RelayHub.Hub.State, RelayHub.Hub.Valid, RegisterMember, Previous, FinishMember, RegisterPending, PreviousPending, FinishPending;
      hide RelayHub.Hub.ValidateClaims, HubSpec.RegistryMemberExists, HubSpec.PendingExists, AfterOpen;
      ghost var effect := OpenEffect(world.hub, c);
      OpenIsStep(world, c);
      ElementsGrow(hub.log, effect.out);
      accepted := hub.Open(c);
      if accepted {
        OpenKeeps(world, c);
        world := AfterOpen(world, c);
      }
    }

    /** The first half of a handshake, when other steps come before its second half. */
    method BeginServing(c: Connection) returns (previous: Option<Connection>)
      requires Valid() && c !in world.seen && c.role == c.claimed && (c.claimed.PendingRole? ==> Vouched(world.hub.registry, c))
      modifies this, hub
      ensures Valid() && c in world.opening && previous == world.opening[c]
      ensures world == if c.claimed.MemberRole? then AfterBegin(old(world), c) else AfterBeginJoiner(old(world), c)
    {
      hide Inv, Elements, RelayHub.Hub.State, RelayHub.Hub.Valid, RegisterMember, Previous, RegisterPending, PreviousPending, Vouched;
      previous := hub.Register(c);
      if c.claimed.MemberRole? {
        RelayProofs.BeginKeeps(world, c);
        world := AfterBegin(world, c);
      } else {
        RelayProofs.BeginJoinerKeeps(world, c);
        world := AfterBeginJoiner(world, c);
      }
    }

    /** The second half, by the role that the connection has by now. */
    method EndServing(c: Connection, previous: Option<Connection>) returns (served: bool)
      requires Valid() && c in world.opening && previous == world.opening[c]
      modifies this, hub, hub.registry, hub.registry.channels.Values
      ensures Valid() && hub.registry.channels.Values <= old(hub.registry.channels.Values)
      ensures served <==> !IsMember(old(world).hub, c) || Registered(old(world).hub, c)
      ensures world == if IsMember(old(world).hub, c) then AfterEnd(old(world), c) else AfterEndJoiner(old(world), c)
    {
      hide Inv, Elements, RelayHub.Hub.State, RelayHub.Hub.Valid, FinishMember, FinishPending, IsMember, HubSpec.RegistryMemberExists;
      OpeningAreSeen(world);
      ghost var effect := EndEffect(world.hub, c, previous);
      ElementsGrow(hub.log, effect.out);
      EndIsStep(world, c);
      served := hub.Finish(c, previous);
      world := AfterEnding(world, c);
    }

    method Receive(c: Connection, e: Event) returns (ghost x: Choice)
      requires Valid() && c in world.open && c !in world.opening
      modifies this, hub, hub.registry, hub.registry.channels.Values, hub.conns
      ensures Valid() && hub.registry.channels.Values <= old(hub.registry.channels.Values)
      ensures ValidChoice(old(world).hub, c, e, x) && world == AfterReceive(old(world), c, e, x)
    {
      hide Inv, Elements, RelayHub.Hub.State, RelayHub.Hub.Valid, HandleEvent, ValidChoice, Record, AfterReceive;
      OpenAreSeen(world);
      x := hub.HandleEvent(c, e);
      ElementsGrow(old(hub.log), HandleEvent(world.hub, c, e, x).out);
      ReceiveIsStep(world, c, e, x);
      world := AfterReceive(world, c, e, x);
    }

    method Close(c: Connection)
      requires Valid() && c in world.open && c !in world.opening
      modifies this, hub
      ensures Valid() && world == AfterClose(old(world), c)
    {
      hide Inv, Elements, RelayHub.Hub.State, RelayHub.Hub.Valid, Unregister;
      RelayTheorems.NextKeeps(world, RelayRuns.Close(c));
      hub.Unregister(c);
      world := AfterClose(world, c);
    }

    /** A timer callback, also one that was stopped too late. */
    method Expire(channelId: string, deviceId: string)
      requires Valid()
      modifies this, hub, hub.registry, hub.registry.channels.Values
      ensures Valid() && hub.registry.channels.Values <= old(hub.registry.channels.Values)
      ensures world == AfterExpiry(old(world), (channelId, deviceId))
    {
      hide Inv, Elements, RelayHub.Hub.State, RelayHub.Hub.Valid, HubSpec.Expire;
      RelayTheorems.NextKeeps(world, Expiry((channelId, deviceId)));
      ElementsGrow(hub.log, HubSpec.Expire(world.hub, (channelId, deviceId)).out);
      ExpiryIsQuiet(world.hub, (channelId, deviceId));
      hub.ExpireOfflineMember(channelId, deviceId);
      world := AfterExpiry(world, (channelId, deviceId));
    }
  }

  lemma OpenAreSeen(w: World)
    requires Inv(w)
    ensures w.open <= w.seen
  {
    hide RegistryInv, DecidedInv, MembersInv, PendingInv, PresenceInv, KnowsInv, AckInv;
  }

  lemma OpeningAreSeen(w: World)
    requires Inv(w)
    ensures w.opening.Keys <= w.seen
  {
    hide RegistryInv, DecidedInv, MembersInv, PendingInv, PresenceInv, KnowsInv, AckInv;
  }

  ghost function EndEffect(h: HubSpec.Hub, c: Connection, previous: Option<Connection>): Effect {
    if IsMember(h, c) then FinishMember(h, c, previous) else FinishPending(h, c, previous)
  }

  ghost function AfterEnding(w: World, c: Connection): World
    requires c in w.opening
  {
    if IsMember(w.hub, c) then AfterEnd(w, c) else AfterEndJoiner(w, c)
  }

  lemma EndIsStep(w: World, c: Connection)
    requires Inv(w) && c in w.opening
    ensures Inv(AfterEnding(w, c))
    ensures var effect := EndEffect(w.hub, c, w.opening[c]); var w' := AfterEnding(w, c);
            w'.hub == effect.hub && w'.sent == w.sent + effect.out && w'.facts == w.facts && w'.seen == w.seen
  {
    hide Inv, AfterEnd, AfterEndJoiner, FinishMember, FinishPending, IsMember;
    if IsMember(w.hub, c) {
      RelayTheorems.EndKeeps(w, c);
      MemberEndIsStep(w, c);
    } else {
      RelayProofs.EndJoinerKeeps(w, c);
      JoinerEndIsStep(w, c);
    }
  }

  lemma MemberEndIsStep(w: World, c: Connection)
    requires c in w.opening
    ensures var effect := FinishMember(w.hub, c, w.opening[c]); var w' := AfterEnd(w, c);
            w'.hub == effect.hub && w'.sent == w.sent + effect.out && w'.facts == w.facts && w'.seen == w.seen
  {
    FinishIsQuiet(w.hub, c, w.opening[c]);
    hide FinishMember, Tracked, HubSpec.RegistryMemberExists;
  }

  lemma JoinerEndIsStep(w: World, c: Connection)
    requires c in w.opening
    ensures var effect := FinishPending(w.hub, c, w.opening[c]); var w' := AfterEndJoiner(w, c);
            w'.hub == effect.hub && w'.sent == w.sent + effect.out && w'.facts == w.facts && w'.seen == w.seen
  {
    hide JoinNotice, ClosePrevious;
  }

  ghost function OpenEffect(h: HubSpec.Hub, c: Connection): Effect {
    if c.claimed.MemberRole? then FinishMember(RegisterMember(h, c), c, Previous(h, c))
    else FinishPending(RegisterPending(h, c), c, PreviousPending(h, c))
  }

  lemma OpenIsStep(w: World, c: Connection)
    ensures var effect := OpenEffect(w.hub, c);
            var w' := AfterOpen(w, c);
            && w'.hub == effect.hub && w'.sent == w.sent + effect.out && w'.facts == w.facts && w'.seen == w.seen + {c}
  {
    hide AfterEnd, AfterEndJoiner, FinishMember, FinishPending, RegisterMember, Previous, RegisterPending, PreviousPending;
    if c.claimed.MemberRole? {
      MemberEndIsStep(AfterBegin(w, c), c);
    } else {
      JoinerEndIsStep(AfterBeginJoiner(w, c), c);
    }
  }

  lemma OpenKeeps(w: World, c: Connection)
    requires Inv(w) && c !in w.seen && (ValidMemberClaims(w.hub, c) || ValidPendingClaims(w.hub, c))
    ensures Inv(AfterOpen(w, c))
  {
    hide Inv, AfterEnd, AfterBegin, AfterBeginJoiner, AfterEndJoiner, HubSpec.RegistryMemberExists, HubSpec.PendingExists;
    RelayTheorems.NextKeeps(w, if c.claimed.MemberRole? then OpenMember(c) else OpenJoiner(c));
  }

  lemma FinishIsQuiet(h: HubSpec.Hub, c: Connection, previous: Option<Connection>)
    ensures FinishMember(h, c, previous).facts == {}
  {
    hide Spec.SetOnline, EmitPresenceChange, NotifyOwnerOfPendingJoins, Unregister;
  }

  lemma ExpiryIsQuiet(h: HubSpec.Hub, slot: Slot)
    ensures HubSpec.Expire(h, slot).facts == {}
  {
    hide Spec.SetOnline, EmitPresenceChange;
  }

  lemma ReceiveIsStep(w: World, c: Connection, e: Event, x: Choice)
    requires Inv(w) && c in w.open && c !in w.opening && ValidChoice(w.hub, c, e, x)
    ensures Inv(AfterReceive(w, c, e, x))
    ensures var w' := AfterReceive(w, c, e, x); var effect := HandleEvent(w.hub, c, e, x);
            w'.hub == effect.hub && w'.sent == w.sent + effect.out && w'.facts == w.facts + effect.facts && w'.seen == w.seen
  {
    hide Inv, HandleEvent, ValidChoice;
    RelayTheorems.NextKeeps(w, RelayRuns.Receive(c, e, x));
  }
}
