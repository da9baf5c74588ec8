/** Closing down in every order: when all of them leave nothing behind. */
module RelayOrder {
  import opened Options
  import opened Identifiers
  import opened Protocol
  import opened Connections
  import opened RegistrySpec
  import opened HubSpec
  import opened RelayRuns
  import opened RegistryProofs
  import opened RelayProofs
  import opened RelayEventProofs
  import opened RelayTheorems
  import opened RelayGuarantees
  import opened RelayMaps
  import opened RelayPresence
  import opened RelayPromises
  import opened RelayDrain

  /** The end of the handshake of c would set its device online. */
  ghost predicate WouldComeOnline(w: World, c: Connection) {
    c in w.opening && IsMember(w.hub, c) && Registered(w.hub, c)
  }

  /** Some other device keeps the channel alive, or may yet do so. */
  ghost predicate Company(w: World, slot: Slot) {
    || (exists s: Slot :: s.0 == slot.0 && s != slot && OnlineMember(w.hub, s))
    || (exists c :: c in w.opening && WouldComeOnline(w, c) && c.channelId == slot.0 && SlotOf(c) != slot)
  }

  /**
   * The handshake of c is superseded, and its device is no longer tracked, or may cease to be while others keep the
   * channel alive.
   */
  ghost predicate Overtakable(w: World, c: Connection) {
    && WouldComeOnline(w, c) && !CurrentMember(w.hub, c)
    && ((SlotOf(c) !in w.hub.members && SlotOf(c) !in w.hub.timers) || Company(w, SlotOf(c)))
  }

  ghost predicate Safe(w: World) {
    Present(w) && forall c | c in w.opening :: !Overtakable(w, c)
  }

  // ----- a safe relay stays safe -----

  lemma SafeIsTracked(w: World, c: Connection)
    requires Safe(w) && c in w.opening && IsMember(w.hub, c)
    ensures Tracked(w, c)
  {
    hide Company;
    assert !Overtakable(w, c);
  }

  /** While closing down, nobody becomes a member. */
  lemma RegisteredBefore(w: World, s: Step, c: Connection)
    requires Drains(w, s) && Enabled(w, s) && Registered(Next(w, s).hub, c)
    ensures Registered(w.hub, c)
  {
    hide NoAcks, NotifyOwnerOfPendingJoins, SetOnline, Expire, FinishPending, Unregister, AfterEnd, PresenceSet;
    match s
    case EndMember(o) => MembersAfterEnd(w, o);
    case EndJoiner(o) => EndJoinerHub(w, o);
    case Close(o) => UnregisterKeptRegistry(w.hub, o);
    case Expiry(t) => MembersAfterExpiry(w, t);
  }

  ghost predicate NoNewMembers(r: Registry, r': Registry) {
    forall i | i in r'.channels :: i in r.channels && r'.channels[i].members.Keys <= r.channels[i].members.Keys
  }

  lemma MembersAfterEnd(w: World, c: Connection)
    requires c in w.opening
    ensures NoNewMembers(w.hub.registry, AfterEnd(w, c).hub.registry)
  {
    hide SetOnline, AfterEnd;
    SetOnlineDefined(w.hub.registry, c.channelId, c.deviceId, true, false);
    if Registered(w.hub, c) {
      SetOnlineFacts(w.hub.registry, c.channelId, c.deviceId, true, false);
      EndHub(w, c);
    } else {
      UnregisteredEnd(w, c);
      DropSame(w, c);
    }
  }

  lemma MembersAfterExpiry(w: World, t: Slot)
    ensures NoNewMembers(w.hub.registry, AfterExpiry(w, t).hub.registry)
  {
    hide NoAcks, NotifyOwnerOfPendingJoins, SetOnline, Expire;
    if t in w.hub.members || SetOnline(w.hub.registry, t.0, t.1, false, true).None? {
      QuietExpiry(w.hub, t);
    } else {
      ExpiryOut(w.hub, t);
      SetOnlineFacts(w.hub.registry, t.0, t.1, false, true);
    }
  }

  /** Closing down leaves the other handshakes as they are, and current connections current unless they close. */
  lemma OthersStay(w: World, s: Step, c: Connection)
    requires Drains(w, s) && Enabled(w, s) && !s.Expiry? && c != s.conn
    ensures c in Next(w, s).opening <==> c in w.opening
    ensures IsMember(Next(w, s).hub, c) == IsMember(w.hub, c)
    ensures CurrentMember(Next(w, s).hub, c) == CurrentMember(w.hub, c)
  {
    hide SetOnline, AfterEnd, FinishPending;
    match s
    case EndMember(o) => EndOthers(w, o, c);
    case EndJoiner(o) => EndJoinerHub(w, o);
    case Close(o) =>
  }

  lemma EndOthers(w: World, o: Connection, c: Connection)
    requires o in w.opening && c != o
    ensures var w' := AfterEnd(w, o);
            && w'.opening == w.opening - {o} && w'.hub.promoted == w.hub.promoted
            && CurrentMember(w'.hub, c) == CurrentMember(w.hub, c)
  {
    hide SetOnline, EmitPresenceChange, NotifyOwnerOfPendingJoins;
  }

  lemma OpeningBefore(w: World, s: Step, c: Connection)
    requires Drains(w, s) && Enabled(w, s) && c in Next(w, s).opening
    ensures c in w.opening && IsMember(Next(w, s).hub, c) == IsMember(w.hub, c)
    ensures CurrentMember(w.hub, c) ==> CurrentMember(Next(w, s).hub, c)
    ensures WouldComeOnline(Next(w, s), c) ==> WouldComeOnline(w, c)
  {
    hide AfterEnd, FinishPending, Unregister, Expire, SetOnline, RegistryMemberExists;
    if s.Expiry? {
      ExpiryOthers(w, s.slot);
    } else {
      NotItself(w, s, c);
      OthersStay(w, s, c);
    }
    if WouldComeOnline(Next(w, s), c) {
      RegisteredBefore(w, s, c);
    }
  }

  lemma NotItself(w: World, s: Step, c: Connection)
    requires Drains(w, s) && Enabled(w, s) && !s.Expiry? && c in Next(w, s).opening
    ensures c != s.conn
  {
    hide SetOnline, EmitPresenceChange, NotifyOwnerOfPendingJoins, FinishPending, Unregister;
  }

  /** Who is online after a step was online, or has just ended a handshake. */
  lemma OnlineBefore(w: World, s: Step, slot: Slot)
    requires Drains(w, s) && Enabled(w, s) && OnlineMember(Next(w, s).hub, slot)
    ensures OnlineMember(w.hub, slot) || (s.EndMember? && SlotOf(s.conn) == slot && Registered(w.hub, s.conn))
  {
    hide NoAcks, NotifyOwnerOfPendingJoins, SetOnline, Expire, FinishPending, Unregister, AfterEnd, PresenceSet, OnlineMember;
    match s
    case EndMember(o) =>
      SetOnlineDefined(w.hub.registry, o.channelId, o.deviceId, true, false);
      if Registered(w.hub, o) {
        SetOnlineFacts(w.hub.registry, o.channelId, o.deviceId, true, false);
        EndHub(w, o);
        OnlineSeen(w.hub, AfterEnd(w, o).hub.registry, SlotOf(o), slot);
      } else {
        UnregisteredEnd(w, o);
        DropSame(w, o);
        SameOnline(w.hub, AfterEnd(w, o).hub, slot);
      }
    case EndJoiner(o) => EndJoinerHub(w, o);
    case Close(o) =>
      UnregisterKeptRegistry(w.hub, o);
      SameOnline(w.hub, AfterClose(w, o).hub, slot);
    case Expiry(t) => OnlineBeforeExpiry(w, t, slot);
  }

  lemma CompanyBefore(w: World, s: Step, slot: Slot)
    requires Drains(w, s) && Enabled(w, s) && Company(Next(w, s), slot)
    ensures Company(w, slot)
  {
    hide Drains, Enabled, Next, OnlineMember, WouldComeOnline;
    if o: Slot :| o.0 == slot.0 && o != slot && OnlineMember(Next(w, s).hub, o) {
      OnlineBefore(w, s, o);
      if !OnlineMember(w.hub, o) {
        EndedWas(w, s);
      }
    } else {
      var c :| c in Next(w, s).opening && WouldComeOnline(Next(w, s), c) && c.channelId == slot.0 && SlotOf(c) != slot;
      StillOpening(Next(w, s), c);
      OpeningBefore(w, s, c);
    }
  }

  lemma EndedWas(w: World, s: Step)
    requires Drains(w, s) && s.EndMember? && Registered(w.hub, s.conn)
    ensures WouldComeOnline(w, s.conn)
  {
  }

  lemma StillOpening(w: World, c: Connection)
    requires WouldComeOnline(w, c)
    ensures c in w.opening && IsMember(w.hub, c) && Registered(w.hub, c)
  {
  }

  /** A tracked device of a channel without company is tracked after the step, or its channel is gone. */
  lemma TrackedOrGone(w: World, s: Step, c: Connection)
    requires Inv(w) && Drains(w, s) && Enabled(w, s) && Registered(Next(w, s).hub, c) && !Company(w, SlotOf(c))
    requires SlotOf(c) in w.hub.members || SlotOf(c) in w.hub.timers
    ensures SlotOf(c) in Next(w, s).hub.members || SlotOf(c) in Next(w, s).hub.timers
  {
    hide Inv, SetOnline, EmitPresenceChange, AfterEnd, FinishPending, Expire, Company, Registered;
    match s
    case EndMember(o) => EndKeepsTrack(w, o, SlotOf(c));
    case EndJoiner(o) => EndJoinerHub(w, o);
    case Close(o) => CloseKeepsTrack(w, o, SlotOf(c));
    case Expiry(t) =>
      ExpiryTimers(w.hub, t);
      ExpiryOthers(w, t);
      if t == SlotOf(c) && t !in w.hub.members {
        WithoutCompany(w, SlotOf(c));
        AloneIsGone(w, c);
      }
  }

  lemma WithoutCompany(w: World, slot: Slot)
    requires !Company(w, slot)
    ensures forall s: Slot | s.0 == slot.0 && s != slot :: !OnlineMember(w.hub, s)
  {
  }

  /** When a device without company expires, its channel goes. */
  lemma AloneIsGone(w: World, c: Connection)
    requires Inv(w) && SlotOf(c) !in w.hub.members
    requires forall s: Slot | s.0 == c.channelId && s != SlotOf(c) :: !OnlineMember(w.hub, s)
    ensures !Registered(AfterExpiry(w, SlotOf(c)).hub, c)
  {
    hide Inv, SetOnline, Expire, RegistryInv, OnlineMember;
    var w' := AfterExpiry(w, SlotOf(c));
    if Registered(w'.hub, c) {
      ExpiryKeeps(w, SlotOf(c));
      MembersAfterExpiry(w, SlotOf(c));
      OwnerAfterExpiry(w, SlotOf(c));
      var owner := (c.channelId, w'.hub.registry.channels[c.channelId].ownerId);
      OwnerIsOnline(w', c.channelId);
      ExpiryTakesOffline(w, SlotOf(c));
      OnlineBeforeExpiry(w, SlotOf(c), owner);
    }
  }

  lemma SafeStays(w: World, s: Step)
    requires Inv(w) && Safe(w) && Drains(w, s)
    ensures s.EndMember? ==> Tracked(w, s.conn)
    ensures Safe(Next(w, s))
  {
    hide Inv, Next, Present, Company, Overtakable, Tracked, CurrentMember, Registered;
    DrainsEnabled(w, s);
    if s.EndMember? {
      EndIsOfMember(w, s);
      SafeIsTracked(w, s.conn);
    }
    PresentStays(w, s);
    forall c | c in Next(w, s).opening ensures !Overtakable(Next(w, s), c) {
      NotOvertaken(w, s, c);
    }
  }

  lemma EndIsOfMember(w: World, s: Step)
    requires Drains(w, s) && s.EndMember?
    ensures s.conn in w.opening && IsMember(w.hub, s.conn)
  {
  }

  lemma NotOvertaken(w: World, s: Step, c: Connection)
    requires Inv(w) && Safe(w) && Drains(w, s) && Enabled(w, s) && c in Next(w, s).opening
    ensures !Overtakable(Next(w, s), c)
  {
    hide Inv, Next, Present, Company, Drains, Enabled, CurrentMember, Registered;
    OpeningBefore(w, s, c);
    assert !Overtakable(w, c);
    if WouldComeOnline(Next(w, s), c) && !CurrentMember(Next(w, s).hub, c) {
      StillOpening(Next(w, s), c);
      TrackedOrGone(w, s, c);
      if Company(Next(w, s), SlotOf(c)) {
        CompanyBefore(w, s, SlotOf(c));
      }
    }
  }

  lemma {:induction false} SafeUntil(vs: seq<World>, closing: seq<Step>, k: nat)
    requires ClosingDown(vs, closing) && k < |vs| && Inv(vs[0]) && Safe(vs[0])
    ensures Safe(vs[k]) && forall i | 0 <= i < k && closing[i].EndMember? :: Tracked(vs[i], closing[i].conn)
  {
    hide Inv, Enabled, Next, Drains, Safe, Tracked;
    if k > 0 {
      SafeUntil(vs, closing, k - 1);
      ClosingKeeps(vs, closing, k - 1);
      assert Closes(vs, closing, k - 1);
      SafeStays(vs[k - 1], closing[k - 1]);
    }
  }

  // ----- a relay that is not safe can be closed down badly -----

  /** From w, closing down until no socket is open and no timer armed. */
  ghost predicate ClosesDown(w: World, vs: seq<World>, closing: seq<Step>) {
    && ClosingDown(vs, closing) && vs[0] == w
    && vs[|closing|].open == {} && vs[|closing|].hub.timers == {}
  }

  lemma Prepended(w: World, s: Step, vs: seq<World>, closing: seq<Step>)
    requires Drains(w, s) && Enabled(w, s) && ClosesDown(Next(w, s), vs, closing)
    ensures ClosesDown(w, [w] + vs, [s] + closing) && ([w] + vs)[|[s] + closing|] == vs[|closing|]
  {
    hide Drains, Enabled, Next;
    var ws, steps := [w] + vs, [s] + closing;
    forall i | 0 <= i < |steps| ensures Closes(ws, steps, i) {
      if i > 0 {
        assert Closes(vs, closing, i - 1);
      }
    }
  }

  /** Closing down can always be completed. */
  lemma {:induction false} SomeClosing(w: World) returns (vs: seq<World>, closing: seq<Step>)
    requires Inv(w)
    ensures ClosesDown(w, vs, closing)
    decreases Measure(w)
  {
    hide Inv, Enabled, Next, Drains, Measure;
    if w.open == {} && w.hub.timers == {} {
      vs, closing := [w], [];
    } else {
      var s := DrainProgress(w);
      DrainStepDecreases(w, s);
      NextKeeps(w, s);
      var vs', closing' := SomeClosing(Next(w, s));
      Prepended(w, s, vs', closing');
      vs, closing := [w] + vs', [s] + closing';
    }
  }

  /** Closing down from w after the step s. */
  lemma After(w: World, s: Step, vs: seq<World>, closing: seq<Step>) returns (vs': seq<World>, closing': seq<Step>)
    requires Inv(w) && Drains(w, s) && Enabled(w, s) && ClosesDown(Next(w, s), vs, closing) && !Empty(vs[|closing|].hub)
    ensures ClosesDown(w, vs', closing') && !Empty(vs'[|closing'|].hub)
  {
    hide Inv, Drains, Enabled, Next, Empty;
    Prepended(w, s, vs, closing);
    vs', closing' := [w] + vs, [s] + closing;
  }

  lemma LostNeverEnds(w: World, slot: Slot) returns (vs: seq<World>, closing: seq<Step>)
    requires Inv(w) && Lost(w, slot)
    ensures ClosesDown(w, vs, closing) && !Empty(vs[|closing|].hub)
  {
    hide Inv, Lost, Empty, Closes;
    vs, closing := SomeClosing(w);
    LostForever(vs, closing, 0, |closing|, slot);
    LostIsSomething(vs[|closing|], slot);
  }

  lemma OvertakenNow(w: World, c: Connection) returns (vs: seq<World>, closing: seq<Step>)
    requires Inv(w) && c in w.opening && IsMember(w.hub, c) && !Tracked(w, c)
    ensures ClosesDown(w, vs, closing) && !Empty(vs[|closing|].hub)
  {
    hide Inv, AfterEnd, Lost, Empty, Tracked, ClosesDown;
    UntrackedEndIsLost(w, c);
    NextKeeps(w, EndMember(c));
    vs, closing := LostNeverEnds(Next(w, EndMember(c)), SlotOf(c));
    vs, closing := After(w, EndMember(c), vs, closing);
  }

  /** Its device has no connection, and another device keeps the channel alive. */
  lemma OvertakenByTimer(w: World, c: Connection, s: Slot) returns (vs: seq<World>, closing: seq<Step>)
    requires Inv(w) && WouldComeOnline(w, c) && SlotOf(c) !in w.hub.members
    requires s.0 == c.channelId && s != SlotOf(c) && OnlineMember(w.hub, s)
    ensures ClosesDown(w, vs, closing) && !Empty(vs[|closing|].hub)
  {
    hide Inv, Expire, SetOnline, Empty, ClosesDown, OnlineMember, RegistryMemberExists;
    if SlotOf(c) in w.hub.timers {
      var step := Expiry(SlotOf(c));
      var w' := Next(w, step);
      OnlineAfterExpiry(w, SlotOf(c), s);
      OnlineHasChannel(w'.hub, s);
      StaysRegistered(w, SlotOf(c), c);
      ExpiryTimers(w.hub, SlotOf(c));
      ExpiryOthers(w, SlotOf(c));
      NextKeeps(w, step);
      vs, closing := OvertakenNow(w', c);
      vs, closing := After(w, step, vs, closing);
    } else {
      vs, closing := OvertakenNow(w, c);
    }
  }

  /** The connection that has superseded c may still close. */
  lemma OvertakenByClose(w: World, c: Connection, s: Slot) returns (vs: seq<World>, closing: seq<Step>)
    requires Inv(w) && WouldComeOnline(w, c) && !CurrentMember(w.hub, c)
    requires SlotOf(c) in w.hub.members ==> w.hub.members[SlotOf(c)] !in w.opening
    requires s.0 == c.channelId && s != SlotOf(c) && OnlineMember(w.hub, s)
    ensures ClosesDown(w, vs, closing) && !Empty(vs[|closing|].hub)
  {
    hide Inv, Empty, ClosesDown, OnlineMember, RegistryMemberExists;
    if SlotOf(c) in w.hub.members {
      var o := w.hub.members[SlotOf(c)];
      CurrentIsOpen(w, SlotOf(c));
      QuietSteps(w, o);
      CloseDrops(w, o);
      SameOnline(w.hub, AfterClose(w, o).hub, s);
      SameRegistered(w.hub, AfterClose(w, o).hub, c);
      NextKeeps(w, Close(o));
      vs, closing := OvertakenByTimer(AfterClose(w, o), c, s);
      vs, closing := After(w, Close(o), vs, closing);
    } else {
      vs, closing := OvertakenByTimer(w, c, s);
    }
  }

  lemma SameRegistered(h: Hub, h': Hub, c: Connection)
    requires h'.registry == h.registry
    ensures Registered(h', c) == Registered(h, c)
  {
  }

  lemma CurrentIsOpen(w: World, slot: Slot)
    requires Inv(w) && slot in w.hub.members
    ensures var c := w.hub.members[slot]; SlotOf(c) == slot && c in w.open && IsMember(w.hub, c)
  {
    hide RegistryInv, DecidedInv, PendingInv, PresenceInv, KnowsInv, AckInv, SocketsInv;
  }

  lemma CloseDrops(w: World, o: Connection)
    requires CurrentMember(w.hub, o)
    ensures var w' := AfterClose(w, o);
            SlotOf(o) !in w'.hub.members && w'.opening == w.opening && w'.hub.promoted == w.hub.promoted
  {
  }

  /** The handshake of the connection that has superseded c may still have to end. */
  lemma OvertakenByEnd(w: World, c: Connection, s: Slot) returns (vs: seq<World>, closing: seq<Step>)
    requires Inv(w) && WouldComeOnline(w, c) && !CurrentMember(w.hub, c)
    requires s.0 == c.channelId && s != SlotOf(c) && OnlineMember(w.hub, s)
    ensures ClosesDown(w, vs, closing) && !Empty(vs[|closing|].hub)
  {
    hide Inv, AfterEnd, Empty, ClosesDown, OnlineMember, RegistryMemberExists;
    if SlotOf(c) in w.hub.members && w.hub.members[SlotOf(c)] in w.opening {
      var o := w.hub.members[SlotOf(c)];
      CurrentIsOpen(w, SlotOf(c));
      SameDevice(w.hub, o, c);
      EndOfRegistered(w, o, c);
      OnlineAfterEnd(w, o, s);
      NextKeeps(w, EndMember(o));
      vs, closing := OvertakenByClose(AfterEnd(w, o), c, s);
      vs, closing := After(w, EndMember(o), vs, closing);
    } else {
      vs, closing := OvertakenByClose(w, c, s);
    }
  }

  lemma SameDevice(h: Hub, o: Connection, c: Connection)
    requires SlotOf(o) == SlotOf(c)
    ensures Registered(h, o) == Registered(h, c)
  {
  }

  /** The end of another handshake of a registered device leaves c and the connections alone. */
  lemma EndOfRegistered(w: World, o: Connection, c: Connection)
    requires o in w.opening && Registered(w.hub, o) && WouldComeOnline(w, c) && c != o
    ensures var w' := AfterEnd(w, o);
            && WouldComeOnline(w', c) && w'.hub.members == w.hub.members && w'.opening == w.opening - {o}
            && OnlineMember(w'.hub, SlotOf(o))
  {
    hide SetOnline, AfterEnd, PresenceSet, OnlineMember;
    SetOnlineDefined(w.hub.registry, o.channelId, o.deviceId, true, false);
    SetOnlineFacts(w.hub.registry, o.channelId, o.deviceId, true, false);
    EndHub(w, o);
    EndOthers(w, o, c);
    OnlineSeen(w.hub, AfterEnd(w, o).hub.registry, SlotOf(o), SlotOf(o));
    SameOnline(w.hub.(registry := AfterEnd(w, o).hub.registry), AfterEnd(w, o).hub, SlotOf(o));
    MembersStay(w.hub, AfterEnd(w, o).hub, SlotOf(o), c);
  }

  lemma MembersStay(h: Hub, h': Hub, slot: Slot, c: Connection)
    requires PresenceSet(h.registry, h'.registry, slot.0, slot.1, true) && Registered(h, c)
    ensures Registered(h', c)
  {
  }

  lemma OvertakenInCompany(w: World, c: Connection) returns (vs: seq<World>, closing: seq<Step>)
    requires Inv(w) && WouldComeOnline(w, c) && !CurrentMember(w.hub, c) && Company(w, SlotOf(c))
    ensures ClosesDown(w, vs, closing) && !Empty(vs[|closing|].hub)
  {
    hide Inv, AfterEnd, Empty, ClosesDown, OnlineMember, WouldComeOnline;
    if s: Slot :| s.0 == c.channelId && s != SlotOf(c) && OnlineMember(w.hub, s) {
      vs, closing := OvertakenByEnd(w, c, s);
    } else {
      var o :| o in w.opening && WouldComeOnline(w, o) && o.channelId == c.channelId && SlotOf(o) != SlotOf(c);
      StillOpening(w, o);
      EndOfRegistered(w, o, c);
      NextKeeps(w, EndMember(o));
      vs, closing := OvertakenByEnd(AfterEnd(w, o), c, SlotOf(o));
      vs, closing := After(w, EndMember(o), vs, closing);
    }
  }

  lemma BadClosing(w: World) returns (vs: seq<World>, closing: seq<Step>)
    requires Inv(w) && !Safe(w)
    ensures ClosesDown(w, vs, closing) && !Empty(vs[|closing|].hub)
  {
    hide Inv, Present, Empty, ClosesDown, Company, Registered, Lost;
    if !Present(w) {
      var slot := SomeLost(w);
      vs, closing := LostNeverEnds(w, slot);
    } else {
      var c :| c in w.opening && Overtakable(w, c);
      if Company(w, SlotOf(c)) {
        vs, closing := OvertakenInCompany(w, c);
      } else {
        vs, closing := OvertakenNow(w, c);
      }
    }
  }

  /**
   * From every state of every run: each way of closing down leaves nothing behind if and only if every online device is
   * connected or in its grace period, and no unfinished handshake can be overtaken.
   */
  lemma EveryClosingLeavesNothing(ws: seq<World>, steps: seq<Step>, k: nat)
    requires Behaviour(ws, steps) && k < |ws|
    ensures (forall vs: seq<World>, closing: seq<Step> | ClosesDown(ws[k], vs, closing) :: Empty(vs[|closing|].hub)) <==> Safe(ws[k])
  {
    hide Inv, Goes, Empty, Safe, Present, Tracked, Closes;
    Always(ws, steps, k);
    if Safe(ws[k]) {
      SafeIsPresent(ws[k]);
      forall vs: seq<World>, closing: seq<Step> | ClosesDown(ws[k], vs, closing) ensures Empty(vs[|closing|].hub) {
        SafeUntil(vs, closing, |closing|);
        NoImmortalChannel(ws, steps, k, vs, closing);
      }
    } else {
      var vs, closing := BadClosing(ws[k]);
    }
  }

  lemma SafeIsPresent(w: World)
    requires Safe(w)
    ensures Present(w)
  {
  }
}
