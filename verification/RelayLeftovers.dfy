/** Runs from the start after which the hub's maps mention what is gone. */
module RelayLeftovers {
  import opened Options
  import opened Identifiers
  import opened Protocol
  import opened Connections
  import opened RegistrySpec
  import opened HubSpec
  import opened RelayRuns
  import opened RegistryProofs
  import opened RelayProofs
  import opened RelayTheorems
  import opened RelayGuarantees
  import opened RelayMaps
  import opened RelayTimers
  import opened RelayPresence
  import opened RelayPromises
  import opened RelayOrder
  import opened RelayRace

  /** The run of Meeting, with what holds before and after the approval. */
  lemma MeetingTrace(name: string, pin: string, a: Connection, d: string) returns (ws: seq<World>)
    requires a.deviceId != "" && d != "" && d != a.deviceId
    requires a.channelId == ChannelIdForKey(ChannelKey(name, pin)) && a.claimed.MemberRole?
    ensures Behaviour(ws, Meeting(name, pin, a, d)) && |ws| == 5 && Met(ws[4], a, d)
    ensures forall c: Connection | c.claimed.PendingRole? && SlotOf(c) == (a.channelId, d) && c.joinRequestId == JoinId(a.channelId, d, 1) ::
              ValidPendingClaims(ws[3].hub, c)
  {
    hide Inv, CanRun, Run, Goes, States, Met, OneChannel, OnlyConnection, ValidPendingClaims;
    var steps := Meeting(name, pin, a, d);
    MeetingAsked(name, pin, a, d);
    MeetingRuns(name, pin, a, d);
    ws := States(Start(), steps);
    StatesFollow(Start(), steps);
    assert steps == steps[..3] + steps[3..];
    StatesPrefix(Start(), steps[..3], steps[3..]);
    forall c: Connection | c.claimed.PendingRole? && SlotOf(c) == (a.channelId, d) && c.joinRequestId == JoinId(a.channelId, d, 1)
      ensures ValidPendingClaims(ws[3].hub, c)
    {
      AskedIsValid(ws[3], name, pin, a, d, c);
    }
  }

  lemma AskedIsValid(w: World, name: string, pin: string, a: Connection, d: string, c: Connection)
    requires a.channelId == ChannelIdForKey(ChannelKey(name, pin))
    requires var j := JoinId(a.channelId, d, 1);
             OneChannel(w, name, pin, map[a.deviceId := Member("A", true, 1)],
                        map[j := RegistrySpec.JoinRequest(j, a.channelId, d, "B")], a.deviceId, 1)
    requires c.claimed.PendingRole? && SlotOf(c) == (a.channelId, d) && c.joinRequestId == JoinId(a.channelId, d, 1)
    ensures ValidPendingClaims(w.hub, c)
  {
  }

  /** A run goes on with one more step. */
  lemma OneMore(ws: seq<World>, steps: seq<Step>, s: Step)
    requires Behaviour(ws, steps) && Enabled(ws[|steps|], s)
    ensures Behaviour(ws + [Next(ws[|steps|], s)], steps + [s])
  {
    hide Enabled, Next;
    var vs, more := ws + [Next(ws[|steps|], s)], steps + [s];
    forall i | 0 <= i < |more| ensures Goes(vs, more, i) {
      if i < |steps| {
        assert Goes(ws, steps, i);
        assert vs[i] == ws[i] && vs[i + 1] == ws[i + 1] && more[i] == steps[i];
      }
    }
  }

  // ----- a joiner that is registered late -----

  /**
   * c's claims pass the check while its join is pending; the owner approves the join; then c is registered, and waits for
   * a join that is not pending and never will be again.
   */
  lemma LateJoiner(name: string, pin: string, a: Connection, c: Connection) returns (ws: seq<World>, steps: seq<Step>)
    requires a.deviceId != "" && c.deviceId != "" && c.deviceId != a.deviceId && c.channelId == a.channelId
    requires a.channelId == ChannelIdForKey(ChannelKey(name, pin)) && a.claimed.MemberRole?
    requires c.claimed.PendingRole? && c.joinRequestId == JoinId(a.channelId, c.deviceId, 1)
    ensures Behaviour(ws, steps) && steps == Meeting(name, pin, a, c.deviceId) + [BeginJoiner(c)]
    ensures ValidPendingClaims(ws[3].hub, c)
    ensures CurrentPending(ws[5].hub, c) && !PendingExists(ws[5].hub, c)
  {
    hide Inv, Goes, Met, Meeting, ValidPendingClaims, PendingExists, Vouched;
    var meeting := Meeting(name, pin, a, c.deviceId);
    ws := MeetingTrace(name, pin, a, c.deviceId);
    ClaimsStayVouched(ws, meeting, 3, 4, c);
    Always(ws, meeting, 4);
    MetMeans(ws[4], a, c.deviceId);
    MemberWaitsForNothing(ws[4], c);
    OneMore(ws, meeting, BeginJoiner(c));
    steps := meeting + [BeginJoiner(c)];
    ws := ws + [AfterBeginJoiner(ws[4], c)];
    NowPending(ws[4], c);
  }

  lemma MemberWaitsForNothing(w: World, c: Connection)
    requires Inv(w) && Registered(w.hub, c)
    ensures !PendingExists(w.hub, c)
  {
    hide Inv, RegistryInv;
    InvRegistry(w);
    ChannelFacts(w.hub.registry, w.lives, c.channelId);
  }

  lemma NowPending(w: World, c: Connection)
    ensures CurrentPending(AfterBeginJoiner(w, c).hub, c)
    ensures PendingExists(AfterBeginJoiner(w, c).hub, c) == PendingExists(w.hub, c)
  {
  }

  // ----- a timer for nobody -----

  /** While the first handshake of d's connection is under way, the only other device goes, and the channel with it. */
  ghost function Leaving(a: Connection, c: Connection): seq<Step> {
    [BeginMember(c), Close(a), Expiry(SlotOf(a)), EndMember(c)]
  }

  /**
   * The channel is deleted while c's handshake is under way: it fails, and arms a timer for a device and a channel that
   * are gone.
   */
  lemma LeftoverTimer(name: string, pin: string, a: Connection, c: Connection) returns (ws: seq<World>, steps: seq<Step>)
    requires a.deviceId != "" && c.deviceId != "" && c.deviceId != a.deviceId && c.channelId == a.channelId
    requires a.channelId == ChannelIdForKey(ChannelKey(name, pin)) && a.claimed.MemberRole? && c.claimed.MemberRole?
    ensures Behaviour(ws, steps) && steps == Meeting(name, pin, a, c.deviceId) + Leaving(a, c)
    ensures StaleTimer(ws[8].hub, SlotOf(c)) && c.channelId !in ws[8].hub.registry.channels
  {
    hide Inv, Goes, Met, Meeting, AfterBegin, AfterEnd, AfterClose, AfterExpiry, OnlineMember, RegistryMemberExists, CurrentMember;
    hide StaleTimer;
    var meeting := Meeting(name, pin, a, c.deviceId);
    var ms := MeetingTrace(name, pin, a, c.deviceId);
    Always(ms, meeting, 4);
    MetBegins(ms[4], a, c);
    OneMore(ms, meeting, BeginMember(c));
    var w1 := AfterBegin(ms[4], c);
    BegunCloses(w1, a, c);
    OneMore(ms + [w1], meeting + [BeginMember(c)], Close(a));
    var w2 := AfterClose(w1, a);
    BeginKeeps(ms[4], c);
    CloseKeeps(w1, a);
    AloneExpires(w2, a, c);
    OneMore(ms + [w1] + [w2], meeting + [BeginMember(c)] + [Close(a)], Expiry(SlotOf(a)));
    var w3 := AfterExpiry(w2, SlotOf(a));
    ExpiryOthers(w2, SlotOf(a));
    OneMore(ms + [w1] + [w2] + [w3], meeting + [BeginMember(c)] + [Close(a)] + [Expiry(SlotOf(a))], EndMember(c));
    FailsAtLast(w3, c);
    ws := ms + [w1] + [w2] + [w3] + [AfterEnd(w3, c)];
    steps := meeting + [BeginMember(c)] + [Close(a)] + [Expiry(SlotOf(a))] + [EndMember(c)];
  }

  /** Two handshakes later: c is registered, a is the only device online. */
  ghost predicate Begun(w: World, a: Connection, c: Connection) {
    && CurrentMember(w.hub, a) && CurrentMember(w.hub, c) && a in w.open && a !in w.opening && c in w.opening
    && Registered(w.hub, a)
    && forall s: Slot | s.0 == a.channelId && s != SlotOf(a) :: !OnlineMember(w.hub, s)
  }

  lemma MetBegins(w: World, a: Connection, c: Connection)
    requires Met(w, a, c.deviceId) && c.channelId == a.channelId && c.deviceId != a.deviceId && c.claimed.MemberRole?
    ensures Enabled(w, BeginMember(c)) && Begun(AfterBegin(w, c), a, c)
  {
    assert SlotOf(c) != SlotOf(a) && c != a;
    forall s: Slot | s.0 == a.channelId && s != SlotOf(a) ensures !OnlineMember(AfterBegin(w, c).hub, s) {
      if s.1 in w.hub.registry.channels[a.channelId].members {
        assert s.1 in {a.deviceId, c.deviceId};
      }
    }
  }

  lemma BegunCloses(w: World, a: Connection, c: Connection)
    requires Begun(w, a, c) && c.channelId == a.channelId && c.deviceId != a.deviceId
    ensures Enabled(w, Close(a))
    ensures var w' := AfterClose(w, a);
            && SlotOf(a) !in w'.hub.members && CurrentMember(w'.hub, c) && c in w'.opening
            && Registered(w'.hub, a) && w'.hub.promoted == w.hub.promoted
            && forall s: Slot | s.0 == a.channelId && s != SlotOf(a) :: !OnlineMember(w'.hub, s)
  {
    hide OnlineMember, RegistryMemberExists;
    CloseTimers(w, a);
    SameRegistered(w.hub, AfterClose(w, a).hub, a);
    forall s: Slot | s.0 == a.channelId && s != SlotOf(a) ensures !OnlineMember(AfterClose(w, a).hub, s) {
      SameOnline(w.hub, AfterClose(w, a).hub, s);
    }
  }

  /** When the only device online expires, the channel is deleted. */
  lemma AloneExpires(w: World, a: Connection, c: Connection)
    requires Inv(w) && SlotOf(a) !in w.hub.members && Registered(w.hub, a) && c.channelId == a.channelId
    requires forall s: Slot | s.0 == a.channelId && s != SlotOf(a) :: !OnlineMember(w.hub, s)
    ensures a.channelId !in AfterExpiry(w, SlotOf(a)).hub.registry.channels && !Registered(AfterExpiry(w, SlotOf(a)).hub, c)
    ensures CurrentMember(w.hub, c) ==> CurrentMember(AfterExpiry(w, SlotOf(a)).hub, c)
  {
    hide Inv, AfterExpiry, OnlineMember;
    ExpiryOthers(w, SlotOf(a));
    AloneIsGone(w, a);
    if a.channelId in AfterExpiry(w, SlotOf(a)).hub.registry.channels {
      StaysRegistered(w, SlotOf(a), a);
    }
  }

  lemma FailsAtLast(w: World, c: Connection)
    requires c in w.opening && CurrentMember(w.hub, c) && c.channelId !in w.hub.registry.channels
    ensures StaleTimer(AfterEnd(w, c).hub, SlotOf(c)) && c.channelId !in AfterEnd(w, c).hub.registry.channels
  {
    hide AfterEnd;
    FailureTimers(w, c);
  }
}
