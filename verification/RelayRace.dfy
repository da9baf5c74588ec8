/** What an interrupted member handshake can do: lose track of a device, or forget to close a connection. */
module RelayRace {
  import opened Options
  import opened Identifiers
  import opened Protocol
  import opened Connections
  import opened RegistrySpec
  import opened HubSpec
  import opened RelayRuns
  import opened RegistryProofs
  import opened RelayProofs
  import opened RelayEventProofs
  import opened RelayTheorems
  import opened RelayGuarantees
  import opened RelayMaps
  import opened RelayPresence
  import opened RelayPromises
  import opened RelayDrain

  // ----- how a handshake ends up untracked -----

  /** A second handshake of the device begins, ends, closes and expires while the first one is under way. */
  ghost function Overtaking(c: Connection, c': Connection): seq<Step> {
    [BeginMember(c), BeginMember(c'), EndMember(c'), Close(c'), Expiry(SlotOf(c'))]
  }

  /** The steps can be taken one after the other. */
  ghost predicate CanRun(w: World, steps: seq<Step>)
    decreases |steps|
  {
    steps == [] || (Enabled(w, steps[0]) && CanRun(Next(w, steps[0]), steps[1..]))
  }

  ghost function Run(w: World, steps: seq<Step>): World
    requires CanRun(w, steps)
    decreases |steps|
  {
    if steps == [] then w else Run(Next(w, steps[0]), steps[1..])
  }

  lemma RunNothing(w: World)
    ensures CanRun(w, []) && Run(w, []) == w
  {
  }

  lemma RunCons(w: World, s: Step, rest: seq<Step>)
    requires Enabled(w, s) && CanRun(Next(w, s), rest)
    ensures CanRun(w, [s] + rest) && Run(w, [s] + rest) == Run(Next(w, s), rest)
  {
    hide Enabled, Next;
    assert ([s] + rest)[1..] == rest;
  }

  lemma BegunFacts(w: World, c: Connection, other: string)
    requires Registered(w.hub, c) && OnlineMember(w.hub, (c.channelId, other))
    ensures var w' := AfterBegin(w, c);
            && Registered(w'.hub, c) && OnlineMember(w'.hub, (c.channelId, other)) && CurrentMember(w'.hub, c)
            && w'.hub.registry == w.hub.registry && c in w'.open
            && w'.opening.Keys == w.opening.Keys + {c} && w'.seen == w.seen + {c}
  {
  }

  lemma EndedFacts(w: World, c: Connection, c': Connection, other: string)
    requires c in w.opening && c' in w.opening && c != c' && SlotOf(c) == SlotOf(c') && c' in w.open
    requires Registered(w.hub, c') && OnlineMember(w.hub, (c.channelId, other)) && CurrentMember(w.hub, c')
    ensures var w' := AfterEnd(w, c');
            && c in w'.opening && c' !in w'.opening && c' in w'.open && CurrentMember(w'.hub, c')
            && Registered(w'.hub, c') && OnlineMember(w'.hub, (c.channelId, other))
  {
    SetOnlineDefined(w.hub.registry, c'.channelId, c'.deviceId, true, false);
    SetOnlineFacts(w.hub.registry, c'.channelId, c'.deviceId, true, false);
    EndOut(w.hub, c', w.opening[c']);
    hide SetOnline, FinishMember, NoAcks, NotifyOwnerOfPendingJoins;
  }

  lemma ClosedFacts(w: World, c: Connection, c': Connection, other: string)
    requires c in w.opening && c' in w.open && SlotOf(c) == SlotOf(c')
    requires Registered(w.hub, c') && OnlineMember(w.hub, (c.channelId, other)) && CurrentMember(w.hub, c')
    ensures var w' := AfterClose(w, c');
            && c in w'.opening && SlotOf(c) !in w'.hub.members
            && Registered(w'.hub, c) && OnlineMember(w'.hub, (c.channelId, other))
  {
  }

  lemma ExpiredFacts(w: World, c: Connection, other: string)
    requires Inv(w) && c in w.opening && SlotOf(c) !in w.hub.members && other != c.deviceId
    requires Registered(w.hub, c) && OnlineMember(w.hub, (c.channelId, other))
    ensures var w' := AfterExpiry(w, SlotOf(c)); c in w'.opening && !Tracked(w', c)
  {
    var slot := SlotOf(c);
    hide Inv, RegistryInv;
    InvRegistry(w);
    SetOnlineDefined(w.hub.registry, slot.0, slot.1, false, true);
    SetOnlineFacts(w.hub.registry, slot.0, slot.1, false, true);
    ExpiryOut(w.hub, slot);
    if SetOnline(w.hub.registry, slot.0, slot.1, false, true).value.1.deleted {
      NobodyElseOnline(w, slot, (c.channelId, other));
    }
    hide SetOnline, Expire, NoAcks, NotifyOwnerOfPendingJoins;
  }

  /** The five steps of Overtaking can be taken, given what each of them asks for. */
  lemma OvertakingRuns(w: World, c: Connection, c': Connection)
    requires c !in w.seen && c.claimed.MemberRole?
    requires var w1 := AfterBegin(w, c);
             c' !in w1.seen && c'.claimed.MemberRole?
             && var w2 := AfterBegin(w1, c');
                c' in w2.opening && IsMember(w2.hub, c')
                && var w3 := AfterEnd(w2, c'); c' in w3.open && c' !in w3.opening
    ensures CanRun(w, Overtaking(c, c'))
    ensures Run(w, Overtaking(c, c'))
         == AfterExpiry(AfterClose(AfterEnd(AfterBegin(AfterBegin(w, c), c'), c'), c'), SlotOf(c'))
  {
    hide AfterBegin, AfterEnd, AfterClose, AfterExpiry, CanRun, Run;
    var w1 := AfterBegin(w, c);
    var w2 := AfterBegin(w1, c');
    var w3 := AfterEnd(w2, c');
    var w4 := AfterClose(w3, c');
    FiveSteps(w, w1, w2, w3, w4, AfterExpiry(w4, SlotOf(c')),
              BeginMember(c), BeginMember(c'), EndMember(c'), Close(c'), Expiry(SlotOf(c')));
  }

  lemma OvertakenIsUntracked(w: World, c: Connection, c': Connection, other: string)
    requires Inv(w) && c !in w.seen && c' !in w.seen && c != c' && SlotOf(c) == SlotOf(c')
    requires ValidMemberClaims(w.hub, c) && ValidMemberClaims(w.hub, c')
    requires other != c.deviceId && OnlineMember(w.hub, (c.channelId, other))
    ensures CanRun(w, Overtaking(c, c'))
    ensures var w' := Run(w, Overtaking(c, c')); Inv(w') && c in w'.opening && !Tracked(w', c)
  {
    hide Inv, OnlineMember, AfterBegin, AfterEnd, AfterClose, AfterExpiry, CanRun, Run, Tracked, Overtaking, Next, CurrentMember;
    var w1 := AfterBegin(w, c);
    var w2 := AfterBegin(w1, c');
    BeginKeeps(w, c);
    BegunFacts(w, c, other);
    BeginKeeps(w1, c');
    BegunFacts(w1, c', other);
    var w3 := AfterEnd(w2, c');
    EndKeeps(w2, c');
    EndedFacts(w2, c, c', other);
    var w4 := AfterClose(w3, c');
    CloseKeeps(w3, c');
    ClosedFacts(w3, c, c', other);
    var w5 := AfterExpiry(w4, SlotOf(c'));
    ExpiryKeeps(w4, SlotOf(c'));
    ExpiredFacts(w4, c, other);
    OvertakingRuns(w, c, c');
  }

  lemma FiveSteps(w: World, w1: World, w2: World, w3: World, w4: World, w5: World, a: Step, b: Step, c: Step, d: Step, e: Step)
    requires Enabled(w, a) && w1 == Next(w, a) && Enabled(w1, b) && w2 == Next(w1, b) && Enabled(w2, c) && w3 == Next(w2, c)
    requires Enabled(w3, d) && w4 == Next(w3, d) && Enabled(w4, e) && w5 == Next(w4, e)
    ensures CanRun(w, [a, b, c, d, e]) && Run(w, [a, b, c, d, e]) == w5
  {
    hide Enabled, Next, CanRun, Run;
    assert [a, b, c, d, e] == [a] + [b, c, d, e] && [b, c, d, e] == [b] + [c, d, e] && [c, d, e] == [c] + [d, e];
    assert [d, e] == [d] + [e] && [e] == [e] + [];
    RunNothing(w5);
    RunCons(w4, e, []);
    RunCons(w3, d, [e]);
    RunCons(w2, c, [d, e]);
    RunCons(w1, b, [c, d, e]);
    RunCons(w, a, [b, c, d, e]);
  }

  // ----- such a state is reachable -----

  /** Two devices meet in one channel: a creates it and comes online, the other asks to join and is approved. */
  ghost function Meeting(name: string, pin: string, a: Connection, d: string): seq<Step> {
    var approve := Event("1", JoinApprove, "", "", "", "", Fields(JoinId(a.channelId, d, 1), ""));
    [HttpConnect(name, pin, a.deviceId, "A"), OpenMember(a), HttpConnect(name, pin, d, "B"),
     Receive(a, approve, Choice(None, Some(JoinId(a.channelId, d, 1)), true, Some("token")))]
  }

  /** The only channel has these members, joins and owner; a is the only connection, and settled. */
  ghost predicate OneChannel(w: World, name: string, pin: string, members: map<string, Member>,
                             pending: map<string, JoinRequest>, owner: string, joinSeq: nat)
  {
    var key := ChannelKey(name, pin);
    var id := ChannelIdForKey(key);
    && w.hub.registry == Registry(map[id := Channel(id, name, key, members, pending, owner)], map[key := id], joinSeq)
    && w.hub.pending == map[] && w.opening == map[]
  }

  ghost predicate OnlyConnection(w: World, a: Connection) {
    w.hub.members == map[SlotOf(a) := a] && w.open == {a} && w.seen == {a} && w.hub.promoted == {}
  }

  lemma MeetingCreates(name: string, pin: string, d: string)
    requires d != ""
    ensures Enabled(Start(), HttpConnect(name, pin, d, "A"))
    ensures var w := Next(Start(), HttpConnect(name, pin, d, "A"));
            && OneChannel(w, name, pin, map[d := Member("A", false, 1)], map[], "", 0)
            && w.hub.members == map[] && w.open == {} && w.seen == {} && w.hub.promoted == {}
  {
  }

  lemma MeetingOpens(w: World, name: string, pin: string, a: Connection)
    requires OneChannel(w, name, pin, map[a.deviceId := Member("A", false, 1)], map[], "", 0)
    requires w.hub.members == map[] && w.open == {} && w.seen == {} && w.hub.promoted == {}
    requires a.deviceId != "" && a.channelId == ChannelIdForKey(ChannelKey(name, pin)) && a.claimed.MemberRole?
    ensures Enabled(w, OpenMember(a))
    ensures var w' := Next(w, OpenMember(a));
            && OneChannel(w', name, pin, map[a.deviceId := Member("A", true, 1)], map[], a.deviceId, 0)
            && OnlyConnection(w', a)
  {
    hide AfterEnd, ChannelKey, ChannelIdForKey;
    var w1 := AfterBegin(w, a);
    MeetingOnline(w1.hub.registry, name, pin, a.deviceId);
    EndHub(w1, a);
    RegisteredEndShows(w1, a);
    assert w1.opening - {a} == map[];
  }

  lemma MeetingOnline(r: Registry, name: string, pin: string, d: string)
    requires var key := ChannelKey(name, pin); var id := ChannelIdForKey(key);
             r == Registry(map[id := Channel(id, name, key, map[d := Member("A", false, 1)], map[], "")], map[key := id], 0)
    requires d != ""
    ensures var key := ChannelKey(name, pin); var id := ChannelIdForKey(key);
            SetOnline(r, id, d, true, false).Some?
            && SetOnline(r, id, d, true, false).value.0
                 == Registry(map[id := Channel(id, name, key, map[d := Member("A", true, 1)], map[], d)], map[key := id], 0)
  {
    ElectIs(map[d := Member("A", true, 1)], d);
    hide Elect, ChannelKey, ChannelIdForKey;
    assert map[d := Member("A", false, 1)][d := Member("A", true, 1)] == map[d := Member("A", true, 1)];
  }

  lemma MeetingAsks(w: World, name: string, pin: string, a: Connection, d: string)
    requires a.deviceId != "" && d != "" && d != a.deviceId
    requires OneChannel(w, name, pin, map[a.deviceId := Member("A", true, 1)], map[], a.deviceId, 0)
    requires OnlyConnection(w, a)
    ensures Enabled(w, HttpConnect(name, pin, d, "B"))
    ensures var w' := Next(w, HttpConnect(name, pin, d, "B"));
            var id := ChannelIdForKey(ChannelKey(name, pin)); var j := JoinId(id, d, 1);
            && OneChannel(w', name, pin, map[a.deviceId := Member("A", true, 1)],
                          map[j := RegistrySpec.JoinRequest(j, id, d, "B")], a.deviceId, 1)
            && OnlyConnection(w', a)
  {
  }

  lemma ApprovedAlone(ch: Channel, j: string, owner: string)
    requires j in ch.pending && ch.members.Keys == {owner} && ch.members[owner].online
    requires ch.pending[j].deviceId != owner
    ensures ApproveJoin(ch, j).Done?
    ensures var ch' := ApproveJoin(ch, j).value;
            && ch'.id == ch.id && ch'.members.Keys == {owner, ch.pending[j].deviceId} && ch'.members[owner].online
            && !ch'.members[ch.pending[j].deviceId].online
  {
    hide Elect, NextPriority;
    assert |ch.members| == |ch.members.Keys| == 1;
  }

  lemma OwnerApproves(r: Registry, id: string, j: string)
    requires id in r.channels && ApproveJoin(r.channels[id], j).Done?
    ensures DecideByOwner(r, id, r.channels[id].ownerId, j, true)
         == Done(r.(channels := r.channels[id := ApproveJoin(r.channels[id], j).value]))
  {
    hide ApproveJoin;
  }

  lemma ApprovalWithoutSocket(h: Hub, c: Connection, e: Event, x: Choice, r': Registry)
    requires CanSend(h, c) && IsMember(h, c) && e.kind.JoinApprove? && e.channelId == "" && JoinIdFromEvent(e) != ""
    requires c.channelId in h.registry.channels && x.join.Some?
    requires var ch := h.registry.channels[c.channelId];
             x.join.value in ch.pending && ch.pending[x.join.value].id !in h.pending
    requires DecideByOwner(h.registry, c.channelId, c.deviceId, x.join.value, true) == Done(r')
    ensures HandleEvent(h, c, e, x).hub == h.(registry := r')
  {
    hide CanSend, DecideByOwner, Admit;
  }

  lemma AskedIsFound(h: Hub, a: Connection, e: Event, x: Choice)
    requires e.kind.JoinApprove? && a.channelId in h.registry.channels
    requires JoinIdFromEvent(e) in h.registry.channels[a.channelId].pending && x.join == Some(JoinIdFromEvent(e))
    ensures ValidChoice(h, a, e, x)
  {
  }

  /** a is the only connection, current and settled, and the only device online; d is the other member. */
  ghost predicate Met(w: World, a: Connection, d: string) {
    && w.hub.members == map[SlotOf(a) := a] && w.hub.pending == map[] && w.opening == map[]
    && w.open == {a} && w.seen == {a} && w.hub.promoted == {}
    && a.channelId in w.hub.registry.channels
    && var members := w.hub.registry.channels[a.channelId].members;
       members.Keys == {a.deviceId, d} && members[a.deviceId].online && !members[d].online
  }

  lemma ApprovedInRun(w: World, a: Connection, j: string, e: Event, x: Choice)
    requires OnlyConnection(w, a) && w.hub.pending == map[] && w.opening == map[]
    requires a.claimed.MemberRole? && j != "" && e.kind.JoinApprove? && e.channelId == ""
    requires JoinIdFromEvent(e) == j && x.join == Some(j) && a.channelId in w.hub.registry.channels
    requires var ch := w.hub.registry.channels[a.channelId];
             && ch.members.Keys == {a.deviceId} && ch.members[a.deviceId].online && ch.ownerId == a.deviceId
             && j in ch.pending && ch.pending[j].id == j && ch.pending[j].deviceId != a.deviceId
    ensures Met(AfterReceive(w, a, e, x), a, w.hub.registry.channels[a.channelId].pending[j].deviceId)
  {
    hide DecideByOwner, ApproveJoin, HandleEvent, Record;
    var ch := w.hub.registry.channels[a.channelId];
    ApprovedAlone(ch, j, a.deviceId);
    OwnerApproves(w.hub.registry, a.channelId, j);
    var r' := w.hub.registry.(channels := w.hub.registry.channels[a.channelId := ApproveJoin(ch, j).value]);
    ApprovalWithoutSocket(w.hub, a, e, x, r');
    RecordKeeps(w, a, HandleEvent(w.hub, a, e, x).facts);
  }

  lemma MeetingApproves(w: World, name: string, pin: string, a: Connection, d: string, e: Event, x: Choice)
    requires a.deviceId != "" && d != "" && d != a.deviceId
    requires a.channelId == ChannelIdForKey(ChannelKey(name, pin)) && a.claimed.MemberRole?
    requires var j := JoinId(a.channelId, d, 1);
             && OneChannel(w, name, pin, map[a.deviceId := Member("A", true, 1)],
                           map[j := RegistrySpec.JoinRequest(j, a.channelId, d, "B")], a.deviceId, 1)
    requires OnlyConnection(w, a) && Receive(a, e, x) == Meeting(name, pin, a, d)[3]
    ensures a in w.open && a !in w.opening && ValidChoice(w.hub, a, e, x)
    ensures Met(AfterReceive(w, a, e, x), a, d)
  {
    hide ValidChoice, AfterReceive, Met;
    AskedIsFound(w.hub, a, e, x);
    ApprovedInRun(w, a, JoinId(a.channelId, d, 1), e, x);
  }

  lemma ReceiveStep(w: World, c: Connection, e: Event, x: Choice)
    requires c in w.open && c !in w.opening && ValidChoice(w.hub, c, e, x)
    ensures Enabled(w, Receive(c, e, x)) && Next(w, Receive(c, e, x)) == AfterReceive(w, c, e, x)
  {
    hide ValidChoice, AfterReceive;
  }

  /** The first three steps of Meeting: the join waits for the owner's decision. */
  lemma MeetingAsked(name: string, pin: string, a: Connection, d: string)
    requires a.deviceId != "" && d != "" && d != a.deviceId
    requires a.channelId == ChannelIdForKey(ChannelKey(name, pin)) && a.claimed.MemberRole?
    ensures CanRun(Start(), Meeting(name, pin, a, d)[..3])
    ensures var w := Run(Start(), Meeting(name, pin, a, d)[..3]); var j := JoinId(a.channelId, d, 1);
            && OneChannel(w, name, pin, map[a.deviceId := Member("A", true, 1)],
                          map[j := RegistrySpec.JoinRequest(j, a.channelId, d, "B")], a.deviceId, 1)
            && OnlyConnection(w, a)
  {
    hide CanRun, Run, Next, Enabled, OneChannel, OnlyConnection;
    var steps := Meeting(name, pin, a, d);
    MeetingCreates(name, pin, a.deviceId);
    var w1 := Next(Start(), steps[0]);
    MeetingOpens(w1, name, pin, a);
    var w2 := Next(w1, steps[1]);
    MeetingAsks(w2, name, pin, a, d);
    var w3 := Next(w2, steps[2]);
    assert steps[..3] == [steps[0]] + ([steps[1]] + ([steps[2]] + []));
    RunNothing(w3);
    RunCons(w2, steps[2], []);
    RunCons(w1, steps[1], [steps[2]] + []);
    RunCons(Start(), steps[0], [steps[1]] + ([steps[2]] + []));
  }

  lemma MeetingRuns(name: string, pin: string, a: Connection, d: string)
    requires a.deviceId != "" && d != "" && d != a.deviceId
    requires a.channelId == ChannelIdForKey(ChannelKey(name, pin)) && a.claimed.MemberRole?
    ensures CanRun(Start(), Meeting(name, pin, a, d)) && Met(Run(Start(), Meeting(name, pin, a, d)), a, d)
  {
    hide CanRun, Run, Next, Enabled, OneChannel, OnlyConnection, Met;
    var steps := Meeting(name, pin, a, d);
    MeetingAsked(name, pin, a, d);
    var w := Run(Start(), steps[..3]);
    MeetingApproves(w, name, pin, a, d, steps[3].event, steps[3].choice);
    ReceiveStep(w, a, steps[3].event, steps[3].choice);
    RunNothing(Next(w, steps[3]));
    RunCons(w, steps[3], []);
    assert [steps[3]] + [] == [steps[3]];
    RunJoined(Start(), steps[..3], [steps[3]]);
    assert steps == steps[..3] + [steps[3]];
  }

  lemma MetMeans(w: World, a: Connection, d: string)
    requires Met(w, a, d)
    ensures OnlineMember(w.hub, SlotOf(a)) && w.seen == {a}
    ensures forall c | SlotOf(c) == (a.channelId, d) :: Registered(w.hub, c)
  {
  }

  lemma {:induction false} RunJoined(w: World, steps: seq<Step>, more: seq<Step>)
    requires CanRun(w, steps) && CanRun(Run(w, steps), more)
    ensures CanRun(w, steps + more) && Run(w, steps + more) == Run(Run(w, steps), more)
    decreases |steps|
  {
    hide Enabled, Next;
    if steps == [] {
      assert steps + more == more;
    } else {
      RunJoined(Next(w, steps[0]), steps[1..], more);
      assert (steps + more)[1..] == steps[1..] + more;
    }
  }

  // ----- the same as a run of states -----

  ghost function States(w: World, steps: seq<Step>): seq<World>
    requires CanRun(w, steps)
    decreases |steps|
  {
    [w] + if steps == [] then [] else States(Next(w, steps[0]), steps[1..])
  }

  lemma {:induction false} StatesFollow(w: World, steps: seq<Step>)
    requires CanRun(w, steps)
    ensures var ws := States(w, steps);
            && |ws| == |steps| + 1 && ws[0] == w && ws[|steps|] == Run(w, steps)
            && forall i | 0 <= i < |steps| :: Goes(ws, steps, i)
    decreases |steps|
  {
    hide Enabled, Next;
    if steps != [] {
      var ws, rest := States(w, steps), States(Next(w, steps[0]), steps[1..]);
      StatesFollow(Next(w, steps[0]), steps[1..]);
      forall i | 0 <= i < |steps| ensures Goes(ws, steps, i) {
        if i > 0 {
          assert Goes(rest, steps[1..], i - 1);
          assert ws[i] == rest[i - 1] && ws[i + 1] == rest[i] && steps[i] == steps[1..][i - 1];
        }
      }
    }
  }

  /** vs and more go on where ws and steps end. */
  ghost predicate Continues(ws: seq<World>, steps: seq<Step>, vs: seq<World>, more: seq<Step>) {
    Behaviour(vs, more) && |vs| >= |ws| && vs[..|ws|] == ws && |more| >= |steps| && more[..|steps|] == steps
  }

  /**
   * Presence cannot be had for all runs: a and another device meet in a channel, two handshakes c and c' of that
   * device overlap as in Overtaking, and the end of c leaves the device online without connection and timer. However
   * the run goes on, it stays so, and its channel stays, until a connection of that very device is registered or a
   * timer callback for it runs, though no timer for it is armed.
   */
  lemma ImmortalChannel(name: string, pin: string, a: Connection, c: Connection, c': Connection)
    returns (ws: seq<World>, steps: seq<Step>)
    requires a.deviceId != "" && c.deviceId != "" && c.deviceId != a.deviceId && a != c && a != c' && c != c'
    requires a.channelId == c.channelId == ChannelIdForKey(ChannelKey(name, pin)) && SlotOf(c) == SlotOf(c')
    requires a.claimed.MemberRole? && c.claimed.MemberRole? && c'.claimed.MemberRole?
    ensures Behaviour(ws, steps) && steps == Meeting(name, pin, a, c.deviceId) + Overtaking(c, c') + [EndMember(c)]
    ensures Lost(ws[|steps|], SlotOf(c))
    ensures forall vs: seq<World>, more: seq<Step>, k: nat |
              Continues(ws, steps, vs, more) && |steps| <= k < |vs|
              && (forall m | |steps| <= m < k :: !Touches(more[m], SlotOf(c))) ::
              Lost(vs[k], SlotOf(c)) && c.channelId in vs[k].hub.registry.channels
  {
    hide Inv, CanRun, Run, Tracked, Meeting, Overtaking, AfterEnd, Lost, Goes, Touches;
    ws, steps := InterruptedMeeting(name, pin, a, c, c');
    forall vs: seq<World>, more: seq<Step>, k: nat
      | Continues(ws, steps, vs, more) && |steps| <= k < |vs| && forall m | |steps| <= m < k :: !Touches(more[m], SlotOf(c))
      ensures Lost(vs[k], SlotOf(c)) && c.channelId in vs[k].hub.registry.channels
    {
      SameState(ws, steps, vs, more);
      LostUntil(vs, more, |steps|, k, SlotOf(c));
    }
  }

  lemma SameState(ws: seq<World>, steps: seq<Step>, vs: seq<World>, more: seq<Step>)
    requires Continues(ws, steps, vs, more) && Behaviour(ws, steps)
    ensures vs[|steps|] == ws[|steps|] && Behaviour(vs, more) && |ws| == |steps| + 1
  {
    assert vs[..|ws|][|steps|] == vs[|steps|];
  }

  lemma InterruptedMeeting(name: string, pin: string, a: Connection, c: Connection, c': Connection)
    returns (ws: seq<World>, steps: seq<Step>)
    requires a.deviceId != "" && c.deviceId != "" && c.deviceId != a.deviceId && a != c && a != c' && c != c'
    requires a.channelId == c.channelId == ChannelIdForKey(ChannelKey(name, pin)) && SlotOf(c) == SlotOf(c')
    requires a.claimed.MemberRole? && c.claimed.MemberRole? && c'.claimed.MemberRole?
    ensures Behaviour(ws, steps) && steps == Meeting(name, pin, a, c.deviceId) + Overtaking(c, c') + [EndMember(c)]
    ensures Lost(ws[|steps|], SlotOf(c))
  {
    hide Inv, CanRun, Run, Tracked, Meeting, Overtaking, AfterEnd, OnlineMember, Goes, States, Lost, Met;
    var meeting := Meeting(name, pin, a, c.deviceId);
    MeetingRuns(name, pin, a, c.deviceId);
    MetMeans(Run(Start(), meeting), a, c.deviceId);
    StatesFollow(Start(), meeting);
    Always(States(Start(), meeting), meeting, |meeting|);
    OvertakenIsUntracked(Run(Start(), meeting), c, c', a.deviceId);
    RunJoined(Start(), meeting, Overtaking(c, c'));
    var w := Run(Start(), meeting + Overtaking(c, c'));
    Ends(Start(), meeting + Overtaking(c, c'), c);
    steps := meeting + Overtaking(c, c') + [EndMember(c)];
    ws := States(Start(), steps);
    StatesFollow(Start(), steps);
    UntrackedEndIsLost(w, c);
  }

  /** One more step: the handshake of c ends. */
  lemma Ends(w: World, steps: seq<Step>, c: Connection)
    requires CanRun(w, steps) && Enabled(Run(w, steps), EndMember(c))
    ensures CanRun(w, steps + [EndMember(c)]) && Run(w, steps + [EndMember(c)]) == AfterEnd(Run(w, steps), c)
  {
    hide CanRun, Run, AfterEnd;
    RunNothing(AfterEnd(Run(w, steps), c));
    RunCons(Run(w, steps), EndMember(c), []);
    assert [EndMember(c)] + [] == [EndMember(c)];
    RunJoined(w, steps, [EndMember(c)]);
  }

  // ----- a replaced connection that nobody closes -----

  ghost predicate NeverClosed(w: World, p: Connection) {
    p in w.open && forall o | o in w.sent :: o.Closed? ==> o.conn != p
  }

  /** The only channel has p's device as its only member, online, and nobody waits; p has not been closed. */
  ghost predicate Solo(w: World, name: string, pin: string, p: Connection) {
    var key := ChannelKey(name, pin);
    var id := ChannelIdForKey(key);
    && w.hub.registry == Registry(map[id := Channel(id, name, key, map[p.deviceId := Member("A", true, 1)], map[], p.deviceId)],
                                  map[key := id], 0)
    && p.channelId == id && p.deviceId != "" && w.hub.pending == map[] && NeverClosed(w, p)
  }

  lemma SoloOnline(w: World, name: string, pin: string, p: Connection)
    requires Solo(w, name, pin, p)
    ensures OnlineMember(w.hub, SlotOf(p)) && p in w.open && forall c | SlotOf(c) == SlotOf(p) :: Registered(w.hub, c)
  {
  }

  lemma NoticesAreWrites(h: Hub, change: PresenceChange, d: string)
    ensures forall o | o in EmitPresenceChange(h, change, d) :: o.Wrote?
    ensures change.channel.Some? ==> forall o | o in NotifyOwnerOfPendingJoins(h, change.channel.value) :: o.Wrote?
  {
  }

  lemma SoloOpens(w: World, name: string, pin: string, p: Connection)
    requires OneChannel(w, name, pin, map[p.deviceId := Member("A", false, 1)], map[], "", 0)
    requires w.hub.members == map[] && w.open == {} && w.seen == {} && w.hub.promoted == {} && w.sent == {}
    requires p.deviceId != "" && p.channelId == ChannelIdForKey(ChannelKey(name, pin)) && p.claimed.MemberRole?
    ensures Enabled(w, OpenMember(p))
    ensures var w' := Next(w, OpenMember(p));
            Solo(w', name, pin, p) && CurrentMember(w'.hub, p) && p !in w'.opening && w'.seen == {p}
  {
    MeetingOpens(w, name, pin, p);
    OpeningClosesNobody(w, p);
  }

  lemma OpeningClosesNobody(w: World, p: Connection)
    requires Enabled(w, OpenMember(p)) && w.hub.members == map[] && w.sent == {}
    ensures forall o | o in Next(w, OpenMember(p)).sent :: o.Wrote?
  {
    SetOnlineDefined(w.hub.registry, p.channelId, p.deviceId, true, false);
    var w1 := AfterBegin(w, p);
    var (r, change) := SetOnline(w1.hub.registry, p.channelId, p.deviceId, true, false).value;
    NoticesAreWrites(w1.hub.(registry := r), change, p.deviceId);
    hide SetOnline, EmitPresenceChange, NotifyOwnerOfPendingJoins;
  }

  lemma SoloBegins(w: World, name: string, pin: string, p: Connection, c: Connection)
    requires Solo(w, name, pin, p) && CurrentMember(w.hub, c) == false && SlotOf(c) == SlotOf(p) && SlotOf(p) in w.hub.members
    ensures var w' := AfterBegin(w, c);
            && Solo(w', name, pin, p) && CurrentMember(w'.hub, c) && w'.seen == w.seen + {c}
            && w'.opening == w.opening[c := Some(w.hub.members[SlotOf(p)])]
  {
  }

  lemma SoloEnds(w: World, name: string, pin: string, p: Connection, c: Connection)
    requires Inv(w) && Solo(w, name, pin, p) && c in w.opening && w.opening[c] != Some(p) && SlotOf(c) == SlotOf(p)
    requires IsMember(w.hub, c)
    ensures var w' := AfterEnd(w, c);
            Solo(w', name, pin, p) && w'.hub == w.hub && w'.opening == w.opening - {c} && w'.open == w.open
  {
    hide Inv, AfterEnd, Solo, OnlineMember, RegistryMemberExists;
    SoloOnline(w, name, pin, p);
    QuietEnd(w, c);
    EndedSockets(w, c);
    StillSolo(w, AfterEnd(w, c), name, pin, p);
  }

  lemma EndedSockets(w: World, c: Connection)
    requires c in w.opening && Registered(w.hub, c)
    ensures AfterEnd(w, c).open == w.open && AfterEnd(w, c).opening == w.opening - {c}
  {
    hide SetOnline, EmitPresenceChange, NotifyOwnerOfPendingJoins;
  }

  lemma StillSolo(w: World, w': World, name: string, pin: string, p: Connection)
    requires Solo(w, name, pin, p) && w'.hub.registry == w.hub.registry && w'.hub.pending == w.hub.pending && p in w'.open
    requires forall o | o in w'.sent - w.sent :: o.Closed? ==> o.conn != p
    ensures Solo(w', name, pin, p)
  {
  }

  lemma SoloCloses(w: World, name: string, pin: string, p: Connection, c: Connection)
    requires Solo(w, name, pin, p) && c != p && CurrentMember(w.hub, c) && SlotOf(c) == SlotOf(p)
    ensures var w' := AfterClose(w, c);
            Solo(w', name, pin, p) && SlotOf(p) !in w'.hub.members && w'.opening == w.opening
  {
  }

  lemma SoloExpires(w: World, name: string, pin: string, p: Connection)
    requires Solo(w, name, pin, p) && SlotOf(p) !in w.hub.members
    ensures var w' := AfterExpiry(w, SlotOf(p));
            && NeverClosed(w', p) && w'.opening == w.opening && w'.hub.promoted == w.hub.promoted
            && forall c | SlotOf(c) == SlotOf(p) :: !Registered(w'.hub, c)
  {
    ElectNobody(map[p.deviceId := Member("A", false, 1)]);
    hide Elect;
    assert map[p.deviceId := Member("A", true, 1)][p.deviceId := Member("A", false, 1)] == map[p.deviceId := Member("A", false, 1)];
  }

  lemma ElectNobody(members: map<string, Member>)
    requires forall d | d in members :: !members[d].online
    ensures Elect(members) == ""
  {
  }

  /** The end of the first handshake closes only itself. */
  lemma ForgottenAtTheEnd(w: World, p: Connection, c: Connection)
    requires NeverClosed(w, p) && c in w.opening && c != p && !Registered(w.hub, c)
    ensures NeverClosed(AfterEnd(w, c), p)
  {
    hide AfterEnd, Unregister;
    UnregisteredEnd(w, c);
  }

  /** p is replaced by c, c by c', and the device expires before the handshake of c ends. */
  lemma SoloIsOvertaken(w: World, name: string, pin: string, p: Connection, c: Connection, c': Connection)
    requires Inv(w) && Solo(w, name, pin, p) && CurrentMember(w.hub, p) && p !in w.opening && w.seen == {p}
    requires SlotOf(c) == SlotOf(c') == SlotOf(p) && p != c && p != c' && c != c'
    requires c.claimed.MemberRole? && c'.claimed.MemberRole?
    ensures CanRun(w, Overtaking(c, c'))
    ensures var w' := Run(w, Overtaking(c, c'));
            NeverClosed(w', p) && c in w'.opening && w'.opening[c] == Some(p) && !Registered(w'.hub, c)
  {
    hide Inv, Solo, NeverClosed, AfterBegin, AfterEnd, AfterClose, AfterExpiry, CanRun, Run, RegistryMemberExists, Overtaking, Next;
    var w1 := AfterBegin(w, c);
    var w2 := AfterBegin(w1, c');
    BeginKeeps(w, c);
    SoloBegins(w, name, pin, p, c);
    BeginKeeps(w1, c');
    SoloBegins(w1, name, pin, p, c');
    var w3 := AfterEnd(w2, c');
    EndKeeps(w2, c');
    SoloEnds(w2, name, pin, p, c');
    var w4 := AfterClose(w3, c');
    CurrentWasOpen(w3, c');
    SoloCloses(w3, name, pin, p, c');
    var w5 := AfterExpiry(w4, SlotOf(c'));
    SoloExpires(w4, name, pin, p);
    OvertakingRuns(w, c, c');
  }

  lemma CurrentWasOpen(w: World, c: Connection)
    requires Inv(w) && CurrentMember(w.hub, c)
    ensures c in w.open
  {
    hide RegistryInv, DecidedInv, PendingInv, PresenceInv, KnowsInv, AckInv, SocketsInv, OnlineMember;
  }

  lemma SoloMeets(name: string, pin: string, p: Connection)
    requires p.deviceId != "" && p.channelId == ChannelIdForKey(ChannelKey(name, pin)) && p.claimed.MemberRole?
    ensures var steps := [HttpConnect(name, pin, p.deviceId, "A"), OpenMember(p)];
            CanRun(Start(), steps)
            && var w := Run(Start(), steps);
               Solo(w, name, pin, p) && CurrentMember(w.hub, p) && p !in w.opening && w.seen == {p}
  {
    hide CanRun, Run, Next, Enabled, OneChannel, Solo, CurrentMember;
    var connect, open := HttpConnect(name, pin, p.deviceId, "A"), OpenMember(p);
    MeetingCreates(name, pin, p.deviceId);
    var w1 := Next(Start(), connect);
    NothingSent(name, pin, p.deviceId);
    SoloOpens(w1, name, pin, p);
    RunNothing(Next(w1, open));
    RunCons(w1, open, []);
    RunCons(Start(), connect, [open] + []);
    assert [connect, open] == [connect] + ([open] + []);
  }

  lemma NothingSent(name: string, pin: string, d: string)
    requires Enabled(Start(), HttpConnect(name, pin, d, "A"))
    ensures Next(Start(), HttpConnect(name, pin, d, "A")).sent == {}
  {
    hide Connect, Indexed;
  }

  /**
   * Not every replaced connection is closed: p is connected and c replaces it; before the handshake of c ends, a third
   * connection comes, goes and expires, which deletes the channel. The handshake of c then fails, and p stays open.
   */
  lemma ForgottenConnection(name: string, pin: string, p: Connection, c: Connection, c': Connection)
    returns (ws: seq<World>, steps: seq<Step>)
    requires p.deviceId != "" && p.channelId == ChannelIdForKey(ChannelKey(name, pin))
    requires SlotOf(c) == SlotOf(c') == SlotOf(p) && p != c && p != c' && c != c'
    requires p.claimed.MemberRole? && c.claimed.MemberRole? && c'.claimed.MemberRole?
    ensures Behaviour(ws, steps)
    ensures steps == [HttpConnect(name, pin, p.deviceId, "A"), OpenMember(p)] + Overtaking(c, c') + [EndMember(c)]
    ensures ws[|steps| - 1].opening.Keys >= {c} && ws[|steps| - 1].opening[c] == Some(p)
    ensures NeverClosed(ws[|steps|], p)
  {
    hide Inv, CanRun, Run, Overtaking, AfterEnd, NeverClosed, Goes, States, Solo, RegistryMemberExists;
    var first := [HttpConnect(name, pin, p.deviceId, "A"), OpenMember(p)];
    SoloMeets(name, pin, p);
    StatesFollow(Start(), first);
    Always(States(Start(), first), first, |first|);
    SoloIsOvertaken(Run(Start(), first), name, pin, p, c, c');
    RunJoined(Start(), first, Overtaking(c, c'));
    var before := first + Overtaking(c, c');
    var w := Run(Start(), before);
    Ends(Start(), before, c);
    ForgottenAtTheEnd(w, p, c);
    steps := before + [EndMember(c)];
    ws := States(Start(), steps);
    StatesFollow(Start(), steps);
    StatesPrefix(Start(), before, [EndMember(c)]);
  }

  lemma {:induction false} StatesPrefix(w: World, steps: seq<Step>, more: seq<Step>)
    requires CanRun(w, steps) && CanRun(w, steps + more)
    ensures |States(w, steps + more)| > |steps| && States(w, steps + more)[|steps|] == Run(w, steps)
    decreases |steps|
  {
    hide Enabled, Next;
    if steps != [] {
      assert (steps + more)[1..] == steps[1..] + more;
      StatesPrefix(Next(w, steps[0]), steps[1..], more);
    }
  }
}
