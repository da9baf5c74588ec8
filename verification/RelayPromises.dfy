/** The promises of the relay, over all its runs. */
module RelayPromises {
  import opened Options
  import opened Identifiers
  import opened Protocol
  import opened Connections
  import opened RegistrySpec
  import opened HubSpec
  import opened RelayRuns
  import opened RelayProofs
  import opened RelayTheorems
  import opened RelayGuarantees
  import opened RelayAnswers
  import opened RelayMaps
  import opened RelayTimers
  import opened RelayPresence

  ghost predicate Goes(ws: seq<World>, steps: seq<Step>, i: nat)
    requires i < |steps| && |ws| == |steps| + 1
  {
    Enabled(ws[i], steps[i]) && ws[i + 1] == Next(ws[i], steps[i])
  }

  /** ws are the states of a run of the relay from its start, and steps is what happens between them. */
  ghost predicate Behaviour(ws: seq<World>, steps: seq<Step>) {
    |ws| == |steps| + 1 && ws[0] == Start() && forall i | 0 <= i < |steps| :: Goes(ws, steps, i)
  }

  /** The invariant holds in every state of every run. */
  lemma {:induction false} Always(ws: seq<World>, steps: seq<Step>, k: nat)
    requires Behaviour(ws, steps) && k < |ws|
    ensures Inv(ws[k])
  {
    hide Inv, Enabled, Next;
    if k == 0 {
      StartKeeps();
    } else {
      Always(ws, steps, k - 1);
      assert Goes(ws, steps, k - 1);
      NextKeeps(ws[k - 1], steps[k - 1]);
    }
  }

  // ----- presence -----

  lemma LostIsSomething(w: World, slot: Slot)
    requires Lost(w, slot)
    ensures !Empty(w.hub) && slot.0 in w.hub.registry.channels
  {
  }

  /** In any run a lost device is lost until a connection of its own is registered or a timer callback for it runs. */
  lemma {:induction false} LostUntil(ws: seq<World>, steps: seq<Step>, i: nat, k: nat, slot: Slot)
    requires Behaviour(ws, steps) && i <= k < |ws| && Lost(ws[i], slot) && forall m | i <= m < k :: !Touches(steps[m], slot)
    ensures Lost(ws[k], slot) && slot.0 in ws[k].hub.registry.channels
    decreases k
  {
    hide Inv, Enabled, Next, Lost, Touches;
    if i < k {
      LostUntil(ws, steps, i, k - 1, slot);
      Always(ws, steps, k - 1);
      assert Goes(ws, steps, k - 1);
      LostStays(ws[k - 1], steps[k - 1], slot);
    }
    LostIsSomething(ws[k], slot);
  }

  /** Those steps end it, and no other does. */
  lemma LostExactlyUntil(ws: seq<World>, steps: seq<Step>, k: nat, slot: Slot)
    requires Behaviour(ws, steps) && k < |steps| && Lost(ws[k], slot)
    ensures Lost(ws[k + 1], slot) <==> !Touches(steps[k], slot)
  {
    hide Inv, Enabled, Next, Lost, Touches;
    Always(ws, steps, k);
    assert Goes(ws, steps, k);
    LostUntilTouched(ws[k], steps[k], slot);
  }

  /**
   * The i-th step was the untracked end of a handshake of the device, and since then no connection of the device has been
   * registered and no timer callback for it has run.
   */
  ghost predicate LostSince(ws: seq<World>, steps: seq<Step>, i: int, k: nat, slot: Slot) {
    && 0 <= i < k <= |steps| && |ws| == |steps| + 1
    && steps[i].EndMember? && SlotOf(steps[i].conn) == slot && !Tracked(ws[i], steps[i].conn)
    && forall m | i < m < k :: !Touches(steps[m], slot)
  }

  /** When a device is online without connection and timer, in every state of every run. */
  lemma {:induction false} LostExactlyWhen(ws: seq<World>, steps: seq<Step>, k: nat, slot: Slot)
    requires Behaviour(ws, steps) && k < |ws|
    ensures Lost(ws[k], slot) <==> exists i :: LostSince(ws, steps, i, k, slot)
  {
    hide Inv, Enabled, Next, Lost, Touches, Tracked;
    if Lost(ws[k], slot) {
      LostForAReason(ws, steps, k, slot);
    }
    forall i | LostSince(ws, steps, i, k, slot) ensures Lost(ws[k], slot) {
      LostByItsEnd(ws, steps, i, slot);
      LostUntil(ws, steps, i + 1, k, slot);
    }
  }

  lemma LostByItsEnd(ws: seq<World>, steps: seq<Step>, i: nat, slot: Slot)
    requires Behaviour(ws, steps) && i < |steps| && steps[i].EndMember? && SlotOf(steps[i].conn) == slot && !Tracked(ws[i], steps[i].conn)
    ensures Lost(ws[i + 1], slot)
  {
    hide AfterEnd, Lost, Tracked;
    assert Goes(ws, steps, i);
    UntrackedEndIsLost(ws[i], steps[i].conn);
  }

  lemma {:induction false} LostForAReason(ws: seq<World>, steps: seq<Step>, k: nat, slot: Slot)
    requires Behaviour(ws, steps) && k < |ws| && Lost(ws[k], slot)
    ensures exists i :: LostSince(ws, steps, i, k, slot)
  {
    hide Inv, Enabled, Next, Lost, Touches, Tracked;
    if k == 0 {
      NobodyLostAtStart(slot);
    } else {
      Always(ws, steps, k - 1);
      assert Goes(ws, steps, k - 1);
      if Lost(ws[k - 1], slot) {
        LostForAReason(ws, steps, k - 1, slot);
        var i :| LostSince(ws, steps, i, k - 1, slot);
        LostUntilTouched(ws[k - 1], steps[k - 1], slot);
        assert LostSince(ws, steps, i, k, slot);
      } else {
        LossBegins(ws[k - 1], steps[k - 1], slot);
        assert LostSince(ws, steps, k - 1, k, slot);
      }
    }
  }

  lemma NobodyLostAtStart(slot: Slot)
    ensures !Lost(Start(), slot)
  {
  }

  /**
   * In every state a settled connection means an online member, and an online member has a connection or a grace timer,
   * never both, unless it was lost by the untracked end of a handshake of its own and has not been touched since.
   */
  lemma PresenceIsExact(ws: seq<World>, steps: seq<Step>, k: nat)
    requires Behaviour(ws, steps) && k < |ws|
    ensures var w := ws[k]; var h := w.hub;
            && (forall s | s in h.members && h.members[s] !in w.opening :: OnlineMember(h, s))
            && (forall s | s in h.timers :: s !in h.members)
            && (forall s | OnlineMember(h, s) ::
                  s in h.members || s in h.timers <==> forall i :: !LostSince(ws, steps, i, k, s))
  {
    hide Inv, Goes, OnlineMember, LostSince;
    Always(ws, steps, k);
    PresenceAt(ws[k]);
    forall s | OnlineMember(ws[k].hub, s)
      ensures s in ws[k].hub.members || s in ws[k].hub.timers <==> forall i :: !LostSince(ws, steps, i, k, s)
    {
      LostExactlyWhen(ws, steps, k, s);
    }
  }

  lemma {:induction false} OwnedSince(ws: seq<World>, steps: seq<Step>, i: nat, k: nat, id: string)
    requires Behaviour(ws, steps) && i <= k < |ws| && forall m | i <= m <= k :: id in ws[m].hub.registry.channels
    requires ws[i].hub.registry.channels[id].ownerId != ""
    ensures ws[k].hub.registry.channels[id].ownerId != ""
    decreases k
  {
    hide Inv, Enabled, Next;
    if i < k {
      OwnedSince(ws, steps, i, k - 1, id);
      Always(ws, steps, k - 1);
      Always(ws, steps, k);
      assert Goes(ws, steps, k - 1);
      OwnerStays(ws[k - 1], steps[k - 1], id);
    }
  }

  /**
   * In every state a channel without an owner has only its creator, who is in the grace period or in the middle of a
   * handshake, and nobody has ever been online since the channel was created.
   */
  lemma OwnerlessChannelsAwaitTheirCreator(ws: seq<World>, steps: seq<Step>, k: nat, id: string)
    requires Behaviour(ws, steps) && k < |ws| && id in ws[k].hub.registry.channels
    requires ws[k].hub.registry.channels[id].ownerId == ""
    ensures id in ws[k].lives
    ensures var w := ws[k]; var ch := w.hub.registry.channels[id]; var creator := (id, w.lives[id].creator);
            && ch.members.Keys == {creator.1}
            && (creator in w.hub.timers || (creator in w.hub.members && w.hub.members[creator] in w.opening))
    ensures forall i, d | 0 <= i <= k && (forall m | i <= m <= k :: id in ws[m].hub.registry.channels) ::
              !OnlineMember(ws[i].hub, (id, d))
  {
    hide Inv, Goes, OnlineMember;
    Always(ws, steps, k);
    OwnerlessAt(ws[k], id);
    forall i, d | 0 <= i <= k && forall m | i <= m <= k :: id in ws[m].hub.registry.channels
      ensures !OnlineMember(ws[i].hub, (id, d))
    {
      if OnlineMember(ws[i].hub, (id, d)) {
        Always(ws, steps, i);
        SomebodyOnline(ws[i], (id, d));
        OwnedSince(ws, steps, i, k, id);
      }
    }
  }

  /** No timer runs for a connected device, however handshakes and stale timer callbacks interleave. */
  lemma NoTimerWhileConnected(ws: seq<World>, steps: seq<Step>, k: nat, slot: Slot)
    requires Behaviour(ws, steps) && k < |ws| && slot in ws[k].hub.members
    ensures slot !in ws[k].hub.timers
  {
    hide Inv, Goes;
    Always(ws, steps, k);
    TimersExcludeMembers(ws[k]);
  }

  lemma TimersExcludeMembers(w: World)
    requires Inv(w)
    ensures w.hub.timers !! w.hub.members.Keys
  {
    hide RegistryInv, DecidedInv, MembersInv, PendingInv, SocketsInv, KnowsInv, AckInv;
  }

  /**
   * The end of a member's handshake decides on its own device alone: it is lost afterwards if and only if it is neither
   * connected nor in its grace period when the handshake ends, and still a member. So presence, if it was exact, stays
   * exact if and only if the device is tracked.
   */
  lemma HandshakeEndsWell(ws: seq<World>, steps: seq<Step>, k: nat, c: Connection)
    requires Behaviour(ws, steps) && k < |steps| && steps[k] == EndMember(c)
    ensures var w, w' := ws[k], ws[k + 1];
            forall s :: Lost(w', s) <==> if s == SlotOf(c) then !Tracked(w, c) else Lost(w, s)
    ensures Present(ws[k]) ==> (Present(ws[k + 1]) <==> Tracked(ws[k], c))
  {
    hide Inv, AfterEnd, Lost, Present, Tracked;
    Always(ws, steps, k);
    assert Goes(ws, steps, k);
    EndDecidesAll(ws[k], c);
    PresentMeansNoneLost(ws[k]);
    PresentMeansNoneLost(ws[k + 1]);
    assert Lost(ws[k + 1], SlotOf(c)) <==> !Tracked(ws[k], c);
    if Present(ws[k]) && Tracked(ws[k], c) {
      var w' := ws[k + 1];
      forall s ensures !Lost(w', s) {
        assert !Lost(ws[k], s);
      }
    }
  }

  lemma PresentMeansNoneLost(w: World)
    ensures Present(w) <==> forall s :: !Lost(w, s)
  {
    hide OnlineMember;
    if s :| Lost(w, s) {
      assert OnlineMember(w.hub, s);
    }
    if !Present(w) {
      var s :| OnlineMember(w.hub, s) && s !in w.hub.members && s !in w.hub.timers;
      assert Lost(w, s);
    }
  }

  // ----- what the maps mention -----

  /**
   * The i-th step was the end of a handshake of a device that is no longer a member, by its current connection, and since
   * then no step has cleared the timer that it armed.
   */
  ghost predicate StaleSince(ws: seq<World>, steps: seq<Step>, i: int, k: nat, t: Slot) {
    && 0 <= i < k <= |steps| && |ws| == |steps| + 1
    && FailsToEnd(ws[i], steps[i], t) && forall m | i < m < k :: !Clears(ws[m], steps[m], t)
  }

  /** The i-th step registers c for a join that has been decided, or whose channel has gone, since its claims were checked. */
  ghost predicate LateAt(ws: seq<World>, steps: seq<Step>, i: int, c: Connection) {
    0 <= i < |steps| && i < |ws| && steps[i] == BeginJoiner(c) && !PendingExists(ws[i].hub, c)
  }

  ghost predicate Registers(s: Step, c: Connection) {
    s == BeginJoiner(c) || s == OpenJoiner(c)
  }

  /** When a timer has no use, in every state of every run. */
  lemma StaleExactlyWhen(ws: seq<World>, steps: seq<Step>, k: nat, t: Slot)
    requires Behaviour(ws, steps) && k < |ws|
    ensures StaleTimer(ws[k].hub, t) <==> exists i :: StaleSince(ws, steps, i, k, t)
  {
    hide Inv, Goes, StaleTimer, FailsToEnd, Clears;
    if StaleTimer(ws[k].hub, t) {
      StaleForAReason(ws, steps, k, t);
    }
    forall i | StaleSince(ws, steps, i, k, t) ensures StaleTimer(ws[k].hub, t) {
      StaleUntil(ws, steps, i, k, t);
    }
  }

  lemma {:induction false} StaleUntil(ws: seq<World>, steps: seq<Step>, i: nat, k: nat, t: Slot)
    requires Behaviour(ws, steps) && k < |ws| && StaleSince(ws, steps, i, k, t)
    ensures StaleTimer(ws[k].hub, t)
    decreases k
  {
    hide Inv, Enabled, Next, StaleTimer, FailsToEnd, Clears;
    Always(ws, steps, k - 1);
    assert Goes(ws, steps, k - 1);
    if i + 1 < k {
      StaleUntil(ws, steps, i, k - 1, t);
    }
    StepOnStale(ws[k - 1], steps[k - 1], t);
  }

  lemma StepOnStale(w: World, s: Step, t: Slot)
    requires Inv(w) && Enabled(w, s)
    ensures StaleTimer(Next(w, s).hub, t) <==> if StaleTimer(w.hub, t) then !Clears(w, s, t) else FailsToEnd(w, s, t)
    ensures FailsToEnd(w, s, t) ==> StaleTimer(Next(w, s).hub, t)
  {
    hide Inv, Enabled, Next, StaleTimer, FailsToEnd, Clears;
    if StaleTimer(w.hub, t) {
      StaleUntilCleared(w, s, t);
    } else {
      StaleBegins(w, s, t);
    }
    if FailsToEnd(w, s, t) {
      FailureIsStale(w, s, t);
    }
  }

  lemma {:induction false} StaleForAReason(ws: seq<World>, steps: seq<Step>, k: nat, t: Slot)
    requires Behaviour(ws, steps) && k < |ws| && StaleTimer(ws[k].hub, t)
    ensures exists i :: StaleSince(ws, steps, i, k, t)
  {
    hide Inv, Enabled, Next, StaleTimer, FailsToEnd, Clears;
    if k == 0 {
      NoTimerAtStart(t);
    } else {
      Always(ws, steps, k - 1);
      assert Goes(ws, steps, k - 1);
      StepOnStale(ws[k - 1], steps[k - 1], t);
      if StaleTimer(ws[k - 1].hub, t) {
        StaleForAReason(ws, steps, k - 1, t);
        var i :| StaleSince(ws, steps, i, k - 1, t);
        assert StaleSince(ws, steps, i, k, t);
      } else {
        assert StaleSince(ws, steps, k - 1, k, t);
      }
    }
  }

  lemma NoTimerAtStart(t: Slot)
    ensures !StaleTimer(Start().hub, t)
  {
  }

  lemma {:induction false} SeenStay(ws: seq<World>, steps: seq<Step>, i: nat, j: nat, c: Connection)
    requires Behaviour(ws, steps) && i < j < |ws| && (c in ws[i].seen || Registers(steps[i], c))
    ensures c in ws[j].seen
    decreases j
  {
    hide Inv, Enabled, Next;
    if i + 1 < j {
      SeenStay(ws, steps, i, j - 1, c);
    }
    assert Goes(ws, steps, j - 1);
    SeenGrows(ws[j - 1], steps[j - 1]);
  }

  lemma SeenGrows(w: World, s: Step)
    requires Enabled(w, s)
    ensures w.seen <= Next(w, s).seen && (s.OpenJoiner? || s.BeginJoiner? ==> s.conn in Next(w, s).seen)
  {
    hide FinishMember, FinishPending, Expire, HandleEvent, Unregister, Connect, ValidChoice, RegisterMember;
  }

  /** As long as a connection waits, its join is pending exactly if it was when the connection was registered. */
  lemma {:induction false} WaitsAsRegistered(ws: seq<World>, steps: seq<Step>, i: nat, k: nat, c: Connection)
    requires Behaviour(ws, steps) && i < k < |ws| && Registers(steps[i], c) && CurrentPending(ws[k].hub, c)
    ensures PendingExists(ws[k].hub, c) <==> PendingExists(ws[i].hub, c)
    decreases k
  {
    hide Inv, Enabled, Next, CurrentPending, PendingExists;
    assert Goes(ws, steps, k - 1);
    if k == i + 1 {
      RegisteringKeeps(ws[i], steps[i], c);
    } else {
      Always(ws, steps, k - 1);
      SeenStay(ws, steps, i, k - 1, c);
      StepKeepsWait(ws[k - 1], steps[k - 1], c);
      WaitsAsRegistered(ws, steps, i, k - 1, c);
    }
  }

  lemma RegisteringKeeps(w: World, s: Step, c: Connection)
    requires Enabled(w, s) && Registers(s, c)
    ensures PendingExists(Next(w, s).hub, c) <==> PendingExists(w.hub, c)
    ensures s == OpenJoiner(c) ==> PendingExists(w.hub, c)
  {
    hide JoinNotice;
  }

  /** A waiting connection has been registered at some step. */
  lemma {:induction false} WhenRegistered(ws: seq<World>, steps: seq<Step>, k: nat, c: Connection) returns (i: nat)
    requires Behaviour(ws, steps) && k < |ws| && CurrentPending(ws[k].hub, c)
    ensures i < k && Registers(steps[i], c)
  {
    hide Inv, Enabled, Next, CurrentPending;
    Always(ws, steps, k);
    if k == 0 {
      assert CurrentPending(Start().hub, c);
      NobodyAtStart(c);
    } else {
      Always(ws, steps, k - 1);
      assert Goes(ws, steps, k - 1);
      if c in ws[k - 1].seen {
        StepKeepsWait(ws[k - 1], steps[k - 1], c);
        i := WhenRegistered(ws, steps, k - 1, c);
      } else {
        WaitingWasSeen(ws[k], c);
        NewlySeen(ws[k - 1], steps[k - 1], c);
        i := k - 1;
      }
    }
  }

  lemma NobodyAtStart(c: Connection)
    ensures !CurrentPending(Start().hub, c)
  {
  }

  lemma WaitingWasSeen(w: World, c: Connection)
    requires Inv(w) && CurrentPending(w.hub, c)
    ensures c in w.seen && c.claimed.PendingRole?
  {
    hide RegistryInv, DecidedInv, MembersInv, PresenceInv, KnowsInv, AckInv, Vouched;
  }

  lemma NewlySeen(w: World, s: Step, c: Connection)
    requires Enabled(w, s) && c !in w.seen && c in Next(w, s).seen && c.claimed.PendingRole?
    ensures Registers(s, c)
  {
    hide FinishMember, FinishPending, Expire, HandleEvent, Unregister, Connect, ValidChoice, RegisterMember, RegistryMemberExists;
  }

  /**
   * In every state of every run: a member connection is online, unless its handshake has not ended; a waiting connection
   * waits for a pending join, unless it was registered late; a timer belongs to a member that is not connected and that
   * is online or a creator still expected, unless a failed handshake has armed it and nothing has cleared it since.
   */
  lemma MapsAgree(ws: seq<World>, steps: seq<Step>, k: nat)
    requires Behaviour(ws, steps) && k < |ws|
    ensures var h := ws[k].hub;
            && (forall s | s in h.members :: OnlineMember(h, s) || h.members[s] in ws[k].opening)
            && (forall j | j in h.pending ::
                  PendingExists(h, h.pending[j]) <==> forall i | 0 <= i < k :: !LateAt(ws, steps, i, h.pending[j]))
            && (forall t | t in h.timers ::
                  t !in h.members && (TimerOk(h, t) <==> forall i :: !StaleSince(ws, steps, i, k, t)))
  {
    hide Inv, Goes, OnlineMember, PendingExists, TimerOk, CurrentPending, StaleSince, LateAt;
    Always(ws, steps, k);
    PresenceAt(ws[k]);
    TimersExcludeMembers(ws[k]);
    var h := ws[k].hub;
    forall t | t in h.timers ensures TimerOk(h, t) <==> forall i :: !StaleSince(ws, steps, i, k, t) {
      StaleExactlyWhen(ws, steps, k, t);
    }
    forall j | j in h.pending
      ensures PendingExists(h, h.pending[j]) <==> forall i | 0 <= i < k :: !LateAt(ws, steps, i, h.pending[j])
    {
      WaiterIsCurrent(ws[k], j);
      LateOrNot(ws, steps, k, h.pending[j]);
    }
  }

  lemma WaiterIsCurrent(w: World, j: string)
    requires Inv(w) && j in w.hub.pending
    ensures CurrentPending(w.hub, w.hub.pending[j])
  {
    hide RegistryInv, DecidedInv, MembersInv, PresenceInv, KnowsInv, AckInv, Vouched;
  }

  lemma LateOrNot(ws: seq<World>, steps: seq<Step>, k: nat, c: Connection)
    requires Behaviour(ws, steps) && k < |ws| && CurrentPending(ws[k].hub, c)
    ensures PendingExists(ws[k].hub, c) <==> forall i | 0 <= i < k :: !LateAt(ws, steps, i, c)
  {
    hide Inv, PendingExists, CurrentPending;
    var i := WhenRegistered(ws, steps, k, c);
    WaitsAsRegistered(ws, steps, i, k, c);
    assert Goes(ws, steps, i);
    RegisteringKeeps(ws[i], steps[i], c);
    if !PendingExists(ws[k].hub, c) {
      assert LateAt(ws, steps, i, c);
    }
    forall m | 0 <= m < k && PendingExists(ws[k].hub, c) ensures !LateAt(ws, steps, m, c) {
      if LateAt(ws, steps, m, c) {
        WaitsAsRegistered(ws, steps, m, k, c);
      }
    }
  }

  /**
   * Whether the current connection of a joiner may send: its join was pending when it was registered, or its device is
   * a member by now. So it is rejected exactly when it was registered late and its device has not been let in.
   */
  lemma JoinersMaySend(ws: seq<World>, steps: seq<Step>, i: nat, k: nat, c: Connection)
    requires Behaviour(ws, steps) && i < k < |ws| && Registers(steps[i], c) && CurrentPending(ws[k].hub, c)
    ensures CanSend(ws[k].hub, c) <==> PendingExists(ws[i].hub, c) || RegistryMemberExists(ws[k].hub, c)
  {
    hide Inv, Goes, PendingExists, CurrentPending, CanSend, RegistryMemberExists;
    Always(ws, steps, k);
    WaitsAsRegistered(ws, steps, i, k, c);
    NoMemberWaits(ws[k], c);
    RejectedExactlyWhen(ws[k], c);
  }

  lemma NoMemberWaits(w: World, c: Connection)
    requires Inv(w) && CurrentPending(w.hub, c)
    ensures !IsMember(w.hub, c)
  {
    hide RegistryInv, DecidedInv, MembersInv, PresenceInv, KnowsInv, AckInv, SocketsInv, Vouched;
  }

  /** Claims that have once passed the check are vouched for ever after, so a late registration is always possible. */
  lemma {:induction false} ClaimsStayVouched(ws: seq<World>, steps: seq<Step>, i: nat, k: nat, c: Connection)
    requires Behaviour(ws, steps) && i <= k < |ws| && ValidPendingClaims(ws[i].hub, c)
    ensures Vouched(ws[k].hub.registry, c)
    decreases k
  {
    hide Inv, Enabled, Next, ValidPendingClaims, Vouched, RegistryInv;
    if i == k {
      Always(ws, steps, i);
      InvRegistry(ws[i]);
      ValidIsVouched(ws[i].hub.registry, ws[i].lives, ws[i].hub, c);
    } else {
      ClaimsStayVouched(ws, steps, i, k - 1, c);
      Always(ws, steps, k - 1);
      assert Goes(ws, steps, k - 1);
      StepKeepsVouched(ws[k - 1], steps[k - 1], c);
    }
  }

  // ----- runs whose handshakes are not interrupted -----

  /** Handshakes are not interrupted. */
  ghost predicate Whole(steps: seq<Step>) {
    forall i | 0 <= i < |steps| :: !steps[i].BeginMember? && !steps[i].BeginJoiner?
  }

  lemma {:induction false} NothingInterrupted(ws: seq<World>, steps: seq<Step>, k: nat)
    requires Behaviour(ws, steps) && Whole(steps) && k < |ws|
    ensures ws[k].opening == map[]
  {
    hide Inv, Enabled, Next;
    if k > 0 {
      NothingInterrupted(ws, steps, k - 1);
      assert Goes(ws, steps, k - 1);
      WholeStep(ws[k - 1], steps[k - 1]);
    }
  }

  lemma WholeStep(w: World, s: Step)
    requires Enabled(w, s) && w.opening == map[] && !s.BeginMember? && !s.BeginJoiner?
    ensures Next(w, s).opening == map[]
  {
    hide FinishMember, FinishPending, Expire, HandleEvent, Unregister, Connect, ValidChoice;
  }

  /** Then the maps agree without exception. */
  lemma WholeRunsAgree(ws: seq<World>, steps: seq<Step>, k: nat)
    requires Behaviour(ws, steps) && Whole(steps) && k < |ws|
    ensures var h := ws[k].hub;
            && (forall s | s in h.members :: OnlineMember(h, s))
            && (forall j | j in h.pending :: PendingExists(h, h.pending[j]))
            && (forall t | t in h.timers :: t !in h.members && TimerOk(h, t))
  {
    hide Inv, OnlineMember, PendingExists, TimerOk, Enabled, Next, Clears;
    MapsAgree(ws, steps, k);
    NothingInterrupted(ws, steps, k);
    forall i, t ensures !StaleSince(ws, steps, i, k, t) {
      if StaleSince(ws, steps, i, k, t) {
        NothingInterrupted(ws, steps, i);
        assert Goes(ws, steps, i);
        NoEndWithoutOpening(ws[i], steps[i]);
      }
    }
  }

  lemma NoEndWithoutOpening(w: World, s: Step)
    requires Enabled(w, s) && w.opening == map[]
    ensures !s.EndMember? && !s.EndJoiner?
  {
  }

  /** Then nobody is lost. */
  lemma WholeRunsArePresent(ws: seq<World>, steps: seq<Step>, k: nat)
    requires Behaviour(ws, steps) && Whole(steps) && k < |ws|
    ensures Present(ws[k])
  {
    hide Inv, Enabled, Next, Lost, Present, Tracked;
    PresentMeansNoneLost(ws[k]);
    forall s ensures !Lost(ws[k], s) {
      LostExactlyWhen(ws, steps, k, s);
      if Lost(ws[k], s) {
        var i :| LostSince(ws, steps, i, k, s);
        NothingInterrupted(ws, steps, i);
        assert Goes(ws, steps, i);
        NoEndWithoutOpening(ws[i], steps[i]);
      }
    }
  }

  // ----- the owner and the waiting joins -----

  /**
   * Whenever the current owner has a settled connection, that very connection has been sent a join request for
   * every pending join whose own connection waits, however ownership and connections have changed meanwhile.
   */
  lemma OwnerKnowsEveryWaitingJoin(ws: seq<World>, steps: seq<Step>, k: nat, id: string, j: string)
    requires Behaviour(ws, steps) && k < |ws|
    requires var h := ws[k].hub; id in h.registry.channels && j in h.registry.channels[id].pending
    requires j in ws[k].hub.pending && ws[k].hub.pending[j] !in ws[k].opening
    requires var w := ws[k]; var owner := (id, w.hub.registry.channels[id].ownerId);
             owner in w.hub.members && w.hub.members[owner] !in w.opening
    ensures var w := ws[k]; var ch := w.hub.registry.channels[id];
            Wrote(w.hub.members[(id, ch.ownerId)], JoinRequestEvent(id, ch.pending[j], ch.ownerId)) in w.sent
  {
    hide Inv, Goes, JoinRequestEvent;
    Always(ws, steps, k);
    OwnerKnowsAt(ws[k], id, j);
  }

  // ----- drain -----

  ghost predicate Closes(vs: seq<World>, closing: seq<Step>, i: nat)
    requires i < |closing| && |vs| == |closing| + 1
  {
    Drains(vs[i], closing[i]) && vs[i + 1] == Next(vs[i], closing[i])
  }

  /** From vs[0] on, sockets close, handshakes end and armed timers fire, in any order. */
  ghost predicate ClosingDown(vs: seq<World>, closing: seq<Step>) {
    |vs| == |closing| + 1 && forall i | 0 <= i < |closing| :: Closes(vs, closing, i)
  }

  lemma {:induction false} ClosingKeeps(vs: seq<World>, closing: seq<Step>, k: nat)
    requires ClosingDown(vs, closing) && k < |vs| && Inv(vs[0])
    ensures Inv(vs[k]) && k + Measure(vs[k]) <= Measure(vs[0])
  {
    hide Inv, Enabled, Next, Drains, Measure;
    if k > 0 {
      ClosingKeeps(vs, closing, k - 1);
      assert Closes(vs, closing, k - 1);
      DrainStepDecreases(vs[k - 1], closing[k - 1]);
      NextKeeps(vs[k - 1], closing[k - 1]);
    }
  }

  /** From every state closing down, in any order, takes at most Measure steps. */
  lemma ClosingTerminates(ws: seq<World>, steps: seq<Step>, k: nat, vs: seq<World>, closing: seq<Step>)
    requires Behaviour(ws, steps) && k < |ws| && ClosingDown(vs, closing) && vs[0] == ws[k]
    ensures |closing| <= Measure(ws[k])
  {
    hide Inv, Goes, Closes, Measure;
    Always(ws, steps, k);
    ClosingKeeps(vs, closing, |closing|);
  }

  /** Closing down never gets stuck: while a socket is open or a timer armed, some step of it can be taken. */
  lemma ClosingGoesOn(ws: seq<World>, steps: seq<Step>, k: nat) returns (s: Step)
    requires Behaviour(ws, steps) && k < |ws| && (ws[k].open != {} || ws[k].hub.timers != {})
    ensures Drains(ws[k], s)
  {
    hide Inv, Goes;
    Always(ws, steps, k);
    s := DrainProgress(ws[k]);
  }

  // ----- expiry -----

  /** An expiry, however stale, leaves every connected online device online. */
  lemma ExpiryIsSafe(ws: seq<World>, steps: seq<Step>, k: nat, slot: Slot, s: Slot)
    requires Behaviour(ws, steps) && k < |steps| && steps[k] == Expiry(slot)
    requires s in ws[k].hub.members && OnlineMember(ws[k].hub, s)
    ensures OnlineMember(ws[k + 1].hub, s)
  {
    hide Inv, AfterExpiry, OnlineMember;
    Always(ws, steps, k);
    assert Goes(ws, steps, k);
    ExpirySparesConnected(ws[k], slot, s);
  }

  /** For a device that has a connection, its own timer callback changes nothing at all. */
  lemma ConnectedDeviceIsSpared(ws: seq<World>, steps: seq<Step>, k: nat, slot: Slot)
    requires Behaviour(ws, steps) && k < |steps| && steps[k] == Expiry(slot) && slot in ws[k].hub.members
    ensures ws[k + 1] == ws[k]
  {
    hide Inv, AfterExpiry;
    Always(ws, steps, k);
    assert Goes(ws, steps, k);
    ConnectedExpiry(ws[k], slot);
  }

  lemma ConnectedExpiry(w: World, slot: Slot)
    requires Inv(w) && slot in w.hub.members
    ensures AfterExpiry(w, slot) == w
  {
    hide Inv, Expire, SetOnline;
    QuietExpiry(w.hub, slot);
    TimersExcludeMembers(w);
    LivesFollowChannels(w);
    assert w.hub.timers - {slot} == w.hub.timers;
    assert AfterExpiry(w, slot).lives == w.lives;
  }

  /**
   * A channel that goes leaves no settled connection, closes and forgets its joiners, and had nobody else online. Only the
   * timer that has run goes; one of the channel that is left is one that a failed handshake has armed.
   */
  lemma DeletionLeavesNothing(ws: seq<World>, steps: seq<Step>, k: nat, slot: Slot)
    requires Behaviour(ws, steps) && k < |steps| && steps[k] == Expiry(slot)
    requires slot.0 in ws[k].hub.registry.channels && slot.0 !in ws[k + 1].hub.registry.channels
    ensures var w, w' := ws[k], ws[k + 1];
            && (forall s | s in w'.hub.members && s.0 == slot.0 :: w'.hub.members[s] in w'.opening)
            && (forall j | j in w'.hub.pending :: w'.hub.pending[j].channelId != slot.0)
            && (forall j | j in w.hub.pending && w.hub.pending[j].channelId == slot.0 ::
                  Closed(w.hub.pending[j], "channel deleted") in w'.sent)
            && (forall s | OnlineMember(w.hub, s) && s.0 == slot.0 :: s == slot)
            && w'.hub.timers == w.hub.timers - {slot}
            && (forall t: Slot | t.0 == slot.0 :: t in w'.hub.timers <==> t != slot && exists i :: StaleSince(ws, steps, i, k, t))
  {
    hide Inv, AfterExpiry, OnlineMember, StaleSince, TimerOk;
    Always(ws, steps, k);
    assert Goes(ws, steps, k);
    DeletionIsClean(ws[k], slot);
    ExpiryClears(ws[k], slot);
    var w' := ws[k + 1];
    forall t: Slot | t.0 == slot.0 ensures t in w'.hub.timers <==> t != slot && exists i :: StaleSince(ws, steps, i, k, t) {
      StaleExactlyWhen(ws, steps, k, t);
      if t in w'.hub.timers && !StaleTimer(ws[k].hub, t) {
        NoUseForTheDeleted(w'.hub, t);
        StaleBegins(ws[k], Expiry(slot), t);
      }
    }
  }

  lemma NoUseForTheDeleted(h: Hub, t: Slot)
    requires t.0 !in h.registry.channels
    ensures !TimerOk(h, t)
  {
  }

  // ----- superseding -----

  /** Closing a superseded connection changes no map and starts no timer; its events have no effect but its closing. */
  lemma SupersededIsInvisible(ws: seq<World>, steps: seq<Step>, k: nat, c: Connection)
    requires Behaviour(ws, steps) && k < |steps| && !CurrentMember(ws[k].hub, c) && !CurrentPending(ws[k].hub, c)
    requires steps[k] == Close(c) || (steps[k].Receive? && steps[k].conn == c)
    ensures ws[k + 1].hub == ws[k].hub && ws[k + 1].lives == ws[k].lives
    ensures forall o | o in ws[k + 1].sent - ws[k].sent :: o.Closed? && o.conn == c
  {
    hide AfterReceive, AfterClose, CurrentMember, CurrentPending;
    assert Goes(ws, steps, k);
    if steps[k].Receive? {
      SupersededEventIsIgnored(ws[k], c, steps[k].event, steps[k].choice);
    } else {
      SupersededCloseIsInvisible(ws[k], c);
    }
  }

  /** The device's handshake ends with this step. */
  ghost predicate Arrives(s: Step, c: Connection) {
    s == OpenMember(c) || s == EndMember(c)
  }

  /** The connection that c replaces. */
  ghost function Replaced(w: World, s: Step): Option<Connection> {
    match s
    case OpenMember(c) => Previous(w.hub, c)
    case OpenJoiner(c) => PreviousPending(w.hub, c)
    case EndMember(c) => if c in w.opening then w.opening[c] else None
    case EndJoiner(c) => if c in w.opening then w.opening[c] else None
    case _ => None
  }

  lemma {:induction false} OnlineUntilExpiry(ws: seq<World>, steps: seq<Step>, i: nat, k: nat, slot: Slot)
    requires Behaviour(ws, steps) && i <= k < |ws| && OnlineMember(ws[i].hub, slot)
    requires forall m | i <= m < k :: steps[m] != Expiry(slot)
    ensures OnlineMember(ws[k].hub, slot)
    decreases k
  {
    hide Inv, Enabled, Next, OnlineMember;
    if i < k {
      OnlineUntilExpiry(ws, steps, i, k - 1, slot);
      Always(ws, steps, k - 1);
      assert Goes(ws, steps, k - 1);
      StaysOnline(ws[k - 1], steps[k - 1], slot);
    }
  }

  lemma ArrivalIsQuiet(w: World, s: Step, c: Connection)
    requires Inv(w) && Enabled(w, s) && Arrives(s, c) && OnlineMember(w.hub, SlotOf(c))
    ensures Next(w, s).hub.registry == w.hub.registry
    ensures forall o | o in Next(w, s).sent - w.sent ::
              || (o.Wrote? && o.event.kind.JoinRequest? && SlotOf(o.conn) == SlotOf(c))
              || (o.Closed? && Replaced(w, s) == Some(o.conn))
  {
    hide Inv, AfterEnd, OnlineMember, RegistryMemberExists;
    if s == OpenMember(c) {
      BeginKeeps(w, c);
      BegunOpening(w, c);
      SameOnline(w.hub, AfterBegin(w, c).hub, SlotOf(c));
      QuietEnd(AfterBegin(w, c), c);
    } else {
      QuietEnd(w, c);
    }
  }

  /**
   * Disconnecting and reconnecting before the expiry, whatever happens meanwhile: the device never goes offline, the
   * registry changes neither when it leaves nor when it returns, and nobody is told of either; a returning owner is sent
   * the waiting joins, and a connection that is replaced is closed.
   */
  lemma ReconnectLeavesNoTrace(ws: seq<World>, steps: seq<Step>, i: nat, k: nat, c: Connection, c': Connection)
    requires Behaviour(ws, steps) && i < k < |steps| && steps[i] == Close(c) && CurrentMember(ws[i].hub, c)
    requires Arrives(steps[k], c') && SlotOf(c') == SlotOf(c) && forall m | i < m < k :: steps[m] != Expiry(SlotOf(c))
    ensures ws[i + 1].hub.registry == ws[i].hub.registry && ws[i + 1].sent == ws[i].sent
    ensures forall m | i <= m <= k + 1 :: OnlineMember(ws[m].hub, SlotOf(c))
    ensures ws[k + 1].hub.registry == ws[k].hub.registry
    ensures forall o | o in ws[k + 1].sent - ws[k].sent ::
              || (o.Wrote? && o.event.kind.JoinRequest? && SlotOf(o.conn) == SlotOf(c))
              || (o.Closed? && Replaced(ws[k], steps[k]) == Some(o.conn))
  {
    hide Inv, Enabled, Next, OnlineMember, CurrentMember;
    Always(ws, steps, i);
    Always(ws, steps, k);
    assert Goes(ws, steps, i) && Goes(ws, steps, k);
    LeavingIsQuiet(ws[i], c);
    forall m | i <= m <= k + 1 ensures OnlineMember(ws[m].hub, SlotOf(c)) {
      OnlineUntilExpiry(ws, steps, i, m, SlotOf(c));
    }
    ArrivalIsQuiet(ws[k], steps[k], c');
  }

  lemma LeavingIsQuiet(w: World, c: Connection)
    requires Inv(w) && Enabled(w, Close(c)) && CurrentMember(w.hub, c)
    ensures OnlineMember(w.hub, SlotOf(c))
    ensures var w' := Next(w, Close(c)); w'.hub.registry == w.hub.registry && w'.sent == w.sent
  {
    hide Inv, Unregister;
    CurrentIsOnline(w, c);
    QuietSteps(w, c);
  }

  /** When nothing happens meanwhile, only the connection itself has changed. */
  lemma ReconnectAtOnce(ws: seq<World>, steps: seq<Step>, k: nat, c: Connection, c': Connection)
    requires Behaviour(ws, steps) && k + 1 < |steps| && steps[k] == Close(c) && steps[k + 1] == OpenMember(c')
    requires CurrentMember(ws[k].hub, c) && SlotOf(c') == SlotOf(c)
    ensures ws[k + 2].hub == ws[k].hub.(members := ws[k].hub.members[SlotOf(c) := c'])
    ensures forall o | o in ws[k + 2].sent - ws[k].sent :: o.Wrote? && o.conn == c' && o.event.kind.JoinRequest?
  {
    hide Inv, AfterClose, AfterBegin, AfterEnd, CurrentMember, RegistryMemberExists;
    Always(ws, steps, k);
    assert Goes(ws, steps, k) && Goes(ws, steps, k + 1);
    SameSeen(ws[k], c);
    ReconnectIsInvisible(ws[k], c, c');
    IdOfChannel(ws[k], c.channelId);
    NoticesOfOwner(ws[k + 2].hub, ws[k].hub, c, c');
  }

  lemma IdOfChannel(w: World, id: string)
    requires Inv(w) && id in w.hub.registry.channels
    ensures w.hub.registry.channels[id].id == id
  {
    hide Inv, RegistryInv;
    InvRegistry(w);
    ChannelFacts(w.hub.registry, w.lives, id);
  }

  lemma SameSeen(w: World, c: Connection)
    ensures AfterClose(w, c).seen == w.seen
  {
  }

  lemma NoticesOfOwner(h': Hub, h: Hub, c: Connection, c': Connection)
    requires h' == h.(members := h.members[SlotOf(c) := c']) && OnlineMember(h, SlotOf(c)) && SlotOf(c) == SlotOf(c')
    requires h.registry.channels[c.channelId].id == c.channelId
    ensures var ch := h.registry.channels[c.channelId];
            ch.ownerId == c.deviceId ==>
              forall o | o in NotifyOwnerOfPendingJoins(h', ch) :: o.Wrote? && o.conn == c' && o.event.kind.JoinRequest?
  {
  }

  // ----- answers and routing -----

  /** Every event accepted from a connection gets exactly one correlated answer, unless it is a member's broadcast. */
  lemma OneAnswerPerEvent(ws: seq<World>, steps: seq<Step>, k: nat, c: Connection, e: Event, x: Choice)
    requires Behaviour(ws, steps) && k < |steps| && steps[k] == Receive(c, e, x) && CanSend(ws[k].hub, c)
    requires !(e.kind.MessageBroadcast? && IsMember(ws[k].hub, c) && (e.channelId == "" || e.channelId == c.channelId))
    ensures exists out :: ws[k + 1].sent == ws[k].sent + out && out == HandleEvent(ws[k].hub, c, e, x).out && OneAnswer(out, c, e.id)
  {
    hide Inv, HandleEvent, OneAnswer, CanSend, Record, ValidChoice;
    Always(ws, steps, k);
    assert Goes(ws, steps, k);
    OneCorrelatedAnswer(ws[k], c, e, x);
    RecordSends(ws[k], c, HandleEvent(ws[k].hub, c, e, x).facts);
  }

  lemma RecordSends(w: World, c: Connection, facts: set<Fact>)
    ensures Record(w, c, facts).sent == w.sent
  {
  }

  /** A message reaches only current members of the sender's own channel, and names its true sender and target. */
  lemma MessagesStayInTheirChannel(ws: seq<World>, steps: seq<Step>, k: nat, c: Connection, e: Event, x: Choice, o: Out)
    requires Behaviour(ws, steps) && k < |steps| && steps[k] == Receive(c, e, x)
    requires o in ws[k + 1].sent - ws[k].sent && o.Wrote? && IsMessage(o.event.kind)
    ensures WellRouted(ws[k].hub, o, c, e)
  {
    hide Inv, HandleEvent, WellRouted, IsMessage, Record, ValidChoice;
    Always(ws, steps, k);
    assert Goes(ws, steps, k);
    RecordSends(ws[k], c, HandleEvent(ws[k].hub, c, e, x).facts);
    RoutingIsIsolated(ws[k], c, e, x, o);
  }

  // ----- admission -----

  /** Each step leaves a channel's history alone, or is the approval by the current owner that it adds. */
  lemma OnlyTheOwnerAdmits(ws: seq<World>, steps: seq<Step>, k: nat, id: string)
    requires Behaviour(ws, steps) && k < |steps| && id in ws[k].lives && id in ws[k + 1].lives
    ensures SameOrAdmitted(ws[k], steps[k], id, ws[k].lives[id], ws[k + 1].lives[id])
    ensures forall j | j in ws[k].decided :: j in ws[k + 1].decided && ws[k + 1].decided[j] == ws[k].decided[j]
  {
    hide Inv, Enabled, Next, SameOrAdmitted;
    Always(ws, steps, k);
    assert Goes(ws, steps, k);
    AdmissionAuthority(ws[k], steps[k], id);
  }

  /** The history goes on from the earlier one. */
  ghost predicate GoesOn(life: Life, life': Life) {
    life'.name == life.name && life'.pin == life.pin && life'.creator == life.creator && life.admissions <= life'.admissions
  }

  lemma {:induction false} HistoryGrows(ws: seq<World>, steps: seq<Step>, i: nat, j: nat, id: string)
    requires Behaviour(ws, steps) && i <= j < |ws| && forall k | i <= k <= j :: id in ws[k].lives
    ensures GoesOn(ws[i].lives[id], ws[j].lives[id])
    ensures forall d | d in ws[i].decided :: d in ws[j].decided && ws[j].decided[d] == ws[i].decided[d]
    decreases j
  {
    hide Goes, Admits;
    if i < j {
      HistoryGrows(ws, steps, i, j - 1, id);
      OnlyTheOwnerAdmits(ws, steps, j - 1, id);
    }
  }

  /** Within a channel's lifetime members only join, nobody's priority changes, and no decision is ever revised. */
  lemma MembershipOnlyGrows(ws: seq<World>, steps: seq<Step>, i: nat, j: nat, id: string, d: string)
    requires Behaviour(ws, steps) && i <= j < |ws| && forall k | i <= k <= j :: id in ws[k].lives
    requires id in ws[i].hub.registry.channels && d in ws[i].hub.registry.channels[id].members
    ensures id in ws[j].hub.registry.channels && d in ws[j].hub.registry.channels[id].members
    ensures ws[j].hub.registry.channels[id].members[d].priority == ws[i].hub.registry.channels[id].members[d].priority
    ensures forall r | r in ws[i].decided :: r in ws[j].decided && ws[j].decided[r] == ws[i].decided[r]
  {
    hide Inv, Goes;
    Always(ws, steps, i);
    Always(ws, steps, j);
    HistoryGrows(ws, steps, i, j, id);
    LivesFollowChannels(ws[j]);
    MembersAreAdmitted(ws[i], id);
    MembersAreAdmitted(ws[j], id);
    var life, life' := ws[i].lives[id], ws[j].lives[id];
    if d != life.creator {
      var n :| 0 <= n < |life.admissions| && life.admissions[n].deviceId == d;
      assert life'.admissions[n] == life.admissions[n];
    }
  }

  /** The members are the creator and those let in by one approval each, with priorities in the order of admission. */
  lemma EveryMemberWasAdmitted(ws: seq<World>, steps: seq<Step>, k: nat, id: string)
    requires Behaviour(ws, steps) && k < |ws| && id in ws[k].hub.registry.channels
    ensures id in ws[k].lives
    ensures var members := ws[k].hub.registry.channels[id].members; var life := ws[k].lives[id];
            && |members| == 1 + |life.admissions|
            && life.creator in members && members[life.creator].priority == 1
            && (forall i | 0 <= i < |life.admissions| ::
                  var a := life.admissions[i];
                  && a.deviceId in members && members[a.deviceId].priority == i + 2
                  && a.joinId in ws[k].decided && ws[k].decided[a.joinId]
                  && a.ownerId == a.actor.deviceId && a.actor.channelId == id)
            && (forall d | d in members :: d == life.creator || exists i :: 0 <= i < |life.admissions| && life.admissions[i].deviceId == d)
  {
    hide Inv, Goes;
    Always(ws, steps, k);
    MembersAreAdmitted(ws[k], id);
  }

  /** In every state the owner is the earliest admitted member that is online, and there is none if nobody is. */
  lemma OwnerIsEarliest(ws: seq<World>, steps: seq<Step>, k: nat, id: string)
    requires Behaviour(ws, steps) && k < |ws| && id in ws[k].hub.registry.channels
    ensures id in ws[k].lives
    ensures var ch := ws[k].hub.registry.channels[id]; var order := Order(ws[k].lives[id]);
            && (forall i | 0 <= i < |order| :: order[i] in ch.members)
            && (ch.ownerId == "" <==> forall d | d in ch.members :: !ch.members[d].online)
            && (forall i | 0 <= i < |order| ::
                  ch.ownerId == order[i] <==>
                    ch.members[order[i]].online && forall e | 0 <= e < i :: !ch.members[order[e]].online)
  {
    hide Inv, Goes, Order;
    Always(ws, steps, k);
    OwnershipIsAdmissionOrder(ws[k], id);
  }

  /** Members and joiners are different devices, each joiner waits once and undecided, and both stay within the limits. */
  lemma JoinsArePartitioned(ws: seq<World>, steps: seq<Step>, k: nat, id: string)
    requires Behaviour(ws, steps) && k < |ws| && id in ws[k].hub.registry.channels
    ensures var ch := ws[k].hub.registry.channels[id];
            && |ch.members| <= MAX_MEMBERS && |ch.pending| <= MAX_PENDING_JOINS
            && (forall j | j in ch.pending :: ch.pending[j].deviceId !in ch.members && ch.pending[j].id == j && j !in ws[k].decided)
            && (forall i, j | i in ch.pending && j in ch.pending && i != j :: ch.pending[i].deviceId != ch.pending[j].deviceId)
  {
    hide Inv, Goes;
    Always(ws, steps, k);
    JoinPartition(ws[k], id);
  }

  // ----- the index -----

  /** The channels and the key index are mutually inverse in every state. */
  lemma IndexAgrees(ws: seq<World>, steps: seq<Step>, k: nat)
    requires Behaviour(ws, steps) && k < |ws|
    ensures Inverse(ws[k].hub.registry)
  {
    hide Inv, Goes, Inverse;
    Always(ws, steps, k);
    RegistryIsInverse(ws[k]);
  }

  lemma RegistryIsInverse(w: World)
    requires Inv(w)
    ensures Inverse(w.hub.registry)
  {
    hide DecidedInv, MembersInv, PendingInv, PresenceInv, SocketsInv, KnowsInv, AckInv, ChannelInv, SoundChannel, Inverse;
  }

  /** A connect call begins a new channel exactly when no live channel was created with that name and PIN. */
  lemma CreatedExactlyWhenNoneLives(ws: seq<World>, steps: seq<Step>, k: nat, name: string, pin: string, d: string, deviceName: string)
    requires Behaviour(ws, steps) && k < |steps| && steps[k] == HttpConnect(name, pin, d, deviceName)
    ensures (exists id :: id in ws[k + 1].lives && id !in ws[k].lives)
       <==> forall id | id in ws[k].lives :: ws[k].lives[id].name != name || ws[k].lives[id].pin != pin
  {
    hide Inv, Connect, ScheduleOfflineExpiry;
    Always(ws, steps, k);
    assert Goes(ws, steps, k);
    CreatedExactlyWhenNew(ws[k], name, pin, d, deviceName);
    InvRegistry(ws[k]);
    CreatedIsNew(ws[k], name, pin, d, deviceName);
    if Connect(ws[k].hub.registry, name, pin, d, deviceName).1.Created? {
      var id := Connect(ws[k].hub.registry, name, pin, d, deviceName).1.channelId;
      assert id in ws[k + 1].lives && id !in ws[k].lives;
    }
  }
}
