/** Closing down: what is left of a relay once its sockets are closed and its timers have run out. */
module RelayDrain {
  import opened Options
  import opened Identifiers
  import opened Protocol
  import opened Connections
  import opened RegistrySpec
  import opened HubSpec
  import opened RelayRuns
  import opened RegistryProofs
  import opened RelayProofs
  import opened RelayEventProofs
  import opened RelayTheorems
  import opened RelayGuarantees
  import opened RelayMaps
  import opened RelayPresence
  import opened RelayPromises

  // ----- lost devices -----

  lemma LostStaysLost(w: World, s: Step, slot: Slot)
    requires Inv(w) && Lost(w, slot) && Drains(w, s)
    ensures Enabled(w, s) && Lost(Next(w, s), slot)
  {
    hide Inv, OnlineMember, Next;
    LostStays(w, s, slot);
  }

  /** However the relay closes down, the channel of a lost device stays. */
  lemma {:induction false} LostForever(vs: seq<World>, closing: seq<Step>, i: nat, k: nat, slot: Slot)
    requires ClosingDown(vs, closing) && i <= k < |vs| && Inv(vs[0]) && Lost(vs[i], slot)
    ensures Lost(vs[k], slot)
    decreases k
  {
    hide Inv, Drains, Enabled, Next, Lost;
    if i < k {
      LostForever(vs, closing, i, k - 1, slot);
      ClosingKeeps(vs, closing, k - 1);
      assert Closes(vs, closing, k - 1);
      LostStaysLost(vs[k - 1], closing[k - 1], slot);
    }
  }

  // ----- when everything goes -----

  /** Each handshake that ends while closing down is tracked when it ends. */
  ghost predicate AllTracked(vs: seq<World>, closing: seq<Step>)
    requires |vs| == |closing| + 1
  {
    forall i | 0 <= i < |closing| && closing[i].EndMember? :: Tracked(vs[i], closing[i].conn)
  }

  lemma PresentStays(w: World, s: Step)
    requires Inv(w) && Present(w) && Drains(w, s) && (s.EndMember? ==> Tracked(w, s.conn))
    ensures Present(Next(w, s))
  {
    hide Inv, Next, Tracked, OnlineMember;
    DrainsEnabled(w, s);
    forall slot | OnlineMember(Next(w, s).hub, slot) ensures slot in Next(w, s).hub.members || slot in Next(w, s).hub.timers {
      if Lost(Next(w, s), slot) {
        LossBegins(w, s, slot);
      }
    }
  }

  lemma {:induction false} PresentUntil(vs: seq<World>, closing: seq<Step>, k: nat)
    requires ClosingDown(vs, closing) && k < |vs| && Inv(vs[0]) && Present(vs[0]) && AllTracked(vs, closing)
    ensures Present(vs[k])
  {
    hide Inv, Enabled, Next, Drains, Present, Tracked;
    if k > 0 {
      PresentUntil(vs, closing, k - 1);
      ClosingKeeps(vs, closing, k - 1);
      assert Closes(vs, closing, k - 1);
      PresentStays(vs[k - 1], closing[k - 1]);
    }
  }

  /**
   * No immortal channel, exactly: from every state of every run, once closing down has closed every socket and let every
   * timer run out, the registry, its index and all maps are empty if and only if every online device was connected or
   * in its grace period to begin with, and each handshake that ended on the way was tracked.
   */
  lemma NoImmortalChannel(ws: seq<World>, steps: seq<Step>, k: nat, vs: seq<World>, closing: seq<Step>)
    requires Behaviour(ws, steps) && k < |ws| && ClosingDown(vs, closing) && vs[0] == ws[k]
    requires vs[|closing|].open == {} && vs[|closing|].hub.timers == {}
    ensures Empty(vs[|closing|].hub) <==> Present(ws[k]) && AllTracked(vs, closing)
  {
    hide Inv, Goes, Closes, Empty, Present, Lost, Tracked;
    Always(ws, steps, k);
    ClosingKeeps(vs, closing, |closing|);
    if Present(ws[k]) && AllTracked(vs, closing) {
      PresentUntil(vs, closing, |closing|);
      NoSocketNoTimerIsEmpty(vs[|closing|]);
    } else if !Present(ws[k]) {
      var slot := SomeLost(ws[k]);
      LostForever(vs, closing, 0, |closing|, slot);
      LostIsSomething(vs[|closing|], slot);
    } else {
      var i :| 0 <= i < |closing| && closing[i].EndMember? && !Tracked(vs[i], closing[i].conn);
      UntrackedEnd(vs, closing, i);
      LostForever(vs, closing, i + 1, |closing|, SlotOf(closing[i].conn));
      LostIsSomething(vs[|closing|], SlotOf(closing[i].conn));
    }
  }

  lemma SomeLost(w: World) returns (slot: Slot)
    requires !Present(w)
    ensures Lost(w, slot)
  {
    slot :| OnlineMember(w.hub, slot) && slot !in w.hub.members && slot !in w.hub.timers;
  }

  lemma UntrackedEnd(vs: seq<World>, closing: seq<Step>, i: nat)
    requires ClosingDown(vs, closing) && i < |closing| && closing[i].EndMember? && !Tracked(vs[i], closing[i].conn)
    ensures Lost(vs[i + 1], SlotOf(closing[i].conn))
  {
    hide Lost, AfterEnd, Tracked;
    assert Closes(vs, closing, i);
    UntrackedEndIsLost(vs[i], closing[i].conn);
  }

  lemma {:induction false} NothingOpening(vs: seq<World>, closing: seq<Step>, k: nat)
    requires ClosingDown(vs, closing) && k < |vs| && vs[0].opening == map[]
    ensures vs[k].opening == map[]
  {
    hide Inv, Next, Drains;
    if k > 0 {
      NothingOpening(vs, closing, k - 1);
      assert Closes(vs, closing, k - 1);
      OpeningStays(vs[k - 1], closing[k - 1]);
    }
  }

  lemma OpeningStays(w: World, s: Step)
    requires Drains(w, s) && w.opening == map[]
    ensures Enabled(w, s) && Next(w, s).opening == map[]
  {
    hide Expire, Unregister;
  }

  lemma DrainsEnabled(w: World, s: Step)
    requires Drains(w, s)
    ensures Enabled(w, s)
  {
  }

  /** When handshakes are not interrupted, closing down leaves nothing behind. */
  lemma WholeRunsLeaveNothing(ws: seq<World>, steps: seq<Step>, k: nat, vs: seq<World>, closing: seq<Step>)
    requires Behaviour(ws, steps) && Whole(steps) && k < |ws| && ClosingDown(vs, closing) && vs[0] == ws[k]
    requires vs[|closing|].open == {} && vs[|closing|].hub.timers == {}
    ensures Empty(vs[|closing|].hub)
  {
    hide Inv, Goes, Next, Enabled, Drains, Empty, Present, Tracked;
    NothingInterrupted(ws, steps, k);
    WholeRunsArePresent(ws, steps, k);
    forall i | 0 <= i < |closing| ensures !closing[i].EndMember? {
      NothingOpening(vs, closing, i);
      assert Closes(vs, closing, i);
      DrainsEnabled(vs[i], closing[i]);
      NoEndWithoutOpening(vs[i], closing[i]);
    }
    NoImmortalChannel(ws, steps, k, vs, closing);
  }
}
