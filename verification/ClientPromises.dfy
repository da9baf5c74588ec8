/** The promises of the client, over all its runs. */
module ClientPromises {
  import opened Options
  import opened Protocol
  import opened ClientSpec
  import opened ClientProofs
  import opened ClientTheorems
  import opened ClientGuarantees
  import opened ClientRecovery
  import opened ClientSettling
  import opened ClientIdentity

  ghost predicate Goes(cs: seq<Client>, steps: seq<Step>, i: nat)
    requires i < |steps| && |cs| == |steps| + 1
  {
    Enabled(cs[i], steps[i]) && cs[i + 1] == Next(cs[i], steps[i])
  }

  /** cs are the states of a run of the client from its start, and steps is what happens between them. */
  ghost predicate Behaviour(cs: seq<Client>, steps: seq<Step>) {
    |cs| == |steps| + 1 && cs[0] == Start() && forall i | 0 <= i < |steps| :: Goes(cs, steps, i)
  }

  /** The invariant holds in every state of every run. */
  lemma {:induction false} Always(cs: seq<Client>, steps: seq<Step>, k: nat)
    requires Behaviour(cs, steps) && k < |cs|
    ensures Inv(cs[k])
  {
    hide Inv, Enabled, Next;
    if k == 0 {
      StartKeeps();
    } else {
      Always(cs, steps, k - 1);
      assert Goes(cs, steps, k - 1);
      NextKeeps(cs[k - 1], steps[k - 1]);
    }
  }

  // ----- exactly-once requests -----

  /** The record of requests only grows: no frame is written again, no request forgotten, and outcomes are final. */
  lemma {:induction false} RecordOnlyGrows(cs: seq<Client>, steps: seq<Step>, i: nat, j: nat)
    requires Behaviour(cs, steps) && i <= j < |cs|
    ensures Extends(cs[i].requests, cs[j].requests)
    decreases j
  {
    hide Inv, Core, Enabled, Next, Extends;
    if i == j {
      ReflexiveExtends(cs[i].requests);
    } else {
      RecordOnlyGrows(cs, steps, i, j - 1);
      Always(cs, steps, j - 1);
      InvIsCore(cs[j - 1]);
      assert Goes(cs, steps, j - 1);
      StepExtends(cs[j - 1], steps[j - 1]);
      ExtendsTransitive(cs[i].requests, cs[j - 1].requests, cs[j].requests);
    }
  }

  /**
   * In every state a request waits for its turn, is outstanding or is settled, and only one of these; at most one
   * frame bears its id; an outstanding request has an armed timer, and its frame went to the current, opened socket.
   */
  lemma ExactlyOnce(cs: seq<Client>, steps: seq<Step>, k: nat)
    requires Behaviour(cs, steps) && k < |cs|
    ensures var q := cs[k].requests; var l := cs[k].link;
            && q.operations.Keys !! q.waiters.Keys && q.operations.Keys !! q.outcomes.Keys && q.waiters.Keys !! q.outcomes.Keys
            && (forall i, j | 0 <= i < |q.frames| && 0 <= j < |q.frames| && q.frames[i].event.id == q.frames[j].event.id :: i == j)
            && (forall id | id in q.waiters ::
                  id in q.timers && l.pendingOpen.None? && exists i :: FrameOf(q, i, id) && Some(q.frames[i].socket) == l.socket)
  {
    hide Inv, Core, Goes;
    Always(cs, steps, k);
    InvIsCore(cs[k]);
    OnceOnly(cs[k]);
  }

  /** A request succeeds only through an acceptable answer to it, received on the socket its frame was written to. */
  lemma SuccessIsAnswered(cs: seq<Client>, steps: seq<Step>, k: nat, id: string) returns (i: int)
    requires Behaviour(cs, steps) && k < |cs| && id in cs[k].requests.outcomes && cs[k].requests.outcomes[id].Success?
    ensures FrameOf(cs[k].requests, i, id)
    ensures Answers(cs[k].requests, cs[k].requests.frames[i], cs[k].requests.outcomes[id].answer)
  {
    hide Inv, Core, Goes;
    Always(cs, steps, k);
    InvIsCore(cs[k]);
    Outcomes(cs[k]);
    var q := cs[k].requests;
    i :| FrameOf(q, i, id) && Answers(q, q.frames[i], q.outcomes[id].answer);
  }

  /**
   * An outstanding request stops waiting exactly when it times out, is answered or refused on its own socket, or loses
   * that socket; its outcome says which, and it is the final one.
   */
  lemma SettledForAReason(cs: seq<Client>, steps: seq<Step>, k: nat, id: string)
    requires Behaviour(cs, steps) && k < |steps| && id in cs[k].requests.waiters
    ensures var c, c' := cs[k], cs[k + 1]; var answered := IsAnswered(c, steps[k], id);
            && (id !in c'.requests.waiters <==> steps[k] == WaiterTimeout(id) || answered || c'.link.socket != c.link.socket)
            && (id in c'.requests.waiters ==> c'.requests.waiters[id] == c.requests.waiters[id])
            && (id !in c'.requests.waiters ==>
                  forall j | k < j < |cs| ::
                    && id in cs[j].requests.outcomes
                    && cs[j].requests.outcomes[id] == if steps[k] == WaiterTimeout(id) then TimedOut
                                                      else if answered then Answer(c.requests.waiters[id].request, steps[k].event)
                                                      else ConnectionClosed)
  {
    hide Inv, Core, Enabled, Next, Extends, IsAnswered, Answer;
    Always(cs, steps, k);
    InvIsCore(cs[k]);
    assert Goes(cs, steps, k);
    SettlesForAReason(cs[k], steps[k], id);
    forall j | k < j < |cs| && id in cs[k + 1].requests.outcomes
      ensures id in cs[j].requests.outcomes && cs[j].requests.outcomes[id] == cs[k + 1].requests.outcomes[id]
    {
      RecordOnlyGrows(cs, steps, k + 1, j);
      OutcomesAreFinal(cs[k + 1].requests, cs[j].requests, id);
    }
  }

  lemma OutcomesAreFinal(q: Requests, q': Requests, id: string)
    requires Extends(q, q') && id in q.outcomes
    ensures id in q'.outcomes && q'.outcomes[id] == q.outcomes[id]
  {
  }

  // ----- fencing -----

  lemma {:induction false} OfflineSince(cs: seq<Client>, steps: seq<Step>, i: nat, j: nat)
    requires Behaviour(cs, steps) && i < j < |cs| && steps[i].Disconnect?
    requires forall m | i < m < j :: !steps[m].Connect?
    ensures Offline(cs[j]) && StillOffline(cs[i + 1], cs[j])
    ensures |cs[j].link.sockets| == |cs[i].link.sockets| && cs[j].session == cs[i].session
    decreases j
  {
    hide Inv, AfterDisconnect, Enabled;
    Always(cs, steps, j - 1);
    assert Goes(cs, steps, j - 1);
    if j == i + 1 {
      DisconnectGoesOffline(cs[i]);
    } else {
      hide Next;
      OfflineSince(cs, steps, i, j - 1);
      OfflineStep(cs[j - 1], steps[j - 1]);
    }
  }

  /** After disconnect() and until the next connect call, nothing suspended makes a socket or is adopted. */
  lemma DisconnectFences(cs: seq<Client>, steps: seq<Step>, i: nat, j: nat)
    requires Behaviour(cs, steps) && i < j < |cs| && steps[i].Disconnect?
    requires forall m | i < m < j :: !steps[m].Connect?
    ensures cs[j].link.socket.None? && |cs[j].link.sockets| == |cs[i].link.sockets| && cs[j].session == cs[i].session
  {
    hide Goes;
    OfflineSince(cs, steps, i, j);
  }

  lemma {:induction false} ChecksAge(cs: seq<Client>, steps: seq<Step>, i: nat, j: nat)
    requires Behaviour(cs, steps) && i <= j < |cs|
    ensures Aging(cs[i], cs[j])
    decreases j
  {
    hide Enabled, Next, Aging;
    if i == j {
      SameChecksAge(cs[i], cs[i]);
    } else {
      ChecksAge(cs, steps, i, j - 1);
      assert Goes(cs, steps, j - 1);
      StepAges(cs[j - 1], steps[j - 1]);
      AgingTransitive(cs[i], cs[j - 1], cs[j]);
    }
  }

  /**
   * A health check started before a connect or disconnect call closes no socket and starts no loop once the call is
   * made: when it goes on it only ends, and the operations behind it may run.
   */
  lemma StaleChecksAreHarmless(cs: seq<Client>, steps: seq<Step>, i: nat, j: nat, k: nat)
    requires Behaviour(cs, steps) && i < j < |steps| && (steps[i].Connect? || steps[i].Disconnect?)
    requires k < cs[i].nextCheck && steps[j] == ResumeCheck(k)
    ensures var c, c' := cs[j], cs[j + 1];
            && c'.link == c.link && c'.attempts == c.attempts && c'.reconnectPromise == c.reconnectPromise
            && c'.session == c.session && c'.transport == c.transport && c'.requests.waiters == c.requests.waiters
            && c'.requests.outcomes == c.requests.outcomes && k !in c'.checks
  {
    hide Inv, Core, Enabled, Next, AfterResumeCheck, Released, AfterConnect, AfterDisconnect;
    ChecksAge(cs, steps, i, j);
    ChecksAge(cs, steps, i + 1, j);
    Always(cs, steps, i);
    InvIsCore(cs[i]);
    ChecksAreYounger(cs[i]);
    assert Goes(cs, steps, i) && Goes(cs, steps, j);
    CallsAge(cs[i], steps[i]);
    EnabledMeans(cs[j], steps[j]);
    ResumeCheckIs(cs[j], k);
    StaleCheckOnlyEnds(cs[j], k);
  }

  lemma CallsAge(c: Client, s: Step)
    requires Enabled(c, s) && (s.Connect? || s.Disconnect?)
    ensures c.healthGeneration < Next(c, s).healthGeneration
  {
    hide AfterConnect, AfterDisconnect, Quiet;
    if s.Connect? {
      SeveringAges(c, s.args);
    } else {
      SeveringAges(c, Args("", "", None));
    }
  }

  lemma ResumeCheckIs(c: Client, k: nat)
    requires Enabled(c, ResumeCheck(k))
    ensures k in c.checks && Next(c, ResumeCheck(k)) == AfterResumeCheck(c, k)
  {
    hide AfterResumeCheck;
  }

  /**
   * An answer enters the state exactly when its attempt is the newest and not cancelled, and then the attempt is the only
   * one that may still do so; a socket is made for the answer exactly when it can also be opened.
   */
  lemma OnlyTheNewestAnswers(cs: seq<Client>, steps: seq<Step>, k: nat, a: Attempt, result: FetchResult)
    requires Behaviour(cs, steps) && k < |steps| && steps[k] == FetchDone(a, result) && !result.Failed?
    ensures a in cs[k].attempts && cs[k].attempts[a].Fetching?
    ensures var c, c' := cs[k], cs[k + 1]; var adopted := Newest(c, a) && !c.explicitDisconnect;
            && (Newest(c, a) ==> forall b | b in c.attempts && b != a :: Outdated(c.attempts[b], c.connectionGeneration))
            && c'.session == (if adopted then result.session else c.session)
            && |c'.link.sockets| == |c.link.sockets| + (if adopted && result.Answered? then 1 else 0)
            && (adopted ==> c'.link.socket == if result.Answered? then Some(|c.link.sockets|) else None)
            && (!adopted ==> c'.link == c.link)
  {
    hide Inv, AfterFetch, Outdated, Quiet;
    Always(cs, steps, k);
    assert Goes(cs, steps, k);
    NewestAnswerOnly(cs[k], a, result);
  }

  /** Nothing else makes a socket, and nothing else but a join.approved on the current socket changes the session. */
  lemma NothingElseEnters(cs: seq<Client>, steps: seq<Step>, k: nat)
    requires Behaviour(cs, steps) && k < |steps| && !(steps[k].FetchDone? && !steps[k].result.Failed?)
    ensures |cs[k + 1].link.sockets| == |cs[k].link.sockets|
    ensures cs[k + 1].session
         == if steps[k].SocketMessage? && cs[k].link.socket == Some(steps[k].socket) && steps[k].event.kind.JoinApproved?
            then Approved(cs[k].session, steps[k].event) else cs[k].session
  {
    hide Inv, Core, Enabled, Next;
    Always(cs, steps, k);
    InvIsCore(cs[k]);
    assert Goes(cs, steps, k);
    if steps[k].FetchDone? {
      FailedEnters(cs[k], steps[k]);
    } else {
      OnlyAnswersEnter(cs[k], steps[k]);
    }
  }

  lemma FailedEnters(c: Client, s: Step)
    requires Enabled(c, s) && s.FetchDone? && s.result.Failed?
    ensures NothingEnters(c, Next(c, s))
  {
    hide FailAttempt, Quiet;
    Untouched(c, s.attempt, {}, 0);
    FailureStands(c, s.attempt);
  }

  /** Events of any socket but the current one change nothing. */
  lemma OtherSocketsAreIgnored(cs: seq<Client>, steps: seq<Step>, k: nat, s: nat)
    requires Behaviour(cs, steps) && k < |steps| && cs[k].link.socket != Some(s)
    requires steps[k] == SocketOpen(s) || steps[k] == SocketClose(s) || steps[k] == SocketError(s)
             || (steps[k].SocketMessage? && steps[k].socket == s)
    ensures cs[k + 1] == cs[k]
  {
    hide AfterOpen, AfterMessage, AfterClose, AfterError, Quiet;
    assert Goes(cs, steps, k);
    OtherSocketsChangeNothing(cs[k], s, if steps[k].SocketMessage? then steps[k].event else NoEvent());
  }

  /** At most one socket is not closed: the current one. */
  lemma OneUnclosedSocket(cs: seq<Client>, steps: seq<Step>, k: nat, s: nat)
    requires Behaviour(cs, steps) && k < |cs| && s < |cs[k].link.sockets|
    ensures !cs[k].link.sockets[s].closed <==> cs[k].link.socket == Some(s)
  {
    hide Inv, Core, Goes;
    Always(cs, steps, k);
    InvIsCore(cs[k]);
    Links(cs[k]);
  }

  // ----- what the client asks for -----

  lemma {:induction false} CallsAlways(cs: seq<Client>, steps: seq<Step>, k: nat)
    requires Behaviour(cs, steps) && k < |cs|
    ensures CallsInv(cs[k])
  {
    hide Inv, Core, CallsInv, Enabled, Next;
    if k == 0 {
      NoCallAtStart();
    } else {
      CallsAlways(cs, steps, k - 1);
      Always(cs, steps, k - 1);
      InvIsCore(cs[k - 1]);
      assert Goes(cs, steps, k - 1);
      CallsKeep(cs[k - 1], steps[k - 1]);
    }
  }

  /** The answer that enters the state is that of the latest call, and its device id enters that call's arguments. */
  lemma AdoptedDeviceIsRemembered(cs: seq<Client>, steps: seq<Step>, k: nat, a: Attempt, result: FetchResult)
    requires Behaviour(cs, steps) && k < |steps| && steps[k] == FetchDone(a, result) && !result.Failed?
    requires a in cs[k].attempts && cs[k].attempts[a].Fetching? && Newest(cs[k], a) && !cs[k].explicitDisconnect
    ensures var before, after := cs[k].calls, cs[k + 1].calls;
            && |before.asked| > 0 && before.asked == after.asked
            && after.adopted == before.adopted[|before.asked| - 1 := result.session.deviceId]
            && |after.objects| == |before.asked| && after.objects[|before.asked| - 1].deviceId == Some(result.session.deviceId)
  {
    hide Inv, Core, CallsInv, Quiet;
    CallsAlways(cs, steps, k);
    CallsAlways(cs, steps, k + 1);
    assert Goes(cs, steps, k);
    AdoptingCalls(cs[k], a, result.session);
    AdoptionShows(cs[k], a, result);
    LatestIsCall(cs[k], a);
    LatestObject(cs[k + 1], |cs[k].calls.asked| - 1);
  }

  lemma AdoptionShows(c: Client, a: Attempt, result: FetchResult)
    requires a in c.attempts && c.attempts[a].Fetching? && !result.Failed? && Newest(c, a) && !c.explicitDisconnect
    ensures AfterFetch(c, a, result).calls == Adopted(c, a, result.session).calls
    ensures Adopted(c, a, result.session).calls.asked == c.calls.asked
  {
    hide CloseCurrent, FailAttempt;
    var c1 := Adopted(c, a, result.session);
    ClosingCalls(c1);
    FailureKeepsCalls(CloseCurrent(c1), a);
  }

  lemma FailureKeepsCalls(c: Client, a: Attempt)
    ensures FailAttempt(c, a).calls == c.calls
  {
    hide Released, Backoff;
  }

  lemma LatestIsCall(c: Client, a: Attempt)
    requires CallsInv(c) && a in c.attempts && c.attempts[a] == Fetching(c.connectionGeneration)
    ensures |c.calls.asked| == |c.calls.objects| && |c.calls.asked| > 0
  {
    hide LoopsInv, CapturedInv;
  }

  lemma LatestObject(c: Client, o: nat)
    requires CallsInv(c) && o in c.calls.adopted
    ensures |c.calls.objects| == |c.calls.asked| && o < |c.calls.objects|
    ensures c.calls.objects[o].deviceId == Some(c.calls.adopted[o])
  {
    hide LoopsInv, CapturedInv, LatestInv;
  }

  /**
   * All attempts of a loop ask for the same: for the channel and PIN of the call that was the latest when the loop began,
   * and for the device that the relay has named in answer to that call, if that answer has been adopted, and else for the
   * device that the call itself has asked for.
   */
  lemma LoopsAskAsCaptured(cs: seq<Client>, steps: seq<Step>, k: nat, i: nat, g: nat)
    requires Behaviour(cs, steps) && k < |cs| && i < |cs[k].calls.asked| && cs[k].calls.asked[i].attempt == Loop(g)
    ensures var calls := cs[k].calls;
            && g in calls.captured && calls.captured[g] < i
            && var o := calls.captured[g];
               calls.asked[i].args
                 == calls.asked[o].args.(deviceId := if o in calls.adopted then Some(calls.adopted[o]) else calls.asked[o].args.deviceId)
  {
    hide Inv, Goes;
    CallsAlways(cs, steps, k);
    AskedAsCaptured(cs[k], i);
  }

  lemma AskedAsCaptured(c: Client, i: nat)
    requires CallsInv(c) && i < |c.calls.asked| && c.calls.asked[i].attempt.Loop?
    ensures |c.calls.objects| == |c.calls.asked| && AsksAsCaptured(c.calls, i) && ObjectsInv(c.calls)
  {
    hide LatestInv, CapturedInv;
  }

  /** Every attempt of a loop asks for the channel and the PIN of the latest connect call before it. */
  lemma {:induction false} LoopsAskForTheChannel(cs: seq<Client>, steps: seq<Step>, k: nat, i: nat) returns (m: nat)
    requires Behaviour(cs, steps) && k < |cs| && i < |cs[k].calls.asked|
    ensures m <= i && cs[k].calls.asked[m].attempt.Manual? && forall j | m < j <= i :: cs[k].calls.asked[j].attempt.Loop?
    ensures SameChannel(cs[k].calls.asked[i].args, cs[k].calls.asked[m].args)
  {
    hide Inv, Goes, CallsInv;
    if cs[k].calls.asked[i].attempt.Manual? {
      m := i;
    } else {
      CallsAlways(cs, steps, k);
      AskedAsCaptured(cs[k], i);
      m := LoopsAskForTheChannel(cs, steps, k, i - 1);
    }
  }

  // ----- recovery -----

  /**
   * When the peer closes an opened socket, the current loop is in flight afterwards exactly when the status is one
   * that calls for a connection, or a loop was running already; everything outstanding is rejected.
   */
  lemma LostConnectionIsRecovered(cs: seq<Client>, steps: seq<Step>, k: nat, s: nat)
    requires Behaviour(cs, steps) && k < |steps| && steps[k] == SocketClose(s)
    requires cs[k].link.socket == Some(s) && cs[k].link.pendingOpen.None?
    ensures InFlight(cs[k + 1]) <==> Recognized(cs[k].session.status) || InFlight(cs[k])
    ensures cs[k + 1].requests.waiters == map[] && cs[k + 1].link.socket.None?
  {
    hide Inv, AfterClose, InFlight, Recognized, Quiet;
    Always(cs, steps, k);
    assert Goes(cs, steps, k);
    PeerCloseRecovers(cs[k], s);
  }

  /**
   * Once a socket has opened, and until the next connect or disconnect call, the client has a socket or the current
   * loop is in flight, as long as the status calls for a connection; an unfinished reconnect promise without an
   * explicit disconnect is that of the current loop.
   */
  lemma RecoveryIsNeverLost(cs: seq<Client>, steps: seq<Step>, k: nat)
    requires Behaviour(cs, steps) && k < |cs|
    ensures cs[k].hasOpened && Recognized(cs[k].session.status) ==> cs[k].link.socket.Some? || InFlight(cs[k])
    ensures cs[k].reconnectPromise.Some? && !cs[k].explicitDisconnect ==> InFlight(cs[k])
  {
    hide Inv, Core, Goes, Recognized;
    Always(cs, steps, k);
    InvIsCore(cs[k]);
    LoopIsPromised(cs[k]);
    PromiseIsCurrent(cs[k]);
    RecoveryPart(cs[k]);
  }

  /** A loop ends only by success, or once it is superseded or disconnected. */
  lemma LoopsEndForAReason(cs: seq<Client>, steps: seq<Step>, k: nat, g: nat)
    requires Behaviour(cs, steps) && k < |steps| && Loop(g) in cs[k].attempts && Loop(g) !in cs[k + 1].attempts
    ensures cs[k].attempts[Loop(g)].Opened? || cs[k].explicitDisconnect || g != cs[k].reconnectGeneration
  {
    hide Inv, Enabled, Next;
    Always(cs, steps, k);
    assert Goes(cs, steps, k);
    LoopEndsOnlyWhen(cs[k], steps[k], g);
  }

  // ----- back-off -----

  /**
   * Since the last success the n-th delay has been the base delay doubled n times, at most the maximum: delays never
   * shrink, and n failed attempts wait at most n times the maximum.
   */
  lemma DelaysFollowTheRule(cs: seq<Client>, steps: seq<Step>, k: nat)
    requires Behaviour(cs, steps) && k < |cs|
    ensures var c := cs[k];
            && |c.delays| == c.reconnectAttempt
            && (forall i | 0 <= i < |c.delays| :: c.delays[i] == Backoff(i))
            && (forall i, j | 0 <= i <= j < |c.delays| :: c.delays[i] <= c.delays[j])
            && Sum(c.delays) <= MAX_RECONNECT_DELAY * |c.delays|
  {
    hide Inv, Core, Goes, Backoff;
    Always(cs, steps, k);
    var c := cs[k];
    InvIsCore(c);
    DelayPart(c);
    forall i, j | 0 <= i <= j < |c.delays| ensures c.delays[i] <= c.delays[j] <= MAX_RECONNECT_DELAY {
      BackoffGrows(i, j);
    }
    SumBounded(c.delays, MAX_RECONNECT_DELAY);
  }

  /** Only an attempt whose socket has opened starts the delays afresh; any other step adds at most the next one. */
  lemma OnlySuccessResetsDelays(cs: seq<Client>, steps: seq<Step>, k: nat)
    requires Behaviour(cs, steps) && k < |steps|
    ensures var succeeded := steps[k].ResumeAttempt? && steps[k].attempt in cs[k].attempts && cs[k].attempts[steps[k].attempt].Opened?;
            if succeeded then cs[k + 1].delays == [] && cs[k + 1].reconnectAttempt == 0 else OneDelay(cs[k], cs[k + 1])
  {
    hide Enabled, Next, OneDelay;
    assert Goes(cs, steps, k);
    EnabledMeans(cs[k], steps[k]);
    DelaysResetOnSuccess(cs[k], steps[k]);
  }
}
