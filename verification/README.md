# Remote intercom: relay and client

This project models the relay server and the relay client of the remote intercom and proves what they promise over
all their runs.

* **The relay.** A registry of ephemeral channels (members with priorities, pending joins, an elected owner, a key
  index) and a hub of live connections, pending connections and reconnect-grace timers. `Registry.dfy` and `Hub.dfy`
  are the classes that update these maps in place; each method is proved equal to a function on values
  (`RegistrySpec.dfy`, `HubSpec.dfy`), every write being recorded exactly once. `Relay.dfy` joins both classes and
  shows that each of its methods is one step of the run model in `RelayRuns.dfy`: HTTP connect, a member's or a joiner's
  handshake (whole, or split in two halves between which anything may happen), an event, a closing, and a timer
  callback for any device at any moment. The invariant of that model (`RelayRuns.Inv`) is proved for every step
  in `RegistryProofs.dfy`, `RelayProofs.dfy` and `RelayEventProofs.dfy`; what it gives for single states and steps is
  in `RelayTheorems.dfy`, `RelayGuarantees.dfy`, `RelayAnswers.dfy`, `RelayMaps.dfy`, `RelayTimers.dfy` and
  `RelayPresence.dfy`. The main results, over every state and step of every run (`RelayPromises.Behaviour`), are in
  `RelayPromises.dfy`, `RelayDrain.dfy`, `RelayOrder.dfy`, `RelayNews.dfy`, `RelayRace.dfy` and `RelayLeftovers.dfy`.
* **The client.** `ClientSpec.dfy` holds its state as a value. Each await of the source is a suspended continuation
  with the generations it has captured: connect calls and reconnect loops (fetch, socket, back-off), health checks,
  and operations parked behind a health check. A step is a call, a timer, a socket event or the resumption of one
  continuation; continuations that have their result run, in any order, before the next outside event. `Client.dfy` is
  the class with the fields of the source, each method proved equal to its step. The invariant is proved in
  `ClientProofs.dfy`, `ClientStepProofs.dfy`, `ClientRuns.dfy` and `ClientTheorems.dfy`; what single steps promise is
  in `ClientGuarantees.dfy`, `ClientRecovery.dfy`, `ClientSettling.dfy` and `ClientIdentity.dfy`, and the main results,
  over every run, are in `ClientPromises.dfy` and `ClientRace.dfy`.
* **Both together.** `EndToEnd.dfy` wires the client's sockets to connections of the relay and proves that a request
  never succeeds without the relay having done what was asked.
* **Printers.** `Text.dfy` proves the round trips of the length-prefixed channel key and of the shell quoting.

## Results about interrupted handshakes

Claims are checked first, then a connection is registered under the hub's lock, and only afterwards a member is set
online, under the registry's lock, or the owner is told of a joiner. Whatever happens in between is part of the model:
a handshake may begin long after its check and end long after its beginning. Three promises then have exact conditions.

* **A device may be lost.** If a second connection of the same member comes, goes and expires between the two halves,
  the first half has no connection and no timer left, yet its second half sets the device online.
  `RelayPromises.LostExactlyWhen`: in every state of every run a device is online without connection and timer if and
  only if some handshake of it has ended untracked (`RelayRuns.Tracked`) and since then no connection of it has been
  registered and no timer callback for it has run. Every other online device has a connection or a timer, never both
  (`RelayPromises.PresenceIsExact`), and the end of a handshake decides on its own device alone
  (`RelayPromises.HandshakeEndsWell`). No way of closing down deletes the channel of a lost device:
  `RelayDrain.NoImmortalChannel` is the exact condition for one way of closing down,
  `RelayOrder.EveryClosingLeavesNothing` the condition on a state for all ways, and `RelayRace.ImmortalChannel` a run
  from the start that breaks them.
* **A replaced connection may be forgotten.** A handshake closes the connection it replaces, except for a member's
  handshake whose device is no longer a member when it ends (`RelayNews.SupersededIsClosed`).
  `RelayRace.ForgottenConnection` is a run from the start in which the replaced connection stays open.
* **The maps may mention what is gone.** A joiner registered after its join has been decided, or its channel deleted,
  waits for nothing, and a current connection whose handshake fails leaves a timer for no member.
  `RelayPromises.MapsAgree` and `RelayPromises.StaleExactlyWhen` say exactly when, `RelayPromises.JoinersMaySend`
  when such a joiner may send; `RelayLeftovers.LateJoiner` and `RelayLeftovers.LeftoverTimer` are runs from the start.

Runs whose handshakes are not interrupted are free of all three (`RelayPromises.WholeRunsAgree`,
`RelayPromises.WholeRunsArePresent`, `RelayDrain.WholeRunsLeaveNothing`). `RelayPromises.OwnerKnowsEveryWaitingJoin`
speaks of connections whose handshakes have ended.

## A result about reconnect loops

A loop asks, in all its attempts, for what the latest call before it had asked for, with the device that the relay has
named in answer to that call (`ClientPromises.LoopsAskAsCaptured`). A loop that begins while a connect call
that names no device still waits for its answer has captured none, and goes on asking for none even after the relay has answered the loop itself and
named one; `ClientRace.ForgottenDevice` is such a run.

## Assumptions

* SHA-256, also after truncation, is an arbitrary injective function (`Identifiers.Digest`).
* A write to a connection is recorded whether or not it succeeds; its result, the result of issuing a token, and the
  order of map iteration are arbitrary.
* Device ids are not empty, and names, PINs and targets stand for their trimmed (channel names: lower-cased) form.
* The end of a handshake reads the connection's role once.
* The client's request ids are unique, its event handlers do not call back into it, promise continuations run before
  the next outside event, and a new socket is not yet open.
* A peer may begin to close a socket (`ClientSpec.AfterClosing`) before the client hears of it; no client code runs then.

## Model

| member | source | states |
|---|---|---|
| `Identifiers.KeyTextRoundTrip` | relay/internal/channel/registry.go:278-282 | the text hashed for a channel key is uniquely decodable: an independent reader gets name and PIN back |
| `Identifiers.ChannelIdInjective` | relay/internal/channel/registry.go:278-286 | distinct (name, PIN) pairs never share a channel id |
| `Identifiers.NextJoinIdIsFresh` | relay/internal/channel/registry.go:288-292 | a new join id differs from every id handed out before |
| `Decimals.PrintThenParse` | relay/internal/channel/registry.go:279-280 | decimal lengths are read back |
| `ShellQuoting.QuotedBody` | relay/internal/httpapi/server.go:420-422 | the quoted text, lexed by sections 2.2.1 and 2.2.2 of the POSIX.1-2017 Shell Command Language, is the value; nothing lexes if it holds a NUL |
| `ShellQuoting.ShellQuoteRoundTrip` | relay/internal/httpapi/server.go:420-422 | quoting yields exactly one word, equal to the value and followed by the rest, if and only if the value has no NUL |
| `ChannelRegistry.Channel.RecomputeOwner` | relay/internal/channel/registry.go:353-366 | the scan elects the online member that comes first by priority and id, whatever the order of iteration |
| `ChannelRegistry.Channel.NextPriority` | relay/internal/channel/registry.go:343-351 | the scan yields one more than the largest priority |
| `ChannelRegistry.Channel.PendingJoinForDevice` | relay/internal/channel/registry.go:326-333 | finds a pending join of the device exactly when there is one |
| `ChannelRegistry.Channel.DeletePendingJoinsForDevice` | relay/internal/channel/registry.go:335-341 | deletes exactly the joins of the device while scanning them |
| `ChannelRegistry.Channel.Approve` | relay/internal/channel/registry.go:294-316 | moves one join to the members, offline and with the next priority, or changes nothing and gives the reason |
| `ChannelRegistry.Channel.Deny` | relay/internal/channel/registry.go:318-324 | removes exactly that join, or changes nothing |
| `ChannelRegistry.Registry.NextJoinId` | relay/internal/channel/registry.go:288-292 | uses the next sequence number |
| `ChannelRegistry.Registry.Connect` | relay/internal/channel/registry.go:97-145 | creates, renames, finds or adds a pending join, or reports a full channel; both maps stay mutually inverse |
| `ChannelRegistry.Registry.CreateChannel` | relay/internal/channel/registry.go:102-117 | a new channel with its creator as only, offline member enters both maps |
| `ChannelRegistry.Registry.RenameMember` | relay/internal/channel/registry.go:120-125 | a member that connects again is renamed, and the owner elected anew |
| `ChannelRegistry.Registry.AskToJoin` | relay/internal/channel/registry.go:126-144 | an existing join is found again; limits are reported; otherwise one join with a fresh id is added |
| `ChannelRegistry.Registry.AddFreshJoin` | relay/internal/channel/registry.go:136-144 | one join with a fresh id is added, and the sequence number goes on |
| `ChannelRegistry.Registry.DecideByOwner` | relay/internal/channel/registry.go:158-195 | only the current owner decides; a failed decision changes nothing |
| `ChannelRegistry.Registry.SetOnline` | relay/internal/channel/registry.go:214-261 | sets presence, re-elects, and deletes the channel from both maps when asked and nobody is online |
| `ChannelRegistry.Registry.Lookup` | relay/internal/channel/registry.go:263-272 | the snapshot of a channel, if it exists |
| `RegistrySpec.LeaderUnique` | relay/internal/channel/registry.go:353-366 | at most one member leads, so the election does not depend on the order of iteration |
| `RegistrySpec.FreeKeyFreeId` | relay/internal/channel/registry.go:102-117 | a key without a channel has a free channel id |
| `RegistrySpec.InsertChannel` | relay/internal/channel/registry.go:102-117 | inserting keeps channelByKey and channels mutually inverse |
| `RegistrySpec.RemoveChannel` | relay/internal/channel/registry.go:253-258 | removing keeps channelByKey and channels mutually inverse |
| `RegistryProofs.NextPriorityIsSizePlusOne` | relay/internal/channel/registry.go:343-351 | priorities being 1..n, the next priority is n + 1 |
| `RegistryProofs.OwnerIsEarliestOnline` | relay/internal/channel/registry.go:353-366 | the owner is the earliest admitted member that is online, none if nobody is |
| `RegistryProofs.RenameKeepsOwner` | relay/internal/channel/registry.go:120-125 | renaming never changes the owner |
| `RegistryProofs.OnlineOwner` | relay/internal/channel/registry.go:236-252 | a device that comes online becomes the owner or leaves the owner as it was |
| `RegistryProofs.ApprovalOutcome` | relay/internal/channel/registry.go:294-316 | an approval moves exactly one join: the sum of members and joins is kept, other members and joins are untouched, the owner stays |
| `RegistryProofs.Denial` | relay/internal/channel/registry.go:318-324 | a denial keeps the channel's invariant and its members |
| `RelayHub.Hub.constructor` | relay/internal/ws/hub.go:40-49 | an empty hub over an empty registry |
| `RelayHub.Hub.ScheduleOfflineExpiry` | relay/internal/ws/hub.go:61-68 | starts a timer unless the device is connected |
| `RelayHub.Hub.StartOfflineTimer` | relay/internal/ws/hub.go:693-702 | arms exactly one timer, and keeps no empty inner map |
| `RelayHub.Hub.CancelOfflineTimer` | relay/internal/ws/hub.go:704-716 | removes exactly that timer, and keeps no empty inner map |
| `RelayHub.Hub.Register` | relay/internal/ws/hub.go:601-623 | files the connection, cancels the device's timer, returns the replaced connection |
| `RelayHub.Hub.Unregister` | relay/internal/ws/hub.go:625-647 | removes the connection where it is current and then arms the timer; otherwise changes nothing |
| `RelayHub.Hub.RemovePending` | relay/internal/ws/hub.go:649-655 | removes the pending connection only if it is current |
| `RelayHub.Hub.RemoveMember` | relay/internal/ws/hub.go:657-668 | removes the member connection only if it is current |
| `RelayHub.Hub.PromotePending` | relay/internal/ws/hub.go:670-691 | the pending connection becomes the member connection of its device |
| `RelayHub.Hub.NotifyOwnerOfJoinRequest` | relay/internal/ws/hub.go:497-513 | one join.request to the owner's connection, if there is one |
| `RelayHub.Hub.NotifyOwnerOfPendingJoins` | relay/internal/ws/hub.go:488-495 | one join.request per pending join |
| `RelayHub.Hub.NotifyOwnerOfJoin` | relay/internal/ws/hub.go:476-486 | the owner is told of the joiner's request, if it is pending |
| `RelayHub.Hub.BroadcastOwnerChanged` | relay/internal/ws/hub.go:526-541 | one owner.changed to every other member connection of the channel |
| `RelayHub.Hub.BroadcastPresenceChanged` | relay/internal/ws/hub.go:543-564 | one presence.changed to every other member connection of the channel |
| `RelayHub.Hub.EmitPresenceChange` | relay/internal/ws/hub.go:515-524 | exactly the notices the change calls for, each written once |
| `RelayHub.Hub.FinishMember` | relay/internal/ws/hub.go:107-122 | presence, notices and superseding after registration; the connection is dropped if the member is gone |
| `RelayHub.Hub.FinishPending` | relay/internal/ws/hub.go:119-129 | the second half of a joiner's handshake: the previous connection is closed, the owner told of the join if it is still pending |
| `RelayHub.Hub.Finish` | relay/internal/ws/hub.go:107-129 | the second half of a handshake by the role that the connection has by then, also when it has been promoted meanwhile |
| `RelayHub.Hub.OpenPending` | relay/internal/ws/hub.go:106-129 | an uninterrupted joiner's handshake after its check: both halves in a row |
| `RelayHub.Hub.Open` | relay/internal/ws/hub.go:71-129 | claims are checked first; a refused handshake changes nothing |
| `RelayHub.Hub.TakePending` | relay/internal/ws/hub.go:814-823 | deletes exactly the channel's pending connections while scanning, and returns them |
| `RelayHub.Hub.ClosePendingForChannel` | relay/internal/ws/hub.go:814-828 | each of them is closed once and forgotten |
| `RelayHub.Hub.ExpireOfflineMember` | relay/internal/ws/hub.go:718-745 | the whole expiry, also a stale one: nothing for a connected device, else offline, failover or deletion |
| `RelayHub.Hub.ConnectionCanSend` | relay/internal/ws/hub.go:566-590 | decides who may send; a rejected sender is closed and, if it waited, forgotten |
| `RelayHub.Hub.MemberConnectionByTarget` | relay/internal/ws/hub.go:771-792 | finds a connected member by id, or else by the name of an online member, exactly when there is one |
| `RelayHub.Hub.HandleMessageSend` | relay/internal/ws/hub.go:229-265 | routes to one target with one answer; success is recorded only for a successful write |
| `RelayHub.Hub.HandleMessageBroadcast` | relay/internal/ws/hub.go:267-285 | one copy to every other member of the channel |
| `RelayHub.Hub.FindJoin` | relay/internal/ws/hub.go:300-304 | finds the decided join by payload or by device, exactly when there is one |
| `RelayHub.Hub.HandleJoinDecision` | relay/internal/ws/hub.go:287-327 | checks in order; errors change nothing but write one error |
| `RelayHub.Hub.ApplyDecision` | relay/internal/ws/hub.go:329-384 | one acknowledgement; then the waiting connection is admitted or closed |
| `RelayHub.Hub.AdmitWaiting` | relay/internal/ws/hub.go:346-374 | promotion, presence, superseding, notices and the token, each once |
| `RelayHub.Hub.SendList` | relay/internal/ws/hub.go:418-449 | one list.response or one error |
| `RelayHub.Hub.SendStatus` | relay/internal/ws/hub.go:451-474 | one status.response or one error |
| `RelayHub.Hub.HandleEvent` | relay/internal/ws/hub.go:202-227 | an event as a whole: new state, everything written, and what was done for whom |
| `RelayServer.Relay.constructor` | relay/internal/ws/hub.go:40-49 | the running relay begins in the start of the run model |
| `RelayServer.Relay.HandleConnect` | relay/internal/httpapi/server.go:189-211 | connecting is a step of the run model: the registry's answer, and a grace timer for a creator |
| `RelayServer.Relay.Serve` | relay/internal/ws/hub.go:71-129 | an accepted handshake is a step, a refused one changes nothing |
| `RelayServer.Relay.BeginServing` | relay/internal/ws/hub.go:106 | the first half of a handshake is a step, long after its claims were checked, too |
| `RelayServer.Relay.EndServing` | relay/internal/ws/hub.go:107-129 | the second half of a handshake is a step, also when the member is gone or the joiner promoted |
| `RelayServer.Relay.Receive` | relay/internal/ws/hub.go:202-227 | handling an event is a step with choices the relay's own lookups and writes have made |
| `RelayServer.Relay.Close` | relay/internal/ws/hub.go:625-647 | closing is a step |
| `RelayServer.Relay.Expire` | relay/internal/ws/hub.go:718-745 | a timer callback is a step, whenever it runs |
| `RelayTheorems.NextKeeps` | relay/internal/ws/hub.go:71-745 | every step keeps the relay's invariant |
| `RelayPromises.Always` | relay/internal/ws/hub.go:71-745 | the invariant holds in every state of every run |
| `RelayPromises.PresenceIsExact` | relay/internal/ws/hub.go:601-716 | in every state a settled member connection means an online member, and an online member has a connection or a timer, never both, if and only if it is not lost since the untracked end of a handshake of its own |
| `RelayPromises.LostExactlyWhen` | relay/internal/ws/hub.go:106-114 | in every state a device is online without connection and timer if and only if a handshake of it has ended untracked and since then no connection of it has been registered and no timer callback for it has run |
| `RelayPromises.LostUntil` | relay/internal/ws/hub.go:601-745 | such a device stays online, and its channel stays, until then |
| `RelayPromises.LostExactlyUntil` | relay/internal/ws/hub.go:601-745 | those steps end it, and no other does |
| `RelayPromises.OwnerlessChannelsAwaitTheirCreator` | relay/internal/ws/hub.go:61-68 | in every state a channel without an owner has only its creator, in the grace period or in the middle of a handshake, and nobody of it has been online since it was created |
| `RelayPromises.NoTimerWhileConnected` | relay/internal/ws/hub.go:601-623 | in every state no timer runs for a connected device, also between the halves of a handshake |
| `RelayPromises.HandshakeEndsWell` | relay/internal/ws/hub.go:106-114 | in every run the end of a handshake loses its own device if and only if that is neither connected nor in its grace period and still a member, and leaves all others as they are; so it keeps presence exact if and only if its device is tracked |
| `RelayPromises.MapsAgree` | relay/internal/ws/hub.go:601-716 | in every state of every run: a member connection is online unless its handshake has not ended; a waiting connection has a pending join if and only if it was not registered late; a timer is for a member that is not connected and has a use for it, if and only if it is not one left by a failed handshake and not cleared since |
| `RelayPromises.StaleExactlyWhen` | relay/internal/ws/hub.go:109-113 | in every state a timer has no use if and only if the handshake of a current connection of a device that is no member has failed and since then its timer callback has not run, no connection of the device has been registered or promoted, no handshake of it has ended with it as a member, and it has not created the channel anew |
| `RelayPromises.WholeRunsAgree` | relay/internal/ws/hub.go:71-129 | when handshakes are not interrupted, the maps agree without exception |
| `RelayPromises.WholeRunsArePresent` | relay/internal/ws/hub.go:601-716 | when handshakes are not interrupted, every online device has a connection or a timer |
| `RelayPromises.JoinersMaySend` | relay/internal/ws/hub.go:566-590 | the current connection of a joiner may send if and only if its join was pending when it was registered, or its device is a member by now |
| `RelayPromises.WaitsAsRegistered` | relay/internal/ws/hub.go:625-691 | as long as a connection waits, its join is pending exactly if it was when the connection was registered |
| `RelayPromises.ClaimsStayVouched` | relay/internal/ws/hub.go:86-106 | claims that have once passed the check meet the guard of a late registration ever after, so the split handshake leaves no interleaving out |
| `RelayPromises.OwnerKnowsEveryWaitingJoin` | relay/internal/ws/hub.go:476-524 | in every state the owner's very connection has been sent a join.request for every pending join whose connection waits, once both handshakes have ended |
| `RelayPromises.ClosingTerminates` | relay/internal/ws/hub.go:625-745 | from every state closing down, in any order, takes at most 2 * connections + unfinished handshakes + timers steps |
| `RelayPromises.ClosingGoesOn` | relay/internal/ws/hub.go:625-745 | closing down never gets stuck while a socket is open or a timer armed |
| `RelayPromises.ExpiryIsSafe` | relay/internal/ws/hub.go:718-745 | an expiry, however stale, takes no connected device offline |
| `RelayPromises.ConnectedDeviceIsSpared` | relay/internal/ws/hub.go:718-728 | the timer callback for a device that has a connection changes nothing at all |
| `RelayPromises.OnlineUntilExpiry` | relay/internal/ws/hub.go:718-745 | nothing but its own expiry takes a device offline |
| `RelayPromises.DeletionLeavesNothing` | relay/internal/ws/hub.go:736-741 | a deletion leaves no settled connection of the channel, closes and forgets the waiting ones, happens only when nobody else is online, and takes just the timer that has run; the timers of the channel that are left are exactly the stale ones |
| `RelayPromises.SupersededIsInvisible` | relay/internal/ws/hub.go:566-590 | closing a superseded connection changes no map and starts no timer; its events have no effect but its closing |
| `RelayPromises.ReconnectLeavesNoTrace` | relay/internal/ws/hub.go:601-647 | from the closing of a current connection to any later end of a handshake of that device, with no expiry of it between, whatever else happens: the device stays online, leaving and returning change nothing in the registry, and nobody is told; a returning owner is sent the waiting joins, a replaced connection is closed |
| `RelayPromises.ReconnectAtOnce` | relay/internal/ws/hub.go:601-647 | when nothing happens in between, the hub has changed in the connection only |
| `RelayPromises.OneAnswerPerEvent` | relay/internal/ws/hub.go:202-285 | every accepted event that is no member's broadcast gets exactly one correlated answer |
| `RelayPromises.MessagesStayInTheirChannel` | relay/internal/ws/hub.go:229-285 | messages are written only to current members of the sender's channel, stamped with the true sender and target |
| `RelayPromises.OnlyTheOwnerAdmits` | relay/internal/ws/hub.go:287-394 | each step leaves a channel's history alone or is the approval that it adds, by the current owner's current connection; decisions are final |
| `RelayPromises.HistoryGrows` | relay/internal/ws/hub.go:287-394 | over any stretch of a run in which a channel lives its history only grows, and no decision is revised |
| `RelayPromises.MembershipOnlyGrows` | relay/internal/ws/hub.go:287-394 | within a channel lifetime members stay and priorities never change |
| `RelayPromises.EveryMemberWasAdmitted` | relay/internal/channel/registry.go:294-316 | in every state the members are exactly the creator and those let in by one approval each, with priorities 1..n in the order of admission |
| `RelayPromises.OwnerIsEarliest` | relay/internal/channel/registry.go:343-366 | in every state the owner is the earliest admitted member that is online, none if nobody is |
| `RelayPromises.JoinsArePartitioned` | relay/internal/channel/registry.go:119-145 | in every state members and joiners are disjoint, each joiner waits once and undecided, both stay within the limits |
| `RelayPromises.IndexAgrees` | relay/internal/channel/registry.go:97-117 | in every state the key index and the channels are mutually inverse |
| `RelayPromises.CreatedExactlyWhenNoneLives` | relay/internal/channel/registry.go:97-117 | connect begins a new channel exactly when no live channel has that name and PIN |
| `RelayDrain.NoImmortalChannel` | relay/internal/ws/hub.go:625-745 | from every state, once closing down has closed every socket and run out every timer, registry, index and maps are empty if and only if every online device was connected or in its grace period at first and each handshake that ended on the way was tracked |
| `RelayOrder.EveryClosingLeavesNothing` | relay/internal/ws/hub.go:625-745 | from every state, all ways of closing down leave registry, index and maps empty if and only if every online device is connected or in its grace period and no unfinished handshake can be overtaken |
| `RelayOrder.SomeClosing` | relay/internal/ws/hub.go:625-745 | closing down can be completed from every state |
| `RelayDrain.WholeRunsLeaveNothing` | relay/internal/ws/hub.go:625-745 | when handshakes are not interrupted, closing down leaves nothing behind |
| `RelayDrain.LostForever` | relay/internal/ws/hub.go:625-745 | no way of closing down takes a device offline that has neither connection nor timer |
| `RelayTheorems.UntrackedEndIsLost` | relay/internal/ws/hub.go:106-114 | an untracked end of a handshake leaves its device in that state |
| `RelayRace.OvertakenIsUntracked` | relay/internal/ws/hub.go:106-114 | a handshake overtaken by a second one that comes, goes and expires ends untracked |
| `RelayRace.ImmortalChannel` | relay/internal/ws/hub.go:106-114 | a run from the start, with two devices and one overtaken handshake, after which, however the run goes on, the device stays online and its channel stays, until a connection of that device is registered or a timer callback for it runs |
| `RelayRace.ForgottenConnection` | relay/internal/ws/hub.go:106-122 | a run from the start in which a replaced connection is never closed: the handshake that has replaced it fails |
| `RelayLeftovers.LateJoiner` | relay/internal/ws/hub.go:86-106 | a run from the start in which claims pass the check, the join is approved, and only then the joiner is registered, to wait for nothing |
| `RelayLeftovers.LeftoverTimer` | relay/internal/ws/hub.go:109-113 | a run from the start in which a failed handshake leaves a timer for a device and a channel that are gone |
| `RelayNews.NewsReachesEveryone` | relay/internal/ws/hub.go:515-564 | whenever a device comes online or goes offline, every other connected device of its channel is sent its presence, and the new owner when the owner has changed |
| `RelayNews.SupersededIsClosed` | relay/internal/ws/hub.go:107-122 | the connection that a member's or joiner's handshake replaces is closed when the handshake ends, unless it is a member's that fails, which writes nothing but its own closing |
| `RelayNews.BroadcastReachesEveryone` | relay/internal/ws/hub.go:267-285 | a member's broadcast is written to every other connected member of its channel |
| `RelayNews.AddressedTargetIsReached` | relay/internal/ws/hub.go:229-265 | a message is written to one connection that it addresses, by device id or else by the name of an online member, and to nobody else; success is acknowledged and recorded, failure and a missing target are answered with an error |
| `RelayNews.DecisionTakesEffect` | relay/internal/ws/hub.go:329-384 | an applied decision removes and records the join; an approval makes the joiner a member and its waiting connection the device's online member connection, which is told, and closes one that it replaces; a denial tells and closes it |
| `RelayClientObject.RelayClient.RejectWaitersFields` | extension/src/client/relay-client.ts:560-571 | every waiter is rejected and its timer cleared, one by one |
| `RelayClientObject.RelayClient.RequestResponse` | extension/src/client/relay-client.ts:248-272 | one frame and one armed waiter, or an immediate rejection |
| `RelayClientObject.RelayClient.CloseCurrentSocket` | extension/src/client/relay-client.ts:541-558 | the current socket is suppressed, dropped and closed, an opening attempt and all waiters are rejected |
| `RelayClientObject.RelayClient.OpenSocket` | extension/src/client/relay-client.ts:428-461 | the old socket is closed first; the new one is current and not yet open |
| `RelayClientObject.RelayClient.WaitForReconnectDelay` | extension/src/client/relay-client.ts:611-623 | one more attempt with the delay of the back-off rule |
| `RelayClientObject.RelayClient.ClearReconnectTimer` | extension/src/client/relay-client.ts:573-581 | the delayed loop is woken and its timer cleared |
| `RelayClientObject.RelayClient.Reconnect` | extension/src/client/relay-client.ts:587-605 | a running loop is reused, otherwise a new generation starts, unless disconnected |
| `RelayClientObject.RelayClient.AttemptFailed` | extension/src/client/relay-client.ts:642-648 | connect rejects; a loop goes on unless superseded or disconnected |
| `RelayClientObject.RelayClient.EnsureHealthy` | extension/src/client/relay-client.ts:674-723 | joins the running check, or starts one that probes or reconnects |
| `RelayClientObject.RelayClient.Connect` | extension/src/client/relay-client.ts:164-178 | the connect call is a step that keeps the invariant |
| `RelayClientObject.RelayClient.Disconnect` | extension/src/client/relay-client.ts:411-426 | the disconnect call is a step that keeps the invariant |
| `RelayClientObject.RelayClient.Fetched` | extension/src/client/relay-client.ts:192-225 | the fetched answer is adopted or cancelled by its generation |
| `RelayClientObject.RelayClient.Operate` | extension/src/client/relay-client.ts:274-339 | an operation is sent, or parked behind a health check |
| `RelayClientObject.RelayClient.BackoffElapsed` | extension/src/client/relay-client.ts:651-660 | the back-off timer wakes the delayed loop |
| `RelayClientObject.RelayClient.WaiterTimedOut` | extension/src/client/relay-client.ts:385-393 | a timeout settles exactly its request |
| `RelayClientObject.RelayClient.HeartbeatElapsed` | extension/src/client/relay-client.ts:731-738 | the heartbeat starts a health check when stale |
| `RelayClientObject.RelayClient.OnOpen` | extension/src/client/relay-client.ts:463-474 | only the current socket opens its attempt |
| `RelayClientObject.RelayClient.OnMessage` | extension/src/client/relay-client.ts:751-800 | only the current socket's messages count; a correlated answer settles its request once |
| `RelayClientObject.RelayClient.OnClose` | extension/src/client/relay-client.ts:482-515 | a lost connection rejects what is outstanding and starts recovery |
| `RelayClientObject.RelayClient.OnError` | extension/src/client/relay-client.ts:516-526 | an error before opening rejects the attempt and closes the socket |
| `RelayClientObject.RelayClient.Resume` | extension/src/client/relay-client.ts:607-649 | an attempt goes on after its delay, its opening or its failure |
| `RelayClientObject.RelayClient.ResumeHealthCheck` | extension/src/client/relay-client.ts:685-715 | a health check goes on after its probe |
| `RelayClientObject.RelayClient.ResumeParked` | extension/src/client/relay-client.ts:662-672 | a parked operation is sent |
| `ClientTheorems.NextKeeps` | extension/src/client/relay-client.ts:105-842 | every step keeps the client's invariant |
| `ClientProofs.CloseKeeps` | extension/src/client/relay-client.ts:541-558 | closing the current socket keeps the invariant, whatever was going on |
| `ClientStepProofs.OpenSocketKeeps` | extension/src/client/relay-client.ts:428-461 | opening a socket keeps the invariant |
| `ClientStepProofs.SettleKeeps` | extension/src/client/relay-client.ts:777-800 | settling a request keeps the invariant, a success only with its answer |
| `ClientGuarantees.StepExtends` | extension/src/client/relay-client.ts:541-571 | no step rewrites a frame, forgets a request or changes an outcome |
| `ClientGuarantees.DisconnectGoesOffline` | extension/src/client/relay-client.ts:411-426 | disconnect drops and closes the socket and makes none |
| `ClientRecovery.BackoffGrows` | extension/src/client/relay-client.ts:613 | for every base the back-off rule is monotone and bounded |
| `ClientPromises.Always` | extension/src/client/relay-client.ts:105-842 | the invariant holds in every state of every run |
| `ClientPromises.RecordOnlyGrows` | extension/src/client/relay-client.ts:372-409 | over any stretch of a run no frame is rewritten or replayed, no request forgotten, no outcome changed |
| `ClientPromises.ExactlyOnce` | extension/src/client/relay-client.ts:372-409 | in every state a request is waiting, outstanding or settled, never two of these; its frame is written at most once; an outstanding request has an armed timer and belongs to the current, opened socket |
| `ClientPromises.SettledForAReason` | extension/src/client/relay-client.ts:777-800 | an outstanding request stops waiting exactly when it times out, is answered or refused on its own socket, or loses that socket; its outcome says which and is final |
| `ClientPromises.SuccessIsAnswered` | extension/src/client/relay-client.ts:341-362 | a request succeeds only through an acceptable answer received on the socket of its frame |
| `ClientPromises.OfflineSince` | extension/src/client/relay-client.ts:411-426 | after disconnect and until the next connect call the client stays without socket and current attempt |
| `ClientPromises.DisconnectFences` | extension/src/client/relay-client.ts:174-228 | after disconnect and until the next connect call nothing suspended makes a socket or is adopted |
| `ClientPromises.StaleChecksAreHarmless` | extension/src/client/relay-client.ts:685-715 | a health check started before a connect or disconnect call only ends: it closes no socket, starts no loop and settles no request |
| `ClientPromises.OnlyTheNewestAnswers` | extension/src/client/relay-client.ts:207-225 | an answer is adopted exactly when its attempt is the newest and not cancelled, and a socket made for it exactly when it can also be opened |
| `ClientPromises.NothingElseEnters` | extension/src/client/relay-client.ts:751-842 | nothing else makes a socket, and nothing else but a join.approved on the current socket changes the session |
| `ClientPromises.OtherSocketsAreIgnored` | extension/src/client/relay-client.ts:447-526 | events of any socket but the current one change nothing |
| `ClientPromises.OneUnclosedSocket` | extension/src/client/relay-client.ts:541-558 | in every state a socket is not closed if and only if it is the current one |
| `ClientPromises.LostConnectionIsRecovered` | extension/src/client/relay-client.ts:482-515 | after the peer closes an opened socket the current reconnect loop is in flight exactly when the status calls for it or one was running; all waiters are rejected |
| `ClientPromises.RecoveryIsNeverLost` | extension/src/client/relay-client.ts:583-649 | in every state since a socket has opened, until the next connect or disconnect call, as long as the status calls for a connection, there is a socket or the current loop is in flight; an unfinished reconnect promise without an explicit disconnect is that of the current loop |
| `ClientPromises.LoopsEndForAReason` | extension/src/client/relay-client.ts:607-649 | a loop ends only by success, or superseded, or disconnected |
| `ClientPromises.LoopsAskAsCaptured` | extension/src/client/relay-client.ts:583-636 | all attempts of a loop ask for the channel and PIN of the call that was the latest when the loop began, and for the device that the relay has named in the adopted answer to that call, or else the one that call has asked for |
| `ClientPromises.LoopsAskForTheChannel` | extension/src/client/relay-client.ts:583-636 | every attempt of a loop asks for the channel and the PIN of the latest connect call before it |
| `ClientPromises.AdoptedDeviceIsRemembered` | extension/src/client/relay-client.ts:207-224 | an adopted answer is that of the latest call, so the guard on channel and PIN holds and its device id enters the arguments of that call |
| `ClientRace.ForgottenDevice` | extension/src/client/relay-client.ts:583-649 | a run from the start in which a loop asks for no device although the relay has named one in answer to the loop itself |
| `ClientPromises.DelaysFollowTheRule` | extension/src/client/relay-client.ts:611-614 | whatever the configured base, in every state the n-th delay since the last success is min(base * 2^n, 5000); delays never shrink; n attempts wait at most 5000 * n |
| `ClientPromises.OnlySuccessResetsDelays` | extension/src/client/relay-client.ts:226 | only a successful connect resets the delays, every other step adds at most the next one |
| `EndToEnd.Always` | extension/src/client/relay-client.ts:372-409 | in every state of every joint run the client has received only what the relay has written to its connections, and the relay has acted for them only on frames of the client |
| `EndToEnd.NoFalseSuccess` | extension/src/client/relay-client.ts:341-409 | if a send, ask, reply, approve or deny succeeds in any run of client and relay, the relay has written exactly that message to a member's connection in the sender's channel, or has applied exactly that decision, for that frame on that connection |
| `EndToEnd.ForwardedSettlesNothing` | extension/src/client/relay-client.ts:777-800 | forwarded peer events settle no request |
| `EndToEnd.FactsOfEvent` | relay/internal/ws/hub.go:211-264 | an event adds only facts about itself and its own sender |

## Left out

- JSON, HTTP, WebSocket and ping plumbing, logging, rate of heartbeats: library input and output; messages are decoded records.
- Tokens: signing and verification are library cryptography; a connection carries its claims.
- Wall-clock durations: grace, heartbeat, back-off and acknowledgement timers may fire at any time once armed, and a stopped grace timer even afterwards.
- Input normalisation in `relay/internal/httpapi/server.go`: names, PINs and device ids arrive trimmed and not empty.
- `SetLimits`, the unguarded `Approve`, `Deny` and `SetOnline`: the hub calls none of them; limits are the defaults.
- Lock granularity inside a step: the steps of the relay are whole handlers, except that a handshake may be split after the check of its claims and after registration. An event and an expiry are one step each, so the promotion of an approved joiner is not separated from setting it online, nor the deletion of a channel from the closing of its joiners.
- The order of writes within a step: what is written, and how often, is stated; not in which order.
- RegistrySpec.Connect: the join sequence is a natural number and does not wrap around at 2^64.
- The client's listener registry, reply targets, diagnostics in its state, and connect options other than the device id: thin map updates; a reply's target is given.
- RelayClientObject.RelayClient.OnMessage: texts that do not parse are dropped before this method.
- RelayClientObject.RelayClient.OpenSocket: a socket that is open on construction, which no WebSocket is, is not modelled.
- The tool adapter, pending state, configuration, installer template and Kubernetes files: no protocol state of their own.
