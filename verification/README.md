# YedMQ message delivery, in Dafny

YedMQ is a clustered MQTT broker. This project models how it moves QoS 1 and 2 messages between nodes and out to
clients, and proves what it promises about that: nothing is lost silently, nothing is handed over twice, nothing is
sent beyond what the client allows, and what was sent is never forgotten.

Protocols whose handlers interleave at their awaits are transition systems over values: a state, the actions that are
enabled in it, and a function that applies one. A run is any sequence of enabled actions, and the main theorems are
about every state of every run. Code that updates fields or stores is also written in that form, as classes with loops,
and each method is proved to do what the value-level function says, or, for the router, to take steps of the
transition system.

| file | what it models |
|---|---|
| `MqttTypes`, `MessageExpiry` | packets, and the arithmetic of message expiry |
| `DurableRoute` | the outbox/inbox protocol between nodes: stale row snapshots, concurrent handlers, deaths, failing writes, a network that loses, repeats, delays and reorders |
| `RouteNoLoss`, `RouteDrops`, `RouteAtMostOnce`, `RouteRetransmission`, `RouteDiscipline` | its theorems, and runs that show which conditions they need |
| `RouterActor` | its handlers as code over the stores |
| `Inflight` | the in-flight table of a session |
| `SessionDelivery` | outbound QoS delivery of a session: table, payload store, Receive Maximum slots, queue of deferred publishes, spawned deliveries, retry, recovery |
| `SessionSafety`, `SessionWritten`, `SessionAgreement`, `SessionAcknowledged`, `SessionDelivered`, `ReceiveMaximum`, `SlotLedger`, `WorkConservation`, `ReceiveMaximumLimits` | its theorems, and runs that show which conditions they need |
| `SessionActor` | its handlers as code over the actor's fields |
| `SharedSubscription`, `Timer`, `ConnectionOutput`, `AuthChain`, `Subscribe` | group selection, the timer index, write batching, the authentication chain, SUBSCRIBE |

## What is proved

**Durable routes.** In every state of every run a route whose enqueue succeeded has been handed to its session, has been
counted as dropped, or can be read back from one of the two disks with the packet that was enqueued
(`RouteNoLoss.NoSilentLoss`). It is counted as dropped only if its time to live is over, its packet has expired, or it
failed as often as the configuration allows on its way out or at its session (`RouteDrops.DroppedOnlyForCause`). If
acceptances of one route do not overlap, no scan starts to process a row that is being
processed, and the write that records an acknowledged route as completed is neither lost nor interrupted, no route is
acknowledged twice, even if its request is received again while its row is processed or after it was swept
(`RouteAtMostOnce.AtMostOnce`). Each of the three conditions is needed: `RouteDiscipline` has a run for each. With
serialised dispatch the k-th transmission of a route is bounded in number and in time
(`RouteRetransmission.RetransmissionIsBounded`).

**Receive Maximum.** In every reachable state of an MQTT 5 connection the PUBLISH packets that await PUBACK or PUBREC are
no more than the slots in use, and these no more than `max(1, receive_maximum)`
(`ReceiveMaximum.ReceiveMaximumIsRespected`). The conditions are in `ReceiveMaximum.Fair`: writes on the live connection
succeed, the client acknowledges only what is outstanding, the second put of a clean session's delivery succeeds, and no
entry is due for retry while its delivery is at that put. Failures of the replicated state and of the first put are
allowed. With the first two conditions alone, and retries at the times the code retries, the bound is true of persistent
sessions and false of clean ones: it holds if and only if the session is persistent
(`ReceiveMaximumLimits.BoundHoldsIffPersistent`). In a clean session, if the second put fails, the delivery gives its slot
back while its entry stays, and the next retry pass writes the publish without a slot
(`ReceiveMaximumLimits.FailedRefreshOverruns`). If a retry pass falls into the second put, it writes the publish under the
identifier of the first put and the delivery then writes it under that of the second, both on one slot
(`ReceiveMaximumLimits.EarlyRetryOverruns`). Either way more packets end up outstanding than the client allows, whatever
its Receive Maximum and the retry interval.

**Slots and acknowledgements.** Under the same conditions the slots in use and the acknowledgements that took effect are
together exactly the publishes that were written and the ones that spawned deliveries are still to write
(`SlotLedger.SlotsAreConserved`), so no slot is lost and none is given back twice. In every run, whatever else happens, the
state of a publish that was sent is what the acknowledgements of its identifier make of it
(`SessionAcknowledged.AcknowledgedInTurn`): QoS 1 is finished by one, QoS 2 by two in order, and by nothing else. What
leaves the queue was sent (`SessionDelivered.WhatLeavesTheQueueIsSent`), and after a restart every publish that can still
be sent is sent or waits (`SessionDelivered.RecoveryForgetsNothing`).

**The table and the store.** `SessionSafety.RunKeepsSafe` is an invariant of every run with any faults. From it: what was
written is never treated as unsent (`SessionWritten.WrittenIsNeverUnsent`), the stored publish of an unfinished entry
carries the entry's identifier except exactly while a reallocated one is being stored and after that put has failed
(`SessionAgreement.TableAgreesWithStore`), and what a persistent session leaves behind is again a state to recover from
(`SessionAgreement.PersistentStateIsKept`), so the theorems hold connection after connection.

## Model

| member | source | states |
|---|---|---|
| `MessageExpiry.PublishBuffer.StampPublishExpiry` | broker/src/mqtt_message_expiry.rs:12-18 | the deadline is set once, from the interval, and an existing deadline is kept |
| `MessageExpiry.PublishBuffer.PreparePublishForDelivery` | broker/src/mqtt_message_expiry.rs:34-53 | refused exactly from the deadline on; otherwise an MQTT 5 receiver gets the seconds left |
| `MessageExpiry.HopsKeepDeadline` | broker/src/mqtt_message_expiry.rs:12-64 | any sequence of stamps and preparations keeps all of a stamped publish but its interval, and refuses it iff one preparation is at or after the deadline |
| `MessageExpiry.ExpiryTelescopes` | broker/src/mqtt_message_expiry.rs:12-75 | stamping at s with interval i and then any stamps and preparations at non-decreasing times amount to one preparation at the last time t: refused iff t has reached s + i (saturating), otherwise exactly the seconds left, never more than i, so the clamp to u32 is idle |
| `MessageExpiry.NoIntervalNeverExpires` | broker/src/mqtt_message_expiry.rs:12-53 | a publish without an interval passes any number of hops unchanged |
| `MessageExpiry.ExpiredIsRefused` | broker/src/mqtt_message_expiry.rs:20-53 | expired means now has reached the deadline, and that is exactly when a delivery is refused |
| `MessageExpiry.DeadlineIsTheEarlier` | broker/src/mqtt_message_expiry.rs:66-75 | a route's deadline is the earlier of the packet's own and the time to live, and has passed at creation iff one of them has |
| `RouteNoLoss.RunKeepsInv` | broker/src/router_actor.rs:624-1112 | an invariant of rows, payloads, requests and running handlers that every step of every run keeps, with stale snapshots, deaths, failed writes and lost or repeated messages |
| `RouteNoLoss.NoSilentLoss` | broker/src/router_actor.rs:624-1019 | in every state of every run an enqueued route is handed over, counted as dropped, or on one of the disks with the very packet that was enqueued |
| `RouteNoLoss.HandoffsAreFaithful` | broker/src/router_actor.rs:939-1019 | what a session acknowledges is the packet enqueued for that route, for the tenant and client it was enqueued for |
| `RouteDrops.DroppedOnlyForCause` | broker/src/router_actor.rs:717-1019 | in every run, whatever fails, dies or repeats, a route is counted as dropped only if its time to live is over, its packet has expired, or it failed maxRetryCount times on its way out or was refused maxRetryCount times by its session |
| `RouteDrops.RunStaysCounted` | broker/src/router_actor.rs:717-1019 | no row, stored or in the hands of a handler, counts more attempts than the route has failed |
| `RouteAtMostOnce.RunKeepsOnce` | broker/src/router_actor.rs:843-1112 | the invariant behind at-most-once, kept by every step of a disciplined run |
| `RouteAtMostOnce.SweptIsOutlived` | broker/src/router_actor.rs:1101-1109 | a row old enough to be swept belongs to a route that has expired, so a late copy of its request is dropped |
| `RouteAtMostOnce.AtMostOnce` | broker/src/router_actor.rs:866-1109 | with acceptances of a route apart, scans apart from its processing and kept completion writes, no route is acknowledged twice, under any duplication, delay or reordering, also if its request is received while its row is processed, and even after its row is swept |
| `RouteRetransmission.RetransmissionIsBounded` | broker/src/router_actor.rs:717-800 | the k-th transmission of a route is at or after created + (k-1) * interval, before the route expires, at most ttl after its creation, and k is within the retry count |
| `RouteRetransmission.RemovedNeverReturns` | broker/src/router_actor.rs:717-800 | a row that was removed is never in the outbox again and its route is never sent again |
| `RouteDiscipline.OverlapDuplicates` | broker/src/router_actor.rs:939-1019 | for every configuration that lets a route out there is a fault-free run, with acceptances apart, in which a scan and the spawned processing of one row hand it over twice |
| `RouteDiscipline.OverlappingAcceptancesDuplicate` | broker/src/router_actor.rs:866-904 | for every such configuration there is a fault-free run, with scans apart, in which the second of two overlapping acceptances puts a pending row over the completed one and the route is handed over twice |
| `RouteDiscipline.LostCompletionDuplicates` | broker/src/router_actor.rs:999-1007 | for every such configuration there is a run without overlap in which a lost completion write leads to a second handover |
| `RouterActor.Router.EnqueueDurableRemoteRoute` | broker/src/router_actor.rs:624-680 | an expired packet is refused and counted and changes nothing else; Ok for any other means a row with the earlier of the two deadlines and no attempts, its payload on disk and its dispatch spawned; what each failing write leaves behind |
| `RouterActor.Router.DispatchOutboxItem` | broker/src/router_actor.rs:708-766 | the request goes out iff the row is within its limits and due, its client is located, its payload can be read and has not expired; over its limits or expired it is counted as dropped and deleted with its payload; not located it is put back with one more attempt, due one interval later; otherwise nothing changes |
| `RouterActor.Router.FinishDispatch` | broker/src/router_actor.rs:768-801 | a positive reply removes the row and then the payload, a failed call puts the row back with one more attempt, due one retry interval after the attempt |
| `RouterActor.Router.AcceptRouteFromOtherNode` | broker/src/router_actor.rs:843-913 | Ok iff expired, already known, or now in the inbox, pending and without attempts, with its payload and its processing spawned; an expired request is counted as dropped; expired, known or unreadable changes no store |
| `RouterActor.Router.ProcessInboxItem` | broker/src/router_actor.rs:939-1019 | the session is asked iff the row is pending, within its limits, due, and its payload can be read and has not expired; acknowledged, the handoff is logged, the row completed and the payload deleted; refused, the row has one more attempt and is due one interval later; over its limits or expired, it is counted as dropped, completed and its payload deleted; otherwise nothing changes |
| `RouterActor.Router.Complete` | broker/src/router_actor.rs:953-962 | the payload goes only after the completed row is on disk, and then it does |
| `RouterActor.Router.CleanupCompletedInboxItems` | broker/src/router_actor.rs:1087-1112 | exactly the completed rows older than the retention are deleted, but for those whose deletion fails |
| `RouterActor.StoresLoseNothing` | broker/src/router_actor.rs:624-1112 | after any handlers with any faults, an enqueued route is handed over, dropped, or readable from the stores |
| `Inflight.InflightTable.RegisterWithRxPacket` | broker/src/inflight.rs:33-75 | a received packet takes its identifier and reports the key it displaces |
| `Inflight.InflightTable.RegisterWithTxPacket` | broker/src/inflight.rs:77-121 | a packet to send registers iff its identifier is free, and displaces nothing |
| `Inflight.InflightTable.GetAllExpiredPacketKeysAndRefreshExpiredTime` | broker/src/inflight.rs:139-159 | exactly the entries quiet for longer than the retry interval are reported, and only their times change |
| `Inflight.InflightTable.AllocatePacketId` | broker/src/inflight.rs:170-172 | the least free identifier in 1..65535, and None iff all are taken |
| `Inflight.InflightTable.MarkDeliveryStarted` | broker/src/inflight.rs:188-196 | only the entry that holds the key is marked |
| `Inflight.InflightTable.DiscardUnsent` | broker/src/inflight.rs:198-210 | an entry is removed only if it holds the key, waits for PUBACK or PUBREC, and was not started |
| `Inflight.InflightTable.AdvanceState` | broker/src/inflight.rs:212-221 | one entry advances, and its key is reported when it finishes |
| `Inflight.InflightTable.CleanFinishedItems` | broker/src/inflight.rs:224-237 | exactly the finished entries go, and each of their keys is returned as often as it was held |
| `Inflight.AllocationSucceedsBelowCapacity` | broker/src/inflight.rs:170-172 | with fewer than 65535 entries allocation succeeds, by the pigeonhole principle |
| `Inflight.OperationConserves` | broker/src/inflight.rs:33-237 | one operation: keys held plus keys going in are keys held plus keys coming out |
| `Inflight.KeysAreConserved` | broker/src/inflight.rs:33-237 | over any operations from an empty table a key went in as often as it is held plus as it was reported out |
| `Inflight.SendingDisplacesNothing` | broker/src/inflight.rs:77-121 | registering a packet to send takes no key out of the table |
| `Inflight.SentPacketProgresses` | broker/src/inflight.rs:212-279 | an allocated identifier registers, and its QoS q entry is unfinished until exactly its q-th acknowledgement, whatever is done to other identifiers |
| `SessionSafety.DrainKeepsSafe` | broker/src/session/session_actor.rs:1753-1822 | the drain loop keeps the session invariant, whatever fails in it |
| `SessionSafety.RecoveryKeepsSafe` | broker/src/session/session_actor.rs:3266-3316 | recovery from any kept state establishes the session invariant |
| `SessionSafety.RunKeepsSafe` | broker/src/session/session_actor.rs:728-1147 | every message, with any faults, keeps it: entries have their own identifier, a key registered under it, and a payload until finished; written entries are started; unstarted entries are queued or expired; queued publishes carry the identifier they are registered under |
| `SessionSafety.RetriedIsStarted` | broker/src/session/session_actor.rs:2850-2901 | a retry pass writes no entry that was not started |
| `SessionWritten.WrittenIsNeverUnsent` | broker/src/session/session_actor.rs:892-1081 | in every run with any faults, the entry and payload of a written publish are out of reach of `discard_unsent` and of expiry cleanup at any time, and survive every message that does not finish the entry or take its identifier |
| `SessionAgreement.TableAgreesWithStore` | broker/src/session/session_actor.rs:753-888 | in every run with any faults, every unfinished entry has its payload, and the stored publish carries the entry's identifier iff its delivery is not between reallocation and the second put and that put has not failed |
| `SessionAgreement.RetransmissionsKeepTheirId` | broker/src/session/session_actor.rs:1084-1147 | every publish a retry pass sends again is the stored one marked as a duplicate, and goes out under the identifier it is registered with iff neither exception applies; every queued registered publish does without exception |
| `SessionAgreement.FailedRefreshDisagrees` | broker/src/session/session_actor.rs:877-888 | a failed second put is never made good: in every later state of the run in which an unfinished entry holds the key, the stored publish, and what a retry sends, carries another identifier |
| `SessionAgreement.PersistentStateIsKept` | broker/src/session/session_actor.rs:529-600 | at any point of any run, with any faults, what a persistent session leaves behind is a state recovery may start from |
| `SessionAgreement.AcceptanceIsDurable` | broker/src/session/session_actor.rs:3242-3264 | Ok for an unexpired QoS 1 or 2 publish means the same message is stored under a key that is pending or held by the entry whose identifier it carries, on every path; without faults and below capacity the answer is Ok |
| `SessionAcknowledged.PubackIsExact` | broker/src/session/session_actor.rs:2510-2590 | PUBACK for an entry that waits for it finishes it, and in a persistent session removes it, its payload and all other finished entries; one slot is given back; other entries keep state, key and time; for any other identifier, or if the replicated state fails, nothing changes |
| `SessionAcknowledged.PubrecIsExact` | broker/src/session/session_actor.rs:2439-2508 | PUBREC for an entry that waits for it moves it on to PUBCOMP, unless PUBREL cannot be written, and gives one slot back either way; other entries keep state, key and time; for any other identifier nothing changes |
| `SessionAcknowledged.FinalAckIsExact` | broker/src/session/session_actor.rs:2376-2437 | PUBCOMP and PUBREL take whatever entry has the identifier one step on, remove what is finished in a persistent session, and free no slot |
| `SessionAcknowledged.AcknowledgedInTurn` | broker/src/session/session_actor.rs:2376-2656 | from any state of any run on, the state of a sent publish is the fold of the acknowledgements of its identifier, and its entry goes away only at Finish and never comes back, unless an acknowledgement fails or a received publish takes the identifier |
| `SessionAcknowledged.FinishedByOne` | broker/src/session/session_actor.rs:2510-2590 | a QoS 1 publish is finished iff PUBACK, or PUBCOMP, which is not told from it, came |
| `SessionAcknowledged.FinishedByTwo` | broker/src/session/session_actor.rs:2439-2656 | a QoS 2 publish is finished iff PUBREC and after it PUBCOMP came |
| `SessionDelivered.WhatLeavesTheQueueIsSent` | broker/src/session/session_actor.rs:1753-1822 | draining takes from the front of the queue, and each publish it takes was written under its identifier or is being delivered, unless it has expired or its entry is gone |
| `SessionDelivered.RetryResends` | broker/src/session/session_actor.rs:2850-2901 | every due entry that waits, whose payload is there and unexpired, and that is not in the queue is written again under the identifier of its payload, unless its write fails, and starts to wait anew |
| `SessionDelivered.RetrySendsNothingElse` | broker/src/session/session_actor.rs:1084-1147 | a retry pass writes no other packet before it drains the queue |
| `SessionDelivered.RetryForgetsTheExpired` | broker/src/session/session_actor.rs:986-1026 | an entry that expired before it was sent is gone after a retry pass, with its payload, unless the replicated state refuses |
| `SessionDelivered.RecoveryForgetsNothing` | broker/src/session/session_actor.rs:3266-3316 | after recovery, whatever fails, every publish that can still be sent keeps its entry and has been written under its identifier or waits in the queue |
| `SessionDelivered.RecoveredInOrder` | broker/src/session/session_actor.rs:3266-3316 | recovery queues publishes in strictly increasing order of identifiers |
| `SessionDelivered.AcceptanceDelivers` | broker/src/session/session_actor.rs:1824-1896 | with nothing failing, a persistent session on a live connection registers an unexpired QoS 1 or 2 publish under the least free identifier, writes it at once and takes a slot if one is free, and otherwise appends it to the queue unsent |
| `SessionDelivered.AcceptanceWaitsForTheClient` | broker/src/session/session_actor.rs:920-954 | without a connection the message is stored and its key put at the end of the pending list |
| `SessionDelivered.PrepareIsExact` | broker/src/session/session_actor.rs:732-769 | a spawned delivery does not send an expired publish, needs no identifier for QoS 0, and otherwise takes its own or the least free one, ending unsent iff there is none |
| `SessionDelivered.SpawnedDeliveryGoesOut` | broker/src/session/session_actor.rs:774-914 | stored, and with its identifier still free, it is registered, waits for the acknowledgement of its QoS, and is written under that identifier |
| `SessionDelivered.InboundIsExact` | broker/src/session/session_actor.rs:1305-1340 | a received QoS 1 or 2 publish is stored under a new key and takes its identifier, finished or waiting for PUBREL; nothing else changes |
| `SessionDelivered.CleanupIsExact` | broker/src/session/session_actor.rs:2737-2750 | exactly the finished entries and their payloads go |
| `ReceiveMaximum.DrainIsPaid` | broker/src/session/session_actor.rs:1753-1822 | draining keeps the slots in use at or above the number of holders and at or below the limit |
| `ReceiveMaximum.AdvanceFrees` | broker/src/session/session_actor.rs:2439-2590 | an acknowledgement that advances a waiting entry takes the acknowledged packet's publish out of the holders, so its slot may be given back |
| `ReceiveMaximum.RetryIsPaid` | broker/src/session/session_actor.rs:2850-2901 | a retry pass writes only what already holds a slot, under the identifier it is registered with, unless it falls into a second put |
| `ReceiveMaximum.RecoveryIsPaid` | broker/src/session/session_actor.rs:3266-3316 | recovery starts with nothing holding a slot and reserves one for each publish it writes |
| `ReceiveMaximum.StepIsPaid` | broker/src/session/session_actor.rs:1725-1896 | every fair message keeps the bound |
| `ReceiveMaximum.ReceiveMaximumIsRespected` | broker/src/session/session_actor.rs:1725-1896 | in every state of every fair run: packets awaiting PUBACK or PUBREC <= publishes that hold a slot <= slots in use <= max(1, receive maximum) |
| `SlotLedger.SlotsAreConserved` | broker/src/session/session_actor.rs:1725-1896 | in every state of every fair run: slots in use + acknowledgements that took effect = publishes written + reserved deliveries that are still to write |
| `SlotLedger.ReleaseIsBooked` | broker/src/session/session_actor.rs:1743-1751 | a release gives exactly one slot back, and the drain that follows accounts for each slot it takes by a publish it writes or a delivery it spawns |
| `SlotLedger.RetriedWasWritten` | broker/src/session/session_actor.rs:2850-2901 | in a fair run a retry pass writes nothing for the first time |
| `ReceiveMaximumLimits.FailedRefreshOverruns` | broker/src/session/session_actor.rs:877-888 | for every clean MQTT 5 session and retry interval there is a run, with retries when they are due and fair but for a failed second put, with more packets outstanding than max(1, receive maximum) |
| `ReceiveMaximumLimits.EarlyRetryOverruns` | broker/src/session/session_actor.rs:784-914 | for every clean MQTT 5 session and retry interval there is a run, with retries when they are due and fair but for one between a registration under another identifier and the second put, with more packets outstanding than max(1, receive maximum) |
| `ReceiveMaximumLimits.PersistentIsFair` | broker/src/session/session_actor.rs:1887-1894 | a persistent session, which runs every delivery to its end, cannot lapse: every honest message is fair |
| `ReceiveMaximumLimits.BoundHoldsIffPersistent` | broker/src/session/session_actor.rs:1725-1896 | the exact condition: over MQTT 5, outstanding <= slots in use <= max(1, receive maximum) in every state of every honest run iff the session is persistent, and likewise for outstanding <= max(1, receive maximum) alone |
| `SessionDelivery.TurnShrinksQueue` | broker/src/session/session_actor.rs:1757-1821 | a turn of the drain loop takes exactly the front of the queue, or fails, ends the loop and leaves the queue as it was |
| `WorkConservation.DrainedIsNotDeferred` | broker/src/session/session_actor.rs:1818-1836 | a publish the drain loop starts over finds its slot and is not deferred again, so the queue loses its front |
| `WorkConservation.DrainFinishes` | broker/src/session/session_actor.rs:1753-1822 | without delivery errors the loop stops only at an empty queue or for want of a slot |
| `WorkConservation.NoPublishWaitsForAFreeSlot` | broker/src/session/session_actor.rs:1743-1896 | in every run without delivery errors, at rest on a live connection publishes wait only over MQTT 5, all of them QoS 1 or 2, and only if all slots are taken |
| `WorkConservation.QueueKeepsOrder` | broker/src/session/session_actor.rs:1753-1896 | deferred publishes keep their order: a message takes from the front of the queue, drops what expired, and appends at most the one publish it defers |
| `SessionActor.Actor.PrepareRegisteredPublish` | broker/src/session/session_actor.rs:1028-1081 | an expired unsent publish is discarded, an unexpired one is marked started before it is written, and a failing replicated state leaves everything as it was |
| `SessionActor.Actor.DrainDeferredOutboundPublishes` | broker/src/session/session_actor.rs:1753-1822 | the loop does what the model's draining does, which the theorems are about |
| `SessionActor.Actor.ReleaseReceiveMaximumSlotAndDrain` | broker/src/session/session_actor.rs:1743-1751 | one slot back, if one is in use, then draining |
| `SessionActor.Actor.DeliverOutboundPublish` | broker/src/session/session_actor.rs:728-954 | the path of a persistent session: stored, registered under a free identifier, stored again after a collision before it is registered, then written, deferred or kept for the client's return |
| `SessionActor.Actor.PrepareDelivery` | broker/src/session/session_actor.rs:732-769 | the path of a clean session, from one await to the next: an expired publish is not sent, and one without an identifier gets the least free one |
| `SessionActor.Actor.PutDelivery` | broker/src/session/session_actor.rs:774-782 | the payload is stored under the delivery's key before anything is registered |
| `SessionActor.Actor.RegisterDelivery` | broker/src/session/session_actor.rs:784-914 | in one step, with no await between: registers under the chosen identifier and writes, or, if it was taken meanwhile, registers under the least free one and goes to the second put |
| `SessionActor.Actor.RefreshDelivery` | broker/src/session/session_actor.rs:877-914 | after a reallocation the payload is stored again, with the new identifier, and then the publish is written under it; if that put fails nothing is written |
| `SessionActor.Actor.CompleteDelivery` | broker/src/session/session_actor.rs:1859-1886 | a delivery that was not sent gives its slot back and drains the queue; one that was sent keeps it |
| `SessionActor.Actor.StartOutboundPublishDelivery` | broker/src/session/session_actor.rs:1824-1896 | defers, reserves, delivers or spawns as the model does, with the same answer |
| `SessionActor.Actor.CleanupExpiredUnsent` | broker/src/session/session_actor.rs:986-1026 | in whatever order the entries are looked at, and whichever removals the replicated state refuses, exactly the other expired unstarted entries that wait go, with their payloads |
| `SessionActor.CollectInflightRetryPackets` | broker/src/session/session_actor.rs:1084-1147 | exactly the due, waiting, stored, unexpired entries that are not in the queue are written again, each under the identifier its stored publish carries |
| `SessionActor.Actor.HandleInflightRetry` | broker/src/session/session_actor.rs:2850-2901 | expiry, retransmission of what has been quiet for longer than the retry interval, removal from the queue and draining, as in the model |
| `SessionActor.Actor.HandleAllInflightRetryImmediate` | broker/src/session/session_actor.rs:3266-3316 | every publish that may still be sent is queued by identifier before anything is drained |
| `SessionActor.Actor.HandlePuback` | broker/src/session/session_actor.rs:2510-2590 | does what the model does, for which `SessionAcknowledged.PubackIsExact` says what that is |
| `SessionActor.Actor.HandlePubrec` | broker/src/session/session_actor.rs:2439-2508 | does what the model does, for which `SessionAcknowledged.PubrecIsExact` says what that is |
| `SessionActor.Actor.HandlePubrel` | broker/src/session/session_actor.rs:2376-2437 | once PUBCOMP is written, whatever entry has the identifier advances and is cleaned up, also if the replicated cleanup fails |
| `SessionActor.Actor.HandlePubcomp` | broker/src/session/session_actor.rs:2592-2656 | whatever entry has the identifier advances; a failing cleanup leaves the finished entry |
| `SessionActor.Actor.CleanFinished` | broker/src/session/session_actor.rs:2737-2750 | exactly the finished entries and their payloads go |
| `SharedSubscription.PublishReachesOneMember` | broker/src/router_actor.rs:603-617 | each publish is handed to the first member from the cursor on, cyclically, that is not unroutable: it reaches that one, or routing ends in error there; it is dropped iff all are unroutable |
| `SharedSubscription.GroupSharesExactly` | broker/src/router_actor.rs:595-618 | over any n consecutive publishes to n members, from any cursor, a routable member receives exactly one plus the number of unroutable members just before it |
| `SharedSubscription.OrderIsIrrelevant` | broker/src/router_actor.rs:590-593 | if no client has two different subscriptions in the group, selection does not depend on the order in which the subscriptions were found |
| `SharedSubscription.EligibleAreTheOthers` | broker/src/router_actor.rs:572-588 | a subscription is left out iff it is the publisher's own and asks for that (No Local); all others stay, each as often as it was found |
| `SharedSubscription.SortingIsStable` | broker/src/router_actor.rs:590-593 | the subscriptions of one client keep their order |
| `SharedSubscription.GroupCursors.RouteToGroup` | broker/src/router_actor.rs:572-618 | selection follows the model from the group's cursor; other groups' cursors are untouched; a drop is counted exactly when nobody is routable |
| `Timer.TimerActor.RegisterTimer` | broker/src/timer_actor.rs:160-183 | replaces the timer with that key in the plain map of deadlines and keeps index and queue one-to-one, also if the queue reuses a key |
| `Timer.TimerActor.RefreshTimer` | broker/src/timer_actor.rs:30-44 | moves the deadline of exactly that timer; the queue is never given a dead key |
| `Timer.TimerActor.RemoveTimer` | broker/src/timer_actor.rs:46-60 | removes exactly that timer |
| `Timer.TimerActor.HandleTimeouts` | broker/src/timer_actor.rs:185-241 | fires each timer that is due exactly once, in any order, and never meets a stale entry |
| `Timer.FiresOncePerRegistration` | broker/src/timer_actor.rs:160-241 | over any run a timer fires no more often than it was registered |
| `Timer.NeverFiresEarly` | broker/src/timer_actor.rs:160-241 | a timer that fires was registered, and its duration has passed since the last registration or refresh |
| `Timer.FiresOnTime` | broker/src/timer_actor.rs:160-241 | a timer that was registered, or refreshed while armed, and not touched since fires at a poll iff its duration has passed |
| `Timer.OthersChangeNothing` | broker/src/timer_actor.rs:30-60 | over any run the alarm of a timer, and how often it fires, is what it is without all operations on other timers, such as those of another session instance |
| `ConnectionOutput.RunKeepsInv` | broker/src/connection.rs:97-201 | buffer, channel, batch and wire are always the accepted packets in order, but for refused batches |
| `ConnectionOutput.WireCarriesWholePackets` | broker/src/connection.rs:97-201 | after any run the wire is the concatenation of whole packets, those of the first batches not refused, in order; once the sender has stopped, of all of them |
| `ConnectionOutput.NothingRefusedNothingLost` | broker/src/connection.rs:97-201 | in every run without a refused batch the wire is, once the sender has stopped, exactly what was written to the connection while it was open, unexpired and within the limit, byte for byte |
| `ConnectionOutput.WriteIsExact` | broker/src/connection.rs:1275-1339 | a packet is accepted iff the connection is open, it has not expired and is within the limit of an MQTT 5 client; Closed iff not open, an error iff oversized and not a publish, counted as dropped iff an oversized publish |
| `ConnectionOutput.AcceptsWhatIsForTheClient` | broker/src/connection.rs:1275-1339 | in every run the accepted packets are exactly the written ones that meet this condition, in order, with openness and limit read off the run |
| `ConnectionOutput.NothingIsHeldBack` | broker/src/connection.rs:97-165 | in every run the buffer holds fewer than 100 packets and the batch fewer than 64 KiB and 200 messages, the flush timer empties the one, and a tick writes the other |
| `ConnectionOutput.ConnectionEnds` | broker/src/connection.rs:97-201 | from every state of every run the connection can be brought to its end without further writes |
| `ConnectionOutput.RefusedOnlyWhenFull` | broker/src/connection.rs:669-681 | whatever step of whatever run adds a batch, be it a timer, a disconnection or the write that fills it: it holds all the packets that were in none, it is refused iff the channel holds 1000 commands, and otherwise it goes to the end of the channel |
| `ConnectionOutput.PacketsStayWithinTheLimit` | broker/src/connection.rs:1275-1339 | over MQTT 5 every packet accepted since the limit was set is within Maximum Packet Size |
| `ConnectionOutput.Connection.FlushBatch` | broker/src/connection.rs:669-681 | hands over or loses the whole buffer, never part of it |
| `ConnectionOutput.Connection.WritePacketToClient` | broker/src/connection.rs:1275-1339 | does what the model does, for which `ConnectionOutput.WriteIsExact` says what that is |
| `ConnectionOutput.Connection.HandleCommand` | broker/src/connection.rs:103-128 | takes one command, flushing at 64 KiB or 200 messages |
| `ConnectionOutput.Connection.HandleTick` | broker/src/connection.rs:131-139 | a tick writes the whole batch, if there is one |
| `ConnectionOutput.Connection.CleanUp` | broker/src/connection.rs:143-165 | writes the batch and then all that is left in the channel |
| `AuthChain.CallAuthenticateHook` | plugin_host/src/plugin_manager.rs:1523-1644 | with hooks registered, accepts iff some plugin that is there, of the registered instance, running and with a sender approves, no such plugin denies or times out, and all approvals name one tenant, which is the one accepted; rejected, the tenant is that of the denial the chain came to, or none; without hooks, the configured default |
| `AuthChain.ChainIsOrderFree` | plugin_host/src/plugin_manager.rs:1523-1644 | the verdict and the accepted tenant are the same for every order of the hooks |
| `AuthChain.StaleHookIsIgnored` | plugin_host/src/plugin_manager.rs:1067-1095 | a hook whose plugin is missing, of another instance, not running or without a sender changes nothing of the verdict when it is removed |
| `AuthChain.VerdictIsUnique` | plugin_host/src/plugin_manager.rs:1523-1644 | the rule determines verdict and tenant |
| `Subscribe.HandleSubscribe` | broker/src/session/session_actor.rs:1450-1646 | one code for each filter, in order: invalid iff malformed, else not authorized iff authorization or policy says no, else unspecified iff the topic service refuses, else Granted QoS n where n is the least of requested, policy and 2; with subscription identifiers over MQTT 5 all are refused and nothing is recorded |
| `Subscribe.GrantIsWithinBounds` | broker/src/session/session_actor.rs:260-267 | a code grants iff the filter was granted, names QoS 0, 1 or 2 iff at most once, at least once or exactly once is recorded, and that is the least of requested, policy and 2, so the QoS conversion cannot panic |
| `Subscribe.SuccessesAreTheGrants` | broker/src/session/session_actor.rs:1569-1578 | the recorded successes are exactly the granted filters, in request order, each with its filter, its options and the least of requested, policy and 2 as its QoS |
| `Subscribe.RetainedInOrder` | broker/src/session/session_actor.rs:1580-1620 | the retained messages are those of the granted filters that ask for them, always or only if new, filter after filter, each with the QoS granted to its filter and its retain option |

## Left out

- Raft: the replicated session state is a mirror of the local table that answers or fails; its log, network and snapshots are not modelled.
- `Reconnect` on a live actor: it changes the Receive Maximum without touching the slots in use, so the flow-control theorems are about one connection from the start of its actor.
- Retained messages, which are written directly and bypass slots and table, and QoS 0 best-effort routes, which have no route identifier.
- RouterActor.Router.DispatchOutboxItem: runs without interruption, unlike the steps of `DurableRoute`, which interleave; the periodic scans are the actions `ScanOutbox` and `ScanInbox` of the model.
- Row fields that no decision reads (source and destination node, target QoS, payload key): payload maps are keyed by route identifier.
- Clocks: one clock for both nodes, and retry times are not bounded to 64 bits.
- ReceiveMaximumLimits.BoundHoldsIffPersistent: for retry intervals below 2^64 - 1 seconds; a longer one cannot pass on a 64-bit clock.
- ConnectionOutput.WireCarriesWholePackets: without I/O errors on the socket, and without the five-second limit on the sender's shutdown.
- A publish that the connection drops because it is too large or has expired counts as written in the session's model.
- AuthChain.CallAuthenticateHook: does not model the error text of a rejection.
- Topic storage, wildcard matching, shared-filter parsing, packet codecs: matching subscriptions, the malformedness of a shared filter and encoded bytes are inputs.
- Session takeover, will messages, keep-alive handling, metrics, REST API, CLI, plugin processes: only easy members.
