# A verified model of the FlowSDK MQTT engine

FlowSDK keeps the client side of MQTT 5.0 and 3.1.1 in an engine without sockets: every input is a call, every
output a queue of bytes or events. This project models that engine, the queues inside it, its QUIC transport and
the protobuf conversion of its gRPC proxy, and proves what they promise over whole runs.

There are two layers.

- **Values.** `Engine.dfy`, `Runs.dfy`, `Inflight.dfy`, `Quic.dfy`, `Routing.dfy` and `Grpc.dfy` say, as functions on
  immutable states, what every operation does: same branches, same order of checks, same edge cases, same constants.
  A run is any sequence of operations, each with a time.
- **Objects.** `PriorityQueue.dfy`, `InflightQueue.dfy`, `EngineClass.dfy` and `QuicClass.dfy` are classes whose methods
  update fields and loop as the implementation does. Each method is proved equal to its function, so everything proved
  about runs holds of the objects.

The whole-run results rest on a small number of ideas:

- `Outstanding` (what a CONNECT would capture) together with the queue accounts for every reserved identifier
  (`Books.dfy`, `Invariant.dfy`, `Emission.dfy`, `Resume.dfy`, `Incoming.dfy`); every accepted publication owns a ticket
  that is finished exactly once. Losing and re-establishing the connection leaves `Outstanding` alone (`Handshake.dfy`).
- The history of a run keeps the session before and after every admission and every rejection. After any run either
  some identifier clashed at one of these points and did harm there, or nothing ever clashed and the books are right
  (`Safety.dfy`); so the law holds if and only if nothing clashed (`Reachable.dfy`).
- The history carries which releases took no quota and how many units they gave back, which accounts for the quota on
  every run (`Flow.dfy`), and the send quota of section 4.9 of MQTT 5.0 (`Quota.dfy`).
- Every operation leaves nothing undone on the output side, which is what makes the next tick predictable (`Timers.dfy`).
  The clock, the timers, the exchanges in flight, the capacity of the queue and its byte count are sound on every run
  (`TimeRange.dfy`); so are back-off, re-authentication, gating and the order of the queue (`Control.dfy`).
- For QUIC, each send side carries what was accepted, written and thrown away (`QuicSafety.dfy`, `QuicRuns.dfy`).

Runs are arbitrary: any caller, any peer. `Healthy` (`Reachable.dfy`) is what holds on all of them, and the class
`MqttEngine` promises it after every method. Four results, and half of `TrackingOverRuns`, speak of runs on which no
identifier clashed (`NoClash`), because they need an identifier to stand for one operation: `ReportsOverRuns`,
`SendQuotaOverRuns`, `InterruptedRuns` and `ReachedRoutable`. A clash needs a sessionless engine or an identifier on an
unacknowledged publication (`ConservationWithSessions`).

Packets are abstract and the encoder is a parameter. Where a result asks something of it, it is this (`Codec`): a
publication that it encodes and that names its topic must still be encodable without its topic alias, which is what the
implementation relies on when it resets. The encoder of the default build refuses a publication with neither topic nor
alias, so the proofs carry that every alias stands for a topic.

## What turned out false

Six plausible laws do not hold of the code. The model keeps the code as it is, gives a run that breaks the law, and
proves exactly when the law holds. The runs of the engine hold for every encoder that accepts the packets in them.

- *Publications in flight never exceed the Receive Maximum.* A release replayed on a resumed session takes no quota but
  gives one back when it completes (`ReleaseOvershoot`). On every run the excess is at most the debt built up this way,
  the bound holds if and only if unused quota and charged releases cover the debt, and it always holds on a connection
  on which no release was replayed (`FlowOverRuns`, `ReceiveMaximumIff`).
- *The server's Receive Maximum is respected.* Not when the configured maximum is zero (`ServerLimitIgnored`); exactly then
  (`ServerLimitIff`).
- *Identifiers and accepted publications are conserved.* A sessionless engine forgets the reservations of captured
  exchanges when it loses the transport and may hand their identifiers out again (`SessionlessCollision`). An
  unacknowledged publication that carries an identifier releases it when it is rejected, whoever holds it
  (`PlainRejectionLoses`). These are the only ways: `ConservationIff`, and before a call `PublishConservesIff`.
- *Tracking a publication that is being sent cannot fail*, which the implementation states with an `expect`. A run of nine
  inputs makes it fail (`TrackingFails`). It fails exactly for a publication whose identifier is still in flight
  (`TrackingFailsIffReused`), and never unless an identifier clashed before (`TrackingOverRuns`).
- *Rejected early data is repeated faithfully.* Bytes, order, priority and purpose are, but a requested FIN is forgotten
  (`FinForgotten`); exactly for the streams the application had asked to end (`ReplayFinishOverRuns`).
- *A deferred close never overtakes the DISCONNECT.* It does if the control stream is reset, or ended by the peer, or the
  session lost, while control bytes are waiting (`CloseWithoutDisconnect`); exactly then (`CloseOverRuns`).

## Model

| member | source | states |
|---|---|---|
| `Timestamps.ElapsedIsDeadline` | src/time.rs:57-68 | comparing the saturating elapsed time with a timeout agrees with comparing the clock with the deadline if and only if the start is not in the future or the timeout is not zero |
| `Timestamps.CeilingIsLeast` | src/time.rs:47-55 | rounding up gives the least millisecond that is not before the instant, so a poll never fires early |
| `Timestamps.MillisRoundTrip` | src/time.rs:34-50 | milliseconds convert to a timestamp and back unchanged, whenever they are representable |
| `Timestamps.SinceUndoesAdd` | src/time.rs:57-64 | the checked difference undoes the checked sum |
| `PriorityQueues.PriorityQueue.Enqueue` | src/priority_queue.rs:46-57 | the eviction order becomes the last `capacity` elements of the ordered insertion; with room left the drain order gains the item behind its equals; size and shape stay consistent |
| `PriorityQueues.PriorityQueue.DropLowestPriority` | src/priority_queue.rs:143-153 | removes exactly the oldest item of the lowest priority and leaves no empty bucket |
| `PriorityQueues.PriorityQueue.Dequeue` | src/priority_queue.rs:59-78 | returns and removes the head of the drain order, or nothing when empty |
| `PriorityQueues.PriorityQueue.Peek` | src/priority_queue.rs:80-86 | returns the head of the drain order without removing it |
| `PriorityQueues.PriorityQueue.Iterate` | src/priority_queue.rs:92-98 | lists exactly the order in which items would be dequeued |
| `PriorityQueues.PriorityQueue.UpdateItems` | src/priority_queue.rs:88-90 | updating every item in place keeps priorities and positions |
| `PriorityQueues.PriorityQueue.Clear` | src/priority_queue.rs:111-115 | empties the queue |
| `PriorityQueues.AdmitKeepsGreatest` | src/priority_queue.rs:14-19 | after any enqueues from empty, a bounded queue holds exactly the greatest `capacity` items of the unbounded one, by priority and then arrival |
| `PriorityQueues.EvictionCommutes` | src/priority_queue.rs:46-57 | evicting before or after an insertion keeps the same items |
| `PriorityQueues.InsertAllOrder` | src/priority_queue.rs:25-31 | the eviction order is by priority and, within one, by arrival |
| `PriorityQueues.DrainOrder` | src/priority_queue.rs:59-78 | the drain order is by priority descending and, within one, by arrival ascending |
| `PriorityQueues.AfterEnqueues` | src/priority_queue.rs:33-57 | a queue built by enqueues drains in that order and holds the same items as its eviction order |
| `InflightClass.InflightQueue.PushWithStreamAt` | src/mqtt_client/inflight.rs:93-130 | refuses a bad time, a taken or zero identifier and an exhausted quota, in that order, changing nothing; otherwise appends the entry, charges a PUBLISH and arms its deadline |
| `InflightClass.InflightQueue.AcknowledgeEntry` | src/mqtt_client/inflight.rs:182-196 | removes the entry with its deadline and returns it; an exchange gives its quota back |
| `InflightClass.InflightQueue.TransitionPubRelAt` | src/mqtt_client/inflight.rs:150-164 | replaces the packet by PUBREL in place, keeps its position and quota, arms the deadline again |
| `InflightClass.InflightQueue.UpdateReceiveMaximum` | src/mqtt_client/inflight.rs:77-81 | a zero maximum is ignored |
| `InflightClass.InflightQueue.SnapshotForReconnect` | src/mqtt_client/inflight.rs:240-246 | lists the packets in admission order |
| `InflightClass.InflightQueue.GetExpiredWithStreamAt` | src/mqtt_client/inflight.rs:206-230 | returns exactly the packets whose deadline has passed, each once, in deadline order, and arms them again |
| `InflightClass.InflightQueue.FirstExpiration` | src/mqtt_client/inflight.rs:248-250 | the earliest retransmission deadline |
| `InflightQueues.PushSound` | src/mqtt_client/inflight.rs:93-130 | pushing keeps the deadline queue sorted, one deadline per entry, and the quota within the exchanges in flight |
| `InflightQueues.AcknowledgeSound` | src/mqtt_client/inflight.rs:182-196 | removing an entry keeps the same invariant |
| `InflightQueues.TransitionSound` | src/mqtt_client/inflight.rs:150-164 | moving an exchange to its release stage keeps the same invariant |
| `InflightQueues.ExpiredSound` | src/mqtt_client/inflight.rs:206-230 | retransmission keeps the same invariant, for a zero timeout too |
| `InflightQueues.NextExpirationIsLeast` | src/mqtt_client/inflight.rs:248-250 | the front of the deadline queue is the earliest deadline of all entries |
| `InflightQueues.ResendsExactlyTheDue` | src/mqtt_client/inflight.rs:206-230 | an entry is sent again if and only if its own timeout has passed |
| `EngineClass.MqttEngine.constructor` | src/mqtt_client/engine.rs:288-332 | a new engine is the initial state of the model, in which everything holds that holds on all runs |
| `EngineClass.MqttEngine.FinishOperation` | src/mqtt_client/engine/protocol_state.rs:288-294 | releases the identifier and every deadline of the operation |
| `EngineClass.MqttEngine.FailOperation` | src/mqtt_client/engine/protocol_state.rs:905-918 | removes the exchange, releases its identifier, reports one failure of the right kind |
| `EngineClass.MqttEngine.CloseInput` | src/mqtt_client/engine/protocol_state.rs:513-524 | ends connection, handshake, re-authentication, responses, deadlines and buffered input |
| `EngineClass.MqttEngine.NormalizeQueue` | src/mqtt_client/engine.rs:435-442 | strips aliases from every queued packet, recounts the bytes exactly, and counts the packets it could not encode |
| `EngineClass.MqttEngine.EndSession` | src/mqtt_client/engine.rs:455-468 | fails everything in flight and deferred, once each, in order |
| `EngineClass.MqttEngine.ResetForNewTransport` | src/mqtt_client/engine.rs:425-477 | forgets the transport, keeps the session, or ends it when sessionless |
| `EngineClass.MqttEngine.ScheduleReconnect` | src/mqtt_client/engine.rs:487-520 | schedules one attempt with the back-off delay unless one is pending or the bound is reached; the attempt counter wraps at 32 bits |
| `EngineClass.MqttEngine.ConnectionLostAt` | src/mqtt_client/engine.rs:408-415 | resets the transport, keeps a pending attempt, schedules one if reconnection is on |
| `EngineClass.MqttEngine.EnqueuePacket` | src/mqtt_client/engine.rs:1919-1968 | until CONNACK enhanced authentication lets only AUTH and DISCONNECT through; then count, capabilities, encoding, size and capacity are checked in this order; the bytes are appended only if all pass |
| `EngineClass.MqttEngine.FlushResponses` | src/mqtt_client/engine/protocol_state.rs:489-511 | sends waiting responses in order while they fit; one that can never be sent ends the connection |
| `EngineClass.MqttEngine.ProcessReplay` | src/mqtt_client/engine/protocol_state.rs:920-954 | sends deferred exchanges in order while quota and space last, failing those the connection cannot carry |
| `EngineClass.MqttEngine.ProcessQueueWithEncoding` | src/mqtt_client/engine.rs:1974-2061 | flushes, replays and then emits the queue, using the given encoding for the first packet only |
| `EngineClass.MqttEngine.EmitHead` | src/mqtt_client/engine.rs:1993-2060 | one round of the emission loop: drop, reject or send the head; where the implementation panics because tracking failed, the history records it |
| `EngineClass.MqttEngine.NextPacketId` | src/mqtt_client/engine.rs:2063-2077 | tries at most 65535 successive identifiers after the cursor and moves the cursor past each |
| `EngineClass.MqttEngine.CandidatePacketId` | src/mqtt_client/engine/protocol_state.rs:261-270 | a requested identifier must be free and not zero; otherwise one is allocated |
| `EngineClass.MqttEngine.Publish` | src/mqtt_client/engine.rs:1052-1104 | validates, identifies, encodes, admits and processes; keeps what holds on all runs, whatever the caller asks for |
| `EngineClass.MqttEngine.SubmitRequest` | src/mqtt_client/engine.rs:1251-1309 | SUBSCRIBE and UNSUBSCRIBE are withheld during enhanced authentication, otherwise sent at once and tracked; keeps what holds on all runs |
| `EngineClass.MqttEngine.Connect` | src/mqtt_client/engine.rs:939-1007 | refuses a second handshake, queues CONNECT, captures what is outstanding; keeps what holds on all runs |
| `EngineClass.MergeEntries` | src/mqtt_client/engine.rs:979-999 | the merge through an index of positions is the keyed merge: replaced where it stands, otherwise appended |
| `EngineClass.StableSort` | src/mqtt_client/engine.rs:1848-1854 | the stable sort puts releases before everything else, each group in its order |
| `EngineClass.MqttEngine.RestoreSession` | src/mqtt_client/engine.rs:1843-1891 | decides about every captured entry, subscribes to configured topics of a new session, starts the replay |
| `EngineClass.MqttEngine.Negotiate` | src/mqtt_client/engine/protocol_state.rs:187-259 | rejects invalid terms without effect; otherwise applies limits and capabilities |
| `EngineClass.MqttEngine.HandleConnAck` | src/mqtt_client/engine.rs:1598-1698 | settles the handshake: bad session flag, wrong authentication method, rejected terms, refusal, or connection with a restored session |
| `EngineClass.MqttEngine.AuthReceived` | src/mqtt_client/engine.rs:1524-1559 | accepts AUTH only in its phase and with the method of the CONNECT; success ends the re-authentication |
| `EngineClass.MqttEngine.ValidateAcknowledgement` | src/mqtt_client/engine/protocol_state.rs:852-903 | an acknowledgement must answer the stage of a tracked exchange; SUBACK must carry one code per filter |
| `EngineClass.MqttEngine.HandlePacket` | src/mqtt_client/engine.rs:1579-1841 | the packet dispatch with its screening; a DISCONNECT of the server ends the connection in version 5 and is ignored in version 3 |
| `EngineClass.MqttEngine.ParseBuffered` | src/mqtt_client/engine.rs:557-597 | handles buffered packets until a response waits, the events are full or nothing is left; clock, timers and exchanges stay sound |
| `EngineClass.MqttEngine.HandleIncoming` | src/mqtt_client/engine.rs:540-600 | the whole input operation with the events it returns; keeps what holds on all runs |
| `EngineClass.MqttEngine.TakeEvents` | src/mqtt_client/engine.rs:330-336 | hands over the pending events; keeps what holds on all runs |
| `EngineClass.MqttEngine.TakeOutgoing` | src/mqtt_client/engine.rs:909-932 | drains the output and refills it until nothing is left, returning everything in order; keeps what holds on all runs |
| `EngineClass.MqttEngine.HandleConnectionLost` | src/mqtt_client/engine/explicit.rs:78-83 | losing the transport in any state; keeps what holds on all runs |
| `EngineClass.MqttEngine.ResetTransport` | src/mqtt_client/engine/explicit.rs:85-90 | preparing for a new transport in any state; keeps what holds on all runs |
| `EngineClass.MqttEngine.Disconnect` | src/mqtt_client/engine.rs:1413-1454 | validates the reason, queues DISCONNECT if connected, cancels reconnection, closes the input |
| `EngineClass.MqttEngine.Authenticate` | src/mqtt_client/engine.rs:1464-1522 | client AUTH only in its phase and only with the method of the CONNECT, added if missing |
| `EngineClass.MqttEngine.SendPing` | src/mqtt_client/engine.rs:1912-1918 | queues PINGREQ and starts its timeout, or changes nothing |
| `EngineClass.MqttEngine.SendPacket` | src/mqtt_client/engine/explicit.rs:258-262 | puts a packet of the application into the outgoing buffer, untracked, or changes nothing |
| `EngineClass.MqttEngine.SetReconnect` | src/mqtt_client/engine.rs:381-393 | turning reconnection off cancels the pending attempt and its undelivered events |
| `EngineClass.MqttEngine.BeginUpdate` | src/mqtt_client/engine/explicit.rs:33-68 | accepts a time if and only if it does not run backwards and every configurable deadline fits; otherwise changes nothing |
| `EngineClass.MqttEngine.CheckDeadlines` | src/mqtt_client/engine/protocol_state.rs:296-318 | expires exactly the deadlines that have passed; an expired CONNECT loses the connection |
| `EngineClass.MqttEngine.HandleRetransmissions` | src/mqtt_client/engine.rs:814-841 | sends every due packet again with DUP set, on its stream or through the outgoing buffer |
| `EngineClass.MqttEngine.HandleTick` | src/mqtt_client/engine.rs:764-812 | the whole tick with the events it returns: it takes a timed action if and only if the engine asked to be called by now, and otherwise changes nothing; keeps what holds on all runs |
| `EngineClass.MqttEngine.NextTickAt` | src/mqtt_client/engine.rs:861-899 | the earliest of keep-alive, retransmission, operation and reconnection deadlines: representable, and passed if and only if a tick now would act |
| `Reachable.ConservationIff` | src/mqtt_client/engine.rs:1052-2061 | on every run: each accepted publication is queued, outstanding or finished exactly once, reserved identifiers are exactly the queued and the outstanding ones and unique, and every rejection ended only the rejected publication, if and only if no publication was admitted under an identifier parked by a CONNECT and no rejected unacknowledged publication carried one that was queued, in flight or deferred |
| `Reachable.ConservationWithSessions` | src/mqtt_client/engine.rs:425-477 | with session tracking, and as long as no unacknowledged publication carries an identifier, nothing clashes on any run and the law holds |
| `Commands.PublishConservesIff` | src/mqtt_client/engine.rs:1052-1104 | an accepted acknowledged publication gets the requested identifier, or the first free one after the cursor; the law holds right after its admission if and only if no CONNECT parked that identifier, which only a sessionless engine can hand out |
| `Counterexamples.SessionlessCollision` | src/mqtt_client/engine.rs:455-468 | a run of seven inputs on a sessionless engine after which one identifier is both queued and outstanding |
| `Safety.RejectedInv` | src/mqtt_client/engine.rs:2011-2028 | rejecting the head of the queue: if it is unacknowledged and its identifier is queued, in flight or deferred, that operation is damaged; otherwise the books stay right and no other operation is touched |
| `Counterexamples.PlainRejectionLoses` | src/mqtt_client/engine.rs:2011-2028 | a run of six inputs, the last a CONNACK that offers no retained messages, after which a queued identifier has lost its reservation |
| `Reachable.QueueOverRuns` | src/mqtt_client/engine.rs:435-2010 | on every run, clash or not, for every encoder: the queue is within its capacity, so the bounded queue never evicts; the byte count is exactly the encoded length of the queue; no saturating subtraction from it ever saturated; and under `Codec` every queued packet is encodable now and after a reset, and the `expect` of the reset never fired |
| `TimeRange.TrackingFailsIffReused` | src/mqtt_client/engine.rs:2040-2045 | on every run, for every encoder, tracking an emitted publication fails exactly for those whose identifier is still in flight |
| `Reachable.TrackingOverRuns` | src/mqtt_client/engine.rs:2040-2045 | and never on a run on which no identifier clashed |
| `Counterexamples.TrackingFails` | src/mqtt_client/engine.rs:2040-2045 | a run of nine inputs on which it fails |
| `SessionInvariant.ResetKeeps` | src/mqtt_client/engine.rs:425-477 | losing the transport keeps the books from every state in which they are right, and the session unchanged apart from aliases when it is tracked |
| `Commands.CachedEncodingIsFresh` | src/mqtt_client/engine.rs:1971-2061 | in any state, processing the queue with the encoding of a just admitted publication gives the same result as encoding it again |
| `Commands.AllocationComplete` | src/mqtt_client/engine.rs:2063-2077 | allocation succeeds if and only if an identifier is free, from any cursor position, and its result is free |
| `Commands.RefusedPublishChangesNothing` | src/mqtt_client/engine.rs:1056-1090 | a refused publish leaves everything but the cursor as it was |
| `IncomingPackets.CompletePublishes` | src/mqtt_client/engine.rs:1699-1720 | completing an exchange publishes the ticket of its publication and changes no other ticket |
| `Reachable.ReportsOverRuns` | src/mqtt_client/engine.rs:1699-1760 | on every run without a clash as many publications were reported as tickets were finished by the peer, and no ticket twice |
| `SessionBooks.OutstandingIds` | src/mqtt_client/engine.rs:976-999 | what a CONNECT captures has unique identifiers: the still reserved old ones and all live ones |
| `SessionBooks.OutstandingHolds` | src/mqtt_client/engine.rs:976-999 | for each identifier it holds the newest packet |
| `Packets.MergeIds` | src/mqtt_client/engine.rs:979-999 | known identifiers stay where they are; the new ones follow in the order of their first occurrence; none twice |
| `SessionBooks.CaptureIdempotent` | src/mqtt_client/engine.rs:976-999 | capturing again what a CONNECT captured changes nothing |
| `InterruptedHandshakes.ExchangesSurviveInterruptions` | src/mqtt_client/engine.rs:939-1007 | whatever happens while no CONNACK arrives, the resumable exchanges stay the same, in the same order |
| `InterruptedHandshakes.InterruptedResume` | src/mqtt_client/engine.rs:1843-1891 | after any number of interrupted handshakes a resuming CONNACK replays exactly what was outstanding at the start |
| `InterruptedHandshakes.InterruptedRuns` | src/mqtt_client/engine.rs:1843-1891 | the same after every run of an engine that tracks sessions, from its initial state, on which no identifier has clashed before the interruptions began |
| `Resumption.SettleExact` | src/mqtt_client/engine.rs:1843-1873 | CONNACK partitions the captured entries exactly: releases then publications are replayed in order, the rest fails once each; later operations are untouched |
| `FlowControl.SettleOverRuns` | src/mqtt_client/engine.rs:1843-1891 | in every state of every run that waits for a CONNACK, clash or not: the captured identifiers are distinct, the partition is that one, and no exchange is left in flight |
| `Resumption.ReleasesFirstIsPermutation` | src/mqtt_client/engine.rs:1848-1854 | sorting loses and duplicates nothing |
| `Resumption.ReplayFormsCanonical` | src/mqtt_client/engine.rs:1864-1870 | what is replayed is every resumable entry once, in order, under its identifier: a release unchanged, a publication with DUP set and its alias removed and nothing else changed |
| `FlowControl.FlowOverRuns` | src/mqtt_client/engine.rs:1984-2048 | on every run, for every caller, peer and encoder, while connected: the quota in use is within the limit and, with the debt, is what the exchanges in flight took; the publications in flight exceed the limit by at most the debt, and are within it if and only if unused quota and charged releases cover the debt; no debt, and the limit respected, without a replayed release |
| `Reachable.SendQuotaOverRuns` | src/mqtt_client/engine.rs:1984-2048 | on every run without a clash, while connected: the quota in use and the send quota of section 4.9 of MQTT 5.0 add up to the limit, so the publications in flight are within the limit if and only if send quota and charged releases cover the debt |
| `FlowControl.RestoreFlow` | src/mqtt_client/engine.rs:1843-1891 | a connection starts with no quota in use, however small the new limit is and whatever was in flight |
| `SendQuota.SendHeadPaid` | src/mqtt_client/engine.rs:1995-2048 | sending the head of the queue takes a unit of quota exactly when it spends one of the send quota, and none of the other |
| `SendQuota.SentPaid` | src/mqtt_client/engine.rs:1995-2003 | a PUBLISH spends one unit of the send quota and is never sent at zero |
| `FlowControl.ReceiveMaximumIff` | src/mqtt_client/inflight.rs:182-196 | how many publications can be in flight: at most the limit plus the debt, and within the limit if and only if the debt is covered |
| `FlowControl.GiveBackFlow` | src/mqtt_client/inflight.rs:182-196 | whatever leaves the queue in flight, acknowledged, failed or taken away by a clash, keeps the account: a unit returned by a release that took none becomes debt, a charged exchange that finds none to return pays it back |
| `Counterexamples.ReleaseOvershoot` | src/mqtt_client/engine/protocol_state.rs:920-954 | a run of ten inputs after which two publications are in flight under a limit of one |
| `ConnectionControl.ServerLimitIff` | src/mqtt_client/engine/protocol_state.rs:187-259 | on every run the limit in force respects the server's Receive Maximum if and only if the configured maximum is not zero |
| `Counterexamples.ServerLimitIgnored` | src/mqtt_client/engine.rs:1655-1664 | a run of two inputs in which the server allows five and the engine goes on with 65535 |
| `ConnectionControl.BackoffOverRuns` | src/mqtt_client/engine.rs:487-529 | on every run the n-th delay since the last success is the base doubled min(n, 10) times and capped at the maximum; delays never decrease, number at most a nonzero bound, and signals never outnumber schedules |
| `ConnectionControl.BackoffMonotone` | src/mqtt_client/engine.rs:498-512 | delays never shrink, never exceed the maximum, and stop growing after ten doublings |
| `ConnectionControl.LossSchedulesOnce` | src/mqtt_client/engine.rs:408-415 | losing the connection again before the signal schedules nothing more |
| `ConnectionControl.ReauthOverRuns` | src/mqtt_client/engine.rs:1464-1559 | on every run a connection has at most one unfinished re-authentication and every AUTH carries the method of its CONNECT |
| `ConnectionControl.GatingOverRuns` | src/mqtt_client/engine.rs:1977-1992 | on every run nothing is emitted between CONNECT and CONNACK, all replay precedes the queue, and the queue is in priority order |
| `ConnectionControl.ArrivalOrderOverRuns` | src/mqtt_client/engine.rs:1993-2060 | on every run, over all connections, publications of one priority leave the queue in the order in which they were accepted, and what waits was accepted later than what left with its priority |
| `ConnectionControl.DownIsSilent` | src/mqtt_client/engine.rs:1978-1980 | from a loss to the next CONNECT no operation emits anything |
| `ConnectionControl.EmittedIsHighest` | src/mqtt_client/engine.rs:1993-1994 | what is sent from the queue has the highest priority in it and departs with the arrival number of the head |
| `ConnectionControl.InsertionKeepsArrivalOrder` | src/priority_queue.rs:50-57 | a new publication goes behind every queued one of its own or a higher priority and before the rest |
| `Timers.TimersOverRuns` | src/mqtt_client/engine.rs:764-899 | on every run, for every caller, peer and encoder, and at every accepted time, a tick acts if and only if the engine asked to be called by then, and otherwise changes nothing; the time it asks for is representable |
| `Timers.RunQuiet` | src/mqtt_client/engine.rs:1970-2061 | every operation leaves the output side with nothing it could still do |
| `Timers.ResendsExact` | src/mqtt_client/inflight.rs:206-250 | a retransmission is due exactly when the first deadline has passed |
| `Timers.KeepAliveExact` | src/mqtt_client/engine.rs:777-804 | a ping or its timeout is due exactly at the keep-alive deadline |
| `TimeRange.RunTimely` | src/mqtt_client/engine/explicit.rs:33-76 | on every run recorded times lie in the past, every deadline the engine computes fits the clock, the exchanges in flight have one deadline each, in order, and the queue is within its capacity and counted exactly |
| `QuicClass.QuicTransport.JournalStreamBytes` | src/mqtt_client/engine.rs:2570-2586 | appends to the journal entry of the stream, if there is one |
| `QuicClass.QuicTransport.AppendControlOutgoing` | src/mqtt_client/engine.rs:2588-2610 | buffers control bytes and journals them while early data may be rejected |
| `QuicClass.QuicTransport.EnqueueOnStream` | src/mqtt_client/engine.rs:3688-3711 | buffers and journals one packet, or refuses it and changes nothing |
| `QuicClass.QuicTransport.OpenBidiStream` | src/mqtt_client/engine.rs:3615-3652 | registers and journals a stream under the identifier QUIC gives |
| `QuicClass.QuicTransport.EnsureDefaultPubStream` | src/mqtt_client/engine.rs:3916-3923 | opens the default stream once |
| `QuicClass.QuicTransport.SetStreamPriority` | src/mqtt_client/engine.rs:3814-3838 | changes the priority of the stream and of its journal entry |
| `QuicClass.QuicTransport.FinishStream` | src/mqtt_client/engine.rs:4170-4195 | requests FIN; the control stream first takes what the MQTT layer had queued |
| `QuicClass.QuicTransport.ResetStream` | src/mqtt_client/engine.rs:4197-4219 | discards what is buffered and rejects further writes |
| `QuicClass.StreamSendOrder` | src/mqtt_client/engine.rs:3855-3859 | lists every stream once, higher priority first, older first among equals |
| `QuicClass.QuicTransport.FlushControlStream` | src/mqtt_client/engine.rs:3487-3504 | writes what QUIC takes; issues a requested FIN only when nothing is left |
| `QuicClass.QuicTransport.FlushDataStreams` | src/mqtt_client/engine.rs:3506-3533 | the same for every data stream, in serving order |
| `QuicClass.QuicTransport.HandleTick` | src/mqtt_client/engine.rs:3469-3554 | pulls, flushes and carries out a deferred close once the control buffer is empty |
| `QuicClass.QuicTransport.ReplayEarlyStreamJournals` | src/mqtt_client/engine.rs:2667-2732 | rebuilds one stream per journal entry until QUIC opens no more |
| `QuicClass.QuicTransport.RouteSessionWork` | src/mqtt_client/engine.rs:3873-3913 | the routing loop is the function the exactness theorem speaks about |
| `QuicRuns.JournalOverRuns` | src/mqtt_client/engine.rs:2552-2610 | on every run each journal entry holds exactly the bytes accepted for its stream, in opening order, with its current priority |
| `QuicRuns.ReplayExact` | src/mqtt_client/engine.rs:3127-3171 | rejected early data with replay and enough credit: each stream is rebuilt with exactly those bytes, its priority and its purpose, unwritten |
| `QuicRuns.ReplayComplete` | src/mqtt_client/engine.rs:2682-2732 | and no other stream exists |
| `QuicRuns.ReplayBinds` | src/mqtt_client/engine.rs:2722-2728 | whatever identifiers QUIC hands out for the replay, the stream in the place of a journaled one is a default stream if and only if the old one was |
| `QuicRuns.ReplayFinishOverRuns` | src/mqtt_client/engine.rs:2706-2721 | on every run whose early data are rejected and replayed: the replayed stream ends like the old one if and only if the application had asked neither to finish nor to reset that one since it was opened |
| `QuicRuns.FinForgotten` | src/mqtt_client/engine.rs:2706-2721 | a run of four steps from the start on which a requested FIN is lost by the replay |
| `QuicRuns.FinOverRuns` | src/mqtt_client/engine.rs:3506-3533 | on every run FIN is issued at most once per stream, on an empty buffer, after everything accepted, and nothing is written after it |
| `QuicRuns.ControlFinOverRuns` | src/mqtt_client/engine.rs:3487-3504 | the same for the control stream |
| `QuicRuns.CloseOverRuns` | src/mqtt_client/engine.rs:3544-3554 | on every run a deferred close found every byte offered to the control stream written, the DISCONNECT among them, if and only if since that stream started it was not reset or ended by the peer with bytes pending, nor the session lost with bytes pending |
| `QuicRuns.DroppedOnlyBy` | src/mqtt_client/engine.rs:4170-4219 | a step throws control bytes away if and only if it is one of these; a flush, a requested FIN and the deferred close never do |
| `QuicRuns.ClosesOnlyByTick` | src/mqtt_client/engine.rs:3544-3554 | no other operation carries out a deferred close |
| `QuicRuns.CloseWithoutDisconnect` | src/mqtt_client/engine.rs:4197-4219 | a run from the start: the control stream is reset after asking for the close, and the next tick closes without the DISCONNECT |
| `SessionRouting.RouteExact` | src/mqtt_client/engine.rs:3861-3913 | at every exit of the routing loop, error or not: handled entries followed by remaining ones are the original list; each sent one is in flight on its stream once and its bytes are buffered once, in order |
| `SessionRouting.ReachedRoutable` | src/mqtt_client/engine.rs:3861-3913 | every state that a run reaches without a clash meets what `RouteExact` asks of the session |
| `SessionRouting.BufferExact` | src/mqtt_client/engine.rs:3670-3711 | a packet reaches the default stream once or not at all, and no other stream changes |
| `SessionRouting.RoutedPush` | src/mqtt_client/engine.rs:3896-3907 | tracking a packet that was just buffered cannot fail |
| `QuicSafety.EnsurePubKeeps` | src/mqtt_client/engine.rs:3916-3923 | a default stream is always registered |
| `GrpcConversion.RoundTrip` | mqtt_grpc_duality/src/lib.rs:993-1221 | every packet converts to a stream message and back; the result is in normal form, and is the original if and only if that was |
| `GrpcConversion.RoundTripTwice` | mqtt_grpc_duality/src/lib.rs:993-1221 | converting twice is the same as once |
| `GrpcConversion.PropertyRoundTrip` | mqtt_grpc_duality/src/lib.rs:231-305 | a property survives if and only if its boolean value is 0 or 1 |
| `GrpcConversion.PropertiesRoundTrip` | mqtt_grpc_duality/src/lib.rs:162-180 | the same for lists of any length, in order |
| `GrpcConversion.WillRoundTrip` | mqtt_grpc_duality/src/lib.rs:65-159 | the properties of a will survive if and only if the indicator is 0 or 1 and the user list holds only user properties |
| `GrpcConversion.ConvertWillPropertiesToPb` | mqtt_grpc_duality/src/lib.rs:65-117 | pushes the present fields in their fixed order and then the user list |
| `GrpcConversion.ConvertPbToWillProperties` | mqtt_grpc_duality/src/lib.rs:119-159 | fills in the fields in order, the last value winning, and ignores what does not belong to a will |
| `GrpcConversion.Connect5Returns` | mqtt_grpc_duality/src/lib.rs:183-205 | a version 5 CONNECT comes back with name MQTT and version 5; unchanged if and only if it was in normal form |

## Left out

- EngineClass.MqttEngine.Negotiate: the walk over the CONNACK property list (duplicates, misplaced properties, assigned client identifier, subscription availability flags) is one flag in the terms, because it only adds shallow branches.
- EngineClass.MqttEngine.CheckDeadlines: deadlines are kept in the order they were started, because the implementation iterates a hash map whose order it does not promise.
- EngineClass.MqttEngine.HandleIncoming: input is a sequence of decoded packets; feeding bytes, the incoming byte limit and partial packets belong to the parser, which is not part of this model.
- EngineClass.MqttEngine.SubmitRequest: the capability check of a subscription is an input, because the availability flags are not modelled.
- QuicClass.QuicTransport.EnqueueOnStream: whether the byte budget of the whole client allows a packet is an input.
- QuicClass.QuicTransport.RouteSessionWork: the subscription to configured topics before the loop is not modelled.
- QuicRuns.JournalOverRuns: assumes, as QUIC guarantees, that nothing arrives from the peer before the handshake is complete; a response to such data would not be journaled.
- QuicRuns.FinOverRuns: QUIC reports a finished stream only after FIN was issued on it.
- The receive side of QoS 2 and acknowledgements sent by the application: an incoming message either fails the connection or asks for at most one response.
- The reduced parser levels, durable session snapshots, and `reset_reconnect_state` as an operation of its own.
- What the feature `strict-protocol-compliance` does inside the codec; what it does in the engine is modelled, switched by an option.
- After a failed tracking the model goes on with a history that says so; the implementation stops with a panic.
- Packets that the application puts into the outgoing buffer itself (`enqueue_packet_at`) are inputs of runs; what they are is not counted among the emissions and AUTH packets of the engine.
- Publishing and subscribing directly on QUIC streams beyond buffering and journaling; datagrams, TLS session caches, and the byte-level codec.
- Bounds on the packets buffered per QUIC stream: replay sets the count from the journal, so no bound holds across it.
- The engine keeps connection, capabilities and clock in three record-valued fields; the implementation spreads them over more fields of the same object.
- Times are nanoseconds on an unbounded integer with an explicit limit of 2^64; the host clock is not modelled.
