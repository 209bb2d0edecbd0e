# A model of the Boost.MQTT5 client

Boost.MQTT5 is a client for MQTT Version 5.0. This project models the parts of it
where correctness depends on many functions at once, and proves what they promise:

- **The retransmission engine**: the write queue with wrapping serial numbers and
  the Receive Maximum quota (`async_sender`), the table of waiting operations and
  early replies (`replies`), the QoS 1 and QoS 2 state machines (`publish_send_op`,
  `publish_rec_op`), SUBSCRIBE, and the packet id allocator. `Client.dfy` is the
  engine as a transition system; its run is recorded as a sequence of events.
  `Service.dfy` is the same engine in the program's own form, an object edited in
  place by methods with loops, each proved to take the step that `Client` names.
- **The far side**: a broker that follows section 4.3.3 of MQTT 5.0 and keeps its
  session, joined to the client by channels that may break at any point.
- **The wire format**: variable byte integers, property blocks, the encoder
  combinators, the packets, and the assembler that cuts packets out of a byte stream.
  `Wire.dfy` writes the packets out octet by octet as MQTT 5.0 lays them down, without
  the constants that encoders and decoders share.
- **Reconnection**: the asynchronous mutex, the single-flight reconnect, and the
  cyclic choice of a broker.
- **Topic filters**: the one-pass scan and what it accepts.

`dafny verify dfyconfig.toml` checks everything.

## How the engine is read

An operation is a value that moves between collections: the write queue, the batch
being written, the batch whose handlers are being told, the reply table, and the
completions posted to the executor. A step is one event of the program: a call, the
end of a write (success, `try_again` after a reconnect, or failure for good), a
packet read, a posted completion, a cancellation, or a `try_again` seen by the
reader. `Theorems.Reachable` is every state of every sequence of steps.

Layers of the proof: `Places` (every operation is in one place), `Runs` and
`Soundness` (what the run shows), `FlowControl`, `Flight` and `Ledger` (quota and order),
`Traffic` (the packets of one packet id), `Engine` (every handler keeps all of it),
`Resending` (`resend()`), `Steps` (every step), `Theorems` (what follows in every
reachable state), `Outcomes` (what every call is told in the end, and what the user
receives), `Retransmission` (a reconnect forgets nothing), `Progress` (nothing lies
idle in the queue), `Conduct` (what single steps do for their operation). `Broker`,
`Exchange` and `ExactlyOnce` add the far side for QoS 2 sending; `Receiving` is QoS 2
in the other direction. `Scenes`, `Surplus`, `Disorder`, `Reuse`, `Leniency`,
`LateRefusal`, `Redelivery`, `Owing` and `Duplicates` show where the promises end, by
runs that break them and, where the condition is exact, by proof that nothing else does.

### Conditions that the code needs

- **The quota.** In every reachable state the quota and the operations in flight add
  up to the Receive Maximum plus a drift that can be read off the run, modulo 2^16
  (`Theorems.QuotaLaw`); they balance exactly when the drift is a multiple of 2^16
  and the maximum is kept. The drift is 0 in a span without malformed
  acknowledgements and cancellations (`Runs.Tidy`). It is not always 0: an operation
  cancelled before a resend completes through `free_pid(.., true)` after the quota
  was reset. `Surplus.QuotaBeyondLimit` is such a run for every limit, and in
  `Surplus.ReceiveMaximumExceeded` two messages are in flight at a Receive Maximum
  of one.
- **The order.** At the last effective `resend()` the serial numbers of the live
  operations, and the serial 0 of packets without one if any such operation was live,
  must have been within 2^31 consecutive values (`Runs.Near`; `SerialOrder.LessMayCycle`
  shows why). Then transmissions since are out of order if and only if a packet that a
  malformed acknowledgement put back in the queue was handed over behind one that it
  should precede (`Theorems.SentInOrder`). If moreover no reply was posted to a QoS 1 or
  QoS 2 operation at that resend (`Runs.Unanswered`), they are if and only if a
  throttled packet was handed over of an operation already in flight
  (`Theorems.OrderExactly`). `Disorder.SentOutOfOrder` is a run in which the order is
  broken. Cancellations do not matter.
- **Exactly once.** The broker keeps its session, nothing is cancelled, and replies are
  well-formed. A refusal (PUBREC with a failure code) frees a packet id, and it must
  be acted on only when nothing else about a PUBLISH is outstanding on that id
  (`ExactlyOnce.RefusesLast`, `ReadsLast`). This is exact (`Leniency.CareExactly`): with
  the broker refusing nothing from then on, a message on that id can be accepted without
  ever being forwarded if and only if the refusal was acted on too early. The client can
  be sure of the condition if it has sent the PUBLISH once (`ExactlyOnce.RefusedOnce`),
  which is a condition on its own events. It cannot if it has sent it twice: the refusal
  of the first copy may already be buffered when an ordinary connection breaks and be
  read while the second copy is being written, or a reader that notices a reconnect late
  may trigger a second `resend()` on one connection. If the broker takes the other copy,
  the client frees an id that the broker still holds, and the next message on it is taken
  for a duplicate. `LateRefusal.AcceptedButNeverForwarded` is such a run from the initial
  state, in which nothing is on its way when a connection breaks. The continuation in
  `Reuse.CareIsNeeded` also loses packets without a reconnect after it
  (`ExactlyOnce.Break`), which the theorems allow but a TCP connection does not. At most
  once needs none of these conditions.
- **Receiving once.** The broker never goes back on a packet id (`Receiving.NeverBack`),
  and a PUBREL finds at most one operation of each message open on its packet id
  (`Receiving.InTime`), that is, acknowledging the PUBLISH or waiting for the PUBREL.
  This is exact, PUBREL by PUBREL and message by message (`Duplicates.RepeatsExactly`):
  without anything new being read, but perhaps that PUBREL again, the message can be
  delivered twice if and only if two of its operations were open. The condition holds
  whenever the completion of each PUBREC write has been processed before the PUBREL that
  answers it is read (`Receiving.ToldInTime`). `Redelivery.DeliveredTwice` is a run in
  which packets are repeated after a reconnect only and a message is delivered twice.
- **The idle queue.** A write that is aborted, or that fails for good, is not followed
  by another one, as in the program: until the next request is queued or the next share
  of quota is given back, what is in the queue stays there (`Progress.Paused`). Otherwise
  it only ever waits for quota (`Progress.NothingLiesIdle`).
- **Re-entrance.** While the handlers of a finished write are being told, the user
  may make calls; nothing else happens until all are told. A write begun by such a
  call drops early replies, as in the program. A call made inside the last handler of
  a batch comes before the final `do_write` in the program and after it in the model.

## Model

| member | source | states |
|---|---|---|
| `SerialOrder.LessIsKeyOrder` | include/boost/mqtt5/impl/async_sender.hpp:90-101 | on serials in one window of 2^31 values, across the wrap, the comparison is the order of (priority, distance from the window's base), so a strict weak order |
| `SerialOrder.LessMayCycle` | include/boost/mqtt5/impl/async_sender.hpp:90-101 | outside a window three serials can each precede the next |
| `SerialOrder.AgeOfCall` | include/boost/mqtt5/impl/async_sender.hpp:59-61 | wrapped serials of calls less than 2^31 apart are ordered as the calls |
| `SerialOrder.SortKeeps` | include/boost/mqtt5/impl/async_sender.hpp:201-201 | the sorted queue is a permutation of the queue |
| `SerialOrder.SortSorts` | include/boost/mqtt5/impl/async_sender.hpp:201-201 | it is sorted by priority and then by call order |
| `SerialOrder.SortIsStable` | include/boost/mqtt5/impl/async_sender.hpp:201-201 | requests that the comparison cannot tell apart keep their order |
| `SerialOrder.StableSortIsUnique` | include/boost/mqtt5/impl/async_sender.hpp:201-201 | sorted and stable determine the result, so any stable sort gives it |
| `PacketIds.PacketIdAllocator.Allocate` | include/boost/mqtt5/detail/control_packet.hpp:153-162 | returns the least free id of 1..65535, or 0 exactly when none is free; adds exactly it to the set in use; the list stays descending, disjoint and non-adjacent |
| `PacketIds.PacketIdAllocator.Free` | include/boost/mqtt5/detail/control_packet.hpp:164-189 | removes exactly the given id from the set in use, through all four merge cases |
| `PacketIds.PacketIdAllocator.Merge` | include/boost/mqtt5/detail/control_packet.hpp:169-188 | the intervals that the id touches are replaced by one |
| `PacketIds.UpperBound` | include/boost/mqtt5/detail/control_packet.hpp:165-168 | the binary search separates intervals by their start |
| `PacketIds.Grown` | include/boost/mqtt5/detail/control_packet.hpp:164-189 | the merged list is well-formed and covers one id more |
| `PacketIds.Canonical` | include/boost/mqtt5/detail/control_packet.hpp:130-190 | the interval list is determined by the set it stands for |
| `Service.ClientService.DoWrite` | include/boost/mqtt5/impl/async_sender.hpp:245-297 | a terminal request goes alone; otherwise everything, or as much as the quota allows, in queue order; early replies are dropped; the new state is that of the model's step |
| `Service.ClientService.Take` | include/boost/mqtt5/impl/async_sender.hpp:266-284 | unthrottled requests and as many throttled ones as the quota allows are taken, the rest keeps its order |
| `Service.ClientService.ResendAll` | include/boost/mqtt5/impl/async_sender.hpp:182-205 | unanswered and unsent operations pass through their handlers once, the queue is sorted, a write begins; no effect while a write is in progress |
| `Service.ClientService.ResendUnanswered` | include/boost/mqtt5/impl/replies.hpp:185-189 | every waiting handler is told to start over, in table order |
| `Service.ClientService.AsyncWaitReply` | include/boost/mqtt5/impl/replies.hpp:115-164 | an older waiter for the same code and id is aborted; an early reply is posted, otherwise the waiter is registered |
| `Service.ClientService.Dispatch` | include/boost/mqtt5/impl/replies.hpp:166-183 | the first waiter for code and id is removed and told, or the reply is kept as an early one |
| `Service.ClientService.ClearPendingPubrels` | include/boost/mqtt5/impl/replies.hpp:211-220 | exactly the waiters for PUBREL are removed, in place |
| `Service.ClientService.Cancel` | include/boost/mqtt5/impl/client_service.hpp:408-419 | all waiters and queued requests are posted their abort |
| `Service.ClientService.Publish` | include/boost/mqtt5/impl/publish_send_op.hpp:114-144 | id overrun, invalid arguments and oversized packets leave the ids as they were, the last after taking a serial; otherwise the operation is queued with the least free id |
| `Service.ClientService.SubscribeTo` | include/boost/mqtt5/impl/subscribe_op.hpp:89-118 | the same life cycle of the id for SUBSCRIBE |
| `Service.ClientService.HandleWritten` | include/boost/mqtt5/impl/publish_send_op.hpp:164-196 | what each handler does when its write succeeded, an inbound delivery entering the receive channel behind its PUBACK or PUBCOMP; `Outcomes.WrittenEndings` and `Outcomes.ReceivedExactly` say what that amounts to over a run |
| `Service.ClientService.HandleTryAgain` | include/boost/mqtt5/impl/publish_send_op.hpp:156-170 | what each handler does when its write has to be made again |
| `Service.ClientService.HandleResend` | include/boost/mqtt5/impl/publish_send_op.hpp:203-209 | what each waiting handler does on a new connection: DUP is set, a PUBREL stays a PUBREL |
| `Service.ClientService.HandleAnswer` | include/boost/mqtt5/impl/publish_send_op.hpp:203-342 | what each waiting handler does with a reply: completion, PUBREL after an accepted PUBREC, DISCONNECT and a restart after a malformed one; `Outcomes.AnsweredEndings` says what that amounts to over a run |
| `Service.ClientService.CompleteOp` | include/boost/mqtt5/impl/publish_send_op.hpp:456-462 | the id is freed and the quota given back |
| `Service.ClientService.Received` | include/boost/mqtt5/impl/publish_rec_op.hpp:69-102 | PUBACK or PUBREC is queued for an inbound PUBLISH |
| `Service.ClientService.WriteFailed` | include/boost/mqtt5/impl/async_sender.hpp:207-219 | the batch goes back in front of the queue, then everything is resent |
| `Service.ClientService.WriteAborted` | include/boost/mqtt5/impl/async_sender.hpp:221-231 | every handler of the batch is told in order |
| `Service.ClientService.React` | include/boost/mqtt5/impl/client_service.hpp:425-461 | for every step, the object's new state is the model's next state; this covers the one-line members too, such as the wrap of the 32-bit serial, the 16-bit increment of the quota, the queueing of a request, the end of a session and the entry of a message into the receive channel |
| `Service.ClientService.ReactSanely` | include/boost/mqtt5/impl/client_service.hpp:425-461 | hence the invariant holds of the object after every step |
| `Service.LeastFreeIsFirst` | include/boost/mqtt5/detail/control_packet.hpp:153-162 | the allocator's answer is the id the model names |
| `Service.SortQueue` | include/boost/mqtt5/impl/async_sender.hpp:201-201 | sorting by insertion, with two nested loops, computes the stable sort of the specification |
| `Places.Awaits` | include/boost/mqtt5/impl/replies.hpp:115-164 | waiting keeps every operation in one place |
| `Places.Retires` | include/boost/mqtt5/impl/client_service.hpp:429-433 | ending an operation frees exactly its id |
| `Places.NextWaiter` | include/boost/mqtt5/impl/replies.hpp:185-189 | dealing with one held operation leaves the others held and live |
| `Steps.StepKeeps` | include/boost/mqtt5/impl/async_sender.hpp:182-297 | every step of the client keeps the whole invariant |
| `Resending.ResendStep` | include/boost/mqtt5/impl/async_sender.hpp:182-205 | `resend()` keeps the places and the facts of the run and re-establishes the balance of the quota and the order of the queue, whatever they were |
| `Retransmission.ResendRemembers` | include/boost/mqtt5/impl/async_sender.hpp:182-205 | `resend()` ends no operation with a packet id that was not cancelled, ends the cancelled ones that have to start over and the packets bound to the old connection, and posts nothing new to an operation with a packet id; afterwards only inbound deliveries wait |
| `Retransmission.ReconnectForgetsNothing` | include/boost/mqtt5/impl/async_sender.hpp:207-219 | in every reachable state, after the connection was replaced every operation with a packet id that was not cancelled is alive and on its way out again, unless its reply had already been posted |
| `Retransmission.WaitersStartOver` | include/boost/mqtt5/impl/replies.hpp:185-189 | after a reconnect a waiter for anything but a PUBREL is out of the table and on its way out again; if cancelled, it has ended, unless it waited for a PUBCOMP |
| `Retransmission.RequestsLeftBehind` | include/boost/mqtt5/impl/async_sender.hpp:195-199 | a queued or half-written PINGREQ, PUBACK, PUBREC or internal DISCONNECT ends at a reconnect, and so does a cancelled PUBLISH or SUBSCRIBE |
| `Retransmission.LostSessionEndsDeliveries` | include/boost/mqtt5/impl/client_service.hpp:447-461 | when the broker has no session, every inbound delivery that waited for its PUBREL has ended, also if a write is in progress |
| `Outcomes.AnsweredEndings` | include/boost/mqtt5/impl/publish_send_op.hpp:203-342 | in every run a QoS 1 or SUBSCRIBE operation ended well if and only if the last reply it was given was a success, and was refused if and only if it was a failure; a QoS 2 one likewise by a successful PUBCOMP, or a PUBREC or PUBCOMP with a failure |
| `Outcomes.WrittenEndings` | include/boost/mqtt5/impl/publish_rec_op.hpp:116-200 | in every run a QoS 0 PUBLISH, a DISCONNECT, a PINGREQ and an inbound delivery ended well if and only if its last packet was reported written: the PUBLISH, the packet itself, the PUBACK, or the PUBCOMP |
| `Outcomes.FailsOnlyIfCancelled` | include/boost/mqtt5/impl/publish_send_op.hpp:156-162 | a publish, subscribe or disconnect call failed only if it, or everything, was cancelled after it was made, or a write failed for good |
| `Outcomes.DecidedIsOver` | include/boost/mqtt5/impl/publish_send_op.hpp:230-341 | in every reachable state no live operation has been given a reply that decides |
| `Outcomes.ReceivedExactly` | include/boost/mqtt5/impl/publish_rec_op.hpp:212-214 | in every run the receive channel holds exactly the QoS 0 messages that were read and the messages of the inbound QoS 1 and QoS 2 deliveries that ended well, in that order |
| `Outcomes.RepliesDecide` | include/boost/mqtt5/impl/publish_send_op.hpp:215-231 | a successful PUBACK, PUBCOMP or SUBACK ends its operation at once and well, one with a failure code ends it refused |
| `Outcomes.StepJust` | include/boost/mqtt5/impl/client_service.hpp:463-469 | every step keeps the invariant behind these: operations end as they are due to, and the channel is what the events brought |
| `Progress.NothingLiesIdle` | include/boost/mqtt5/impl/async_sender.hpp:207-297 | in every reachable state without a write in progress, not paused by an aborted write, the queue is empty, or a limit is set, the quota is 0 and everything queued is throttled |
| `Conduct.WriteTakes` | include/boost/mqtt5/impl/async_sender.hpp:245-297 | a write takes the first terminal request alone, or else the whole queue without a limit, or else exactly the requests that are not throttled or that fewer throttled ones precede than the quota allows |
| `Conduct.SplitPicks` | include/boost/mqtt5/impl/async_sender.hpp:266-284 | the split by quota is that selection by position, on both sides, and the quota is what it leaves |
| `Conduct.PublishEnters` | include/boost/mqtt5/impl/publish_send_op.hpp:114-154 | a publish call without a free id or with invalid arguments changes nothing, an oversized one spends a serial number only, and any other is entered with the least free id and on its way with the next serial, throttled unless QoS 0 |
| `Conduct.SubscribeEnters` | include/boost/mqtt5/impl/subscribe_op.hpp:89-129 | the same for SUBSCRIBE, without a serial number and not throttled |
| `Conduct.OtherEnters` | include/boost/mqtt5/impl/disconnect_op.hpp:91-125 | a DISCONNECT, which is terminal, or a packet nobody waits on is entered and on its way |
| `Conduct.ReceiveEnters` | include/boost/mqtt5/impl/publish_rec_op.hpp:69-130 | an inbound PUBLISH is entered with its message, and its PUBACK or PUBREC is on its way on its packet id |
| `Conduct.ReplyFindsItsWaiter` | include/boost/mqtt5/impl/replies.hpp:166-183 | a reply is given to the first waiter for its code and id, and is kept if there is none |
| `Conduct.EarlyReplyIsTaken` | include/boost/mqtt5/impl/replies.hpp:115-164 | a handler that asks for a reply gets the oldest early one and takes it out, or joins the waiters |
| `Conduct.AcceptanceReleases` | include/boost/mqtt5/impl/publish_send_op.hpp:265-285 | a successful PUBREC puts the PUBREL on its way, prioritized, unthrottled, with the serial of the call |
| `Conduct.PubrelIsAnswered` | include/boost/mqtt5/impl/publish_rec_op.hpp:172-187 | a PUBREL puts the PUBCOMP on its way |
| `Conduct.MalformedStartsOver` | include/boost/mqtt5/impl/publish_send_op.hpp:218-228 | a malformed PUBACK, PUBREC, PUBCOMP or SUBACK puts a terminal DISCONNECT on its way, and again the PUBLISH with DUP, the PUBREL or the SUBSCRIBE |
| `Conduct.CancelReachesAll` | include/boost/mqtt5/impl/client_service.hpp:408-419 | a cancellation posts an abort to every waiter and every queued request |
| `Conduct.AbortReachesAll` | include/boost/mqtt5/impl/async_sender.hpp:224-232 | a write that fails for good ends every operation of its batch in failure |
| `Theorems.OnePlace` | include/boost/mqtt5/impl/replies.hpp:114-189 | in every reachable state each operation started and not ended is in exactly one collection, and nothing else is in any |
| `Theorems.IdsAreDistinct` | include/boost/mqtt5/impl/client_service.hpp:425-433 | the ids in use are exactly those of the live operations that bear one, all different, in 1..65535 |
| `Theorems.NobodyElseWaits` | include/boost/mqtt5/impl/replies.hpp:118-122 | the duplicate branch of `async_wait_reply` never fires for an acknowledgement of a sent packet |
| `Theorems.ToldAlone` | include/boost/mqtt5/impl/publish_send_op.hpp:164-196 | the same for the next handler to be told in any reachable state |
| `Theorems.QuotaLaw` | include/boost/mqtt5/impl/async_sender.hpp:236-297 | in every reachable state with a counted limit, quota plus operations in flight equals limit plus drift, up to wraps of the 16-bit counter; the drift is 0 at a resend, one up when an operation ends that is not in flight, one down when one in flight is sent again |
| `Theorems.BalanceExactly` | include/boost/mqtt5/impl/async_sender.hpp:236-297 | quota and operations in flight add up to the limit if and only if the drift is a multiple of 2^16 and the limit is kept; the limit is exceeded by at most the drift |
| `Theorems.ReceiveMaximumIsKept` | include/boost/mqtt5/impl/async_sender.hpp:236-297 | in a span without malformed acknowledgements and cancellations the drift is 0, so the limit is kept and the counter cannot wrap; in every run the number of packet ids is a bound |
| `Surplus.CancelledDuringResend` | include/boost/mqtt5/impl/publish_send_op.hpp:156-162 | an operation cancelled before a resend ends during it and leaves the quota one above the limit |
| `Surplus.QuotaBeyondLimit` | include/boost/mqtt5/impl/publish_send_op.hpp:156-162 | for every limit a run from the initial state ends with nothing in flight and a quota one above the limit |
| `Surplus.ReceiveMaximumExceeded` | include/boost/mqtt5/impl/async_sender.hpp:182-297 | a run ends with two messages in flight at a Receive Maximum of one |
| `Ledger.CounterIsLimitLessLent` | include/boost/mqtt5/impl/async_sender.hpp:236-284 | the 16-bit counter is the limit less the shares lent since the last resend, up to wraps |
| `Ledger.LentIsFlying` | include/boost/mqtt5/impl/async_sender.hpp:236-284 | the shares lent are the operations in flight but for the drift |
| `Theorems.SentInOrder` | include/boost/mqtt5/impl/async_sender.hpp:182-297 | between two effective resends, whatever is cancelled or fails, PUBRELs sent again precede PUBLISHes, both in call order and each at most once, if and only if no packet put back by a malformed acknowledgement was handed over behind one that it should precede |
| `Theorems.OrderExactly` | include/boost/mqtt5/impl/async_sender.hpp:182-297 | in a span that began with no reply posted to a QoS 1 or QoS 2 operation, two throttled packets are out of order if and only if one was handed over of an operation already in flight |
| `Theorems.RepeatsOutOfTurn` | include/boost/mqtt5/impl/async_sender.hpp:266-284 | a throttled packet of an operation in flight is always out of order with the earlier one |
| `Disorder.SentOutOfOrder` | include/boost/mqtt5/impl/publish_send_op.hpp:203-235 | after a malformed PUBACK the client hands its PUBLISH to the transport again behind one of a later call, with no resend in between |
| `Theorems.RunsAreGood` | include/boost/mqtt5/impl/publish_send_op.hpp:164-342 | in every run: DUP exactly when an earlier transmission was reported written; no PUBLISH after an accepted PUBREC and no PUBREL before it; every reply given to an operation was read after the write of its latest packet began; no operation ends twice; QoS 2 succeeds only after an accepted PUBREC |
| `Soundness.AwaitsSoundly` | include/boost/mqtt5/impl/replies.hpp:124-164 | an early reply handed to a waiter is not from before its write |
| `FlowControl.SplitSpends` | include/boost/mqtt5/impl/async_sender.hpp:266-272 | the quota pays for every throttled request taken |
| `FlowControl.SplitRanks` | include/boost/mqtt5/impl/async_sender.hpp:266-284 | of the throttled requests a prefix is taken |
| `FlowControl.SortRises` | include/boost/mqtt5/impl/async_sender.hpp:201-201 | the sorted queue has PUBRELs first and both groups in call order |
| `Flight.BeginsAloft` | include/boost/mqtt5/impl/async_sender.hpp:266-297 | a write keeps every QoS 1 or QoS 2 operation that waits or has a reply in flight, and what was put back is not handed over unless something in flight is |
| `Traffic.HandInPhase` | include/boost/mqtt5/impl/publish_send_op.hpp:146-290 | on each packet id, PUBLISH and PUBREL of successive operations are handed over in order, in every run |
| `Broker.AtMostOnce` | include/boost/mqtt5/impl/publish_send_op.hpp:156-342 | in every run, whatever is lost, cancelled, refused or replied, the broker forwards no message twice |
| `Exchange.NetRetires` | include/boost/mqtt5/impl/publish_send_op.hpp:456-462 | freeing an id is safe when nothing about a PUBLISH on it is outstanding |
| `Exchange.AwaitLink` | include/boost/mqtt5/impl/replies.hpp:115-164 | an early reply given to a QoS 2 operation is its own |
| `ExactlyOnce.PubcompDrains` | include/boost/mqtt5/impl/publish_send_op.hpp:312-342 | after the PUBCOMP of an operation nothing about its PUBLISH is left anywhere |
| `ExactlyOnce.RefusalDrains` | include/boost/mqtt5/impl/publish_send_op.hpp:237-275 | after the refusal of an operation that had sent its PUBLISH once, nothing about it is left anywhere |
| `ExactlyOnce.HeadIsGenuine` | include/boost/mqtt5/impl/replies.hpp:166-183 | a reply read for a waiting operation is never that of an older one with the same id |
| `ExactlyOnce.PublishIsForwarded` | include/boost/mqtt5/impl/publish_send_op.hpp:164-262 | what the broker takes for a duplicate is a copy of the message it has |
| `ExactlyOnce.WorldStepKeeps` | include/boost/mqtt5/impl/assemble_op.hpp:141-146 | every step of client, broker and network keeps the joint invariant |
| `ExactlyOnce.ForwardedExactlyOnce` | include/boost/mqtt5/impl/publish_send_op.hpp:156-342 | at every point of every joint run no message was forwarded twice, and one whose PUBREC was accepted, or whose operation ended in success, has been forwarded |
| `ExactlyOnce.ForwardedIfRefusedOnce` | include/boost/mqtt5/impl/publish_send_op.hpp:156-342 | the same at every point of every joint run, of whatever steps, in which each operation ended by a refusal had handed over its PUBLISH once |
| `Reuse.Seats` | include/boost/mqtt5/detail/control_packet.hpp:153-162 | from every state in which no batch is being told the client can be brought, by a reconnect, completed writes and publish calls, to send a QoS 2 message on any given free packet id |
| `Reuse.WhatIsLeft` | include/boost/mqtt5/impl/publish_send_op.hpp:237-275 | if an id is not drained when its PUBLISH is refused, the broker holds it, or a PUBLISH or another refusal on it is on its way |
| `Reuse.CareIsNeeded` | include/boost/mqtt5/impl/publish_send_op.hpp:237-275 | the converse of exactly once: from every healthy world, a step that acts on a refusal while something about a PUBLISH is outstanding on the id can be continued, with the broker refusing nothing, to a world in which a message sent on that id was accepted, was never forwarded, and is not on its way |
| `Leniency.CareExactly` | include/boost/mqtt5/impl/publish_send_op.hpp:237-275 | a refusal is acted on with nothing else about a PUBLISH outstanding on its id if and only if no continuation in which the broker refuses nothing leads to a message accepted on that id and never forwarded |
| `Leniency.OtherwisePossible` | include/boost/mqtt5/impl/publish_send_op.hpp:237-275 | a step that acts on no refusal needs no care |
| `Leniency.WayStaysGuarded` | include/boost/mqtt5/impl/publish_send_op.hpp:156-342 | while the broker refuses nothing, every continuation keeps the invariant of a packet id on which no refusal is left, whatever becomes of the others |
| `Leniency.FreeUnrefused` | include/boost/mqtt5/impl/replies.hpp:124-164 | a refusal read early for an operation that has ended cannot be taken for that of a later one on the same id |
| `LateRefusal.Resends` | include/boost/mqtt5/impl/assemble_op.hpp:141-146 | a reader that sees `try_again` makes the client send an unanswered PUBLISH again, with DUP, on the connection in use |
| `LateRefusal.AcceptedButNeverForwarded` | include/boost/mqtt5/impl/publish_send_op.hpp:237-275 | a run from the initial state in which a message is accepted although the broker, having dealt with its only PUBLISH, never forwarded it |
| `Receiving.DeliverInbox` | include/boost/mqtt5/impl/publish_rec_op.hpp:189-200 | when a message enters the channel no other operation can deliver it |
| `Receiving.PubrelNoted` | include/boost/mqtt5/impl/publish_rec_op.hpp:142-178 | when a PUBREL is read, the one operation of each message open on its id is the only one that can still deliver it |
| `Receiving.EvictInbox` | include/boost/mqtt5/impl/replies.hpp:118-122 | a newer waiter for the same id displaces the older one |
| `Receiving.ToldInTime` | include/boost/mqtt5/impl/replies.hpp:118-122 | at most one operation is open if the completion of every PUBREC write on the id has been processed, because an older waiter is displaced |
| `Receiving.StepInbox` | include/boost/mqtt5/impl/publish_rec_op.hpp:69-200 | every step, of whatever kind, keeps at most one operation entitled to deliver each message whose PUBREL was read |
| `Receiving.LossesDoNotMatter` | include/boost/mqtt5/impl/publish_rec_op.hpp:149-178 | whatever is lost of packets that never go back, the rest never goes back |
| `Receiving.ReceivedAtMostOnce` | include/boost/mqtt5/impl/publish_rec_op.hpp:123-200 | in every run in which a PUBREL finds at most one operation of each message open on its id, whatever is lost of the broker's packets, no QoS 2 message enters the receive channel twice |
| `Redelivery.DeliveredTwice` | include/boost/mqtt5/impl/publish_rec_op.hpp:123-200 | a run over packets that never go back, with two operations open when the PUBREL is read, in which one message enters the receive channel twice |
| `Duplicates.OnceExactly` | include/boost/mqtt5/impl/publish_rec_op.hpp:123-200 | over packets that never go back: if every PUBREL finds at most one operation of each message open on its id, no message is delivered twice; otherwise the first PUBREL that finds two operations of a message can be repeated until that message has been delivered twice |
| `Duplicates.RepeatsExactly` | include/boost/mqtt5/impl/publish_rec_op.hpp:123-200 | a message can be delivered twice with nothing new read but the PUBREL again if and only if two of its operations were open when the PUBREL was read |
| `Duplicates.TwoOpenRepeat` | include/boost/mqtt5/impl/replies.hpp:115-183 | from every state reached in time, a PUBREL read while two operations of a message are open can be followed by nothing but the same PUBREL, completed writes, PINGREQs and posted completions until both have delivered that message |
| `Owing.TellOwed` | include/boost/mqtt5/impl/replies.hpp:124-164 | a handler told of its write finds an early PUBREL, so neither of two operations that are owed a delivery is displaced, and one that ends has delivered |
| `Owing.PostedOwed` | include/boost/mqtt5/impl/publish_rec_op.hpp:142-178 | running a posted completion, even of a malformed PUBREL, loses neither of them |
| `Varint.ToVariableBytes` | include/boost/mqtt5/impl/codecs/base_encoders.hpp:32-39 | appends the base-128 digits, or nothing above 268435455 |
| `Varint.VariableLength` | include/boost/mqtt5/impl/codecs/base_encoders.hpp:41-46 | is the number of bytes appended |
| `Varint.VarintParser` | include/boost/mqtt5/impl/codecs/base_decoders.hpp:231-262 | the loop computes the recursive decoding, at most four bytes |
| `Varint.Minimal` | include/boost/mqtt5/impl/codecs/base_encoders.hpp:41-46 | a value has at most k bytes exactly when it is below 128^k |
| `Varint.VarintRoundTrip` | include/boost/mqtt5/impl/codecs/base_decoders.hpp:231-262 | every value up to 268435455 is read back before any suffix, from one to four bytes |
| `Varint.StrictPrefixRejected` | include/boost/mqtt5/impl/codecs/base_decoders.hpp:231-262 | no strict prefix of an encoding is accepted |
| `Varint.ParseFromExtends` | include/boost/mqtt5/impl/codecs/base_decoders.hpp:231-262 | more bytes do not change what was read, and four bytes decide |
| `Properties.ValueRoundTrip` | include/boost/mqtt5/impl/codecs/base_decoders.hpp:362-399 | a value of each property type is read back before any suffix |
| `Properties.PairNeedsBoth` | include/boost/mqtt5/impl/codecs/base_decoders.hpp:362-399 | a pair is read exactly when both its strings are |
| `Properties.ListRoundTrip` | include/boost/mqtt5/impl/codecs/base_encoders.hpp:390-425 | lists of any length are read back in order |
| `Properties.PropParser` | include/boost/mqtt5/impl/codecs/base_decoders.hpp:411-449 | the loop computes the specification of the parser |
| `Properties.PropsRoundTrip` | include/boost/mqtt5/impl/codecs/base_encoders.hpp:429-487 | every property record is read back and the parser stops exactly at the suffix; an omitted block is the empty record |
| `Properties.AnyOrder` | include/boost/mqtt5/impl/codecs/base_decoders.hpp:411-449 | entries of any other sender, in any order and number, are read into the record: a repeatable property takes all its values in order, any other the last |
| `Properties.UnknownFails` | include/boost/mqtt5/impl/codecs/base_decoders.hpp:411-449 | behind any such entries, an identifier the packet does not know fails the block |
| `Properties.CutFails` | include/boost/mqtt5/impl/codecs/base_decoders.hpp:362-399 | and so does a value of any type that is cut short |
| `Encoders.SizeLaw` | include/boost/mqtt5/impl/codecs/base_encoders.hpp:100-310 | for every encoder term `byte_size` is the number of bytes `encode` appends |
| `Encoders.RemainingLength` | include/boost/mqtt5/impl/codecs/message_decoders.hpp:32-37 | the header read back from any packet that fits tells exactly how many bytes follow |
| `Packets.PublishRoundTrip` | include/boost/mqtt5/impl/codecs/message_decoders.hpp:141-152 | PUBLISH at every QoS is decoded to its fields |
| `Packets.PublishFlagsBack` | include/boost/mqtt5/impl/codecs/message_encoders.hpp:114-118 | DUP, QoS and RETAIN can be read off the control byte |
| `Packets.SetDupIsEncoding` | include/boost/mqtt5/detail/control_packet.hpp:118-123 | `set_dup` gives byte for byte the packet encoded with DUP |
| `Packets.AckRoundTrip` | include/boost/mqtt5/impl/codecs/message_encoders.hpp:136-230 | PUBACK, PUBREC, PUBREL and PUBCOMP are decoded to their fields, with or without properties |
| `Packets.ShortAcks` | include/boost/mqtt5/impl/codecs/message_decoders.hpp:159-216 | an acknowledgement that ends behind its packet id means success, one that ends behind its reason code has no properties |
| `Packets.EncodeSubscribe` | include/boost/mqtt5/impl/codecs/message_encoders.hpp:232-269 | the two loops write the specified bytes |
| `Packets.SubscribeRoundTrip` | include/boost/mqtt5/impl/codecs/message_decoders.hpp:223-230 | a SUBSCRIBE with any number of topics is decoded to its fields |
| `Packets.OptionsBack` | include/boost/mqtt5/impl/codecs/message_encoders.hpp:258-263 | every subscription option can be read off the packed byte |
| `Packets.ConnectFlagsBack` | include/boost/mqtt5/impl/codecs/message_encoders.hpp:44-51 | every connect flag can be read off the packed byte |
| `Packets.ConnectRoundTrip` | include/boost/mqtt5/impl/codecs/message_decoders.hpp:58-115 | CONNECT, with or without will, user name and password, is decoded to its fields; `Wire.ConnectOnTheWire` says which octets that goes through |
| `Packets.OtherProtocolFails` | include/boost/mqtt5/impl/codecs/message_decoders.hpp:58-76 | a CONNECT of another protocol name or version is not decoded |
| `Wire.VarintOctets` | include/boost/mqtt5/impl/codecs/base_encoders.hpp:32-39 | every length is written in one to four octets of seven bits, least significant first |
| `Wire.ValueOnTheWire` | include/boost/mqtt5/impl/codecs/base_encoders.hpp:123-310 | every property value is written with the most significant octet first, strings behind their length |
| `Wire.ConnectIsNamed` | include/boost/mqtt5/types.hpp:174-281 | the properties of CONNECT and of the will have the identifiers and types of section 2.2.2.2 of MQTT 5.0 |
| `Wire.PublishIsNamed` | include/boost/mqtt5/types.hpp:206-215 | so have those of PUBLISH |
| `Wire.OthersAreNamed` | include/boost/mqtt5/types.hpp:217-242 | so have those of the acknowledgements and of SUBSCRIBE |
| `Wire.PropertiesOnTheWire` | include/boost/mqtt5/property_types.hpp:24-52 | so for every record the block holds each value behind the number of its name |
| `Wire.PublishOnTheWire` | include/boost/mqtt5/impl/codecs/message_encoders.hpp:103-134 | every octet of a PUBLISH |
| `Wire.AckOnTheWire` | include/boost/mqtt5/impl/codecs/message_encoders.hpp:136-230 | every octet of PUBACK, PUBREC, PUBREL and PUBCOMP, the properties left out if there are none |
| `Wire.SubscribeOnTheWire` | include/boost/mqtt5/impl/codecs/message_encoders.hpp:232-269 | every octet of a SUBSCRIBE |
| `Wire.ConnectOnTheWire` | include/boost/mqtt5/impl/codecs/message_encoders.hpp:31-77 | every octet of a CONNECT: 10, the length, 00 04 4d 51 54 54 05, the flags, Keep Alive, properties, client id, will, user name, password |
| `Assembler.Assembler.Perform` | include/boost/mqtt5/impl/assemble_op.hpp:101-134 | compaction keeps the unread bytes; a read is always offered room |
| `Assembler.Assembler.Examine` | include/boost/mqtt5/impl/assemble_op.hpp:152-204 | the bytes at hand are judged as specified and a whole packet is cut off; what is accepted is said by `Assembler.ControlByteDecides` |
| `Assembler.Assembler.Feed` | include/boost/mqtt5/impl/assemble_op.hpp:137-184 | one read and the iterations without a read that follow give the packets of the bytes at hand and end |
| `Assembler.Assembler.Assemble` | include/boost/mqtt5/impl/assemble_op.hpp:101-184 | any stream in any chunks gives the packets of the stream, and a malformed packet is reported at its position in the stream |
| `Assembler.RoomForMore` | include/boost/mqtt5/impl/assemble_op.hpp:166-177 | while more is needed the buffer is not full |
| `Assembler.DecidedStays` | include/boost/mqtt5/impl/assemble_op.hpp:152-183 | more bytes do not change a decision |
| `Assembler.ControlByteDecides` | include/boost/mqtt5/impl/assemble_op.hpp:171-204 | a packet that is at hand to the end comes out if and only if it is within the limit and its control byte is 30 to 3f, 62, or one of 10, 20, 40, 50, 70, 80, 90, a0, b0, c0, d0, e0, f0; otherwise the stream is malformed |
| `Assembler.PrefixNeedsMore` | include/boost/mqtt5/impl/assemble_op.hpp:160-177 | a strict prefix of such a packet makes the assembler read more |
| `Assembler.ChunkingIsIrrelevant` | include/boost/mqtt5/impl/assemble_op.hpp:101-184 | for every stream and every split into reads the same packets come out, and a malformed one is found at the same stream position |
| `Assembler.UsedIsPosition` | include/boost/mqtt5/impl/assemble_op.hpp:137-184 | the position counted is the one at which the unfinished or malformed packet begins |
| `Assembler.PacketsComeBack` | include/boost/mqtt5/impl/assemble_op.hpp:137-184 | packets written one after the other are cut apart again |
| `AsyncMutex.AsyncMutex.Lock` | include/boost/mqtt5/detail/async_mutex.hpp:197-210 | granted at once if free, queued otherwise |
| `AsyncMutex.AsyncMutex.Unlock` | include/boost/mqtt5/detail/async_mutex.hpp:144-154 | the oldest request that was not cancelled is granted; holes are skipped; free exactly if nobody waits |
| `AsyncMutex.AsyncMutex.CancelOne` | include/boost/mqtt5/detail/async_mutex.hpp:83-100 | a waiting request is aborted and leaves a hole; otherwise nothing happens |
| `AsyncMutex.AsyncMutex.CancelAll` | include/boost/mqtt5/detail/async_mutex.hpp:157-173 | exactly those that wait are aborted |
| `AsyncMutex.CompletesExactlyOnce` | include/boost/mqtt5/detail/async_mutex.hpp:83-211 | every request is granted once, aborted once or still waiting, and only one of these |
| `Reconnect.Endpoints.Perform` | include/boost/mqtt5/impl/endpoints.hpp:74-102 | the answers given are the rounds through the list, across all calls |
| `Reconnect.RoundsAreComplete` | include/boost/mqtt5/impl/endpoints.hpp:80-85 | between two back-offs every broker is tried exactly once, in order |
| `Reconnect.Reconnector.OnLocked` | include/boost/mqtt5/impl/reconnect_op.hpp:114-126 | a request whose stream was replaced is told to try again and replaces nothing |
| `Reconnect.Reconnector.OnConnected` | include/boost/mqtt5/impl/reconnect_op.hpp:209-240 | success replaces the stream that was seen to fail |
| `Reconnect.Reconnector.NextEndpoint` | include/boost/mqtt5/impl/reconnect_op.hpp:128-165 | the holder is given the next broker of the list, or a back-off exactly at the end of a round; no broker at all ends with no_recovery |
| `Reconnect.Reconnector.BrokersInRounds` | include/boost/mqtt5/impl/reconnect_op.hpp:147-165 | over the questions of all holders, each round returns every broker once, in order, and then a back-off |
| `Reconnect.Reconnector.Complete` | include/boost/mqtt5/impl/reconnect_op.hpp:243-246 | the mutex passes on, and the request joins the log of those that ended rightly for the stream in use |
| `Reconnect.Reconnector.CancelWaiting` | include/boost/mqtt5/detail/async_mutex.hpp:83-100 | cancelling one waiting request aborts it and changes neither the stream nor the holder |
| `Reconnect.Reconnector.OneReplacementPerStream` | include/boost/mqtt5/impl/reconnect_op.hpp:108-246 | each stream no longer in use was replaced by exactly one request; of the others that had seen it, those that ended later were told to try again, or aborted once the client was closed, and none that ended earlier was told that it was replaced |
| `TopicFilter.PopBack` | include/boost/mqtt5/detail/utf8_mqtt.hpp:24-49 | a well-formed character is consumed whole |
| `TopicFilter.CharMeaning` | include/boost/mqtt5/detail/utf8_mqtt.hpp:51-75 | a character passes if and only if it is legal, non-characters being the last two code points of each plane and U+FDD0 to U+FDEF, and does not end in FE or FF |
| `TopicFilter.ValidateTopicFilter` | include/boost/mqtt5/detail/topic_validation.hpp:47-87 | the loop computes the scan and ends, as a decode that consumes nothing is rejected |
| `TopicFilter.FilterMeaning` | include/boost/mqtt5/detail/topic_validation.hpp:47-87 | for well-formed UTF-8: accepted if and only if it has 1 to 65535 bytes, every level between U+002F is a lone U+002B, a lone U+0023 in last place, or made of legal characters, and no code point ends in FE or FF |
| `TopicFilter.LegalButRejected` | include/boost/mqtt5/detail/utf8_mqtt.hpp:64-71 | the filter that consists of U+00FF is legal and is rejected |
| `TopicFilter.ValidateSharedTopicFilter` | include/boost/mqtt5/detail/topic_validation.hpp:89-115 | the loops compute the specification |
| `TopicFilter.SharedMeaning` | include/boost/mqtt5/detail/topic_validation.hpp:89-115 | of strings of the form `$share/name/filter`, exactly those with a non-empty legal name, a legal filter (or a legal topic name where wildcards are not allowed) and no code point that ends in FE or FF are accepted |
| `TopicFilter.SharedShape` | include/boost/mqtt5/detail/topic_validation.hpp:89-115 | whatever is accepted, with or without wildcards, has that form |

## Where the code and its intent differ

- `validate_mqtt_utf8_char` is meant to exclude non-characters such as U+FFFE, but
  it excludes every code point whose low byte is FE or FF; the model follows the code
  (`TopicFilter.CharOk`). `TopicFilter.CharMeaning` says exactly when the code is
  right, and `TopicFilter.LegalButRejected` has U+00FF as an input on which it is not.
- `pop_front_unichar` keeps one bit too many of the lead byte of four-byte
  characters (`TopicFilter.Seen`); `TopicFilter.SeenIsAsGood` shows that it does not
  change what is accepted.
- `parse_to_prop` parses the second string of a pair even if the first could not be
  parsed (`Properties.ParseValue`); `Properties.PairNeedsBoth` shows that it makes no
  difference, because both are then read from the same bytes.

## Left out

- ExactlyOnce.ForwardedExactlyOnce: a refusal acted on while another copy of the same PUBLISH is outstanding is excluded, as the promise is false there (`Leniency.CareExactly`).
- Receiving.ReceivedAtMostOnce: a PUBREL that finds two operations of one message open is excluded, as the promise is false there (`Duplicates.RepeatsExactly`); the broker appears as the sequence of its QoS 2 packets, which never goes back on a packet id as section 4.3.3 asks; how it decides to send them is not modelled.
- Theorems.ReceiveMaximumIsKept: that the limit is kept is stated for undisturbed spans, as it is false in others (`Surplus.ReceiveMaximumExceeded`); the law for all runs is `Theorems.QuotaLaw`.
- Theorems.OrderExactly: spans that began with a reply posted to a QoS 1 or QoS 2 operation, which may return to the queue without being in flight; `Theorems.SentInOrder` covers them.
- Reuse.CareIsNeeded: the continuation loses packets in the middle of a connection that then goes on.
- Duplicates.TwoOpenRepeat: the continuation repeats the PUBREL at any time, not only after a reconnect.
- Broker.AtMostOnce: the broker keeps its session; a broker that loses it may forward a message again.
- Service.ClientService.Dispatch: the bytes of a reply are represented by the verdict on them (malformed, success, failure).
- Assembler.Assembler.Feed: replies and PINGRESP, which the program dispatches itself, and packets given to the caller are all just emitted.
- Properties.PropParser: a block longer than the input is rejected; the program would read past the end of it.
- Varint.ToVariableBytes: negative arguments, which no caller passes.
- Sockets, TLS, WebSocket, executors, timers and cancellation slots: only their outcomes appear, as steps.
- The CONNECT handshake, AUTH, and the choice of a Receive Maximum: a step carries the session flag and the limit that the CONNACK brought.
- `unsubscribe_op`, which has the shape of `subscribe_op`; PINGREQ and DISCONNECT are requests that nobody waits on.
- The session-expired error in the receive channel, the bounded size of the channel, and receive errors.
- An inbound PUBLISH with both QoS bits set, which leads to a DISCONNECT only.
- Cancelling all operations from inside a handler that is being told of a write.
- A user's completion handler that calls the client in the middle of `resend()` or of an aborted batch: `cancellable_handler::complete` dispatches inline, and the model lets such a call come after the batch.
- The shutdown of the stream that follows a written DISCONNECT: what is handed over after it goes to a stream that is being shut down.
- `exponential_backoff`: how long a back-off lasts.
- Validation of properties and of PUBLISH arguments: a call carries the result of the check.
- CONNACK, SUBACK, UNSUBSCRIBE, UNSUBACK, DISCONNECT and AUTH packets, whose codecs are built from the same parts.
- The parsing of broker lists.
