# goflux: broker, acknowledgement, readiness and codecs

goflux connects typed publishers and subscribers over several transports. This project models the
parts of it whose own code decides hard properties, and proves those properties for all inputs and
all runs.

| files | what they model |
|---|---|
| `Subscriptions.dfy`, `Bus.dfy` | the subject table of the in-process bus: as a value, and as Go slices over backing arrays that are edited in place |
| `Broker.dfy`, `BrokerLaws.dfy`, `Endings.dfy`, `Deliveries.dfy` | the bus with any number of publishing goroutines, channel subscribers and `ToChan` bridges; its laws; what the end of a subscription leaves behind; what happens to the arguments of each call |
| `Backoff.dfy`, `Acks.dfy`, `KeepAlive.dfy` | retry policies, acknowledging middleware with the capability fallbacks, the heartbeat racing the final ack |
| `Retry.dfy`, `Pipe.dfy`, `Redelivery.dfy` | `RetryPublisher`, the pipes, and a JetStream message from its first delivery to its end |
| `Readiness.dfy`, `QueueGroups.dfy`, `Withdrawals.dfy` | subscription readiness over core NATS, what it is worth in queue groups, and what follows a publish or an unsubscribe at a given step |
| `Subjects.dfy`, `Headers.dfy` | the subject builder against splitting and wildcards; header and message-ID propagation over any number of hops |
| `Chains.dfy`, `Core.dfy` | middleware composition and the pipe options; shared values |

## How the model is built

Sequential code that works step by step (slice edits, header maps, option loops, the retry loop, pipe
handlers, ack calls) is written as methods and classes, each proved against a function of its inputs
or old state; the laws are lemmas about those functions. Code whose point is the interleaving of
goroutines (publish and the receive loop, `ToChan`, the heartbeat, NATS readiness, overlapping
redeliveries) is a state machine: `Init`, `Enabled` and `Apply` define the single steps, `IsRun` a
finite run, `InvRun` proves the invariant over all runs, and the main theorems speak about the last
state of an arbitrary run.

What the surroundings decide is a parameter that the theorems quantify over: answers of ackers and
transport publishers, context ends, filter and map results, delivery counts, what a trace propagator
writes. `RecordPublish` and `RecordProcess` call the wrapped function once, so they appear as that call.

## Main results

- The broker loses, duplicates and reorders nothing it accepted; a publish that returned nil reached
  every channel of its snapshot exactly once, one that returned the context's error exactly a proper
  prefix; readiness implies delivery; registration is never blocked by slow consumers.
- At array level, with spare capacity reused, every history of calls leaves each list equal to the
  live channels in order, and no snapshot ever changes.
- `Chain(RetryAck, KeepAlive)` sends heartbeats and then exactly one terminal call in every
  interleaving. Of the sixteen designs obtained by swapping the order, dropping the look at `stopped`,
  the mutex or the call of `stop()`, those that keep the first three as written are the safe ones once
  heartbeats reach the acker at all; `stop()` has no part in it.
- At-least-once from the JetStream consumer through a flat-map pipe over retrying publishers, with
  overlapping deliveries, and the exact condition under which it holds. The publishes are a
  concatenation of one prefix per delivery exactly when no delivery publishes after a later one has.
- Readiness over NATS holds in all runs exactly because of the flush; every published message is routed
  exactly once, and one published after readiness to the callback. In a queue group it is routed to one
  member the server holds, which can be one that has just returned: a live member is certain exactly
  for a call that alone of its group wants the message.
- A publisher that waits at a channel can still be freed exactly when the channel is not dead, and
  accepted means handled at the end of a subscription exactly when its channel is unbuffered.
- Header round trip, subject round trip and wildcard matching, each as an if-and-only-if.

## Where the code does not do what it says or what one might expect

The model follows the code; each point is a lemma.

- `subject/nats/doc.go:26-27` promises a panic for any white space. `validateSegment` rejects only
  space, tab, line feed and carriage return (`Subjects.OtherWhitespaceIsAccepted`). The two agree on a
  segment exactly when it has no other white space, or is empty or has a listed character
  (`Subjects.ValidationAsDocumented`).
- The backoff delay is documented to grow. It never shrinks exactly when the initial delay is not
  negative or the factor is one (`Backoff.DelayMonotoneExactly`).
- `Message.Term` falls back to `Ack` when the acker cannot terminate. In manual mode the server then
  counts a failed message as processed, so at-least-once holds for every pipe exactly in automatic mode
  or with a terminating acker (`Redelivery.AtLeastOnceExactly`). JetStream's own acker can terminate.
- A delivery limit of n bounds the naks of all runs exactly if the acker reports delivery counts and the
  metadata of every delivery from the n-th on can be parsed (`Redelivery.BoundNeedsCounts`).
- `Unsubscribe` is not flushed. After the context of one member of a queue group has ended, the server
  can choose it for a message that was published while another member was ready
  (`QueueGroups.ReturnedMemberChosen`; the exact condition is `QueueGroups.LiveExactly`).
- With overlapping deliveries a slow earlier one can publish after a later one
  (`Redelivery.OverlapBreaksOrder`; the exact condition is `Redelivery.ConcatenationExactly`).
- Automatic acknowledgement together with `RetryAck` or `AutoAck`, or a handler that settles by itself
  as well, sends more than one terminal signal (`Acks.ExactlyOneTerminal` gives the exact condition).
- `Publish` on the channel bus is documented to deliver to every registered subscriber. A nil result
  means accepted: the message can stay in the buffer of a subscription that ends, for good
  (`Endings.AcceptedNotHandled`). This cannot happen exactly for a buffer size of zero
  (`Endings.HandledExactly`).
- A publisher that is at the full channel of a subscription whose loop has ended waits until its own
  context ends (`Endings.DeadChannelHolds`, `Endings.StuckReachable`). At every other channel it can
  still be freed (`Endings.FreedExactly`).
- A propagator that writes keys with the prefix `X-Goflux-` changes the header; the round trip holds
  exactly when it does not (`Headers.RoundTripExactly`).

## Model

| member | source | states |
|---|---|---|
| Backoff.Configure | middleware/retryack.go:85-88 | the option loop of the backoff policy computes the folded configuration, whose factor is at least one for every option list |
| Backoff.LastFactorWins | middleware/retryack.go:60-66 | the factor is that of the last option with a factor of at least one, and two if there is none |
| Backoff.LastLimitWins | middleware/retryack.go:71-73 | the delivery limit is that of the last option that sets it, and absent if there is none |
| Backoff.FactorAtLeastOne | middleware/retryack.go:60-66 | factors below one are ignored, so none can be configured |
| Backoff.DelayCapped | middleware/retryack.go:101-104 | the delay never exceeds maxDelay, whatever the signs of the settings |
| Backoff.DelayBounds | middleware/retryack.go:99-104 | the delay lies between the smaller of the two settings and maxDelay and never above the uncapped value |
| Backoff.DelayBelowPower | middleware/retryack.go:75-80 | for the n-th delivery the delay is at most initial times factor to the power n-1 |
| Backoff.DelayExact | middleware/retryack.go:99-104 | for the n-th delivery the delay is exactly initial times factor to the power n-1, rounded down, while that is below maxDelay, and maxDelay from there on |
| Backoff.PowAdds | middleware/retryack.go:102 | the power used is exponentiation: one at zero, the factor at one, and exponents add up |
| Backoff.DelayMonotone | middleware/retryack.go:99-104 | the delay never shrinks as the delivery count grows |
| Backoff.DelayMonotoneExactly | middleware/retryack.go:84-108 | over all option lists, the delay never shrinks if and only if initial is not negative or the factor is one |
| Backoff.NegativeInitialFalls | middleware/retryack.go:99-104 | with a negative initial delay and a growing factor the delay falls below every bound |
| Backoff.DelaySaturates | middleware/retryack.go:99-104 | with factor above one and positive initial there is a delivery from which on the delay is exactly maxDelay |
| Backoff.TotalDelayFlat | middleware/retryack.go:99-106 | the delays of the first m deliveries sum to at most m times maxDelay |
| Backoff.TotalDelayGeometric | middleware/retryack.go:99-106 | and to at most the geometric sum of the uncapped delays |
| Acks.Dispatch | message.go:47-112 | nothing is sent only for InProgress without the capability; a fallback never turns a terminal call into a heartbeat or back |
| Acks.Message.Invoke | message.go:47-112 | each message method changes the acker's log and returns as the specification says, for a nil acker and all capability combinations |
| Acks.UnknownCountIsFirst | message.go:89-97 | without delivery metadata the backoff policy takes every delivery for the first: the delay is the capped initial one and the limit has no effect, whatever the true count |
| Acks.SettleByPolicy | middleware/retryack.go:144-190 | what RetryAck sends and returns after the handler: the handler's error wins, an ack error is returned only after success |
| Acks.SettleByError | middleware/autoack.go:12-29 | what AutoAck sends and returns after the handler |
| Acks.Handle | middleware/retryack.go:144-190 | any stack of acknowledging middleware around any handler leaves the log and error of its specification |
| Acks.OnDelivery | transport/jetstream/subscriber.go:69-126 | the consume callback in both modes, with decode failure, handler failure and success |
| Acks.HandlerTerminals | middleware/retryack.go:144-190 | a stack sends one terminal call per acknowledging layer plus the handler's own, under every capability set and every ack error |
| Acks.ExactlyOneTerminal | transport/jetstream/subscriber.go:69-126 | a delivery gets exactly one terminal signal if and only if it does not decode, or the handler's own signals, the layers and the automatic one add up to one |
| Acks.HandlerErrorWins | middleware/retryack.go:144-190 | a handler's error is returned whatever the acker answers; after success only an answer of the acker can be |
| Acks.NoAckerPassesThrough | middleware/retryack.go:147-149 | without an acker nothing is sent and the handler's error is returned unchanged |
| Acks.AutoAckSignal | middleware/autoack.go:12-29 | AutoAck around a handler that does not settle appends exactly Ack after success and exactly Nak after an error, and returns the handler's error or else the acker's answer |
| Acks.RetryAckSignal | middleware/retryack.go:144-190 | for every policy and acker: Ack after success, else the method of the decision for the error and the reported count, or its fallback; and which error is returned |
| Acks.FallbackTable | message.go:65-112 | a call the acker has is made as it is; NakWithDelay falls back to Nak, Term to Ack, InProgress to nothing |
| Acks.OnlyAllowedCalls | message.go:65-112 | no stack of middleware around any handler calls an optional method that the acker lacks |
| Acks.OwnCallsArrive | message.go:47-112 | an acker with all capabilities gets the handler's own calls one by one, in order |
| Acks.TheTerminalSignal | transport/jetstream/subscriber.go:69-126 | which signal a delivery gets: Term when it does not decode, Ack or Nak in automatic mode, Ack, Term or the fixed delay under the fixed policy |
| Acks.TheBackoffSignal | middleware/retryack.go:90-107 | which signal a delivery gets under the backoff policy: Ack for success, Term exactly for non-retryable errors and from the limit on, else a bounded delay |
| KeepAlive.InvStep | middleware/keepalive.go:22-60 | every step of either goroutine keeps the invariant that ties the mutex, `stopped` and the log together |
| KeepAlive.InvRun | middleware/keepalive.go:22-60 | the invariant holds in every run |
| KeepAlive.AckTrace | middleware/keepalive.go:27-59 | in every interleaving the acker sees heartbeats only until the handler's goroutine is done, then exactly the one call its result asks for and nothing after it |
| KeepAlive.HeartbeatsSent | middleware/keepalive.go:34-50 | for every n there is a run with n heartbeats while the handler runs |
| KeepAlive.CanBeatAgain | middleware/keepalive.go:38-48 | from every reachable state in which the handler runs and the context is live, one more heartbeat can be sent |
| KeepAlive.SignalFollows | middleware/keepalive.go:52-59 | after n heartbeats, for every result of the handler, the run goes on to the one signal that RetryAck gives it, and stop() has been called |
| KeepAlive.QuitsWhenCancelled | middleware/keepalive.go:39-41 | the heartbeat's goroutine ends only after its context has |
| KeepAlive.ContextEndsHeartbeat | middleware/keepalive.go:34-41 | the end of the outer context ends the heartbeat while the handler still runs |
| KeepAlive.BothFinish | middleware/keepalive.go:52-59 | from every reachable state both goroutines can go on to their ends |
| KeepAlive.LateBeatInside | middleware/keepalive.go:17-18 | with RetryAck inside KeepAlive a run exists in which a heartbeat follows the ack |
| KeepAlive.LateBeatUnchecked | middleware/keepalive.go:44-46 | `stop()` alone does not keep a pending tick from beating after the ack |
| KeepAlive.LateBeatUnlocked | middleware/keepalive.go:43-47 | without the mutex a heartbeat can follow the ack although `stopped` is looked at |
| KeepAlive.SafeExactly | middleware/keepalive.go:17-62 | all runs of a design are safe if and only if RetryAck is outside, `stopped` is looked at and the mutex is taken, whether or not stop() is called, or heartbeats never reach the acker |
| Retry.Publish | retrypublisher.go:66-93 | the loop, over an inner publisher that may itself retry, makes the calls, backoff calls and result of the recursive specification; on success the value was sent once, on failure not at all |
| Retry.Limit | retrypublisher.go:36-38 | at least one attempt is made whatever is configured |
| Retry.CallsBounded | retrypublisher.go:26-35 | nested retries make between one and the product of the bounds many calls, and all of them when a retried error answers every call and no context ends |
| Retry.AttemptsMade | retrypublisher.go:36-38 | against an error that keeps coming back exactly maxAttempts calls are made, one if that is below one |
| Retry.SucceedsOnce | retrypublisher.go:69-73 | nil is returned exactly when the last call succeeded, and every earlier call had failed |
| Retry.BackoffsCountUp | retrypublisher.go:8-10 | backoff is asked for 0, 1, 2, ... in order and fewer times than the bound |
| Retry.BackoffsMatchCalls | retrypublisher.go:83-89 | one retry publisher asks backoff once less than it calls its publisher, and once more exactly when the last wait is cut short by the context |
| Retry.LoopMeetsAccount | retrypublisher.go:66-93 | number of calls and result are the only ones that fit an account stated without the loop: which calls failed, were retryable, were waited for, and how the last one ended |
| Pipe.FlatMap | pipe/pipe.go:106-142 | the flat-map handler: filter, expansion error, ordered publishing with early exit, one dead-letter observation per failure |
| Pipe.Map | pipe/pipe.go:60-92 | the map handler as a flat map onto one item, with its own error text |
| Pipe.Forward | pipe/pipe.go:25-47 | the forwarding handler as a flat map onto the payload |
| Pipe.PublishesPrefix | pipe/pipe.go:128-137 | what was published is a prefix of the items, all of them exactly when nil is returned |
| Pipe.NilMeansComplete | pipe/pipe.go:106-142 | nil exactly when filtered out or expanded and published completely; every error is observed exactly once |
| Pipe.PublishError | pipe/pipe.go:128-136 | the error returned is that of the call for the first item not published, unchanged, and no call follows it |
| Pipe.OneCallPerItem | pipe/pipe.go:128-136 | over an unretried transport there is one call per item up to the first failure, whose answer is returned |
| Pipe.ExpansionError | pipe/pipe.go:116-124 | a failed expansion comes back prefixed, retryable exactly if it was before, and nothing is published |
| Redelivery.SignalOfCallback | transport/jetstream/subscriber.go:69-126 | the settling call used by the state machine is the one that the modelled callback makes |
| Redelivery.InvRun | transport/jetstream/subscriber.go:69-126 | the invariant of the redelivery machine over all runs with overlapping deliveries and lost signals |
| Redelivery.AtMostOncePerDelivery | pipe/pipe.go:99-102 | at any moment each delivery has published a prefix of its items, each at most once and in order |
| Redelivery.AtLeastOnce | transport/jetstream/subscriber.go:98-125 | a message that ends acked had a delivery that decoded it and, unless filtered out, published the whole of a successful expansion |
| Redelivery.FallbackAcks | message.go:99-112 | with manual ack and an acker that cannot terminate, a run exists that ends acked with nothing published |
| Redelivery.AtLeastOnceExactly | message.go:99-112 | acked means published for every policy, pipe and run if and only if acknowledgement is automatic or the acker can terminate |
| Redelivery.SignalEnds | message.go:99-101 | after an Ack or Term that was not lost no continuation delivers the message again, and it stays acked or terminated |
| Redelivery.ComesBack | message.go:55-57 | after a nak or any lost signal a pending message can be delivered again, under any higher count |
| Redelivery.CanEndAcked | transport/jetstream/subscriber.go:98-125 | from every reachable state a pending message can end acked by a delivery that decodes and handles it without error |
| Redelivery.ConcatenationExactly | pipe/pipe.go:126-141 | in every run, whatever overlaps or hangs, the log is the concatenation of one prefix of the items per delivery if and only if no delivery publishes after a later one has |
| Redelivery.AckedPiece | pipe/pipe.go:126-141 | if the message ends acked, the acked delivery's piece is its whole plan, which is every item of an accepted message where Term and Ack are kept apart, and in an ordered log to which no later delivery published it is the last piece |
| Redelivery.LatestPublishesInOrder | pipe/pipe.go:128-137 | the log is ordered in every run in which only the latest delivery publishes, however many earlier ones hang or settle late |
| Redelivery.OneAtATimeInOrder | pipe/pipe.go:128-137 | without overlap the log is ordered and the acked delivery is the latest one |
| Redelivery.OverlapBreaksOrder | pipe/pipe.go:128-137 | a run in which a slow first delivery publishes after the second one |
| Redelivery.BoundedRetries | middleware/retryack.go:90-107 | with a limit of n only deliveries before the n-th or without a count are nak'd in any run, so at most n-1 when all from the n-th on are counted, and a counted failure from there on gets Term, or Ack from an acker that cannot terminate |
| Redelivery.ReplyNeedsCounts | middleware/retryack.go:68-73 | no failure from the limit on is nak'd if and only if the acker reports delivery counts |
| Redelivery.UnboundedNaks | middleware/retryack.go:68-73 | without delivery counts, for every n a run naks one message n times, whatever the limit |
| Redelivery.BoundNeedsCounts | transport/jetstream/acker.go:22-34 | in all runs of all pipes the naks stay below the limit n if and only if the acker reports counts and the metadata of every delivery from the n-th on can be parsed |
| Subscriptions.ReplayIsLive | transport/channel/bus.go:23-41 | after any history each subject's list is its live channels, oldest first |
| Subscriptions.LiveDistinct | transport/channel/bus.go:23-41 | no channel is listed twice |
| Bus.Append | transport/channel/bus.go:27 | append at array level, in place with spare capacity or into a new array: the new slice shows one more element, the old one is unchanged |
| Bus.RemoveAt | transport/channel/bus.go:37 | the in-place removal shows the list without the element; the old header shows the shifted list and a stale last entry |
| Bus.Bus.Subscribe | transport/channel/bus.go:23-28 | the lists change as Add says, at array level with arrays never shared between subjects |
| Bus.Bus.Unsubscribe | transport/channel/bus.go:30-41 | the lists change as Remove says, the first occurrence only, nothing for an unknown channel; and what a header read earlier shows afterwards |
| Bus.Bus.Snapshot | transport/channel/bus.go:47-51 | a fresh array with exactly the subject's list |
| Bus.Publish | transport/channel/bus.go:46-62 | for one goroutine: nil exactly when the whole list accepted, else the context's error after exactly the channels before the cancelled one |
| Bus.History | transport/channel/bus.go:23-51 | after any sequence of calls the lists are those of the edits and every earlier snapshot still shows the list of its time |
| Bus.TakenAt | transport/channel/bus.go:47-51 | each snapshot call of a history has its own entry, in order: the channels live at that call, oldest first |
| Bus.EditsConcat | transport/channel/bus.go:23-41 | the edits of a history are its subscribe and unsubscribe calls, in order |
| Broker.LocalKeepsCell | transport/channel/subscriber.go:60-92 | every local step of a subscription or bridge keeps conservation, the bounds, the ready count and close safety |
| Broker.InvStep | transport/channel/bus.go:23-62 | every step of every goroutine keeps the broker invariant |
| Broker.InvRun | transport/channel/bus.go:23-62 | the broker invariant holds in every run |
| BrokerLaws.Conservation | transport/channel/subscriber.go:76-91 | accepted equals handled, then at most one message in hand, then the buffer, which never exceeds its size |
| BrokerLaws.SendersKeepOrder | transport/channel/bus.go:53-61 | the messages of one goroutine reach each channel in the order of its calls |
| BrokerLaws.ListsAreLive | transport/channel/bus.go:23-41 | a list holds exactly the registered channels, each once, in order; from ready() to deregistration the subscription is among them |
| BrokerLaws.PublishOutcome | transport/channel/bus.go:46-62 | nil: every channel of the snapshot accepted exactly once and no other; context error: exactly a proper prefix did |
| BrokerLaws.SnapshotIsList | transport/channel/bus.go:47-51 | although copied step by step, the snapshot is the list at the end of the copy |
| BrokerLaws.ReadyMeansDelivered | transport/channel/subscriber.go:61-74 | a subscription between ready() and deregistration at the snapshot accepted the message exactly once if the publish returned nil |
| Deliveries.PublishReaches | transport/channel/publisher.go:22-29 | over all runs, for the step that begins Publish(subject, payload): once returned, the payload was accepted exactly once by the channels in a prefix of that subject's list at the end of the copy and by no channel of another subject; nil exactly if that is the whole list, and then by every subscription for the subject between ready() and deregistration |
| Deliveries.MadeAs | transport/channel/subscriber.go:60-65 | in every run a subscription keeps the subject, buffer size and bridge size it was made with |
| Deliveries.CancelEndsCall | transport/channel/bus.go:56-57 | cancelling its context ends a waiting publish with the context's error and changes no channel |
| BrokerLaws.WaitsOnlyForChannel | transport/channel/bus.go:53-59 | a publisher is stopped if and only if its context is live and its channel is full without a ready receiver, and it holds no lock then |
| BrokerLaws.RegistrationProceeds | transport/channel/bus.go:43-62 | from every reachable state a registration or deregistration completes by mutex steps alone while no channel moves |
| BrokerLaws.AnnouncedWriterIsNext | transport/channel/bus.go:23-32 | once a subscribe or unsubscribe has announced itself to the mutex no step adds to the copying it waits for, every mutex step lessens it, and when none is left it goes in |
| Endings.DeadChannelHolds | transport/channel/subscriber.go:69-90 | a publisher at a full channel whose receive loop has ended does not move until its own context ends |
| Endings.StuckReachable | transport/channel/bus.go:53-59 | for every buffer size a run leads to such a publisher |
| Endings.FreedExactly | transport/channel/bus.go:53-59 | from every reachable state a publisher at a channel, its context staying live, can be made to move if and only if the receive loop has not ended or the buffer has room |
| BrokerLaws.BridgeQueues | tochan.go:20-36 | until cancellation taken, output buffer, in hand and bus buffer make up accepted, in order; afterwards the order is kept; no send on a closed channel |
| BrokerLaws.SubsequenceEmbeds | tochan.go:23-31 | what a cancelled bridge passed on stands in the handled log at ascending places |
| Deliveries.BridgePasses | tochan.go:20-31 | for every buffer size and every size given to ToChan there is a run in which a published message is taken from the output |
| Deliveries.BridgePassesAndCloses | tochan.go:20-36 | and one that goes on to close the output exactly once |
| BrokerLaws.CloseIsLast | tochan.go:24 | the output channel is closed only after the receive loop has returned; from that return on nothing is handled and the buffer only keeps or gains messages |
| BrokerLaws.BridgeCloses | tochan.go:9-11 | a cancelled bridge can always go on to close its output exactly once, although the consumer takes nothing more |
| Endings.EndIsFinal | transport/channel/subscriber.go:69-90 | in every continuation an ended subscription stays ended and handles nothing more |
| Endings.AcceptedNotHandled | transport/channel/publisher.go:22-29 | for every buffer size above zero there is a run in which a publish returned nil and no continuation handles its message, although the subscription was ready at the snapshot |
| Endings.HandledExactly | transport/channel/subscriber.go:61-91 | in all runs every ended subscription has handled all it accepted if and only if its buffer size is zero |
| Readiness.InvStep | transport/nats/subscriber.go:95-127 | every step keeps the invariant on frames, pongs, server subscriptions and ready counts |
| Readiness.InvRun | transport/nats/subscriber.go:95-127 | the readiness invariant holds in every run |
| Readiness.ReadyAtMostOnce | transport/nats/responder.go:54-58 | ready fires exactly once for a call that serves or has served, and never when subscribing or the flush failed |
| Readiness.ReturnedIsFinal | transport/nats/responder.go:57-58 | after the return nothing happens to the call any more, so ready is never called late |
| Readiness.ConservedRun | transport/nats/subscriber.go:95-127 | in every run each published message is on exactly one connection, once and unrouted, or on none and routed exactly once |
| Readiness.PublishAfterReadyArrives | transport/nats/subscriber.go:110-123 | a message issued after ready that waits on no connection any more has one route, to the callback, or to exactly one member of its queue group that the server holds, unless the call ended before the server got to it |
| Readiness.CanArrive | transport/nats/subscriber.go:110-123 | from every reachable state the server can get to such a message without any call moving, and then it has arrived in that sense |
| QueueGroups.ArrivesIfAlone | transport/nats/subscriber.go:100-104 | a call without queue group, or alone in its group in wanting the message, gets it itself unless it has returned |
| QueueGroups.ArrivesUnlessMemberLeft | transport/nats/subscriber.go:100-101 | in any group a call that has not returned gets the message, as long as no other member had returned when the server chose |
| QueueGroups.CanArriveLive | transport/nats/subscriber.go:110-123 | from every reachable state the server can get to the message for such a lone call, and then a call that has not returned has it |
| QueueGroups.ReturnedMemberChosen | transport/nats/subscriber.go:125-127 | with the flush, a run in which a message published while one member serves is routed only to another one that has returned, its UNSUB still in the write buffer |
| QueueGroups.LiveExactly | transport/nats/subscriber.go:95-127 | over all runs, a message published while a call serves reaches a call that has not returned if and only if the call has no queue group or no other call of its group wants the message |
| Readiness.DomainSubscriptionArrives | subject/nats/doc.go:18-22 | the same for a subscription on Domain.All and an event built below that domain |
| Withdrawals.PublishedWhileServing | transport/nats/subscriber.go:110-125 | a message published at a step at which a call serves, once on no connection any more, has one route, which reaches the call if it has not returned since |
| Withdrawals.ErrorPaths | transport/nats/subscriber.go:106-121 | both error returns exist, without ready: nothing written when subscribing fails, the UNSUB after SUB and PING when the flush fails |
| Withdrawals.CanBeWithdrawn | transport/nats/subscriber.go:125-127 | from every state after a call has unsubscribed the server can get to no longer hold it, without any call moving |
| Withdrawals.WithdrawnForGood | transport/nats/subscriber.go:125-127 | once that is so it stays so, and no later route contains the call |
| Readiness.ReadinessNeedsFlush | transport/nats/subscriber.go:46-49 | in all runs a ready call is held by the server if and only if calls flush first |
| Readiness.LosingRun | transport/nats/subscriber.go:110-117 | without the flush a message published on another connection after ready reaches nobody |
| Subjects.SplitJoin | subject/nats/subject.go:17-23 | splitting joined dot-free segments gives them back |
| Subjects.JoinSplit | subject/nats/subject.go:22 | joining the tokens of any string gives it back |
| Subjects.DomainTokens | subject/nats/domain.go:20-26 | a domain is built exactly from valid segments, and its string splits into the prefix segments and the domain, also without prefix |
| Subjects.EntityTokens | subject/nats/entity.go:11-13 | the same for an entity |
| Subjects.EventTokens | subject/nats/event.go:11-13 | the same for an event |
| Subjects.JoinNonEmpty | subject/nats/subject.go:17-23 | the prefix is empty exactly when no segments were given |
| Subjects.BuildingIsInjective | subject/nats/event.go:11-13 | the event string determines every segment and how many prefix segments there are |
| Subjects.NewDomainIsShortcut | subject/nats/domain.go:10-17 | NewDomain equals New without segments followed by Domain, panics included |
| Subjects.DomainAllExact | subject/nats/domain.go:28-32 | Domain.All matches a subject if and only if its tokens strictly extend those of the domain |
| Subjects.EntityAllExact | subject/nats/entity.go:15-19 | Entity.All matches a subject if and only if its tokens strictly extend those of the entity |
| Subjects.EventMatchesItself | subject/nats/event.go:11-13 | the subject of a built event, as a subscription, matches that subject and no other |
| Subjects.EventBelowDomain | subject/nats/domain.go:28-32 | a built event is matched by exactly the domains above it |
| Subjects.PatternsOverlap | subject/nats/domain.go:28-32 | two All patterns have a common subject if and only if one path's tokens are a prefix of the other's |
| Subjects.DomainPatternsOverlap | subject/nats/domain.go:28-32 | the same for two built domains |
| Subjects.OtherWhitespaceIsAccepted | subject/nats/validate.go:8-18 | a vertical tab and a no-break space are accepted against the documentation |
| Subjects.ValidationAsDocumented | subject/nats/validate.go:8-18 | for every string validation and documentation agree if and only if it has no white space outside the four listed characters, or is empty or has a listed character |
| Subjects.WronglyAccepted | subject/nats/validate.go:8-18 | a string is accepted against the documentation if and only if it has other white space and no listed character |
| Headers.EditsLeave | header.go:9-29 | after any sequence of Set, Add and Del a key has exactly the values given to it since it was last set or deleted, other keys' edits do not show, Get returns the first value or nothing, and presence is settled both ways |
| Headers.Perform | header.go:16-29 | the methods, called in any sequence, leave the map that EditsLeave speaks about |
| Headers.Clone | header.go:32-43 | a deep copy: same keys and contents, fresh arrays shared with nobody, nil for nil |
| Headers.BuildWire | transport/nats/publisher.go:45-61 | the wire header for every order in which the header map is ranged over |
| Headers.WireFormat | transport/nats/publisher.go:51-61 | each header key is on the wire with all its values under X-Goflux- and the key, the message ID under X-Message-ID |
| Headers.TraceArrives | transport/nats/publisher.go:49 | the propagator's own keys are on the wire with the value set last, undisturbed by the message ID and the header |
| Headers.AddHeader | transport/nats/publisher.go:55-61 | the nested loops add each key's values under its prefixed key and change no other |
| Headers.Extract | transport/nats/carrier.go:13-27 | what is extracted for every order of the range, nil if there is nothing |
| Headers.RoundTripClean | transport/nats/carrier.go:11-27 | extraction returns the published header without its empty value lists, whatever the message ID |
| Headers.RoundTripExactly | transport/nats/carrier.go:11-27 | this holds if and only if the propagator writes no prefixed key |
| Headers.PollutedKey | transport/nats/publisher.go:49 | a prefixed propagator key shows up in the extracted header |
| Headers.IdArrives | transport/nats/subscriber.go:68-71 | a non-empty message ID arrives whatever the propagator and the header write |
| Headers.HopsPreserve | pipe/pipe.go:35-37 | through any chain of subscriber, forwarding pipe and publisher the header keeps its one-hop value and a non-empty ID is unchanged |
| Headers.HopsExactly | pipe/pipe.go:35-37 | over any number of hops the header arrives as published, less its empty value lists, if and only if every propagator on the way stays out of the prefix |
| Headers.HopsCarryId | transport/nats/subscriber.go:68-71 | with an empty first ID the first one that a stage supplies is carried on |
| Chains.Chain | middleware.go:15-23 | the backward loop yields the outermost of the handlers that start at next, each being its middleware applied to the one behind it; this is right-nested application |
| Chains.NestWraps | middleware.go:13-14 | such a sequence of handlers exists for every list, and its outermost one is the nested application |
| Chains.NestConcat | middleware.go:13-23 | Chain(xs ++ ys) is Chain(xs) after Chain(ys) |
| Chains.NewConfig | pipe/option.go:58-65 | the options fold into the last filter, the last observer and all middleware in order |
| Chains.LastFilterWins | pipe/option.go:39-43 | the filter is the argument of the last WithFilter option, and absent without one |
| Chains.LastObserverWins | pipe/option.go:45-49 | the observer is the argument of the last WithDeadLetter option, and absent without one |
| Chains.CollectedAt | pipe/option.go:51-56 | the middleware of each option stands between that of the options before and after it |
| Chains.ApplyMiddleware | pipe/pipe.go:147-154 | the shortcut for no middleware gives the same as the chain, the outermost of the wrapping handlers |
| Chains.NewPipe | pipe/pipe.go:22-50 | a pipe is its core handler, each collected middleware applied around it in turn |
| Chains.CollectedConcat | pipe/option.go:54-65 | option lists can be split anywhere: middleware adds up and the later filter and observer win |
| Chains.SplitDoesNotMatter | pipe/option.go:51-56 | any split of middleware over several options, between any other options, gives the pipe of one option with the flattened list |

## Left out

- Telemetry: spans, metrics, attributes, log lines and the lag gauge; recording only wraps one call.
- The HTTP transport: its plumbing lies in libraries, and field names lose their case there, so the exact header round trip is stated for NATS only.
- Codecs: a decoder either succeeds or fails; a failed encode in a publisher appears as a failed publish.
- The NATS client and the servers beyond the facts used: frames of a connection are processed in order, a pong answers its ping, a delivery count only grows, nothing acked or terminated is delivered again. Reconnects, wire encoding and delivery inside the client are not modelled.
- Backoff.DelayBounds: the reals replace float64, so rounding, infinities and NaN are not modelled. With initial zero and a count so large that the power overflows, the float product is NaN and the code returns maxDelay, above the uncapped value; the model computes zero. A bound below initial is only claimed for a non-negative initial delay.
- Backoff.DelayBelowPower: the same case of initial zero and an overflowing power is not modelled.
- Backoff.NegativeInitialFalls: durations are unbounded integers here; in the code the fall ends where the conversion to a 64-bit duration overflows.
- Backoff.TotalDelayGeometric: stated with the division by factor minus one multiplied out, so that it also covers a factor of one; the case of initial zero and an overflowing power is not modelled here either.
- Wall-clock time: timers and tickers may fire at any step, so how long a wait or a redelivery takes is not modelled.
- Bus.Publish: one goroutine with an oracle for its selects; the interleaving with other goroutines is in Broker, which has no method form for publish, SubscribeWithReady, ToChan or KeepAlive.
- BrokerLaws.BridgeCloses: says that the close stays reachable; that the scheduler gets there is a fairness assumption that is not modelled.
- BrokerLaws.RegistrationProceeds: says that completion stays reachable; AnnouncedWriterIsNext adds that nothing but the copies under way can delay it, and that the goroutines copying are scheduled is a fairness assumption that is not modelled.
- BrokerLaws.ReadyMeansDelivered: the window is looked at when the copy of the snapshot ends; the list cannot change during the copy.
- Readiness.PublishAfterReadyArrives: ends at the server's routing decision, which in a queue group can fall on a member that has returned (QueueGroups states when it cannot); what the client does with a delivered frame, and a connection that is lost with frames on it, are outside.
- Readiness.CanArrive: the same meaning of arrival as PublishAfterReadyArrives.
- Readiness.DomainSubscriptionArrives: the same meaning of arrival as PublishAfterReadyArrives.
- Headers.HopsPreserve: stages are forwarding pipes without middleware that changes the context.
- Headers.EditsLeave: value lists are values here, so spare capacity shared between two header maps is not modelled; Clone is modelled on arrays.
- `Subscriber.Len` and the field behind it, which tracks only one of several overlapping subscriptions.
- KeepAlive without an acker or with a non-positive interval, where it only calls the next handler.
- `ToChan` over the NATS, JetStream and HTTP transports, whose callbacks run on goroutines that the code does not join.
- The reply path of the NATS responder; its subscription follows the same steps as the subscriber's and is covered by Readiness.
- Handler panics.
- The goflow bridge, the bound publisher and subscriber wrappers, `Topic`, error sentinels and option builders of the transports: they delegate.
