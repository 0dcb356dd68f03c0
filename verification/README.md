# Verification of the message-queue wrappers

The repository wraps six message-queue SDKs for Go programs. The SDK calls themselves are thin; the
code around them is hand-written concurrency: bounded queues between callers and a background sender,
retry loops, atomic flags, and shutdowns in several phases. This project models that code and proves
what it promises about the messages that pass through it, over every interleaving of its goroutines.

## How the model is built

Each protocol has two forms, tied together.

* A *machine*: a `State`, an `Event` per atomic action of a goroutine (every load or store of an atomic,
  every queue operation, every SDK call is one of its own) and a total `Step`. An event whose goroutine is
  not at the point the event names leaves the state alone, so the theorems, which quantify over all event
  sequences, quantify over all interleavings. SDK answers, link changes, timers, cancellations, session
  ends and the calls of other goroutines are events too, hence arbitrary.
* A *class* in the form of the source: fields updated in place and the goroutines' loops written out as the
  source writes them. `Valid()` ties the fields to the machine's state. One goroutine is in the foreground; before
  each of its atomic steps `Yield` lets the others take the steps that a fixed schedule gives them, and the schedule
  also holds the SDK's answers. A `...Trace` module says, as a function of the schedule, where the machine is after k
  steps of that goroutine; `OnTrack()` says the object is exactly there after `clock` steps. Every method keeps it, so a
  loop that skips, swaps or invents a step does not verify. A loop ends only when its goroutine does, or when `clock` has
  reached the `horizon` up to which it is observed; schedule and horizon are constants of the object and arbitrary. A trace
  is a run (`TraceIsRun`), so what is proved of runs holds along every loop; the loops' postconditions draw those
  conclusions, and bound the steps to the end once the goroutine must end.

| files | what they model |
|---|---|
| `Machine`, `Channel` | runs and traces of a machine; the one-slot, at-least-once FIFO channel the pipes are measured against |
| `DrainPipe`, `DrainPipeTheorems`, `PipeTrace`, `PipeClient` | the retrying drain pipe of the MQTT, NATS core, JetStream, RabbitMQ and RocketMQ publishers, one machine with five exit policies |
| `KafkaConsumer`, `KafkaConsumerTheorems`, `KafkaTrace`, `KafkaGroup` | the consumer group: claim loops, dispatch worker, `Ack`, sessions, cancellation, shutdown |
| `KafkaProducer`, `ProducerTrace`, `KafkaAsyncProducer` | the producer that drops nothing, its status reader and `Close` |
| `RedisPublisher`, `RedisTheorems`, `RedisTrace`, `RedisClient` | reconnecting publisher with its two-flag handshake and bounded drain |
| `NatsStart`, `NatsStarter` | `Start` with its compare-and-swap and rollback, under concurrent calls |
| `RabbitConsumer`, `RabbitTrace`, `RabbitSubscriber` | in-flight handler accounting between deliveries and `Close` |
| `TopicOffsets` | offset resolution and the resets of the first session |
| `SliceRemoval` | deletion from a slice while ranging over it, with the shared backing array |

The queue (`LockedRingBuffer`, from a library that is not part of this model) is represented by what its
callers rely on: a FIFO with a closed flag; blocking `DequeueTo` answers 0 only when it is closed and empty;
the `Try` forms answer a count and whether the queue is open; fullness is left open, and a message counts as
accepted only when `Enqueue` answers true. A failed send may have reached the broker.

## What was found

* **Kafka shutdown can strand marked messages.** The shutdown commits the positions of everything that was
  enqueued (the comment at `kafkamq/sub.go:228-229`) and then waits for the dispatch worker. The worker, however,
  leaves on a done context after one empty poll, whatever was enqueued since. `ShutdownCanStrandMarkedMessages` gives a
  run in which two messages are enqueued and marked but never handled. `ShutdownLosesNothingIff` says exactly when, told at
  the moment of cancellation: nothing can be lost if and only if no claim was about to call `TryEnqueue` and the worker did
  not stand between an empty poll and its context check with messages queued since.
  `StrandedIsWhatFollowsTheLastEmptyPoll` says which messages are lost, `StrandedBound` how many at most.
* **The RabbitMQ consumer is quiet at `conn.Close` only on a condition.** If `Run` returns with an error of
  its own while a delivery has been called but has not yet counted itself, a handler can run on the closed
  connection; `HandlerCanRunOnClosedConnection` is such a run. `ConnectionClosesQuietlyIff`: it cannot, in any
  continuation, if and only if at Run's return `isClosed` was set or every delivery called so far was counted.
  `Close` coming first is always safe.
* **`RemoveTopic` and `RemoveServer` are exact, and free of an out-of-range slice, if and only if** the
  element occurs at most once, or it neither ends the list nor occurs twice in a row (`RemovalIsExactIff`;
  `RemovalCanFail` has an instance of each failure).
* **Redis `Close` settles everything accepted before it only on a condition.** `CloseSettlesAcceptedIff`: no
  `Close` call gets past `wg.Wait` with a message unsettled that was accepted before draining was stored, if and only
  if at that store the goroutine was inside `startPublish` and not leaving it, or the queue was empty.

## Assumptions

* In the pipes and the Redis publisher `Start` was called once and registered its worker before `Close`;
  `NatsStart` drops that assumption and treats concurrent `Start` calls themselves. In the RabbitMQ consumer
  `SyncSubscribe` is registered (`wg.Add`) before `Close`, although `Subscribe` launches it as a goroutine
  (`rabbitmq/sub.go:77-84`).
* Of the ring buffer's `EnqueueBatch`, which answers a count: it takes the longest prefix that fits. Then
  `PublishArray` of the Kafka producer, which asks only for a count above zero, can answer true for part of a batch
  (`PublishArrayCanSplit`); all of it is taken exactly when there is room (`PublishArrayTakesAllIff`).
* Of sarama: a claim hands out strictly increasing offsets from the session's start; marks only move forward;
  `group.Close` returns after every claim loop has; no claim opens after that. Of the RabbitMQ client: `Run`
  calls no handler after it has returned. Of contexts: a child is cancelled with its parent.
* Of the Kafka client during resolution: it lists a partition of a topic once and answers an offset query for it
  the same way each time. sarama opens each session with an object of its own. Distinct topic names are needed,
  and stated, only for "each partition is reset once".
* The buffer sizes given to the queues are positive. Integers are unbounded; offsets and counters never come
  near the limits of their Go types.

## Model

| member | source | states |
|---|---|---|
| Channel.StuttersIffRepeats | mqtt/mqtt_client.go:261-275 | the relation used for attempt logs says exactly: the base sequence with every element written one or more times |
| Channel.NextKeepsSound | mqtt/mqtt_client.go:251-278 | the reference channel keeps accepted = confirmed ++ backlog, with the wire a repetition of what was confirmed plus at most the head of the backlog |
| DrainPipe.StepKeepsInv | natsmq/nats_core.go:239-292 | every atomic step of every pipe, of Publish and of Close keeps the worker, exit-reason and close invariants |
| DrainPipe.StepRefines | mqtt/mqtt_client.go:251-278 | every step of each of the five pipes is a step of the one-slot at-least-once FIFO channel or invisible to it |
| DrainPipe.RunIsGood | natsmq/nats_jetstream.go:258-311 | after any event sequence the invariants hold and the abstracted state is a sound channel state |
| DrainPipeTheorems.AtLeastOnceInOrder | mqtt/mqtt_client.go:251-278 | accepted = delivered ++ rest of batch ++ queue in every reachable state, and the send attempts are a prefix of accepted with each message repeated one or more times, reaching at most one past delivered |
| DrainPipeTheorems.CleanShutdownIsLossless | natsmq/nats_core.go:109-159 | after the "dequeue returned 0" exit delivered equals accepted and nothing is accepted ever after, not even for calls past the draining check |
| DrainPipeTheorems.RefusedWhileDraining | mqtt/mqtt_client.go:193-198 | MQTT, NATS core, JetStream: once draining is set no Publish call passes its check, and all that is accepted afterwards comes from distinct calls already past it |
| DrainPipeTheorems.AcceptedWhileDraining | rabbitmq/pub.go:172-177 | RabbitMQ and RocketMQ: while the queue is open a Publish is accepted, draining or not |
| DrainPipeTheorems.NothingDroppedBeforeShutdown | rabbitmq/pub.go:104-124 | an exited worker lost messages exactly when it left inside its buffer, and then draining or cancellation was in force; draining for RabbitMQ, link read as down for MQTT |
| DrainPipeTheorems.NoSendAfterDrainedTeardown | mqtt/mqtt_client.go:160-190 | when Close took the drained branch no attempt is ever made on a client that was torn down |
| DrainPipeTheorems.RocketForcesDrainSends | rocketmq/pub.go:141-153 | over a whole run at most one send is made without drainPublish while draining is set |
| DrainPipeTheorems.RocketBoundIsTight | rocketmq/pub.go:141-153 | a run with exactly that one send: its mode was chosen just before Close set draining |
| DrainPipeTheorems.CancelledNatsSendsAtMostOnce | natsmq/nats_core.go:246-257 | once the context is cancelled a NATS worker starts at most one more send whatever is left, and exits at its next retry-loop head |
| DrainPipeTheorems.DoomedStepLowersWork | rocketmq/pub.go:132-169 | with the queue sealed and the policy's exit condition in force, each effective worker step lowers a measure of queue, batch and position, and no other goroutine raises it |
| DrainPipeTheorems.DoomedWorkerIsNeverBlocked | rabbitmq/pub.go:97-126 | under the same conditions a worker that has not exited can always move |
| DrainPipeTheorems.DrainTerminates | mqtt/mqtt_client.go:251-278 | while those conditions last the worker makes a bounded number of moves, whatever the others do, and stops only by exiting |
| DrainPipeTheorems.PipesTerminateOnceDraining | rabbitmq/pub.go:97-126 | for RabbitMQ and RocketMQ draining and a sealed queue suffice, for NATS a cancelled context and a sealed queue: the bound holds in every continuation |
| PipeTrace.TraceIsRun | mqtt/mqtt_client.go:251-278 | the trace of a worker under any schedule of the others is a run, so every theorem on runs holds along it |
| PipeTrace.ExitsInTime | natsmq/nats_core.go:245-291 | from a step on where the policy's exit conditions hold for good (for MQTT and NATS also: while the link does not come back) the worker has exited within Work of its own steps, whatever the others and the SDK do |
| PipeTrace.DeliversWithin | mqtt/mqtt_client.go:256-276 | for all five clients: a worker that has not exited delivers everything accepted so far, in order, within 10 steps per message and 9 more, if in those steps the SDK accepts, the link is up where it is looked at, the NATS context is open and no earlier failed send gives it reason to leave |
| PipeClient.Client.constructor | mqtt/mqtt_client.go:251-255 | a client just started is at the start of its trace, with one registered worker |
| PipeClient.Client.PublishCheck | natsmq/nats_core.go:154-157 | the MQTT, NATS core and JetStream clients refuse exactly while draining is set, the other two never here |
| PipeClient.Client.PublishEnqueue | natsmq/nats_core.go:158 | true exactly when the queue is open, and then the message is its new last element |
| PipeClient.Client.PublishFull | natsmq/nats_core.go:158 | a full queue answers false and nothing else changes |
| PipeClient.Client.CloseSwap | mqtt/mqtt_client.go:160-164 | exactly the call that finds draining unset goes on |
| PipeClient.Client.CloseSeal | mqtt/mqtt_client.go:173 | the queue is sealed, then Close waits |
| PipeClient.Client.CloseSignal | rabbitmq/pub.go:144-145 | RabbitMQ cancels the context instead of sealing |
| PipeClient.Client.SealOnCancel | rabbitmq/pub.go:132-136 | Start seals the queue once its context is done |
| PipeClient.Client.CloseSelect | mqtt/mqtt_client.go:175-183 | leaves by timeout, or drained only with the WaitGroup at zero, else keeps waiting |
| PipeClient.Client.CloseTearDown | rabbitmq/pub.go:161-167 | the SDK client is torn down only after the wait, remembering which way the wait ended |
| PipeClient.Client.CloseCancel | mqtt/mqtt_client.go:188-189 | the context is cancelled last |
| PipeClient.Client.DequeueTo | mqtt/mqtt_client.go:257-260 | waits only through looks that find the queue empty and open; 0 only when closed and empty; otherwise the buffer and the batch are exactly the head of the queue |
| PipeClient.Client.SdkSend | mqtt/mqtt_client.go:264-267 | exactly one attempt of exactly this message in the chosen mode; success delivers it and removes it from the batch, failure keeps it |
| PipeClient.Client.MqttPass | mqtt/mqtt_client.go:262-274 | one pass, decided by what its steps read and are answered: an attempt of exactly this message if and only if the link is up, sent if and only if it is accepted, left if and only if (cancelled or draining) and then the link down |
| PipeClient.Client.NatsPass | natsmq/nats_core.go:253-288 | one pass: left at once if cancelled; an attempt if and only if the link is up; left if it was refused under draining, or on draining with the link then down |
| PipeClient.Client.RabbitPass | rabbitmq/pub.go:105-123 | one pass: always an attempt; left if and only if it failed and draining is then set |
| PipeClient.Client.RocketPass | rocketmq/pub.go:141-167 | one pass: always an attempt, by drainPublish if and only if draining was read as set; left if and only if it failed and the context is then done or draining set |
| PipeClient.Client.MqttDeliver | mqtt/mqtt_client.go:262-274 | a link read as up is used at once: the first attempt made is of this message, and an accepted send ends with it delivered; otherwise retried until delivered, given up with the worker exited, or the horizon |
| PipeClient.Client.MqttGivesUp | mqtt/mqtt_client.go:269-272 | gives up if and only if cancelled and then the link read as down, or, not cancelled, draining and then the link read as down |
| PipeClient.Client.NatsDeliver | natsmq/nats_core.go:253-288 | a done context gives up without an attempt; with it open a link read as up is used at once, and an accepted send ends with the message delivered; otherwise retried as for MQTT |
| PipeClient.Client.NatsSend | natsmq/nats_jetstream.go:278-290 | sent exactly when the SDK accepts; leaves if and only if the send was refused and draining is then read as set |
| PipeClient.Client.NatsGivesUp | natsmq/nats_core.go:273-284 | gives up if and only if draining is read as set and then the link as down |
| PipeClient.Client.RabbitDeliver | rabbitmq/pub.go:105-123 | attempted at once, and an accepted send ends with the message delivered; otherwise retried, or exited after a failure under draining |
| PipeClient.Client.RocketDeliver | rocketmq/pub.go:141-167 | attempted at once in the mode draining chooses, and an accepted send ends with the message delivered; otherwise retried, or exited |
| PipeClient.Client.RocketGivesUp | rocketmq/pub.go:155-163 | gives up if and only if cancelled, or else draining |
| PipeClient.Client.DeliverAll | mqtt/mqtt_client.go:261-275 | a buffer worked through adds exactly its messages, in order, to what is delivered |
| PipeClient.Client.DrainLoop | mqtt/mqtt_client.go:254-276 | the worker loop computes exactly its trace and ends only by exiting or at the horizon; accepted = delivered ++ rest of batch ++ queue; a clean exit has delivered everything with the queue sealed; what was accepted at step k is delivered DeliveryBound favourable steps later; a worker that must exit at step k has exited Work steps later |
| KafkaConsumer.StepKeepsInv | kafkamq/sub.go:336-382 | every step of every goroutine keeps the claim, order, worker, shutdown and after-cancellation invariants |
| KafkaConsumer.AckKeepsInv | kafkamq/config_sarama.go:64-71 | acknowledging any dispatched message moves a mark only over enqueued messages |
| KafkaConsumer.OthersLeaveClaim | kafkamq/sub.go:336-382 | other goroutines change nothing of a claim loop but its mark |
| KafkaConsumerTheorems.MarksCoverExactlyTheEnqueued | kafkamq/sub.go:336-382 | per claim the enqueued messages are an in-order prefix of the stream; a received message is below the mark only if enqueued, and every enqueued one is, save the one whose mark is due |
| KafkaConsumerTheorems.MarksCoverNothingToCome | kafkamq/sub.go:351-367 | whatever a claim may still receive is at or above its mark |
| KafkaConsumerTheorems.MarksOnlyGrow | kafkamq/config_sarama.go:64-71 | within a session marks never go back |
| KafkaConsumerTheorems.StrandedIsWhatFollowsTheLastEmptyPoll | kafkamq/sub.go:181-212 | when the worker is gone the undispatched messages are exactly those enqueued after its last empty poll, and the context is done |
| KafkaConsumerTheorems.ShutdownLosesNothingIff | kafkamq/sub.go:181-212 | exactly when a shutdown loses nothing, told at cancellation: in every continuation a worker that is gone has handled every enqueued message, if and only if no claim was at TryEnqueue and the worker was not between an empty poll and its context check with messages queued |
| KafkaConsumerTheorems.AtMostOneEnqueuePerClaimAfterCancel | kafkamq/sub.go:343-365 | after cancellation each claim enqueues at most once, and only claims then about to call TryEnqueue |
| KafkaConsumerTheorems.StrandedBound | kafkamq/sub.go:181-212 | if the last empty poll came after cancellation, at most one message per claim then about to enqueue is stranded |
| KafkaConsumerTheorems.ShutdownCanStrandMarkedMessages | kafkamq/sub.go:228-235 | without that condition: a run that ends with two messages marked and never dispatched |
| KafkaConsumerTheorems.CancelledStepLowersStepsLeft | kafkamq/sub.go:337-365 | after cancellation each effective own step brings a claim loop nearer its exit, full queue or not, and nobody else's step undoes that |
| KafkaConsumerTheorems.CancelledClaimIsNotBlocked | kafkamq/sub.go:337-365 | a live claim loop can always move given a message or a closed channel |
| KafkaConsumerTheorems.CancelledClaimTerminates | kafkamq/sub.go:337-365 | a live claim loop makes at most six own steps after cancellation |
| KafkaTrace.ClaimEndsBy | kafkamq/sub.go:337-365 | six own steps after cancellation a claim loop is done, whatever the others do and however full the queue is, if its channel is closed or has a message whenever it asks |
| KafkaTrace.WorkerEndsWithin | kafkamq/sub.go:181-212 | once the group is closed the dispatch worker is gone within a number of its steps given by queue, batch and position |
| KafkaTrace.SubscriberEndsBy | kafkamq/sub.go:230-235 | with the group closed and the worker gone the shutdown ends in two steps |
| KafkaTrace.DispatchesWithin | kafkamq/sub.go:178-212 | unless the worker is past its last empty poll, everything enqueued so far reaches the handler, in order, within two of its steps per queued message, one per buffered one, and one more |
| KafkaTrace.ClaimTakesMessage | kafkamq/sub.go:337-367 | a message the channel yields is enqueued and marked five of the loop's steps later, if session and group are open when checked and the queue has room and is open at the try |
| KafkaGroup.ConsumerGroup.constructor | kafkamq/sub.go:111-131 | the group after any events is at the start of the trace of the goroutine that comes to the foreground |
| KafkaGroup.ConsumerGroup.Receive | kafkamq/sub.go:337-342 | a deliverable message is taken but neither enqueued nor marked; an undeliverable one leaves the loop where it is |
| KafkaGroup.ConsumerGroup.SessionErr | kafkamq/sub.go:347 | first context read: done exactly when the claim's session has ended |
| KafkaGroup.ConsumerGroup.ParentErr | kafkamq/sub.go:347 | second context read: done exactly when the group is cancelled |
| KafkaGroup.ConsumerGroup.ContextErr | kafkamq/sub.go:347-349 | done if and only if the session had ended at the first read, or the group was cancelled at the second, with the others in between |
| KafkaGroup.ConsumerGroup.TryEnqueue | kafkamq/sub.go:352-355 | succeeds exactly when the queue is neither full nor closed, and only then appends |
| KafkaGroup.ConsumerGroup.SpinEnqueue | kafkamq/sub.go:343-360 | ends with the message enqueued, or given up with the loop at its end, or at the horizon; always on its trace |
| KafkaGroup.ConsumerGroup.MarkMessage | kafkamq/sub.go:367 | moves the mark just past the message, never back |
| KafkaGroup.ConsumerGroup.EnqueueAndMark | kafkamq/sub.go:342-367 | one message: marked only after its enqueue, otherwise the loop ends with it unmarked |
| KafkaGroup.ConsumerGroup.ConsumeClaim | kafkamq/sub.go:336-382 | the loop computes exactly its trace; what it enqueued is an in-order prefix of what it took; once done the mark stands just past that prefix; six steps after a cancellation it is done unless its channel keeps it waiting |
| KafkaGroup.ConsumerGroup.Ack | kafkamq/config_sarama.go:64-71 | marks offset + 1 of the handled message in its own session |
| KafkaGroup.ConsumerGroup.TryDequeueTo | kafkamq/sub.go:185-200 | the buffer is exactly the head of the queue as it was then, 0 exactly when empty, valid exactly when open |
| KafkaGroup.ConsumerGroup.HandleAll | kafkamq/sub.go:186-195 | handled grows by exactly the buffer, in order |
| KafkaGroup.ConsumerGroup.WorkerErr | kafkamq/sub.go:202-204 | after an empty poll of an open queue the worker leaves exactly on a done context |
| KafkaGroup.ConsumerGroup.DispatchWorker | kafkamq/sub.go:178-215 | the loop computes exactly its trace; gone only after cancellation, having handled exactly what was enqueued up to its last empty poll; what was enqueued at a step is handled DispatchBound steps later unless it was past that poll; once the group is closed it is gone PollsLeft steps later |
| KafkaGroup.ConsumerGroup.SubscribeNext | kafkamq/sub.go:221-235 | the shutdown order: pause, wait for all claims, close the queue, wait for the worker |
| KafkaGroup.ConsumerGroup.AwaitShutdown | kafkamq/sub.go:221-246 | the sequence follows its trace; when it finishes the queue is closed and no claim loop and no worker is left; it finishes two steps after the group is closed and the worker gone |
| KafkaProducer.StepKeepsInv | kafkamq/pub.go:107-180 | every step of sender, reader, Start, Publish and Close keeps the hand-off invariant |
| KafkaProducer.HandsOverInOrder | kafkamq/pub.go:150-163 | accepted = put on Input ++ buffer ++ queue, Input is never used after Producer.Close, and the status reader outlives the sender |
| KafkaProducer.NothingIsMissingAtProducerClose | kafkamq/pub.go:235-250 | at Producer.Close everything accepted has been put on Input once and in order, and nothing is accepted or put there afterwards |
| KafkaProducer.SealedStartReturns | kafkamq/pub.go:151-173 | once Close has sealed the queue every move of Start's goroutines lowers a measure, and one of them can move until Start has returned |
| KafkaProducer.CloseTerminatesStart | kafkamq/pub.go:235-241 | Start returns within that many moves, so Close's wait ends |
| KafkaProducer.PublishArrayTakesAllIff | kafkamq/pub.go:189-195 | a batch is accepted as a whole if and only if it is empty, or the queue is open with room for it |
| KafkaProducer.PublishArrayCanSplit | kafkamq/pub.go:189-195 | with room for one of two messages, one is accepted and one is not |
| ProducerTrace.SenderEndsWithin | kafkamq/pub.go:151-163 | once the queue is sealed the sender is gone within a number of its steps given by queue, buffer and position |
| ProducerTrace.HandsOverWithin | kafkamq/pub.go:150-162 | sealed or not, everything accepted so far is on Input, in order, within two of the sender's steps per queued message and one per buffered one |
| KafkaAsyncProducer.AsyncProducer.constructor | kafkamq/pub.go:94-104 | a producer just started is at the start of its trace |
| KafkaAsyncProducer.AsyncProducer.Publish | kafkamq/pub.go:182-187 | true exactly when the message was appended |
| KafkaAsyncProducer.AsyncProducer.PublishArray | kafkamq/pub.go:189-195 | appends the prefix that fits; true exactly when that prefix is not empty; the whole batch exactly when there is room |
| KafkaAsyncProducer.AsyncProducer.CloseStep | kafkamq/pub.go:239-250 | cancel, seal, wait for Start, close the sarama producer, each only after the one before |
| KafkaAsyncProducer.AsyncProducer.DequeueTo | kafkamq/pub.go:153-156 | waits only through looks that find the queue empty and open; the buffer is exactly the head of the queue; 0 only when closed and empty |
| KafkaAsyncProducer.AsyncProducer.FeedInput | kafkamq/pub.go:158-160 | the next message of the buffer is the next on Input |
| KafkaAsyncProducer.AsyncProducer.FeedAll | kafkamq/pub.go:157-161 | Input grows by exactly the buffer, in order |
| KafkaAsyncProducer.AsyncProducer.SubCancel | kafkamq/pub.go:163 | the reader's context ends only when the sender does |
| KafkaAsyncProducer.AsyncProducer.Select | kafkamq/pub.go:120-141 | the reader leaves exactly when its context is done or the channels are closed |
| KafkaAsyncProducer.AsyncProducer.SenderLoop | kafkamq/pub.go:147-166 | the loop computes exactly its trace; what was accepted at any step is on Input two steps later per queued and one per buffered message; once the sender is gone Input has received exactly the accepted messages; it is gone SendsLeft steps after the queue is sealed |
| KafkaAsyncProducer.AsyncProducer.StatusLoop | kafkamq/pub.go:114-144 | stays through every turn that finds its context open and the channels open, and leaves in the first that does not |
| RedisPublisher.StepKeepsInv | redismq/pub.go:131-280 | every step keeps conservation, attempt order, retry bounds and the flag invariants |
| RedisTheorems.EpochsConserveMessages | redismq/pub.go:131-166 | over any number of reconnects accepted = settled ++ batch ++ queue in order, attempts are the accepted sequence cut into batches each repeated one or more times, and before draining settled means published |
| RedisTheorems.AtMostThreeDrainCallsPerBatch | redismq/pub.go:246-279 | no batch gets more than three PublishArrayWithCtx calls |
| RedisTheorems.DroppedOnlyOnThirdFailure | redismq/pub.go:246-279 | a batch is settled without success if and only if exactly three failures of it were counted under draining, so after at least three calls for it |
| RedisTheorems.HandshakeLeavesThroughDrain | redismq/pub.go:96-100 | if draining is stored while the goroutine is registered and not yet leaving, which holds whenever the link flag is up, it leaves startPublish only through the drain branch |
| RedisTheorems.AcceptedBeforeDrainingIsAttempted | redismq/pub.go:201-224 | if draining is stored while the goroutine is in startPublish and not leaving it, every message accepted before is settled, in a batch sent at least once, by the time a Close call is past wg.Wait |
| RedisTheorems.CloseSettlesAcceptedIff | redismq/pub.go:96-100 | over all continuations no Close call gets past wg.Wait with an earlier accepted message unsettled, if and only if the goroutine was in startPublish and not leaving it, or the queue was empty |
| RedisTheorems.DrainingStepLowersWork | redismq/pub.go:207-218 | once draining, each effective step of the goroutine or of a publisher lowers a measure of publishers past the check, queue length and remaining retries |
| RedisTheorems.NeverBlocked | redismq/pub.go:196-239 | until it has stopped the goroutine can always move |
| RedisTheorems.DrainTerminates | redismq/pub.go:246-279 | once draining the goroutine and the remaining publishers make a bounded number of moves, whatever Redis answers, and the goroutine stops only at the end of Start |
| RedisTrace.StopsWithin | redismq/pub.go:131-166 | once draining is set the goroutine has stopped within Work of its own steps |
| RedisTrace.PublishesWithin | redismq/pub.go:131-280 | from any state, connected or not, everything accepted so far is published, in order, within 20 steps per message and 15 more, while Redis answers and Close has not been called |
| RedisClient.RedisPub.constructor | redismq/pub.go:55-68 | a new publisher is at the start of its trace |
| RedisClient.RedisPub.PublishCheck | redismq/pub.go:114-118 | refused exactly when draining is set |
| RedisClient.RedisPub.PublishEnqueue | redismq/pub.go:120-122 | true exactly when the queue is open, and then appended |
| RedisClient.RedisPub.StoreDraining | redismq/pub.go:97 | the first store of Close |
| RedisClient.RedisPub.StoreDisconnected | redismq/pub.go:98 | the second, only after the first |
| RedisClient.RedisPub.CloseWait | redismq/pub.go:100 | passes only with nobody registered |
| RedisClient.RedisPub.CloseSeal | redismq/pub.go:102 | the queue is closed only after the wait |
| RedisClient.RedisPub.TakeBatch | redismq/pub.go:226-237 | takes exactly the head of the queue, at most a batch; an empty queue leads on, drains out or ends, by the branch it was called from and by the closed flag |
| RedisClient.RedisPub.LoadMode | redismq/pub.go:255-260 | the drain context is chosen if and only if draining is read as set |
| RedisClient.RedisPub.SdkPublish | redismq/pub.go:254-264 | one attempt of exactly this batch; success settles exactly it, failure settles nothing and keeps it |
| RedisClient.RedisPub.Failed | redismq/pub.go:264-276 | two loads under draining, else a report in between; a retry is counted if and only if draining is read as set, and exactly the third drops the batch |
| RedisClient.RedisPub.Report | redismq/pub.go:262-266 | connected is stored false exactly when draining was not set |
| RedisClient.RedisPub.OnError | redismq/pub.go:282-291 | stores connected = false and settles nothing |
| RedisClient.RedisPub.PublishArray | redismq/pub.go:241-280 | ends with exactly its batch settled, after the earlier ones: published after at least one attempt or dropped after at least three; nothing else is attempted meanwhile; or at the horizon with nothing settled; on its trace |
| RedisClient.RedisPub.CallOnce | redismq/pub.go:253-276 | one call for exactly this batch, in the mode draining chooses; success settles it, a failure is counted if and only if draining is then read as set, and only the third counted one drops it |
| RedisClient.RedisPub.DrainRemaining | redismq/pub.go:209-218 | leaves through the drain exit, and only on an empty queue; on its trace |
| RedisClient.RedisPub.PublishRound | redismq/pub.go:221-237 | link down and draining then read as unset: out by the disconnect exit after two steps; otherwise one batch |
| RedisClient.RedisPub.PublishBatch | redismq/pub.go:226-237 | one batch, then another round if and only if the queue was open |
| RedisClient.RedisPub.PublishLoop | redismq/pub.go:204-238 | ends only by leaving startPublish or at the horizon, on its trace |
| RedisClient.RedisPub.Register | redismq/pub.go:196-201 | registered if and only if there is a handler |
| RedisClient.RedisPub.StartPublish | redismq/pub.go:196-239 | registered from its start to its end, on its trace, then back in the reconnect loop with the WaitGroup at zero |
| RedisClient.RedisPub.DbConnect | redismq/pub.go:168-194 | connected is the outcome of the ping, and a handler is left exactly on success |
| RedisClient.RedisPub.ReconnectLoop | redismq/pub.go:131-166 | the loop computes exactly its trace; accepted = settled ++ batch ++ queue throughout and until draining every settled batch was published; what was accepted at a step is published PublishBound steps later while Redis answers; Work steps after draining is set it has returned with the WaitGroup at zero |
| NatsStart.StepKeepsInv | natsmq/nats_core.go:72-106 | `started` is set exactly while one call is in the body or a worker exists |
| NatsStart.StartsAtMostOneWorker | natsmq/nats_core.go:72-106 | over any concurrent and repeated Start calls with rollbacks: one call in the body at a time, one worker, OnReady at most once |
| NatsStart.FailedStartCanBeRetried | natsmq/nats_jetstream.go:76-97 | with no worker and no call in the body the next swap succeeds |
| NatsStarter.Client.CompareAndSwap | natsmq/nats_core.go:73-75 | enters the body exactly when it found `started` unset |
| NatsStarter.Client.SdkCall | natsmq/nats_core.go:78-92 | connect and subscribe go on or roll back as the SDK answers |
| NatsStarter.Client.StoreConnected | natsmq/nats_core.go:84-86 | sets the flag when the connection is up, never clears it |
| NatsStarter.Client.ConnClose | natsmq/nats_core.go:89-90 | a failed subscription closes the connection before the rollback |
| NatsStarter.Client.Rollback | natsmq/nats_jetstream.go:93-97 | clears `started` and returns the error |
| NatsStarter.Client.FireReady | natsmq/nats_core.go:96-100 | fires OnReady at most once |
| NatsStarter.Client.StartDrainPipe | natsmq/nats_core.go:103-105 | spawns the worker as the last step |
| NatsStarter.Client.SubscribeAndSpawn | natsmq/nats_core.go:89-105 | fails exactly when the subscription does, with `started` cleared, and otherwise ends with one more worker |
| NatsStarter.Client.Body | natsmq/nats_core.go:78-105 | the winning call fails if and only if the connection or the subscription does |
| NatsStarter.Client.Start | natsmq/nats_core.go:72-106 | only the call that finds `started` unset acts; it fails exactly when connection or subscription does, with `started` unset, and otherwise leaves exactly one worker; always at most one worker and one OnReady |
| RabbitConsumer.StepKeepsInv | rabbitmq/sub.go:81-153 | every step of deliveries, SyncSubscribe and Close keeps the accounting invariant |
| RabbitConsumer.ObservedClosedIsRequeued | rabbitmq/sub.go:97-107 | a delivery that saw isClosed never has its handler run and is requeued when done, and only such deliveries are |
| RabbitConsumer.ConnectionClosesQuietlyIff | rabbitmq/sub.go:81-153 | in no continuation does a handler run on a closed connection, if and only if at Run's return isClosed was set or every delivery called so far was counted |
| RabbitConsumer.UncountedAtErrorReturnCanViolate | rabbitmq/sub.go:97-122 | otherwise a continuation that violates it |
| RabbitConsumer.HandlerCanRunOnClosedConnection | rabbitmq/sub.go:97-122 | a run that ends with a handler running on the closed connection |
| RabbitConsumer.CloseFirstIsQuiet | rabbitmq/sub.go:134-153 | under that condition the connection closes only after SyncSubscribe has returned and with no handler running |
| RabbitTrace.SubscriptionEndsWithin | rabbitmq/sub.go:122-131 | with Run returned and its deliveries done SyncSubscribe returns within two of its steps |
| RabbitTrace.CloseEndsWithin | rabbitmq/sub.go:139-152 | with SyncSubscribe gone a Close call past its swap closes the connection within three of its steps |
| RabbitSubscriber.InGroupUpdate | rabbitmq/sub.go:99-100 | the counter moves exactly with the handler that enters or leaves the group |
| RabbitSubscriber.InGroupZero | rabbitmq/sub.go:122 | the counter is zero exactly when no handler is in the group |
| RabbitSubscriber.Consumer.HandleStep | rabbitmq/sub.go:99-118 | the next step of a delivery, with the WaitGroup counter kept equal to the handlers in it |
| RabbitSubscriber.Consumer.OnDelivery | rabbitmq/sub.go:97-118 | requeued and unhandled if and only if isClosed was set at its check, which follows its counting; otherwise handled and not requeued; uncounted at the end either way |
| RabbitSubscriber.Consumer.SyncSubscribe | rabbitmq/sub.go:81-132 | follows its trace; ends only with Run returned, the counted handlers done and wg at zero; within two steps once Run has returned and its deliveries are done |
| RabbitSubscriber.Consumer.AwaitHandlers | rabbitmq/sub.go:122-131 | past subWg.Wait only with no counted handler, and then returned |
| RabbitSubscriber.Consumer.CloseSwap | rabbitmq/sub.go:135-137 | exactly one Close call goes on |
| RabbitSubscriber.Consumer.CloseAdvance | rabbitmq/sub.go:140-152 | consumer.Close, then past the wait only with wg at zero, then conn.Close |
| RabbitSubscriber.Consumer.Close | rabbitmq/sub.go:134-153 | acts exactly when it finds isClosed unset; then follows its trace to the closed connection, within three steps once SyncSubscribe has returned, and on the condition above with no handler running |
| TopicOffsets.ResolvedAt | kafkamq/config_sarama.go:111-131 | resolution adds and drops no partition and asks the broker exactly for the listed partitions it knows that hold -1 or -2; an answer below -2 is stored as -2, any other as it is; every other offset is left alone |
| TopicOffsets.ResolvedBounded | kafkamq/config_sarama.go:91-101 | offsets at or above -2 stay so through resolution, whatever the broker answers |
| TopicOffsets.DistinctResolvedOnce | kafkamq/config_sarama.go:111-131 | with no topic object listed twice each is resolved exactly once |
| TopicOffsets.ResetIff | kafkamq/sub.go:292-317 | a partition is reset if and only if it is claimed and listed and its configured offset is real, or special and resolved to a real one; the offset is that one |
| TopicOffsets.Topic.constructor | kafkamq/config_sarama.go:82-89 | a new topic lists partition 0 at offset -1, the newest |
| TopicOffsets.Topic.SetOffset | kafkamq/config_sarama.go:91-101 | only this partition changes; an offset below -2 is stored as -2, any other as it is |
| TopicOffsets.Topic.Query | kafkamq/config_sarama.go:115-126 | the loop computes the resolution of all listed partitions in order |
| TopicOffsets.QueryTopics | kafkamq/config_sarama.go:111-131 | each topic ends resolved, once for each time it is listed; one that cannot be listed untouched; the bound of -2 is kept |
| TopicOffsets.GroupHandler.ResetTopic | kafkamq/sub.go:303-312 | resets exactly the due partitions of one topic, each once, in any order of the map |
| TopicOffsets.GroupHandler.ResetClaim | kafkamq/sub.go:297-313 | exactly the due resets under one claimed name |
| TopicOffsets.GroupHandler.Setup | kafkamq/sub.go:292-317 | the first session gets exactly the due resets, each once when topic names are distinct; later sessions none |
| TopicOffsets.NewConsumerGroup | kafkamq/sub.go:107-108 | after construction the topics hold exactly the resolved form of what they held before |
| TopicOffsets.Subscribe | kafkamq/sub.go:160-171 | from configuration to sessions: the first session is reset exactly as the resolved offsets say, no later one is |
| SliceRemoval.RemovalIsExactIff | rocketmq/config.go:92-99 | what the loop leaves is the list without the element and no slice is out of range, if and only if the element occurs at most once or neither ends the list nor occurs twice in a row |
| SliceRemoval.SurvivorsExact | rocketmq/config.go:181-188 | what the loop leaves equals the list without the element if and only if it never occurs twice in a row |
| SliceRemoval.RemovalCanFail | rocketmq/config.go:92-99 | an instance of the out-of-range slice, and one of a surviving occurrence |
| SliceRemoval.Config.DeleteAt | rocketmq/config.go:95 | the tail moves down by one in the shared array; the cell past the new end keeps its old value |
| SliceRemoval.Config.Visit | rocketmq/config.go:93-97 | one turn of the range clause over the original length keeps the loop's account of settled and unread elements |
| SliceRemoval.Config.Remove | rocketmq/config.go:261-268 | slices out of range exactly when the list ends in the element and holds it twice or more, otherwise leaves exactly the survivors; cells beyond the list are untouched |

## Left out

- SDK option building, TLS, Kerberos, stream and consumer upserts, connection strings and logging: plumbing over libraries that are not part of this model.
- Configuration setters and getters and the string-to-enum switches: they would only add easy members.
- The internals of `LockedRingBuffer`, `kcontext` and `klists`: represented by the contracts their callers rely on.
- The subscription calls inside `Close` and `Start` of the MQTT and NATS clients (unsubscribe, `sub.Drain`, the `subs` map): they touch neither the queue nor the worker.
- The `Start` of the MQTT client (option set-up, TLS errors, `readyOnce`): its callbacks appear as the link events; the worker it registers is modelled.
- `Publish` with a nil client or connection, which answers false before anything else happens.
- The drain of `rocketmq/sub.go`: it takes a length snapshot, ignores what the dequeue answers and lets its pull loops hang off the outer context, so the code supports no clean guarantee.
- `redismq/sub.go` and `redismq/rediskit.go`: the reconnect loop again without a queue, and a dispatch to one of two clients.
- Real time: sleeps, the 2.5 s pause and the 20 s timers are steps that may be taken at any moment.
- Unconditional delivery for NATS and MQTT: the code has no bound on how long the link stays down or sends fail; delivery is proved for favourable steps only.
- Redis losslessness for Publish calls that race with `Close`, or for a `Close` that arrives outside `startPublish`: the queue is sealed only after the wait, so the code does not promise it.
- Whether an asynchronous RocketMQ send reached the broker: `delivered` means handed to the SDK without an error.
- A second `Close` of the Kafka producer after the first has returned, and a nil producer.
- What a slice holds after `RemoveTopic` has panicked.
- Loops of the classes run up to a horizon: a Go loop need not end, and theirs end only where their goroutine does or the observation stops. Without the stated conditions there is no bound to prove.
- KafkaAsyncProducer.AsyncProducer.SenderLoop: does not model a send on Input that blocks for ever; the feeding step may be taken at any moment.
