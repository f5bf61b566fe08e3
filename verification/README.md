# Cauldron: a verified model of the webhook pipeline

Cauldron takes webhooks over HTTP, hands them to Kafka through bounded queues and one shared
asynchronous producer, and stores them in a database through a partition consumer or a consumer
group. This project models that pipeline in Dafny and proves what it keeps in every run, for any
number of workers, any queue size and any interleaving. `dafny verify dfyconfig.toml` checks it.

| file | what it models |
|---|---|
| `PartitionConsumer.dfy` | one feeder, one bounded channel, N workers, a signal listener, `Consume` |
| `ConsumerGroup.dfy` | claims that queue and then mark, N workers, the consume loop, `StartConsume` |
| `WebhookPipeline.dfy` | detached offers, two queues, two pools, the shared producer, `Run` |
| `GitHub.dfy`, `GitLab.dfy` | handler admission and header encoding, storage parse loop, the way between |
| `Decimal.dfy`, `Headers.dfy` | 64-bit decimal text, header lists and lookups in them |
| `Retry.dfy` | the retry loop with its doubling 64-bit delay |
| `Brokers.dfy` | broker lists |
| `Channels.dfy` | the bounded channel as a circular buffer, used by all three programs |
| `Runs.dfy`, `Tally.dfy`, `Messages.dfy`, `Wrappers.dfy` | schedules, counting over goroutines, shared types |

## How the concurrent parts are modelled

Each of the three concurrent programs is a step system: a `State`, an `Event` for every atomic step
of every goroutine, `Enabled` and `Apply`. A schedule is any sequence of events, and `Reachable`
means reached from the start by some schedule, so a lemma about reachable states is about all runs.
Beside it a class holds the channel, a circular buffer over an array, and the other fields the
goroutines share; its methods are the goroutines' steps on them in place. `View` says which state
of the step system the fields stand for, every method's effect on it is equal to `Apply`, and one
method runs a whole schedule.

The histories that a state keeps (what was received, accepted, queued, stored, logged) are tied to
the schedule alone: `ReceivedIn`, `AcceptedIn` and the like are defined on the events, and the
`HistoryIsTheSchedules` lemmas equate the two, so a step that forgets or mixes up a message does
not go unnoticed.

A send on a closed channel, and a second close, are not excluded: they set `panicked`, and the
lemmas say when that can happen. Unbuffered channels are covered by events in which a send meets
a waiting receiver. `Sum` over goroutines counts those in a given place. A ticket is the position of a
message in the order in which it was taken (partition consumer) or queued (group), which makes
"exactly once" meaningful when the same message is delivered twice.

Foreign code is an environment with these contracts:

- The producer answers every input exactly once; it may hold any number of messages up to a bound
  of at least one (`producerRoom`).
- The group's `Consume` returns only after all its `ConsumeClaim` calls have; a claim starts at or
  below the last mark of its partition and delivers in log order; no claim starts after the
  context was cancelled. `Claim.left` is the number of messages a claim's channel will still
  deliver before it is closed; the environment fixes it when the claim starts.
- `Stop` returns, only when no request handler is running, and makes the request contexts done
  first.
- A call of `ProcessMessageFunc` returns, with or without an error; in particular it may fail
  because the context it is given was cancelled.
- The broker delivers key, value and headers as they were sent.
- The UUID parser, the HMAC, the JSON decoders, the TCP address validator and the outcome of each
  connection attempt are parameters: the results hold for all of them.

## What turned out false, and when it holds

- Group shutdown need not finish: a claim's send has no cancellation case while the workers have
  one. It is certain to finish exactly when the messages still to come fit in the free slots
  (`ShutdownCompletesIffFits`), and for every size a hang is reachable (`ShutdownCanHang`).
- A mark promises that a message was queued, not that it was stored. On return every marked
  delivery was stored, or its processing failed and was only logged, or it is left in the channel,
  exactly one of the three (`LossOnReturn`); so a run loses as many as its failed calls plus what
  is left (`LossOfARun`). What is left is at most a full channel, which is reached
  (`LossBoundIsReached`); with one worker the failures, and so the loss, have no bound, whatever
  the capacity (`LossIsUnboundedIffWorkers`), but shutdown itself adds no more than was in flight
  at the cancellation, less what it still stores (`ShutdownLoss`); it can lose all of that exactly
  when it can return at all (`ShutdownLossIsReachedIff`). A mark means "handed over" in every run exactly with an
  unbuffered channel (`MarkMeansHandedIffUnbuffered`), and "stored" exactly so among the runs
  without a failed call (`MarkMeansStoredIffUnbuffered`); over all runs it never means "stored",
  unless nothing can enter the channel at all (`MarkMeansStoredIffNothingEnters`).
- A worker of the partition consumer may log another worker's verdict, because all share one `err`;
  the log is right in every run exactly with one worker (`LogTrustworthyIffSingleWorker`).
- A webhook worker may read another's acknowledgement unless the producer holds at most one
  message at a time (`OwnAcknowledgementIffOneAtATime`); the counts are right regardless.
- A position may be queued twice, since a claim may start below the mark (`RedeliveryDuplicates`);
  it is queued exactly once when claims start at the mark (`ExactlyOnceUnderMarks`).
- An accepted request may be lost: its offer does not block, so one request more than the queue
  holds is enough (`DropReached`). Before the stop signal n accepted requests of a source are safe
  exactly if n is at most the queue's size (`NoLossIffRoom`); from then on offers may also find
  their context done, and nothing more is dropped exactly when `Stop` has returned and no offer is
  pending (`NothingMoreIsDroppedIff`).
- A detached offer may send on a closed queue; after `Stop` has returned this is impossible exactly
  when no offer is outstanding (`NoSendAfterCloseIffOffersDone`, `LateOfferIsPossible`).
- With a retry bound of zero the constructors report no error and have no connection
  (`NoErrorMeansConnectedIffRetries`).
- The delay after failure k is b·2^k exactly if that fits in 64 bits (`DelayIsExactIff`), and n
  failures sleep b·(2^n - 1) in total exactly if the last of their delays is exact (`TotalSleep`).
  So all accepted backoffs are exact for the first 28 delays and no more
  (`AcceptedDelaysAreExact`), the default one for 33. A delay is zero exactly if k is at least 64
  or 2^(64-k) divides the backoff (`DelayVanishesIff`), for one minute from k = 53 on
  (`MinuteVanishes`).
- A verdict of the partition consumer need not depend on the message alone: the drain on shutdown
  passes on a context that is already cancelled. The pool stores what a one-worker loop stores that
  finds the context cancelled for the same messages (`PoolRefinesSequentialLoop`); how many that can
  be is bounded (`LateWorkIsBounded`).
- `SEQUENCE_DIAGRAMS.md` lets the server answer 202 after Kafka acknowledged, and the consumer read
  the sender from the payload. The code answers before the message is even queued,
  and reads the sender from headers; the model follows the code.

## Model

| member | source | states |
|---|---|---|
| PartitionConsumer.DrainOnShutdown | internal/kafkacp/kafkaconsumer/kafkaconsumer.go:104-162 | a schedule that ends with the return has interrupted the consumer, closed `done` and the channel and let every worker leave; each non-nil message it delivered has exactly one outcome, of that message, and nothing panicked |
| PartitionConsumer.HistoryIsTheSchedules | internal/kafkacp/kafkaconsumer/kafkaconsumer.go:125-149 | for every schedule: what was received is what it delivered, in order; verdicts, their lateness, and the log lines (own verdict beside the last one of all) are those of its calls |
| PartitionConsumer.FeederRefusesNothing | internal/kafkacp/kafkaconsumer/kafkaconsumer.go:145-158 | in its select the feeder takes any message, nil or error, and may leave if and only if the interrupt has come |
| PartitionConsumer.FirstInFirstOut | internal/kafkacp/kafkaconsumer/kafkaconsumer.go:125-149 | at every moment the messages received are those taken, in order, then those queued, then the one in the feeder's hand; no send after close, no second close; taken equals finished plus in process |
| PartitionConsumer.BlockedFeederLeavesWorker | internal/kafkacp/kafkaconsumer/kafkaconsumer.go:125-149 | a feeder blocked in its send always leaves a worker able to step |
| PartitionConsumer.NeverStuck | internal/kafkacp/kafkaconsumer/kafkaconsumer.go:104-162 | no step is possible without a message, an error or the interrupt arriving if and only if the consumer is idle (nothing queued, held or being processed, before the interrupt) or `Consume` has returned |
| PartitionConsumer.RunsArePaidFor | internal/kafkacp/kafkaconsumer/kafkaconsumer.go:117-162 | the length of every run is bounded by the work at its start plus a constant for each thing the feeder receives |
| PartitionConsumer.ShutdownIsInevitable | internal/kafkacp/kafkaconsumer/kafkaconsumer.go:138-162 | after the feeder's cancel case every schedule is finite, and one that cannot be continued ends with `Consume` returned |
| PartitionConsumer.BoundedReordering | internal/kafkacp/kafkaconsumer/kafkaconsumer.go:125-134 | the p-th message finished was taken at most N-1 places later; a worker taking a message leaves at most N-1 earlier ones unfinished |
| PartitionConsumer.SingleWorkerKeepsOrder | internal/kafkacp/kafkaconsumer/kafkaconsumer.go:117-135 | with one worker messages are processed in the order received |
| PartitionConsumer.PoolRefinesSequentialLoop | internal/kafkacp/kafkaconsumer/kafkaconsumer.go:105-159 | if a verdict depends only on the message and on whether the context was cancelled, any N-worker run stores the multiset that a one-worker loop over the received sequence stores, with the context cancelled for the same messages |
| PartitionConsumer.LatenessCount | internal/kafkacp/kafkaconsumer/kafkaconsumer.go:105-132 | that loop finds the context cancelled as often as the pool did |
| PartitionConsumer.CancellationIsImmaterial | internal/kafkacp/kafkaconsumer/kafkaconsumer.go:125-132 | if a verdict depends only on the message, that loop does not depend on when the context was cancelled |
| PartitionConsumer.LateWorkIsBounded | internal/kafkacp/kafkaconsumer/kafkaconsumer.go:105-159 | the interrupt finds at most capacity + workers + 1 received messages unfinished; only these and what the feeder still receives are processed with a cancelled context |
| PartitionConsumer.OverwrittenVerdict | internal/kafkacp/kafkaconsumer/kafkaconsumer.go:125-132 | for any capacity and two or more workers, a reachable run in which a stored message is logged as failed |
| PartitionConsumer.LogTrustworthyIffSingleWorker | internal/kafkacp/kafkaconsumer/kafkaconsumer.go:87-132 | logged verdicts are the workers' own in every run if and only if there is one worker |
| PartitionConsumer.Consumer.Fire | internal/kafkacp/kafkaconsumer/kafkaconsumer.go:104-162 | every step of the feeder, the workers and the signal listener, on the channel and the fields they share, is the step of the system, the sends and closes that panic included |
| PartitionConsumer.Consumer.Consume | internal/kafkacp/kafkaconsumer/kafkaconsumer.go:86-167 | under any schedule the fields follow the step system and hold what the schedule delivered and its verdicts; on return each message of the schedule was processed exactly once |
| ConsumerGroup.NoGapUnderMarks | internal/kafkacp/kafkaconsumergroup/kafkaconsumergroup.go:106-113 | across any sessions and rebalances every position below a partition's mark was queued; the channel is never sent to after its close |
| ConsumerGroup.SessionsAreServed | internal/kafkacp/kafkaconsumergroup/kafkaconsumergroup.go:106-114 | whenever all open claims have ended, every message that any claim of any session of the schedule had to deliver is queued and below its mark |
| ConsumerGroup.SessionIsServed | internal/kafkacp/kafkaconsumergroup/kafkaconsumergroup.go:106-114 | the same for one session, from any reachable state in which it opens |
| ConsumerGroup.HistoryIsTheSchedules | internal/kafkacp/kafkaconsumergroup/kafkaconsumergroup.go:107-212 | for every schedule: only messages its sessions announced are queued, they leave the channel in that order, stores and failures are its calls' verdicts, and the return comes after the cancellation, the error handler's end and every worker's |
| ConsumerGroup.LoopFollowsContext | internal/kafkacp/kafkaconsumergroup/kafkaconsumergroup.go:192-207 | `Consume` is called again after every return of it, except after a failed one once the context was cancelled; a cancelled context ends the loop |
| ConsumerGroup.ExactlyOnceUnderMarks | internal/kafkacp/kafkaconsumergroup/kafkaconsumergroup.go:106-113 | if every claim starts exactly at the mark and a session has one claim per partition, each such position was queued exactly once, in any number of sessions |
| ConsumerGroup.RedeliveryDuplicates | internal/kafkacp/kafkaconsumergroup/kafkaconsumergroup.go:106-113 | a claim that starts below the mark queues a position twice |
| ConsumerGroup.EverythingQueuedIsMarked | internal/kafkacp/kafkaconsumergroup/kafkaconsumergroup.go:106-113 | conversely, except between a claim's send and its mark, everything ever queued is marked and below its mark |
| ConsumerGroup.MarksOnlyAdvance | internal/kafkacp/kafkaconsumergroup/kafkaconsumergroup.go:106-113 | no run moves a mark back |
| ConsumerGroup.LossBound | internal/kafkacp/kafkaconsumergroup/kafkaconsumergroup.go:147-183 | at every moment the marked deliveries not handed to `ProcessMessageFunc` are at most the channel's capacity plus the workers that have just taken one |
| ConsumerGroup.LossOnReturn | internal/kafkacp/kafkaconsumergroup/kafkaconsumergroup.go:106-224 | when `StartConsume` has returned, the marked deliveries are those stored, those whose call failed, and those left in the channel, pairwise disjoint; everything taken was handed over; at most a full channel is left; all marked ones are stored if and only if nothing is left and nothing failed |
| ConsumerGroup.LossOfARun | internal/kafkacp/kafkaconsumergroup/kafkaconsumergroup.go:147-183 | a run that returned lost as many marked deliveries as calls of `ProcessMessageFunc` returned an error, plus what is left in the channel |
| ConsumerGroup.ShutdownLoss | internal/kafkacp/kafkaconsumergroup/kafkaconsumergroup.go:147-212 | from the cancellation on the loss is exactly what had failed, what had no verdict and what is still to come, less what is still stored |
| ConsumerGroup.ShutdownLossIsReachedIff | internal/kafkacp/kafkaconsumergroup/kafkaconsumergroup.go:147-212 | all of that can be lost exactly when a return is possible at all: a worker has not left yet, or the messages to come fit |
| ConsumerGroup.LossIsUnboundedIffWorkers | internal/kafkacp/kafkaconsumergroup/kafkaconsumergroup.go:156-168 | for every n some run returns with n marked, none stored and the channel empty, if and only if there is a worker |
| ConsumerGroup.MarkMeansHandedIffUnbuffered | internal/kafkacp/kafkaconsumergroup/kafkaconsumergroup.go:106-183 | marked deliveries are handed over in every run that returned if and only if the channel has no buffer |
| ConsumerGroup.MarkMeansStoredIffUnbuffered | internal/kafkacp/kafkaconsumergroup/kafkaconsumergroup.go:106-183 | the same for storage, among the runs in which no call fails |
| ConsumerGroup.MarkMeansStoredIffNothingEnters | internal/kafkacp/kafkaconsumergroup/kafkaconsumergroup.go:106-183 | marked deliveries are stored in every run that returned if and only if there is neither a worker nor a buffer |
| ConsumerGroup.LossBoundIsReached | internal/kafkacp/kafkaconsumergroup/kafkaconsumergroup.go:106-183 | for every size a run returns with a full channel of marked messages that no worker took |
| ConsumerGroup.MarkedPositionsAreHanded | internal/kafkacp/kafkaconsumergroup/kafkaconsumergroup.go:106-183 | every position below a mark was handed to `ProcessMessageFunc`, except for one set of positions no larger than the loss bound; on return each of the others was stored or failed |
| ConsumerGroup.RunAfterCancel | internal/kafkacp/kafkaconsumergroup/kafkaconsumergroup.go:125-212 | after cancellation every schedule is bounded by the work left and the errors it logs, and messages to come that fit keep fitting |
| ConsumerGroup.OverfullShutdownCanHang | internal/kafkacp/kafkaconsumergroup/kafkaconsumergroup.go:107-181 | if they do not fit, a schedule ends with all workers gone, the channel full, a claim blocked in its send and nothing enabled |
| ConsumerGroup.ShutdownCompletesIffFits | internal/kafkacp/kafkaconsumergroup/kafkaconsumergroup.go:107-212 | after cancellation every schedule that cannot be continued has all goroutines exited if and only if the messages to come fit in the free slots |
| ConsumerGroup.ShutdownCanHang | internal/kafkacp/kafkaconsumergroup/kafkaconsumergroup.go:107-212 | for every worker count and capacity a hanging cancelled state is reachable |
| ConsumerGroup.BackPressureResolves | internal/kafkacp/kafkaconsumergroup/kafkaconsumergroup.go:106-181 | before cancellation a claim blocked on a full channel leaves a worker able to step |
| ConsumerGroup.NeverStuck | internal/kafkacp/kafkaconsumergroup/kafkaconsumergroup.go:106-207 | before cancellation no step is possible without the broker, an error or the signal if and only if the consumer is idle |
| ConsumerGroup.Consumer.Fire | internal/kafkacp/kafkaconsumergroup/kafkaconsumergroup.go:106-212 | every step of the claims, the workers, the consume loop, the sessions and the error handler, on the channel and the fields they share, is the step of the system |
| ConsumerGroup.Consumer.StartConsume | internal/kafkacp/kafkaconsumergroup/kafkaconsumergroup.go:117-224 | under any schedule the fields follow the step system, no position below a mark was skipped, all that its sessions announced, and nothing else, is queued once their claims have ended, and on return every marked delivery is stored, failed or left in the channel, with the loss equal to the failed calls plus what is left |
| WebhookPipeline.AcknowledgementsMatchWaiters | cmd/webhookserver/main.go:138-195 | messages given to the producer minus results read equals the workers waiting in their select, over both pools; at most twice the worker count is in flight |
| WebhookPipeline.WaiterIsServed | cmd/webhookserver/main.go:150-161 | a waiting worker always has a result to read, or one is on its way |
| WebhookPipeline.ResultHasReader | cmd/webhookserver/main.go:180-191 | no result is left without a worker to read it |
| WebhookPipeline.OwnAcknowledgementIffOneAtATime | cmd/webhookserver/main.go:147-192 | workers read only their own message's result, in every run, if and only if the producer holds at most one message |
| WebhookPipeline.ForeignAcknowledgement | cmd/webhookserver/main.go:147-192 | a reachable state in which a GitHub worker can read a GitLab message's result |
| WebhookPipeline.HistoryIsTheSchedules | cmd/webhookserver/main.go:79-218 | for every schedule: each source has accepted, dropped and queued, in order, the schedule's own requests for it; results answered and read are the schedule's; a run panics if and only if it sends on a queue after its close; stop, both closes and return come in this order |
| WebhookPipeline.AcceptsUntilStopped | internal/transport/http/githubwebhookhandler/githubwebhookhandler.go:157-177 | whatever the queues and workers are doing, any request can be accepted until `Stop` has returned, and none after |
| WebhookPipeline.SourceConservation | internal/transport/http/githubwebhookhandler/githubwebhookhandler.go:157-177 | every copy of a message that a schedule has a source accept is offered, dropped, or has entered that source's queue |
| WebhookPipeline.RequestConservation | cmd/webhookserver/main.go:79-195 | over both sources every such copy is offered, dropped, queued, in a worker, in the producer, answered or read; queues never exceed their size |
| WebhookPipeline.NoLossIffRoom | internal/transport/http/gitlabwebhookhandler/gitlabwebhookhandler.go:159-176 | before the stop signal, n accepted requests of a source are safe from being dropped, in every run, if and only if its queue has room for n |
| WebhookPipeline.DropReached | internal/transport/http/githubwebhookhandler/githubwebhookhandler.go:157-174 | for every queue size and worker count a run that accepts one request more drops one |
| WebhookPipeline.NothingMoreIsDroppedIff | internal/transport/http/githubwebhookhandler/githubwebhookhandler.go:157-174 | from any moment on no schedule drops anything more if and only if `Stop` has returned and no offer is pending |
| WebhookPipeline.QueueOrder | cmd/webhookserver/main.go:147-162 | messages of one source leave its queue in the order in which they entered, each is given to the producer once, and the p-th one given was taken at most N-1 places later |
| WebhookPipeline.SingleWorkerKeepsOrder | cmd/webhookserver/main.go:147-162 | with one worker the producer is given a source's messages in the order in which they entered |
| WebhookPipeline.BusyWorkerProceeds | cmd/webhookserver/main.go:147-193 | in every phase a worker with a message in hand or waiting for a result leaves an input to the producer, a read or an answer possible |
| WebhookPipeline.NeverStuck | cmd/webhookserver/main.go:133-217 | for any room of the producer: no step is possible without a request or the stop signal if and only if the server is idle, or `Run` has returned and no offer is pending |
| WebhookPipeline.RunsArePaidFor | cmd/webhookserver/main.go:138-217 | every run free of panics is bounded by the work at its start and the requests accepted during it |
| WebhookPipeline.ReturnMeansAllAnswered | cmd/webhookserver/main.go:147-217 | when `Run` returns, the multiset of results read equals that of all messages that ever entered a queue, and nothing is left anywhere |
| WebhookPipeline.ShutdownAnswersEverything | cmd/webhookserver/main.go:204-217 | after `Stop` every schedule without a send on a closed queue is finite and, when it cannot be continued, `Run` has returned with every accepted message dropped or answered |
| WebhookPipeline.NoSendAfterCloseIffOffersDone | cmd/webhookserver/main.go:204-208 | after `Stop` no schedule sends on a closed queue if and only if no detached offer is outstanding |
| WebhookPipeline.LateOfferIsPossible | internal/transport/http/githubwebhookhandler/githubwebhookhandler.go:157-174 | for all sizes a send on a closed queue is reachable |
| WebhookPipeline.Side.Step | cmd/webhookserver/main.go:147-162 | every step of a source's handlers, offers and workers on its channel and fields is the step of its lane; it panics exactly when it sends on the closed channel |
| WebhookPipeline.Server.Fire | cmd/webhookserver/main.go:133-218 | every step of either source, the producer and the signal goroutine, on what they share, is the step of the system |
| WebhookPipeline.Server.Run | cmd/webhookserver/main.go:133-221 | under any schedule the fields follow the step system, each source's account is that of the schedule's requests for it, in-flight work is bounded, on return everything that entered a queue was answered, and with no offer pending the requests of the schedule are those dropped plus those read |
| GitHub.PrepareGitHubPayload | internal/storage/githubstorage/githubstorage.go:61-129 | the loop fails exactly if the key is no UUID, a target or hook id is no unsigned or a sender id no signed 64-bit decimal, reporting the first such header |
| GitHub.RowMeans | internal/storage/githubstorage/githubstorage.go:85-128 | payload, position and each text column are the message's, the last value of the column's key or empty |
| GitHub.NumbersMean | internal/storage/githubstorage/githubstorage.go:94-122 | each number column is the number in the last header of its key, or zero |
| GitHub.HeaderOrderIsIrrelevant | internal/storage/githubstorage/githubstorage.go:85-124 | permuting headers with distinct keys changes neither verdict nor row |
| GitHub.Handle | internal/transport/http/githubwebhookhandler/githubwebhookhandler.go:41-178 | 202 with one message, field by field, exactly if the signature is the body's, with or without its prefix, body and all five headers are not empty, the payload decodes and names a sender with login and id; else 400 and none |
| GitHub.EncodedParses | internal/transport/http/githubwebhookhandler/githubwebhookhandler.go:143-155 | what the handler writes parses if and only if target and hook id are unsigned 64-bit decimals |
| GitHub.RoundTrip | internal/storage/githubstorage/githubstorage.go:66-128 | the storage accepts the message of a request if and only if the request is signed and complete as above, its delivery id is a UUID and both ids are unsigned decimals; then every column is the request's |
| GitLab.PrepareGitLabPayload | internal/storage/gitlabstorage/gitlabstorage.go:61-130 | the loop fails exactly if the key or a webhook id is no UUID or a project or user id other than empty and 0 is no signed 64-bit decimal, reporting the first such header |
| GitLab.RowMeans | internal/storage/gitlabstorage/gitlabstorage.go:76-128 | payload, position and each text column are the message's, the last value of the column's key that is not empty, or NULL; the kind is the last one, or empty |
| GitLab.NumbersMean | internal/storage/gitlabstorage/gitlabstorage.go:81-124 | each id column is the number in the last header of its key that is neither empty nor 0, or NULL; the webhook id that in the last header, or zero |
| GitLab.HeaderOrderIsIrrelevant | internal/storage/gitlabstorage/gitlabstorage.go:76-125 | permuting headers with distinct keys changes neither verdict nor row |
| GitLab.TextChain | internal/transport/http/gitlabwebhookhandler/gitlabwebhookhandler.go:97-135 | a text fallback chain yields its first non-empty candidate, empty only if all are |
| GitLab.NumberChain | internal/transport/http/gitlabwebhookhandler/gitlabwebhookhandler.go:109-129 | an id fallback chain yields its first non-zero candidate, zero only if all are |
| GitLab.Handle | internal/transport/http/gitlabwebhookhandler/gitlabwebhookhandler.go:37-180 | 200 with one message exactly if the token is the secret, body and both ids are not empty, the payload decodes and has an object kind or event name; else 400 and none; every header is given by the payload's own fields, in the order of the fallbacks |
| GitLab.EncodedParses | internal/transport/http/gitlabwebhookhandler/gitlabwebhookhandler.go:144-157 | what the handler writes parses if and only if the webhook id is a UUID |
| GitLab.RoundTrip | internal/storage/gitlabstorage/gitlabstorage.go:66-129 | the storage accepts the message of a request if and only if the request is such and both ids are UUIDs; then every column is the first usable field of the payload, with NULL if there is none |
| Headers.LastIsLast | internal/storage/gitlabstorage/gitlabstorage.go:76-125 | the lookup is the last header with the key whose value is not skipped |
| Headers.LastMeans | internal/storage/gitlabstorage/gitlabstorage.go:76-125 | the lookup is the value at the last position with the key, not counting skipped texts |
| Headers.LastPermutes | internal/storage/githubstorage/githubstorage.go:85-124 | permuting headers with distinct keys changes no lookup |
| Decimal.IntRoundTrip | internal/transport/http/gitlabwebhookhandler/gitlabwebhookhandler.go:152-155 | every 64-bit integer, the smallest included, is read back as printed |
| Decimal.UintRoundTrip | internal/storage/githubstorage/githubstorage.go:95-112 | every unsigned number below 2^64 is read back as printed, and no larger one |
| Decimal.ParseUintMeans | internal/storage/githubstorage/githubstorage.go:95-112 | a text is read exactly if it is digits only, at least one, with a value by position below 2^64, and gives that value |
| Decimal.ParseIntMeans | internal/storage/githubstorage/githubstorage.go:116 | the same with at most one sign and the signed 64-bit range |
| Decimal.FormatIntMeans | internal/transport/http/gitlabwebhookhandler/gitlabwebhookhandler.go:152-155 | a number prints as the one text of digits without leading zero that stands for its magnitude, after a minus sign if negative |
| Decimal.SkippedTexts | internal/storage/gitlabstorage/gitlabstorage.go:93-95 | of all numbers only zero prints as a text the storage skips |
| Retry.Connect | internal/kafkacp/kafkaproducer/kafkaproducer.go:218-245 | error, connection and attempts are those of the loop described by `AttemptMeans`; one sleep per failure, the k-th for b·2^k reduced to 64 bits once |
| Retry.AttemptMeans | internal/kafkacp/kafkaproducer/kafkaproducer.go:218-245 | the loop stops at the first success; without one it uses up the bound and has an error exactly if it tried |
| Retry.NoErrorMeansConnectedIffRetries | internal/kafkacp/kafkaconsumer/kafkaconsumer.go:382-411 | whatever the attempts return, the loop ends with an error or a connection, if and only if the bound is positive |
| Retry.DelayIsExactIff | internal/storage/githubstorage/githubstorage.go:136-151 | for every backoff the k-th delay is b·2^k if and only if that fits in 64 bits, and then so are all before it; otherwise a positive backoff sleeps less |
| Retry.DelayIsReduced | internal/storage/githubstorage/githubstorage.go:136-151 | for every backoff and index the delay is the one signed 64-bit number that differs from b·2^k by a multiple of 2^64 |
| Retry.WithBackoff | internal/kafkacp/kafkaconsumer/kafkaconsumer.go:282-302 | a backoff is taken as it is exactly if it is positive and at most a minute; zero and the rest are told apart |
| Retry.WithMaxRetries | internal/kafkacp/kafkaconsumer/kafkaconsumer.go:304-317 | a retry bound is taken as it is exactly if it fits in eight bits |
| Retry.AcceptedDelaysAreExact | internal/kafkacp/kafkaconsumer/kafkaconsumer.go:282-302 | delay k is exact for every accepted backoff if and only if k is at most 27 |
| Retry.MinuteOverflows | internal/kafkacp/kafkaconsumer/kafkaconsumer.go:282-302 | with the largest accepted backoff delay 28 is wrong and negative |
| Retry.DefaultDelaysAreExact | internal/storage/storage.go:13-14 | the default backoff is exact if and only if k is at most 32 |
| Retry.DelayVanishesIff | internal/kafkacp/kafkaconsumergroup/kafkaconsumergroup.go:567-589 | for every backoff delay k is zero if and only if k is at least 64 or 2^(64-k) divides the backoff |
| Retry.MinuteVanishes | internal/kafkacp/kafkaconsumer/kafkaconsumer.go:282-317 | with the largest accepted backoff a delay is zero if and only if its index is at least 53, well within the accepted retries |
| Retry.TotalSleep | internal/storage/githubstorage/githubstorage.go:136-152 | for every backoff and any number n of failures the delays add up to b·(2^n - 1) if and only if n is zero or the last delay is exact; otherwise a positive backoff sleeps less |
| Retry.AcceptedTotalIsExact | internal/kafkacp/kafkaconsumer/kafkaconsumer.go:282-302 | n failures sleep exactly b·(2^n - 1) for every accepted backoff if and only if n is at most 28 |
| Brokers.KafkaBrokers.AddFromString | internal/kafkacp/kafkacp.go:101-109 | appends the valid pieces in order; nil stays nil only without any |
| Brokers.KafkaBrokers.String | internal/kafkacp/kafkacp.go:66-73 | the pieces joined by commas |
| Brokers.KafkaBrokers.IsValid | internal/kafkacp/kafkacp.go:76-88 | not nil, and every address valid |
| Brokers.KafkaBrokers.ToStringSlice | internal/kafkacp/kafkacp.go:91-98 | the same list |
| Brokers.JoinSplit | internal/kafkacp/kafkacp.go:66-109 | joining undoes splitting for every string |
| Brokers.SplitJoin | internal/kafkacp/kafkacp.go:66-109 | splitting undoes joining for every non-empty list of comma-free strings |
| Brokers.PrintParseRoundTrip | internal/kafkacp/kafkacp.go:66-109 | for every string, printing the parsed list and parsing again gives the same list |
| Brokers.ParseAppends | internal/kafkacp/kafkacp.go:101-109 | parsing two strings joined by a comma appends their parses |
| Brokers.ParseOne | internal/kafkacp/kafkacp.go:101-109 | a string without a comma is one piece, kept exactly if it is not empty and validates |
| Brokers.JoinAppends | internal/kafkacp/kafkacp.go:66-73 | joining puts one comma between neighbours |
| Brokers.WithKafkaBrokers | internal/kafkacp/kafkaproducer/kafkaproducer.go:68-84 | accepts a string if and only if some piece is not empty and validates, and keeps exactly such pieces |

## Left out

- Goroutines run as threads of steps, each atomic on the shared fields; the classes' methods take
  the next event from a schedule, since Dafny has no threads of its own.
- The loops of feeder, workers and claims appear as repeated steps, not as Dafny loops.
- The data race on `err` is modelled as separate atomic assign and test steps; torn values are not.
- A panic ends the process; the model only records that it happened and continues.
- `ConsumePartition` failing at the start of `Consume`, and `Close` failing at the end of `StartConsume`: single returns.
- Other members of the consumer group: marks and claims are those of one process.
- Committing of marks to the broker, and offsets lost when a commit fails.
- Request buffers that fasthttp may reuse: a queued message is an immutable value.
- `server.Start` and `server.Stop` failures, whose reporting tests a different variable.
- TCP addresses, UUID text, HMAC and JSON, beyond being parameters; text is a sequence of characters, not bytes.
- The width of database columns, which is narrower than a uint64 id, and the SQL statements.
- The route table, option setters other than backoff, retries and brokers, environment parsing, logging text, health check and migrations.
- Real time: delays are numbers, and a negative delay sleeps not at all.
