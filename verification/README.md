# Outbox, broker, inbox: a verified model of the messaging services

Two services deliver messages to a webhook. The sender keeps them in a document store (the outbox)
and a scheduler publishes the unsent ones to a broker. The processor takes copies off the main queue
one by one, asks an inbox of processed ids, calls the webhook, and marks the message sent, puts its
copy into a retry queue that returns it after a fixed delay, or moves it to a dead-letter queue. A
monitor gives up on messages that stay in processing for four minutes. Four writers touch one status
field, copies cycle through two queues while sharing a retry counter, and two clocks interact.

The project states that protocol once and proves its guarantees in whole runs.

## How it is laid out

- `Messages`, `Delivery`: the stores as values, and one delivery, one outbox sweep and one stale sweep
  as sequences of port calls (`Step`, `Finish`, `Serve`, `SendAll`, `RecoverAll`). Every port call gets a
  reply: it took effect, it was refused, or it took effect and its reply was lost.
- `Adapters`, `Services`: the repository, the queues, the inbox, the webhook client and both services
  as classes whose methods change fields in place. Each handler is proved equal to those functions.
- `Protocol`: the fine machine. Every port call is a step of its own; any number of consumers, scheduler
  runners and monitors interleave with retry expiry, the clock and new messages; every call may be refused
  or lose its reply; every actor may crash between any two calls; other publishers may put anything into
  the main queue. An action that is not enabled changes nothing, so every sequence of actions is a run.
  `History` records what has happened (webhook checks, marks, lost increments, ends of copies); no step reads it.
- `Safety`, `Documents`, `Retries`, `Once`, `Outbox`: the invariants of the fine machine. `Guarantees`
  draws the theorems from them.
- `Atomic`: the coarse machine. One handler call, one sweep or one expiry is one event; one runner, one
  consumer, one monitor, and no fault but a webhook error. `ExactlyOnce`, `WorkBound` and `Timing` hold its theorems.
- `Sweeps`, `Refinement`, `Recovery`: whole sweeps and deliveries are runs of the fine machine, every run
  of the coarse machine is one too, and fault-free sweeps recover the system from any reachable state.
- `Conduct`, `Stamps`, `Records`: what a delivery returns and how the loop goes on, under any replies; what any
  step of the fine machine does to a document; and that its history is a true record.
- `Scheduler`: starting and stopping the scheduler, with the test and the write of `isRunning` as two steps.
- `Pace`, `Slow`: how often and how fast a message can be attempted, and exactly when a slow consumer lets
  it go stale, in the coarse machine.
- `Republish`, `Limits`: exactly when the outbox can publish a message again, and exactly for how many
  consumers the retry limit and the inbox keep what they promise, in the fine machine.
- `Losses`, `Finality`: exactly when a delivery loses its copy, and exactly when a sent message can be marked as
  something else again, in the fine machine.
- `Counting`, `Runs`: counting in sequences, and induction over runs.

## Where the code and its documentation differ

The model follows the code.

- README.md:57 says that messages are published exactly once. The code publishes and then updates the
  status, so a message whose update fails is published again, without any bound (`PublishedAnyNumberOfTimes`).
  From any state a message can be published, or published once more, exactly if it is unsent (or does not
  exist yet) or some runner has still to publish it (`PublishableIff`). With one runner all publishes of a message
  but one are publishes whose update did not go through (`PublishedOnceConfirmed`).
- README.md:196 says that retries back off exponentially. The retry queue has one TTL of 10 seconds: a
  message can be attempted k times exactly 10 seconds apart if and only if it can be attempted k times at
  all (`PaceIsFixed`), and never faster (`AttemptsSpaced`).
- The copy is acked before it is handled. The `Nack` with requeue that follows an inbox or repository error
  settles the same delivery tag a second time, which is a channel error (AMQP 0-9-1, section 1.8.3.13),
  so it cannot put the copy back: the stores stay as the error left them (`NackPutsNothingBack`). A turn leaves no
  trace of the copy of a stored message if and only if its ack took effect and its replies are among
  those `Loses` lists (`CopyLostIff`). One failed inbox check is enough (`FailedCheckLosesCopy`): the message is in
  processing with no copy, no delivery and no dead letter, and only the monitor is left to find it. Nothing but a copy
  dropped by an error or a crash loses a message (`OnlyDropsLose`), and no run has that happen if and only if there is
  no consumer (`LosesNothingIff`).
- A dead-letter publish that fails is only logged, and the message is marked failed all the same
  (`FailsWithoutDeadLetter`, `BuriesAllIff`).
- A sent message is not always final: it can be marked as something else again if and only if somebody has still
  business with it, be it a late update of its runner, a monitor that has found it, or another copy (`SentIsFinalIff`).
- The dead letter the monitor writes does not carry the recipient.
- A message the monitor has dead-lettered can still be delivered by a copy that waited in the main queue.
  With waiting times up to `slack` that can happen if and only if an attempt is allowed at all and `slack`,
  plus the retry delay if two attempts or more are allowed, exceeds four minutes (`BothIffSlow`); the same
  waiting time decides whether any message can go stale (`StaleIffSlow`).
- The processor can be run more than once, but the retry limit and the inbox are kept for one consumer only
  (`LimitKeptIff`, `DeliversOnceIff`); with n consumers the limit can be passed by n - 1 (`LimitIsReached`).
- `isRunning` is not guarded: two overlapping calls of `Start` leave a runner that no `Stop` ends
  (`OverlappingStartsLeak`). One runner for the flag and one for each waiting `Stop` is what there is, all along a
  run, if and only if no write of `isRunning` is redundant (`AlwaysBalancedIff`), which calls that do not overlap
  ensure (`RunnersBalanced`). Even these can have two runners sweep at once (`RestartRunsBesideSweep`): there is
  never a second runner if and only if no `Start` takes effect while a `Stop` is waiting (`NeverTwoIff`).

## Model

The rows of `Adapters`, `Services`, `Delivery` and `Scheduler.MessageScheduler`, with `Scheduler.RunnersExitBetweenSweeps`,
tie the model to the source; the results are the others.

| member | source | states |
|---|---|---|
| Adapters.MessageRepository.FindUnsentMessages | shared/adapters/message_repository_adapter.go:86-109 | an error, or some answer to "unsent messages, at most `limit`, in any order": distinct, current, unsent, within the limit, and complete when the limit is not reached; a limit of 0 is no limit |
| Adapters.MessageRepository.FindStaleProcessingMessages | shared/adapters/message_repository_adapter.go:179-199 | an error, or exactly the messages in processing that were updated more than four minutes ago, each once and as stored |
| Adapters.MessageRepository.CreateMessage | shared/adapters/message_repository_adapter.go:159-162 | one document is added if the call took effect and the id is free, no other changes; a taken id is an error |
| Adapters.MessageRepository.GetByID | shared/adapters/message_repository_adapter.go:147-157 | a missing document is no error, but no document either |
| Adapters.MessageRepository.UpdateStatus | shared/adapters/message_repository_adapter.go:111-128 | status and update time of that document alone, if the call took effect; no document is no error |
| Adapters.MessageRepository.IncrementRetryCount | shared/adapters/message_repository_adapter.go:130-145 | if the call took effect the count of that document goes up by one, its update time is the clock and its status stays, and no other document changes |
| Adapters.MessageQueue.PublishMessage | shared/adapters/message_queue_adapter.go:147-165 | the copy goes to the end of the main queue, the other queues are untouched |
| Adapters.MessageQueue.MoveToDeadLetter | shared/adapters/message_queue_adapter.go:179-197 | the body as delivered goes to the end of the dead-letter queue |
| Adapters.MessageQueue.MoveToRetryQueue | shared/adapters/message_queue_adapter.go:199-217 | the body as delivered goes to the end of the retry queue, dated now |
| Adapters.IdempotencyService.IsProcessed | shared/adapters/idempotency_service_adapter.go:41-66 | true exactly for ids with a mark that has not expired |
| Adapters.IdempotencyService.MarkAsProcessed | shared/adapters/idempotency_service_adapter.go:68-87 | the mark of that id alone is set, for 24 hours from now |
| Adapters.WebhookClient.SendMessage | processor_service/internal/infrastructure/webhook/http_client.go:56-115 | each request is on record with the text it carried and whether a success came back |
| Services.ProcessorService.Start | processor_service/internal/application/service/processor_service.go:48-68 | the consumer's loop comes to serving the head of the main queue turn after turn: while the ids in the queue are stored, whatever errors the handlers return, every turn whose ack takes effect takes the next copy |
| Services.ProcessorService.ProcessMessage | processor_service/internal/application/service/processor_service.go:75-89 | ack first, then handling; a failed ack leaves the copy with the broker and does not stop the handling |
| Services.ProcessorService.HandleMessageProcessing | processor_service/internal/application/service/processor_service.go:91-140 | under any replies the whole delivery equals the chain of port calls the fine machine takes one at a time |
| Services.ProcessorService.HandleMalformedMessage | processor_service/internal/application/service/processor_service.go:142-147 | the rest of the delivery from the dead-letter publish of a body that cannot be read |
| Services.ProcessorService.HandleDuplicateMessage | processor_service/internal/application/service/processor_service.go:149-161 | the rest of the delivery of a processed id: a duplicate status and no error, or an error for an id that is no hex |
| Services.ProcessorService.HandleInvalidID | processor_service/internal/application/service/processor_service.go:163-168 | the rest of the delivery from the dead-letter publish of a body with an id that is no hex |
| Services.ProcessorService.HandleMaxRetriesReached | processor_service/internal/application/service/processor_service.go:170-178 | dead letter, then failed, whether or not the publish worked |
| Services.ProcessorService.HandleStaleMessage | processor_service/internal/application/service/processor_service.go:180-188 | dead letter, then failed, whether or not the publish worked |
| Services.ProcessorService.GiveUp | processor_service/internal/application/service/processor_service.go:209-217 | the tail the giving-up paths share equals the last two port calls of a delivery |
| Services.ProcessorService.HandleWebhookError | processor_service/internal/application/service/processor_service.go:190-226 | the rest of the delivery from the increment: count, processing, re-read, then give up at the limit or requeue; an error in between ends it |
| Services.ProcessorService.RetryOrGiveUp | processor_service/internal/application/service/processor_service.go:203-225 | the rest of the delivery from the second read: give up at the limit, requeue below it, on the count as it is then stored |
| Services.ProcessorService.HandleSuccessfulProcessing | processor_service/internal/application/service/processor_service.go:228-239 | the rest of the delivery from the inbox mark: if that fails, an error and no status; nil only if both calls succeed |
| Services.ProcessorService.CheckStaleMessages | processor_service/internal/application/service/processor_service.go:257-272 | the sweep over exactly the stale messages equals `RecoverAll`, under any replies; a find that fails ends it with an error and no change |
| Services.ProcessorService.HandleStaleMessageRecovery | processor_service/internal/application/service/processor_service.go:274-297 | dead letter without recipient, and failed only if that publish reported success |
| Services.SenderService.CreateMessage | sender_service/internal/application/service/sender_service.go:39-47 | a new unsent message with no retries, with the text as given, created and updated now, under the id the store chooses; or an error if the insert fails |
| Services.SenderService.ProcessUnsentMessages | sender_service/internal/application/service/sender_service.go:109-128 | the sweep over an answer to the unsent query equals `SendAll`, under any replies; a find that fails ends it with an error and no change |
| Services.SenderService.HandleMessage | sender_service/internal/application/service/sender_service.go:130-151 | publish, and processing only if the publish reported success |
| Conduct.ReturnIs | processor_service/internal/application/service/processor_service.go:75-140 | for all replies: a delivery panics if and only if a read succeeds and finds no document, returns nil if and only if it skips a duplicate or delivers the message and records the mark and the status, and otherwise returns an error |
| Conduct.SkipWrites | processor_service/internal/application/service/processor_service.go:149-161 | for all replies: a skipped copy leaves the duplicate status, if that update takes effect, and nothing else |
| Conduct.RefusalWrites | processor_service/internal/application/service/processor_service.go:170-188 | for all replies: a copy the gate refuses leaves its dead letter and the failed status, each if its call takes effect and whatever becomes of the other, and nothing else |
| Conduct.DeliveryWrites | processor_service/internal/application/service/processor_service.go:126-140 | for all replies: a delivered copy leaves the call with the stored text, the mark for 86,400,000 ms if that takes effect, the sent status only if the mark reported success, and nothing else |
| Conduct.PoisonIsBuried | processor_service/internal/application/service/processor_service.go:142-168 | for all replies: a body that cannot be decoded, or whose id is no hex, goes to the dead-letter queue if that publish takes effect, and nothing else happens |
| Conduct.ServesEveryTurn | processor_service/internal/application/service/processor_service.go:58-67 | for all replies: while the ids in the queue are stored, exactly as many copies leave the main queue, from the front, as acks take effect, so no handler error stops the loop |
| Conduct.MissingDocumentStops | processor_service/internal/application/service/processor_service.go:111-126 | a copy of a document that is not stored, once read, ends the loop, and no store but the main queue has changed |
| Stamps.ChangedIsDated | shared/adapters/message_repository_adapter.go:111-145 | fine: a document any step changes or creates carries the clock as its update time; a step changes one document at most, and of it either the status or the retry count, by one |
| Stamps.CreatedAsGiven | sender_service/internal/domain/sender.go:21-30 | fine: a message is created unsent, with no retries and dated by the clock, and keeps its text and creation time along any run |
| Stamps.DatedAlways | sender_service/internal/domain/sender.go:21-30 | fine: in every reachable state a document was last updated between its creation and now |
| Stamps.SentMeansMarked | processor_service/internal/application/service/processor_service.go:228-239 | fine, any number of consumers, all faults: a message is marked sent only after its id has been put into the inbox |
| Records.ExceptionsNeedFaults | processor_service/internal/application/service/processor_service.go:75-239 | fine: what the guarantees except (an unwritten dead letter, a lost increment, a missing mark, a copy delivered twice or dropped) a step without a crash or a failed call does not add, save for a copy of a document that is not stored |
| Records.PublishesCounted | sender_service/internal/application/service/sender_service.go:130-151 | fine: a publish is counted if and only if the main queue gains a copy of the message, and a confirmation if and only if its update to processing takes effect |
| Records.ReturnsNoEarlier | shared/adapters/message_queue_adapter.go:90-103 | fine: a copy leaves the retry queue from the front, not before 10,000 ms have passed, with its body as it was, and goes to the end of the main queue |
| Records.DuplicateIffMarkedToday | shared/adapters/idempotency_service_adapter.go:41-87 | fine, all faults: an id counts as processed if and only if a mark of one of its calls was written less than 24 hours ago |
| Delivery.ServesInOrder | processor_service/internal/application/service/processor_service.go:58-67 | the loop takes copies off the front of the main queue in order and none comes back there |
| Safety.SentStep | processor_service/internal/application/service/processor_service.go:102-139 | every step of every actor keeps: sent, duplicate and an inbox mark imply a successful webhook call, and so does standing past the call |
| Safety.FailedStep | processor_service/internal/application/service/processor_service.go:170-217 | every step keeps: failed implies a dead letter or a refused one, and a monitor about to write failed has written its dead letter |
| Safety.CopiesStep | processor_service/internal/application/service/processor_service.go:75-226 | every step keeps the books of copies of a body: put in and redelivered equals in queues, in hand and ended |
| Documents.OnwardStep | shared/adapters/message_repository_adapter.go:111-162 | no step loses a document, changes its text, lowers its retry count or makes it unsent again |
| Documents.QuotesStep | processor_service/internal/application/service/processor_service.go:111-126 | every step keeps: what consumers, runners and past calls quote from a document is what it says |
| Documents.GenuineStep | sender_service/internal/application/service/sender_service.go:130-151 | while the sender alone publishes, every step keeps: each copy was written for a stored document and no delivery dereferences a missing one |
| Retries.RetryStep | processor_service/internal/application/service/processor_service.go:111-217 | every step keeps: retry count plus consumers between reading a count below the limit and incrementing it is within the limit |
| Retries.FailuresStep | processor_service/internal/application/service/processor_service.go:190-201 | every step keeps: failed calls are counted, lost with their increment, or about to be counted |
| Once.OnceStep | processor_service/internal/application/service/processor_service.go:96-139 | every step keeps: a call's inbox check came before a mark for its id or a full inbox lifetime after it, for any number of consumers |
| Once.OneStep | processor_service/internal/application/service/processor_service.go:58-67 | with one consumer every step keeps: a mark precedes the check of the next call, and a successful call is marked, about to be, or recorded as unmarked |
| Outbox.OutboxStep | sender_service/internal/application/service/sender_service.go:109-151 | every step keeps: runners that still want a message plus its confirmed publishes are at most the runners |
| Guarantees.SentMeansDelivered | processor_service/internal/application/service/processor_service.go:102-239 | fine, any number of actors, all faults: sent or duplicate only after the webhook accepted the message |
| Guarantees.FailedMeansDeadLettered | processor_service/internal/application/service/processor_service.go:170-297 | fine, all faults: a failed message has a dead letter naming it, unless a consumer's publish of it failed |
| Guarantees.MonitorBuriesFirst | processor_service/internal/application/service/processor_service.go:286-293 | fine, all faults: a monitor about to mark a message failed has its dead letter in the queue, so the monitor never needs that exception |
| Guarantees.RetriesBounded | processor_service/internal/application/service/processor_service.go:190-217 | fine: the retry count is at most the limit with one consumer, and at most limit - 1 + N with N; 0 if the limit is not positive |
| Guarantees.FailuresCounted | processor_service/internal/application/service/processor_service.go:190-201 | fine: failed webhook calls of an id equal its retry count, plus lost increments, plus pending ones |
| Guarantees.MarkKeepsCallsApart | shared/adapters/idempotency_service_adapter.go:41-87 | fine, N consumers: any two calls for one id, the first marked, have the second's check before that mark or 24 hours after it |
| Guarantees.DeliveredOncePerInboxLifetime | processor_service/internal/application/service/processor_service.go:96-239 | fine, one consumer, all faults and crashes: after a success another call for the id means the mark failed or was cut off, or its check came 24 hours after the mark |
| Guarantees.CopiesConserved | processor_service/internal/application/service/processor_service.go:75-226 | fine: per body, copies published and redelivered equal copies in main, in retry, in hand, and delivered, skipped, dead-lettered or dropped; dead letters equal copies moved plus monitor recoveries |
| Guarantees.PublishedOnceConfirmed | sender_service/internal/application/service/sender_service.go:109-151 | fine: at most one publish of a message per runner is followed by its update to processing, so with one runner all but one are unconfirmed; an unsent message has none |
| Guarantees.CopiesNameDocuments | processor_service/internal/application/service/processor_service.go:111-126 | fine, the sender the only publisher: every copy in a queue or in hand carries the text of a stored document, and no delivery dereferences a missing one |
| Guarantees.CallsQuoteDocuments | processor_service/internal/application/service/processor_service.go:126-129 | fine: whatever is in the queues, a webhook call carries the text its document had at any earlier time |
| Guarantees.OnwardRun | shared/adapters/message_repository_adapter.go:111-162 | fine: along a run documents keep their text, never lose retries and never return to unsent |
| Sweeps.RecoverAllSweeps | processor_service/internal/application/service/processor_service.go:257-297 | a stale sweep under any replies changes only listed messages with a successful publish and update, and writes the dead letters of the publishes that took effect, in order |
| Sweeps.SendAllSweeps | sender_service/internal/application/service/sender_service.go:109-151 | an outbox sweep under any replies changes only listed messages with a successful publish and update, and publishes in order |
| Atomic.HandledIsOutcome | processor_service/internal/application/service/processor_service.go:91-239 | a fault-free delivery, ten port calls, comes to one of five written-out outcomes: duplicate, given up, sent, given up at the limit, requeued |
| ExactlyOnce.InvEvent | processor_service/internal/application/service/processor_service.go:91-239 | coarse: every event keeps the ledger of every message: status against copies, retries, calls and inbox |
| ExactlyOnce.ExactlyOneCopy | sender_service/internal/application/service/sender_service.go:130-151 | coarse: at most one copy and one success per id; unsent has none, processing exactly one copy, sent exactly one success and no copy; duplicate is never reached |
| ExactlyOnce.SentForGood | processor_service/internal/application/service/processor_service.go:228-239 | coarse: a sent document never changes again and is never called for again |
| WorkBound.WorkPays | processor_service/internal/application/service/processor_service.go:91-239 | coarse: every publish, expiry, consumption and non-empty stale sweep lowers the potential of queues, retries left and statuses |
| WorkBound.WorkIsBounded | processor_service/internal/application/service/processor_service.go:91-239 | coarse: any interleaving over n messages takes at most n * (3M + 3) such steps |
| WorkBound.QuietMeansSettled | processor_service/internal/application/service/processor_service.go:170-239 | coarse: with empty queues and nothing unsent every message is sent or failed |
| WorkBound.UnsettledMeansWork | sender_service/internal/application/service/sender_service.go:109-128 | coarse: while a message is unsent or in processing a step is possible, if need be after a query or the retry delay |
| Timing.AttemptsSpaced | shared/adapters/message_queue_adapter.go:90-103 | coarse: the k-th attempt after a given one for the same id comes at least k * 10,000 ms later |
| Timing.HeadExpiresFirst | shared/adapters/message_queue_adapter.go:90-103 | coarse: if any copy in the retry queue has expired then so has the head, so copies return in the order they failed |
| Timing.RefusalsDiffer | processor_service/internal/domain/processor.go:33-54 | the gate's refusals are told apart: spent retries stay spent whatever the clock and the last update, and a message refused as stale would pass right after an update; it is stale exactly when the last update is more than 240,000 ms ago |
| Timing.PromptMeansNeverStale | processor_service/internal/domain/processor.go:33-54 | coarse: if main-queue waiting, plus the retry delay if there are retries, is within four minutes, nothing is ever stale for gate or monitor, failed means all retries spent, and nothing is both delivered and dead-lettered |
| Pace.AttemptsBounded | processor_service/internal/application/service/processor_service.go:118-217 | coarse: a message is attempted at most as often as the limit allows, the delivery included |
| Pace.PaceIsFixed | shared/adapters/message_queue_adapter.go:90-103 | coarse: some run makes k attempts for one message exactly 10,000 ms apart if and only if k is within the limit |
| Slow.StaleIffSlow | processor_service/internal/application/service/processor_service.go:257-272 | coarse, every retry limit: a run that keeps every deadline can reach a stale message if and only if waiting, plus the retry delay if two attempts are allowed, exceeds four minutes |
| Slow.BothIffSlow | processor_service/internal/application/service/processor_service.go:274-297 | coarse, every retry limit: a run that keeps every deadline can deliver and dead-letter one message if and only if an attempt is allowed and that same waiting time exceeds four minutes |
| Slow.DeliveredAfterDeadLetter | processor_service/internal/application/service/processor_service.go:274-297 | coarse: for each such waiting time a run that keeps every deadline and ends with a message sent, delivered and dead-lettered |
| Refinement.DeliveryIsRun | processor_service/internal/application/service/processor_service.go:91-239 | a delivery nothing interrupts, under any replies, is a run of the fine machine with the same stores and return |
| Refinement.TurnIsRun | processor_service/internal/application/service/processor_service.go:75-89 | so is a whole turn of the consumer's loop, ack included |
| Refinement.SendAllRun | sender_service/internal/application/service/sender_service.go:109-151 | an outbox sweep nothing interrupts, under any replies, is a run of the fine machine |
| Refinement.RecoverAllRun | processor_service/internal/application/service/processor_service.go:257-297 | a stale sweep nothing interrupts, under any replies, is a run of the fine machine |
| Refinement.AtomicRefinesProtocol | processor_service/internal/application/service/processor_service.go:48-89 | every run of the coarse machine is a run of the fine one with one runner, one monitor and any number of consumers |
| Refinement.NoMessageIsLost | processor_service/internal/application/service/processor_service.go:91-297 | coarse, by the refinement: a published message with no copy left has been delivered or is in the dead-letter queue |
| Recovery.OutboxDrains | sender_service/internal/application/service/sender_service.go:109-151 | after k fault-free sweeps of size b > 0, whichever messages the query picks, exactly max(0, n - k * b) of n are unsent and each other one was published once with its stored id, text and retry count |
| Recovery.StaleSweepOutcomes | processor_service/internal/application/service/processor_service.go:257-297 | under any replies a stale message is untouched, dead-lettered and in processing, or dead-lettered and failed; its dead letters are one or none; a message that is not stale is untouched |
| Recovery.ObituariesOmitRecipients | processor_service/internal/application/service/processor_service.go:277-289 | under any replies each dead letter a stale sweep adds names a stored message and carries its content and retry count, and an empty recipient |
| Recovery.StaleSweepSettles | processor_service/internal/application/service/processor_service.go:257-272 | after a fault-free sweep another at the same instant finds and changes nothing |
| Recovery.RecoversFromAnywhere | processor_service/internal/application/service/processor_service.go:257-297 | fine: from any reachable state, crashes included, a restart of one runner and one monitor, enough fault-free outbox sweeps, a wait past four minutes and one fault-free stale sweep leave every message delivered, or failed with a dead letter or an earlier refused one |
| Scheduler.RunnersBalanced | sender_service/internal/application/service/sender_service.go:75-107 | if calls do not overlap, live runners are one if isRunning is set plus one for each blocked Stop |
| Scheduler.AlwaysBalancedIff | sender_service/internal/application/service/sender_service.go:75-91 | in any interleaving the balance holds all along if and only if no Start sets a set flag and no Stop clears a clear one |
| Scheduler.NeverTwoIff | sender_service/internal/application/service/sender_service.go:75-107 | without overlap there is never a second runner if and only if no Start takes effect while a Stop is waiting |
| Scheduler.RunnersExitBetweenSweeps | sender_service/internal/application/service/sender_service.go:93-107 | a runner goes only by taking a Stop's message, and no sweep under way goes with it |
| Scheduler.EveryScheduleReturnsStops | sender_service/internal/application/service/sender_service.go:84-107 | from a balanced state every schedule of sweep ends and handovers keeps the balance, takes at most as many steps as there are sweeps and waiting Stops, and is stuck exactly when every Stop has returned and one waiting runner is left if isRunning is set |
| Scheduler.StopsReturn | sender_service/internal/application/service/sender_service.go:84-107 | from a balanced state there is such a schedule that releases every waiting Stop |
| Scheduler.OverlappingStartsLeak | sender_service/internal/application/service/sender_service.go:75-82 | a run of two overlapping Starts and a Stop after which a runner is left that no Stop will end |
| Scheduler.RestartRunsBesideSweep | sender_service/internal/application/service/sender_service.go:75-107 | a run without overlap in which two runners sweep at once |
| Scheduler.MessageScheduler.constructor | sender_service/internal/application/service/sender_service.go:67-73 | a new scheduler is idle |
| Scheduler.MessageScheduler.Start | sender_service/internal/application/service/sender_service.go:75-82 | the two steps of an undisturbed Start; the balance is kept and the scheduler runs |
| Scheduler.MessageScheduler.Stop | sender_service/internal/application/service/sender_service.go:84-91 | the two steps of an undisturbed Stop; the balance is kept and the scheduler is stopped |
| Republish.PublishableIff | sender_service/internal/application/service/sender_service.go:109-151 | fine, from any state with a runner: a message can be published, or published once more, if and only if it does not exist yet or is unsent, or some runner has still to publish it |
| Republish.UnconfirmedIsPublishedAgain | sender_service/internal/application/service/sender_service.go:139-147 | fine: after a publish that no runner has still to repeat, the message can be published again if and only if it was still unsent and the update to processing did not take effect |
| Republish.PublishedAnyNumberOfTimes | sender_service/internal/application/service/sender_service.go:139-147 | fine: for every count a run that publishes one message that often |
| Limits.LimitIsReached | processor_service/internal/application/service/processor_service.go:118-196 | fine, every positive limit and every number of consumers: the bound of `RetriesBounded` is reached |
| Limits.LimitKeptIff | processor_service/internal/application/service/processor_service.go:118-217 | fine: every run keeps the retry count within the limit if and only if there is one consumer at most or no attempt is allowed |
| Limits.TwoConsumersDeliverTwice | processor_service/internal/application/service/processor_service.go:96-139 | fine, two consumers or more: one message is delivered twice at one instant, both marks written |
| Limits.DeliversOnceIff | processor_service/internal/application/service/processor_service.go:58-140 | fine: every run keeps deliveries of a message an inbox lifetime apart, up to failed marks, if and only if there is one consumer at most or no attempt is allowed |
| Losses.NackPutsNothingBack | processor_service/internal/application/service/processor_service.go:96-116 | for all replies: an inbox or repository error before the gate ends the delivery with an error and every store, the main queue included, as it was after the ack |
| Losses.CopyLostIff | processor_service/internal/application/service/processor_service.go:75-226 | for all replies: after a turn the copy of a stored message is in no queue, not delivered and not skipped as a duplicate if and only if the ack took effect and the inbox check failed; or, the id not being in the inbox, the read failed, the gate refused and the dead-letter publish failed, or the webhook failed and so did the increment, the update, the re-read or the last publish |
| Losses.FailedCheckLosesCopy | processor_service/internal/application/service/processor_service.go:96-100 | fine, any number of consumers: a run with one failed inbox check and no other fault that leaves a message in processing with no copy, no delivery and no dead letter |
| Losses.OnlyDropsLose | processor_service/internal/application/service/processor_service.go:75-226 | fine, all faults: a body that was published and has no copy in a queue or in hand stands for a delivery or a dead letter, or one of its copies was dropped |
| Losses.LosesNothingIff | processor_service/internal/application/service/processor_service.go:75-226 | fine: every run has a delivery or a dead letter for each body that is gone if and only if there is no consumer |
| Losses.FailsWithoutDeadLetter | processor_service/internal/application/service/processor_service.go:170-188 | fine, any retry limit: a run that ends failed with an empty dead-letter queue |
| Losses.BuriesAllIff | processor_service/internal/application/service/processor_service.go:170-217 | fine: every run has a dead letter for each failed message if and only if there is no consumer |
| Finality.SentIsFinalIff | sender_service/internal/application/service/sender_service.go:139-147 | fine, from any reachable state, nobody else publishing: a sent message can be marked as something else if and only if a runner has it to publish or to confirm, a monitor to fail, a consumer in hand before its webhook success, or a queue a copy that a consumer can get |

## Left out

- HTTP handlers, routing, request validation, API documentation, health checks, configuration, process start-up and containers: plumbing around the protocol.
- The rate limiter and the circuit breakers: a call they reject is a port call that is refused.
- JSON and ObjectID text: a body decodes or does not, an id is the canonical lower-case hex of an ObjectID or is no hex. Upper-case hex of a stored id would be another inbox key for the same document.
- The receipt the webhook returns, stored under a key of its own (processor_service.go:131-137): nothing reads it.
- A webhook that acts on a request and still reports an error: only successes the client has seen are counted as deliveries.
- Broker and database durability, eviction from the inbox, and publishes the broker accepts and loses: a call that reports success has taken effect.
- The channel error a second settlement raises: that later calls on the channel fail is among the refusals every run of the fine machine allows, but is not tied to the Nack.
- Empty deliveries read from a closed delivery channel, be it that the consumer was stopped or that a channel error closed it: the source's loop then goes on reading them.
- Finds and inserts that fail, in the two machines: they have no effect there, so a sweep or a message that does not happen stands for them. The service methods have the error path.
- The tickers and the waiting on channels: a tick is a step that may be taken at any time, and the scheduler's handover is one step of `Scheduler`.
- Services.ProcessorService.Start: the loop runs for a given number of turns and ends when the queue is empty, where the source waits for more or for its stop signal; the delivery channel stays open, also after a second settlement; the monitor it starts is a separate actor of the machines.
- Services.ProcessorService.ProcessMessage: the clock stands still and nothing interleaves during one service method; passing time and interleaving are in `Protocol`, whose steps are the same.
- Services.SenderService.CreateMessage: makes no claim about the id returned to the caller, because the source returns the one the message had before the insert.
- Scheduler.MessageScheduler.Stop: returns with the caller counted as blocked, where the source waits in the call; `EveryScheduleReturnsStops` is about how that wait ends, provided the runner does not begin new sweeps for ever instead of taking the message.
- Guarantees.FailedMeansDeadLettered: names the messages whose dead-letter publish by a consumer failed as an exception, because the source marks them failed all the same; `BuriesAllIff` says when there are none.
- Failed as a final state in the fine machine: not stated; whether a copy left behind may still be attempted depends on the age of the last update when it is handled.
- `Save`, `FindByID`, listing messages and counting dead letters: read-only or unused by the services.
