# Hooklane delivery protocols, verified

Hooklane accepts webhooks and delivers each at least once. It has two independent backends: Redis Streams driven by
Lua scripts and Python workers, and Cloudflare D1 with a transactional outbox, fenced attempts and a queue. This
project models both as state machines whose atomic steps are the scripts and SQL statements, run by any number of
crashing, concurrent and stale processes, and proves what every run keeps. It also covers the payload splitter, the
shared delivery policies, the health and drain state of a process, and the bounded goal-loop runner.

`dafny verify dfyconfig.toml` checks everything.

## How the model is laid out

| files | what they hold |
|---|---|
| `Options`, `DeliveryPolicy`, `DeliveryFold`, `RetryDelay` | shared types, classification of answers, the life of one event as a pure fold, backoff |
| `RedisStore`, `RedisScripts` | the keyspace and every Lua script, as functions on a value and as methods of a store object proved equal to them |
| `RedisEffects`, `RedisPoison` | what each script does, told by keys and fields alone, on a keyspace that may hold anything |
| `RedisWorld`, `RedisSafety`, `RedisGuarantees`, `RedisRequeue`, `RedisRecords`, `RedisLifecycle`, `RedisExclusive`, `RedisAcceptance`, `RedisClaims` | any number of workers over one keyspace, the invariant of all runs, and the guarantees |
| `RedisWorker`, `RedisWalks` | `run_once` as one method, what it does when it runs alone, and the steps of the state machine it is made of |
| `Chunker`, `Utf8` | the UTF-8 splitter, as a function and as the loops, and what it takes for valid |
| `D1Store`, `D1Batch`, `D1Statements` | the tables and every SQL statement, as functions on a value and as methods of a store object proved equal to them |
| `D1World`, `D1Safety`, `D1Preservation`, `D1Guarantees`, `D1Attempts`, `D1Fallback`, `D1Leases`, `D1Fairness` | ingress, repairs and consumers over one database and one queue, the invariant of all runs, and the guarantees |
| `D1Services`, `D1Walks`, `BackendEquivalence` | `accept`, `repair` and `process` as methods, the steps of the state machine they are made of, and the two backends side by side |
| `Runtime` | service health, worker runtime, drain |
| `GoalLoop`, `GoalAttempts` | the goal-loop runner |

A run is a sequence of worlds and steps from the empty store. A step belongs to one process; a process may crash
between any two steps; a statement or script may take effect although its caller sees only "unavailable"; clocks may
read anything; the Cloudflare queue may deliver any message to anyone at any time. Histories (what was accepted, how a
stream message ended, what the sink was sent) are kept beside the state so that the guarantees can speak of them.

SHA-256 over the canonical request is an abstract function, injective where a property needs it; the JSON codec is the
question which messages it lets through; the jitter's random draw, the clock and the sink's answers are arguments.

## Where the code does less than it seems to promise

- Terminal status is final in the Redis backend only while no stale holder acts. Delivery start and retry scheduling
  check the stream id but not that the message is still pending, so a worker that was overtaken can show a delivered
  event as delivering or retry_scheduled again. Worse, the next release then finds the message no longer pending and
  condemns the record: an event that the sink took ends up as dead_letter, without a dead-letter record.
  `RedisLifecycle.TerminalStatusMoves` says exactly which steps move a terminal status, for all runs;
  `RedisLifecycle.FinalityFailsForStaleHolders` and `RedisLifecycle.StaleHolderBuriesDelivered` build such runs;
  `RedisExclusive.TerminalForever` proves finality when a claim waits for the previous holder to stop.
- One kind of poisoned record does block the retry schedule. The release script tests a hash's `stream_id` for the form
  digits-digits only, and hands it to XPENDING, which raises when a half exceeds 64 bits. Nothing is written, so the
  record stays first in the schedule. `RedisPoison.ReleaseShrinksDue` says that a release errs exactly on such a record,
  `RedisPoison.ReleaseEndsIffClear` that repeated release empties the due set if and only if there is none, and
  `RedisPoison.OneRecordBlocks` shows one.
- When a goal-loop run ends at a loop head, because nothing is pending any more, the exit code it returns is in no
  metadata file. `GoalLoop.RunLoop` states that this is the only case; `GoalLoop.CompleteThenBlocked` shows it.
- A status code below 100 counts as delivered in the Redis backend and as a client error in the Cloudflare backend.
  The two make the same of a list of answers exactly when the answers that matter conform to section 15 of RFC 9110
  (`DeliveryFold.TracesAgreeIffConforming`).
- When consumers run with different maxima, the maximum-attempts fallback of `mark_delivery_started` can answer ACK
  with an attempt count older than the row's. Every ACK is exact if and only if no two maxima differ by more than one
  (`D1Fallback.AcksExactIffNarrow`); the reported status is exact always (`D1Guarantees.AckIsFinal`).
- The goal loop's attempt limit can be overrun when two features share an id, because state is looked up by id.
  `GoalAttempts.LimitHoldsIff` says for exactly which feature documents it holds.

## Model

| member | source | states |
|---|---|---|
| RedisScripts.RedisEventStore.EnqueueEvent | src/hooklane/queue/events.py:69-96 | leaves exactly the keyspace of the enqueue script: one message, one queued status naming it, or an error and no change |
| RedisScripts.RedisEventStore.EnqueueIdempotent | src/hooklane/queue/events.py:98-147 | the idempotent script: creates, reuses or reports a conflict, and changes nothing in the last two cases |
| RedisScripts.RedisEventStore.MarkDeliveryStarted | src/hooklane/queue/events.py:149-155 | the start script, which checks the stream id and nothing else, and its error after the write when the counter is a text |
| RedisScripts.RedisEventStore.MarkDelivered | src/hooklane/queue/events.py:157-167 | the completion script: acknowledges before it writes, and writes nothing when the message was not pending |
| RedisScripts.RedisEventStore.ScheduleRetryAt | src/hooklane/queue/events.py:169-188 | the retry script, which checks neither pending nor current status |
| RedisScripts.RedisEventStore.ReleaseDue | src/hooklane/queue/events.py:190-298 | the release script on the lowest-scored due member, with the errors XPENDING raises without a group or on an id beyond 64 bits; the error reply after XADD is out of reach |
| RedisScripts.RedisEventStore.ClaimStalePending | src/hooklane/queue/events.py:300-370 | claims the lowest claimable id among the first hundred idle ones, with the disposition the script rules, or changes nothing |
| RedisScripts.ScanIsScanned | src/hooklane/queue/events.py:345-369 | the hundred listed ids are exactly the idle ids with fewer than a hundred idle ids before them |
| RedisScripts.RedisEventStore.ReadNext | src/hooklane/queue/events.py:796-832 | delivers the least unread id and no other |
| RedisScripts.RedisEventStore.EnsureConsumerGroup | src/hooklane/queue/events.py:753-769 | creates stream and group at 0-0, and ignores a group that exists |
| RedisScripts.RedisEventStore.RefreshQueueMetrics | src/hooklane/queue/events.py:1024-1099 | depth is pending plus the group's lag, read as zero when unknown, and so is right exactly when the lag is known, there is no group or nothing is unread; the oldest id is the numeric minimum over the messages counted, and there is one exactly when something is counted |
| RedisScripts.RedisEventStore.QuarantineMessage | src/hooklane/queue/events.py:372-449 | the quarantine script; its error reply after XADD is out of reach |
| RedisScripts.RedisEventStore.DeadLetterMessage | src/hooklane/queue/events.py:451-519 | the dead-letter script with all its checks; its error reply after XADD is out of reach |
| RedisEffects.NextIdIsLeast | src/hooklane/queue/events.py:81-87 | XADD's id is the least one above the last that is not before the clock |
| RedisEffects.FieldValueIsFirst | src/hooklane/queue/events.py:204-211 | the Lua helper yields the first field of a name, and nothing exactly when there is none |
| RedisEffects.LastValueIsLast | src/hooklane/queue/events.py:488-493 | the dead-letter loop and the client's dictionary yield the last field of a name |
| RedisEffects.UuidFormFrom | src/hooklane/queue/events.py:191-202 | the pattern test accepts exactly 8-4-4-4-12 hexadecimal digits with dashes between |
| RedisEffects.EnqueueEffect | src/hooklane/queue/events.py:69-96 | accepted exactly when stream and status keys allow; then one message with the four fields under a new greatest id and a queued hash with count zero that names it, and nothing else |
| RedisEffects.EnqueueKeyedEffect | src/hooklane/queue/events.py:98-147 | an error exactly on a foreign type, an incomplete record or a taken status key; a bound key answers by fingerprint and changes nothing, a free one is bound |
| RedisEffects.StartEffect | src/hooklane/queue/events.py:149-155 | only the text of the stream id is checked; the count rises by one and is the answer, and a count that is a text errs after the status has been written |
| RedisEffects.CompleteEffect | src/hooklane/queue/events.py:157-167 | goes through exactly for a pending message that the hash names; then that message and nothing else leaves the pending list, and only the status changes |
| RedisEffects.ScheduleEffect | src/hooklane/queue/events.py:169-188 | goes through exactly when the hash names the message and the schedule has the right type; status, error class and due time are then set, the message stays pending |
| RedisEffects.DueFrom | src/hooklane/queue/events.py:244-251 | what was scheduled for a time is due from that time on and not before |
| RedisEffects.BurialEffect | src/hooklane/queue/events.py:451-519 | the exact conditions of a dead-letter, and all it writes: one record with the message's fields, the error class, the count and the source id; the acknowledgement; status, error class and record position; and the schedule without the event |
| RedisEffects.ReleaseAnswers | src/hooklane/queue/events.py:229-298 | exactly when a release errs, finds nothing, requeues or removes |
| RedisEffects.RequeueEffect | src/hooklane/queue/events.py:285-297 | a requeue posts the very message again under a new greatest id, ends the old one, points the hash at the new and clears the error class |
| RedisEffects.RemovalEffect | src/hooklane/queue/events.py:213-242 | a removal takes the member out of the schedule, and writes dead_letter with invariant_violation exactly when the hash alone is in order |
| RedisEffects.DispositionMeans | src/hooklane/queue/events.py:320-343 | deliverable or waiting for a retry exactly when the hash the message names is in such a state and points back at this message |
| RedisEffects.HeldUntilIdle | src/hooklane/queue/events.py:345-366 | what was just read or claimed is listed as idle again exactly when the idle time asked for has passed |
| RedisEffects.ReadEffect | src/hooklane/queue/events.py:796-812 | reading makes exactly one message no longer unread, and pending for the reader as of now |
| RedisEffects.GroupEffect | src/hooklane/queue/events.py:753-769 | making the group leaves every message unread that was unread |
| RedisEffects.IsolationEffect | src/hooklane/queue/events.py:372-449 | the exact conditions of a quarantine, its record, and when the status is written with the reason |
| RedisClaims.ScanSettlesOnLeast | src/hooklane/queue/events.py:345-369 | a scan that finds something has found the least eligible id of all; one that finds nothing has missed only eligible ids behind a hundred idle ones |
| RedisClaims.DeliverableIff | src/hooklane/queue/events.py:814-832 | a message can be delivered exactly when it carries the four fields, its event id is a UUID and validation lets the rest through; the last value of each field counts |
| RedisClaims.HoldLasts | src/hooklane/queue/events.py:300-370 | in every run a message that a worker read or claimed stays its own in the pending list until a worker that asks for some idle time claims it that much later, or it is acknowledged |
| RedisPoison.ReleaseShrinksDue | src/hooklane/queue/events.py:190-298 | on a usable keyspace a release errs, changing nothing, exactly when the picked record passes the earlier checks and its id text is beyond Redis's range; else it answers zero exactly when nothing is due and otherwise takes exactly the picked member out of the due set |
| RedisPoison.RepeatedReleaseEnds | src/hooklane/queue/events.py:968-991 | when no due record has an id text beyond Redis's range, repeated release empties the due set in as many calls as it had members |
| RedisPoison.BlockedStaysDue | src/hooklane/queue/events.py:271-276 | a due record with such an id text is still due after any number of calls |
| RedisPoison.ReleaseEndsIffClear | src/hooklane/queue/events.py:271-276 | as many calls as were due empty the due set if and only if there is no such record |
| RedisPoison.OneRecordBlocks | src/hooklane/queue/events.py:271-276 | a concrete keyspace with such a record, on which a release errs |
| RedisPoison.ReleaseIsolatesPoison | src/hooklane/queue/events.py:206-269 | a release writes no other event's status, and condemns the picked one exactly when its records disagree, its hash alone is in order and its id can be read |
| RedisPoison.ReleaseRequeuesInFull | src/hooklane/queue/events.py:271-297 | records that agree are requeued with the same fields under a new greatest id, the old one acknowledged |
| RedisPoison.QuarantineIsolates | src/hooklane/queue/events.py:403-448 | quarantine rewrites only a queued or delivering status bound to the very message |
| RedisPoison.DeadLetterIsAtomic | src/hooklane/queue/events.py:468-518 | the dead-letter script does all its writes or none, with the message's own fields in the record |
| RedisSafety.RunKeeps | src/hooklane/worker/service.py:150-314 | the joint invariant of keyspace, workers and history holds in every reachable world |
| RedisSafety.DecodeReturnsAccepted | src/hooklane/queue/events.py:816-832 | decoding an event's message gives back what was accepted, or refuses |
| RedisGuarantees.NoStranding | src/hooklane/queue/events.py:149-370 | with stale workers, crashes and lost replies, an accepted event is finished if and only if no position enables a worker's step for it |
| RedisGuarantees.SingleLiveMessage | src/hooklane/queue/events.py:271-297 | every unread or pending id is its event's recorded one; no event has two live messages, a finished one none |
| RedisGuarantees.EndsAtMostOnce | src/hooklane/queue/events.py:157-167 | of all messages of an event at most one is completed, dead-lettered or quarantined, and then it is the current one |
| RedisGuarantees.BuriedAtMostOnce | src/hooklane/queue/events.py:468-518 | the dead-letter stream never holds two records of one event |
| RedisRecords.OneRecordForEachEnding | src/hooklane/queue/events.py:403-518 | the dead-letter stream holds exactly one record of each event that ended by dead-letter and none of any other, and the quarantine stream likewise |
| RedisGuarantees.FinishedForever | src/hooklane/queue/events.py:403-448 | after an event's end no worker, however stale, causes a new message, record or ending for it |
| RedisRequeue.BoundedRequeue | src/hooklane/worker/service.py:185-264 | when every worker buries at `most` attempts or earlier, an event gets at most `most` stream messages, in any run |
| RedisRequeue.ContentsAreAsAccepted | src/hooklane/queue/events.py:285-297 | every message, dead-letter record and sink call of an event carries exactly what was first accepted |
| RedisRequeue.TakenIffAnswered | src/hooklane/delivery/sink.py:60-90 | in every run the sink has taken an event exactly when it has answered one of its calls with a code from 200 to 299, or below 100 |
| RedisRequeue.AcceptedForever | src/hooklane/queue/events.py:643-666 | an acceptance is never withdrawn or altered |
| RedisLifecycle.TerminalStatusMoves | src/hooklane/queue/events.py:149-188 | under full interleaving a terminal status moves exactly when a holder whose message is no longer pending marks a start or schedules a retry |
| RedisLifecycle.FinalityFailsForStaleHolders | src/hooklane/queue/events.py:149-155 | for every event and configuration that decodes it, a run in which a delivered event shows as delivering again |
| RedisLifecycle.StaleHolderBuriesDelivered | src/hooklane/queue/events.py:212-269 | and, when the stale worker may retry, a longer run in which the completed event ends up as dead_letter without a record |
| RedisExclusive.LifeCycle | src/hooklane/worker/service.py:170-314 | with exclusive holders the status moves only along the documented edges, or from queued to dead_letter for a message no client can decode, and delivered implies that the sink took the event |
| RedisExclusive.TerminalForever | src/hooklane/queue/events.py:322-343 | with exclusive holders delivered and dead_letter are absorbing |
| RedisExclusive.TerminalIffFinished | src/hooklane/queue/events.py:157-167 | with exclusive holders the status is terminal exactly when the current message had its final acknowledgement |
| RedisExclusive.StatusNamesEnding | src/hooklane/queue/events.py:403-518 | with exclusive holders the status is delivered exactly after completion and dead_letter exactly after dead-letter or quarantine |
| RedisExclusive.DefensiveBranchesUnreached | src/hooklane/queue/events.py:212-269 | with exclusive holders neither the invalid-record branch of release nor the invariant_violation disposition is reached |
| RedisAcceptance.AcceptedIsKeysPlusKeyless | src/hooklane/queue/events.py:98-147 | accepted events are the distinct keys plus the keyless acceptances, and each has a status |
| RedisAcceptance.KeyBoundForever | src/hooklane/queue/events.py:668-712 | a key stays bound to its first event id and fingerprint |
| RedisAcceptance.UsedKeyChangesNothing | src/hooklane/queue/events.py:668-712 | a request under a used key changes nothing; it gets the first id for the same content and a conflict for other content |
| RedisAcceptance.NothingQuarantined | src/hooklane/queue/events.py:771-794 | while everything accepted can be decoded, nothing is quarantined in any run |
| RedisAcceptance.DepthCountsUnfinished | src/hooklane/queue/events.py:1024-1099 | pending plus lag is the number of accepted events without a final acknowledgement |
| RedisAcceptance.ReachableIsPhysical | src/hooklane/queue/events.py:1024-1099 | what the gauges require of the keyspace holds in every reachable world |
| RedisWorker.RunOnce | src/hooklane/worker/service.py:150-314 | on a lone event whose retry is due, one run makes of the sink's answer what the fold makes of it, calls the sink exactly when the event had not ended, and answers with the status it leaves behind, or with no message; on any keyspace it is a series of the worker's own steps in the state machine, with at most one sink call |
| RedisWorker.AttemptFollowsFold | src/hooklane/worker/service.py:171-314 | start, sink call and the branch taken together move a message in flight one step along the fold, and the answer tells the status |
| RedisWorker.AnswerTellsStatus | src/hooklane/worker/service.py:185-314 | for every pair of policies: the attempt is counted, the answer tells the status left behind, and the message stays pending exactly after a scheduled retry or when the worker gives up, which it does exactly when the sink refused and neither policy takes the refusal |
| RedisWorker.AnswerIsTrue | src/hooklane/worker/service.py:185-314 | on any keyspace each answer but a failure is given only when the script behind it went through, and after a failure nothing is acknowledged, buried or scheduled |
| RedisWorker.AttemptIsWalk | src/hooklane/worker/service.py:171-314 | the attempt as steps of the state machine: same keyspace, and exactly one sink call, with the content held, unless the start failed |
| RedisWorker.ErrorByCode | src/hooklane/delivery/sink.py:70-90 | the error class a refusal is recorded under, told by its code |
| RedisWalks.WalkProlongs | src/hooklane/worker/service.py:150-314 | steps taken from the end of a run prolong it, so every guarantee holds of what `run_once` leaves |
| RedisWorker.RunAll | src/hooklane/worker/service.py:150-314 | from acceptance on, the statuses and counts shown after every run are the fold's |
| DeliveryPolicy.ClassifiersAgree | src/hooklane/delivery/sink.py:79-90 | the two classifiers agree on an answer exactly when its code is at least 100, and how they differ below |
| DeliveryFold.AttemptsAreAnswers | src/hooklane/delivery/dead_letter.py:20-32 | until the end each answer costs one attempt; the end comes with attempt `maximum` at the latest |
| DeliveryFold.CloudflareNextByCode | cloudflare/src/hooklane_cf/core.py:408-505 | what one answer makes of an event, told by its code alone: delivered by 200 to 299; retried while attempts are left by a timeout, a failed connection, 429 or 500 and above; dead-lettered else |
| DeliveryFold.RedisNextByCode | src/hooklane/delivery/retry.py:39-47 | the same for the Redis backend, where a code below 100 counts as delivered |
| DeliveryFold.DeliveredIffAccepted | cloudflare/src/hooklane_cf/core.py:408-489 | delivered exactly when an acceptance comes within the maximum and after retryable failures only |
| DeliveryFold.WaitsIffRetried | cloudflare/src/hooklane_cf/core.py:408-489 | still waiting exactly when all answers were retryable failures and fewer than the maximum |
| DeliveryFold.TerminalAbsorbs | cloudflare/src/hooklane_cf/core.py:369-384 | after the end no answer changes anything |
| DeliveryFold.TracesAgreeIffConforming | cloudflare/src/hooklane_cf/core.py:492-505 | both classifiers give the same trace exactly when every answer before the end is one RFC 9110 allows |
| BackendEquivalence.RunBoth | cloudflare/src/hooklane_cf/core.py:369-489 | for every maximum and list of answers both backends run the same event; traces are equal exactly when the answers that count conform; sink calls equal attempts |
| BackendEquivalence.CallsAreAttempts | src/hooklane/worker/service.py:171-186 | crash-free, the number of sink calls is the final attempt count |
| RetryDelay.DelayIsBounded | src/hooklane/delivery/retry.py:49-61 | whatever the draw, the delay lies between the jittered base and the maximum |
| RetryDelay.FirstDelayIsBase | src/hooklane/delivery/retry.py:49-61 | the first delay is the base, and without jitter a delay is the backoff |
| RetryDelay.DelayFollowsDraw | src/hooklane/delivery/retry.py:54-61 | below the maximum the delay is the backoff times the draw, and the maximum only cuts off |
| RetryDelay.BackoffDoublesUntilMaximum | src/hooklane/delivery/retry.py:54-56 | before jitter delays never fall and double until the maximum |
| RetryDelay.ClampInvisibleIff | src/hooklane/delivery/retry.py:54-56 | clamping the exponent at 62 changes no delay exactly when the maximum is reached there |
| RetryDelay.QueueDelayIsNearest | cloudflare/src/hooklane_cf/core.py:348 | the clamp picks the whole second from one to sixty nearest to the rounded figure |
| RetryDelay.QueueDelayIsRoundedBackoff | cloudflare/src/hooklane_cf/core.py:343-348 | the queue delay lies in one to sixty seconds and within half a second of the Redis delay with the same figures |
| Chunker.PayloadChunks | cloudflare/src/hooklane_cf/contract.py:80-100 | the nested loops compute the split, including when they raise |
| Chunker.ChunkEnd | cloudflare/src/hooklane_cf/contract.py:91-95 | the inner loop ends the chunk at the last character boundary within the limit |
| Chunker.RoundTrip | cloudflare/src/hooklane_cf/contract.py:80-100 | valid UTF-8 and a limit of at least four: the split succeeds, every chunk is non-empty, valid, within the limit and but for the last within three bytes of it, and the chunks join to the input |
| Chunker.SplitSucceedsWhenFitting | cloudflare/src/hooklane_cf/contract.py:96-97 | on valid UTF-8 and any limit the split raises exactly when some character is longer than the limit |
| Chunker.SplitMeansValid | cloudflare/src/hooklane_cf/contract.py:98 | on bytes that are not valid UTF-8 the split always raises |
| Chunker.SplitJoins | cloudflare/src/hooklane_cf/contract.py:80-100 | whatever the bytes, a split that succeeds joins back to them |
| Chunker.FourIsNeeded | cloudflare/src/hooklane_cf/contract.py:96-97 | four is the least limit with that guarantee |
| Chunker.CutIsLastBoundary | cloudflare/src/hooklane_cf/contract.py:91-95 | a chunk ends at the last place within the limit where no continuation byte follows |
| Chunker.SplitIsShortest | cloudflare/src/hooklane_cf/contract.py:80-100 | no other way of cutting the payload into valid pieces within the limit needs fewer chunks |
| Utf8.TextIsValid | cloudflare/src/hooklane_cf/contract.py:83-88 | what the splitter calls valid includes the UTF-8 form of every sequence of Unicode scalar values |
| Utf8.ValidIsText | cloudflare/src/hooklane_cf/contract.py:98 | and nothing else: valid bytes decode to a sequence of scalar values whose UTF-8 form they are |
| D1Batch.WinnerStoresAll | cloudflare/src/hooklane_cf/d1.py:51-118 | a winning batch adds event, chunk, outbox and key rows, all of them, and answers with that event |
| D1Batch.LoserLeavesNothing | cloudflare/src/hooklane_cf/d1.py:77-111 | a losing batch leaves every table as it was, orphan rows excluded, and answers with the winner |
| D1Batch.TakenIdFails | cloudflare/src/hooklane_cf/d1.py:63-123 | an id that is taken already makes the batch fail as a whole |
| D1Batch.StoredIsLoaded | cloudflare/src/hooklane_cf/d1.py:172-187 | what a winning batch stores is what the payload loader returns |
| D1Batch.LegacyLoads | cloudflare/src/hooklane_cf/d1.py:172-187 | rows without chunks load their inline payload, or fail when it is empty; chunks always come first |
| D1Batch.ValidPayloadIsStored | cloudflare/src/hooklane_cf/d1.py:51-99 | every encodable payload is split, stored and loaded back unchanged |
| D1Statements.D1EventStore.Accept | cloudflare/src/hooklane_cf/d1.py:51-140 | the batch as one transaction with its roll-back, and the conflict rule |
| D1Statements.D1EventStore.LoadPayloadJson | cloudflare/src/hooklane_cf/d1.py:172-187 | joins the chunk rows in index order, or takes the inline payload, or fails |
| D1Statements.D1EventStore.ClaimRows | cloudflare/src/hooklane_cf/d1.py:189-219 | claims exactly the picked rows: at most the limit, all claimable, the least recently updated first, all of them when they fit; each is claimable again exactly from now plus the lease on, every other row exactly as before |
| D1Statements.D1EventStore.MarkSent | cloudflare/src/hooklane_cf/d1.py:221-243 | the pending-to-sent compare-and-set on the claim token |
| D1Statements.D1EventStore.MarkDeliveryStarted | cloudflare/src/hooklane_cf/d1.py:258-391 | the statements in order; alone, the burial cannot miss the row the snapshot saw |
| D1Statements.D1EventStore.UpdateTerminal | cloudflare/src/hooklane_cf/d1.py:423-446 | the compare-and-set on the delivery token |
| D1Services.AcceptAndSend | cloudflare/src/hooklane_cf/core.py:180-245 | offers a message exactly for a new event, and marks the row dispatched exactly when the queue took it |
| D1Services.NewEventIsStored | cloudflare/src/hooklane_cf/core.py:180-245 | a new event ends up queued with count zero, its payload, its key and an outbox row that is sent exactly when the message was |
| D1Services.Repair | cloudflare/src/hooklane_cf/core.py:247-297 | alone, every claimed row ends sent once more or free again, unclaimed and stamped, as the queue decides; no other row is touched, and the counters add up to the claim |
| D1Services.Process | cloudflare/src/hooklane_cf/core.py:369-489 | on an event at rest, one call moves it one step along the fold, reports that, and sends exactly the accepted request; while another attempt's lease runs, it answers a retry with the row's count, sends nothing and changes nothing; an ACK always shows the row |
| D1Services.CurrentResult | cloudflare/src/hooklane_cf/core.py:350-367 | reports the row as it is, ACK exactly when it is terminal, and raises exactly when the row or its payload is missing |
| D1Services.RunAll | cloudflare/src/hooklane_cf/core.py:369-489 | from acceptance on, the statuses and counts shown after every delivery are the fold's |
| D1Preservation.RunKeeps | cloudflare/src/hooklane_cf/core.py:180-297 | the joint invariant of database, queue, processes and history holds in every reachable world |
| D1Guarantees.NoLoss | cloudflare/src/hooklane_cf/core.py:180-297 | an accepted event is terminal, or its outbox row is pending and claimable from some time on, or an unacknowledged message refers to it |
| D1Guarantees.AckedMeansDone | cloudflare/src/worker.py:381-395 | only messages of terminal events are ever acknowledged |
| D1Guarantees.OnlyLatestConcludes | cloudflare/src/hooklane_cf/d1.py:423-446 | an attempt's transition takes effect exactly when it is its event's latest STARTED one; else nothing changes |
| D1Guarantees.CurrentAttemptIsRecorded | cloudflare/src/hooklane_cf/d1.py:264-293 | an attempt is the latest exactly when the row carries its token, and then the row is delivering with its number; no two processes hold one token |
| D1Guarantees.OnlyTheseMoveARow | cloudflare/src/hooklane_cf/d1.py:258-376 | a row changes only by a new claim with a fresh token, the burial of a waiting row no attempt holds, or the latest attempt's conclusion |
| D1Guarantees.AcceptedLasts | cloudflare/src/hooklane_cf/d1.py:51-140 | acceptance is for good, terminal rows keep status and count, counts never fall, sent outbox rows stay as they are |
| D1Guarantees.NoAttemptAfterTheEnd | cloudflare/src/hooklane_cf/d1.py:280-291 | once an event is terminal no redelivery starts another attempt on it |
| D1Guarantees.AckIsFinal | cloudflare/src/hooklane_cf/core.py:350-489 | whenever `process` answers ACK, by any path, the row has exactly the reported terminal status, then and in every later state |
| D1Guarantees.SinkReceivesAccepted | cloudflare/src/hooklane_cf/core.py:400-409 | every sink call carries the accepted event type and payload |
| D1Guarantees.DeliveredWasTaken | cloudflare/src/hooklane_cf/core.py:408-489 | a row says delivered, and an answer reports it, only of an event that the sink accepted |
| D1Guarantees.TakenIffAnswered | cloudflare/src/hooklane_cf/core.py:408-489 | in every run the sink has taken an event exactly when it has answered one of its calls with a code from 200 to 299 |
| D1Guarantees.RecheckTells | cloudflare/src/hooklane_cf/d1.py:365-391 | the second look after a lost race reports a terminal or delivering row as it is, and gives up on one that waits again |
| D1Guarantees.SentAtMostOnce | cloudflare/src/hooklane_cf/d1.py:232-240 | the send count is one exactly when the row is sent, and zero before |
| D1Guarantees.ToursAccountForTheirClaims | cloudflare/src/hooklane_cf/core.py:247-297 | a completed repair's two counters add up to the rows it claimed, lost and expired claims included |
| D1Guarantees.ReportsWithinSentRows | cloudflare/src/hooklane_cf/core.py:220-297 | successful dispatch reports never exceed the sent rows, each of which is reported at most once |
| D1Guarantees.AcceptedIsKeysPlusKeyless | cloudflare/src/hooklane_cf/d1.py:51-140 | accepted events are the distinct keys plus the keyless acceptances, each with its rows in every table and no row without an event |
| D1Guarantees.StoredAsAccepted | cloudflare/src/hooklane_cf/d1.py:172-187 | at every later moment the tables hold what was accepted |
| D1Guarantees.KeyBoundForever | cloudflare/src/hooklane_cf/d1.py:63-76 | a key stays bound to its first event |
| D1Guarantees.UsedKeyChangesNothing | cloudflare/src/hooklane_cf/d1.py:100-140 | a request under a used key changes no row; it gets the first event for the same content and a conflict for other content |
| D1Attempts.AttemptsStayBelow | cloudflare/src/hooklane_cf/d1.py:264-293 | no count exceeds a bound on the maxima, waiting rows are strictly below it, and what is not terminal can be started from some time on |
| D1Leases.RunningAttemptIsBusy | cloudflare/src/hooklane_cf/d1.py:281-343 | a consumer that comes before the lease of a running attempt is over is answered BUSY with the row's count, and changes nothing |
| D1Leases.StartTakesExactlyFreeRows | cloudflare/src/hooklane_cf/d1.py:264-364 | which rows a call takes, status by status, and the row it leaves: own token, lease of half a minute, one attempt more unless a taken-over attempt was at the maximum; no other row or table changes |
| D1Leases.StartAnswers | cloudflare/src/hooklane_cf/d1.py:294-391 | each answer of the call exactly under its condition on the row found |
| D1Leases.TokenGuardsRow | cloudflare/src/hooklane_cf/d1.py:423-446 | the end of an attempt reaches the row exactly while it is delivering under the attempt's token, and clears token and lease |
| D1Leases.LeaseHolds | cloudflare/src/hooklane_cf/d1.py:281-291 | in every run a started attempt stays its event's latest, lease and all, until a consumer whose clock shows at least 30000 ms more starts the next one, or it concludes |
| D1Leases.AttemptsAreALeaseApart | cloudflare/src/hooklane_cf/d1.py:264-293 | between two attempts on one event lies a lease, on the consumers' clocks, or the end of the earlier attempt |
| D1Leases.ClaimableMeans | cloudflare/src/hooklane_cf/d1.py:200-203 | a row is claimable exactly when it is pending and not under a claim whose lease still runs |
| D1Leases.ClaimGuardsRow | cloudflare/src/hooklane_cf/d1.py:221-256 | marking and releasing reach a pending row exactly under the claim the caller names |
| D1Statements.ClaimedUntilLeaseEnds | cloudflare/src/hooklane_cf/d1.py:189-219 | a claimed row is claimable again exactly from the end of its lease, the others exactly as before |
| D1Leases.ClaimHolds | cloudflare/src/hooklane_cf/core.py:247-297 | in every run a claimed row stays pending under that claim until a repair whose clock shows at least 30000 ms more claims it, or its holder marks or releases it |
| D1Leases.ClaimsAreALeaseApart | cloudflare/src/hooklane_cf/core.py:247-297 | two repairs claim one unsent row only a lease apart, or after the first has let it go |
| D1Fairness.PassedOverForOlder | cloudflare/src/hooklane_cf/d1.py:200-204 | a repair that could have claimed a row and did not has claimed as many as it may, all of them touched no later |
| D1Fairness.RepairIsFair | cloudflare/src/hooklane_cf/d1.py:189-219 | in every run, while clocks read later than a waiting row was last touched, the repairs with room for n rows that pass it over, times n, are no more than the rows that were before it |
| D1Walks.ProcessIsWalk | cloudflare/src/hooklane_cf/core.py:369-489 | a consumer left alone in the state machine does what `process` does: tables, answer and sink call |
| D1Walks.RepairIsWalk | cloudflare/src/hooklane_cf/core.py:247-297 | a repair left alone in the state machine does what `repair` does: rows, counters and messages |
| D1Walks.AcceptIsWalk | cloudflare/src/hooklane_cf/core.py:180-245 | an acceptance left alone in the state machine does what `accept` does: tables and message |
| D1Fallback.FallbackReachedIffExceeded | cloudflare/src/hooklane_cf/d1.py:345-364 | a consumer can reach the maximum-attempts fallback if and only if another consumer's maximum is larger |
| D1Fallback.AcksExactIffNarrow | cloudflare/src/hooklane_cf/d1.py:345-391 | every ACK of every run reports the row's attempt count if and only if no two maxima differ by more than one |
| Runtime.ServiceHealth.BeginWork | src/hooklane/runtime.py:58-63 | admits work exactly when ready |
| Runtime.ServiceHealth.FinishWork | src/hooklane/runtime.py:65-70 | raises exactly when nothing is in flight, and sets the drained flag with the last one |
| Runtime.WorkerRuntime.RunOnce | src/hooklane/worker/runtime.py:45-51 | alone, the bracket leaves the health as it found it, exception or not, and does not raise itself |
| Runtime.BracketsAreCounted | src/hooklane/runtime.py:58-70 | in every interleaving of balanced brackets the counter counts them, the flag says whether it is zero, and finish never raises |
| Runtime.ReadyIffReported | src/hooklane/runtime.py:36-63 | a process takes up work exactly when it has been started, shutdown has not begun, and the last report on its dependency was good |
| Runtime.DrainLasts | src/hooklane/runtime.py:72-80 | after shutdown readiness never returns, work in flight only falls, and a drain once reached lasts |
| Runtime.WorkResumesIffReady | src/hooklane/runtime.py:44-63 | before shutdown a drain ends with the next task exactly when the process is ready |
| GoalLoop.PendingFeature | scripts/goal_loop_runner.py:228-232 | finds the first feature in document order that neither passes nor is blocked |
| GoalLoop.FeatureById | scripts/goal_loop_runner.py:235-239 | finds the first feature with an id |
| GoalLoop.TimedOutIsNotPassing | scripts/goal_loop_runner.py:251-266 | a feature that timed out is not left passing, and no other feature is touched |
| GoalLoop.GoesOnIff | scripts/goal_loop_runner.py:612-699 | the loop goes on exactly after a clean, unfinished, non-final iteration with attempts left |
| GoalLoop.StateNamesOutcome | scripts/goal_loop_runner.py:612-699 | which recorded state stands for which facts, and that only artifact errors, completion and blocking are not worth a retry |
| GoalLoop.RepeatsAtMostOnce | scripts/goal_loop_runner.py:787-861 | however the signal handler interleaves, finalisation repeats at most once, and its outcome is that of the signal recorded at the end |
| GoalLoop.FirstSignalIsReported | scripts/goal_loop_runner.py:765-861 | the signal recorded and reported is the first one ever, if it comes before the last check |
| GoalLoop.Runner.FinalizeIteration | scripts/goal_loop_runner.py:787-861 | the exit code returned is the one in the metadata written last, in both files when there is one |
| GoalLoop.Runner.HandleSignals | scripts/goal_loop_runner.py:73-79 | only the first signal ever is recorded |
| GoalLoop.RunLoop | scripts/goal_loop_runner.py:864-1008 | the loop computes the specified run; the return after the loop is out of reach; for a runner without run metadata these hold the exit code exactly when the run did not end at a loop head |
| GoalLoop.CompleteThenBlocked | scripts/goal_loop_runner.py:891-901 | a feature document with which the returned code is in no metadata file |
| GoalLoop.ExitNamesEnding | scripts/goal_loop_runner.py:864-1008 | a run ends within its iterations, and each exit code holds exactly under its condition on what the agent itself did in the iteration that stopped the loop |
| GoalLoop.GoingOnWasClean | scripts/goal_loop_runner.py:612-699 | the loop goes on only after an agent run that ended by itself with code 0, readable artifacts and no signal, whose feature passes, or neither is blocked nor promised blocked nor out of attempts |
| GoalLoop.TimeoutLeavesPending | scripts/goal_loop_runner.py:251-267 | after a timeout with readable artifacts the selected feature is not passing in what the next loop reads, and no other feature is touched |
| GoalLoop.InDocumentOrder | scripts/goal_loop_runner.py:891-907 | when the agent edits only its selected feature, selections follow the document order |
| GoalAttempts.LimitHoldsIff | scripts/goal_loop_runner.py:612-699 | over all agents of that kind, limits and signals, no feature is tried more often than the limit if and only if the first pending feature with an earlier namesake, if any, has it blocked |
| GoalAttempts.DistinctNeverOverruns | scripts/goal_loop_runner.py:218-225 | distinct ids are enough for that |
| GoalAttempts.AttemptsAreCounted | scripts/goal_loop_runner.py:864-1008 | the attempt number of every selection is how often its id has been selected so far |

## Left out

- Liveness and timing: the claim scan looks at a hundred idle entries and a release takes one entry, so the guarantees say that an enabling position exists, not that it is taken.
- Choice among equals: among members with equal retry scores or outbox rows with equal update times any may come first; the code orders them by text.
- One stream, one consumer group, one worker per consumer name.
- Texts in a status hash's counter that are no plain integer, such as "007", are one case, "garbled"; malformed values of the other fields, the stream id excepted, count as absent. Counters are unbounded.
- Redis's refusal of XADD once the greatest possible stream id has been given out; ids themselves are unbounded numbers.
- When XINFO GROUPS reports a lag: whether it does is an argument of the gauge method.
- UUIDs are taken in their canonical text form; parsing, upper case and braces are not modelled.
- The public status reads (`get_status` in both backends) beyond what delivery uses of them, and the age gauge computed from the oldest id.
- `RetryDelay`: floating-point rounding, and Python's choice between two equally near integers; the draw's distribution.
- RedisWorld: the retry due time is an arbitrary number, so the guarantees do not depend on the backoff.
- RedisScripts.RedisEventStore.RefreshQueueMetrics: its separate commands are read with no other client's step in between.
- D1Services.Repair: the method states what an undisturbed repair does; interleaved repairs are the tour steps of `D1World`.
- D1Services.Process: likewise; interleaved consumers are the consumer steps of `D1World`, where `mark_delivery_started` is up to four steps.
- GoalLoop.RunLoop: prompts, logs, git snapshots, receipts and process control are not modelled; the agent is an arbitrary function of iteration and document, and the feature document changes only by the agent and the runner.
- The second signal and later ones are forwarded to the agent by the code; only what is recorded is modelled.
- The columns of the Cloudflare tables that no statement reads back: `last_reason`, and the events' acceptance and update times.
- HTTP wiring, validation, metrics, logs, fault-injection flags and the spike endpoints.
