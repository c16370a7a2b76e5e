# NotifyStream delivery protocol

A Dafny model of how NotifyStream moves a notification from the create request to the webhook,
with proofs of what the whole system guarantees. `dafny verify dfyconfig.toml` checks everything.

## What is modelled

PostgreSQL rows change only by guarded single-row UPDATEs, RabbitMQ holds messages that can be
acked, requeued, dead-lettered or republished, and four kinds of process act on both at once: the
API (create and cancel), the outbox relay, the due-time scheduler and the workers.

*The protocol as a state machine.* `Domain` has rows and the guarded updates, `Protocol` the steps,
`Runs` their interleavings. Everything belonging to one notification is one `Cell`: its row, the
API's post-commit task, its outbox entries with the relay transaction holding each, the scheduler
transaction holding its row, and its broker messages with the position of the worker handling each.
A state is a clock and any number of cells; a run is any sequence of steps. Each database call is
one step; a call can fail with or without having taken effect; a publish cannot be taken back by a
rollback; the guarded update and commit of a relay or scheduler transaction are one step; a claim may
take any unlocked unpublished entry or due row, for SKIP LOCKED passes over rows that others hold (the
order of claims matters in `Drain` only). The relay locks only its outbox entry, the scheduler locks
the notification row itself. Every process can die anywhere, and a handler can lose its broker
connection and go on while its message is delivered again.

*Invariants and run theorems.* `Safety` (whatever fails), `Coverage` (what carries a row, and the steps
at which it loses its last carrier), `Lineage` (retries, posts and sleep of one publish) and `Quiet`
(no database error and no crash) prove invariants step by step. `Origins` says what every step writes
and what must have gone before each status. `Tallies`, `Theorems` and `QuietTheorems` turn them into
statements that count what happens in a run. `Witnesses` builds runs that show that the conditions of
these theorems are needed and that their bounds are reached; `Limits` states from them, for every
notification a request can insert, exactly when cancel safety, the publish bound, the acceptance
bound and the enumeration of drop points can fail, and what crashes, drop points and lost connections
can do.

A *quiet* run is one without process deaths, lost connections and database errors, where publishes,
limiter and webhook may still fail, cancels come at any time, and shutdown is noticed at the limiter
wait, during a post, or in a backoff. A *carrier* of a notification is what will still move it on: the
API's unpublished task, its pending row in reach of the relay or the scheduler with nobody past the
publish, or a live broker message.

*The programs.* `Processes` holds the shared state in a class; `Worker` and `Publishers` are the
handlers in the source's control flow, with arbitrary steps of everything else between any two of their
calls, proved to take only steps of the protocol, and exactly those that the results of their calls ask
for: the specification accounts for each process's own acts in order. `Snapshots` shows the tables as a request finds
them in the middle of a run, and `Endpoint` joins the create transaction to the publishing. `Drain` is
the relay's tick on its own tables.

*Creation, listing, rendering.* `Creation` and `Histories`: idempotent batch creation over histories of
requests. `Listing` and `Walks`: keyset pages over a changing table. `Template`: the placeholder scanner
and rendering. `Text`, `Validation`, `Wire`: from the accepted item to the posted text. `Backoff` and
`Routing`: delays, retry headers, bindings, status codes.

Environment: limiter and webhook results, database failures, clock readings, jitter, JSON decoding of
payloads and the ids PostgreSQL hands out are parameters or arbitrary steps. Ids are numbers, times are
ticks, and one clock serves all processes. A transaction that hits another request's uncommitted key
waits for it, so committed requests are taken in commit order, each as one step.

Notes on the code:

- `README.md:387` and `OPERATIONS.md:13` describe a reset of rows stuck in sending. The parameter for it is
  never used (`cmd/worker/main.go:219`); the model has what the code does, where MarkSending accepts a
  row that is already sending.
- `README.md:284` says the scheduler uses `MarkQueuedWithRetry` and the relay retries its transaction.
  In the code only the API calls it; relay and scheduler try once per claim.
- Validation messages speak of characters; the limits are on UTF-8 bytes, and so are they here. They
  apply to inline text only, not to rendered templates.
- A row that is already due when the API looks can be published by both the API and the scheduler. Then
  cancel safety can fail (`Limits.CancelSafetyFailsIff`) while coverage still holds.
- A row counts as *lost* from a drop point on until something takes it up again: a worker's claim, or a
  MarkQueued for a copy the broker still holds. It need not be stranded then, for the scheduler or
  another copy may still carry it; and a due row can be stranded without any error of that moment, by a
  MarkQueued for a copy that is dead already (`Limits.QueuedForDead`).
- A commit that takes effect but reports an error leaves rows that no replay with the same idempotency keys
  publishes (`Endpoint.LostAnswer`).
- A limit above a hundred is clamped by the store but compared unclamped by the handler, so such a request
  never gets a cursor (`Walks.OverLimit`).
- Thirty MarkDelivered attempts do not fit in their 45 s deadline unless a shutdown cuts the waits short
  (`Worker.MarkDeliveredWithRetry`).

## Model

| member | source | states |
|---|---|---|
| Theorems.StatusMachine | internal/db/notifications.go:130-221 | In every run, with any faults, crashes and duplicates, between any two states: only status and provider id of a row change, finished rows never change again, pending is never re-entered, and the provider id changes only together with delivered. |
| Origins.RowSteps | internal/db/notifications.go:130-221 | In every run, what each step does to each row, stated on its columns: an UPDATE that takes effect and finds a status it lists sets the status it names, a recorded delivery also the webhook's id, and every other step leaves the row as it is. |
| Origins.StatusFrom | internal/db/notifications.go:130-221 | In every run, where each status comes from: queued from pending by MarkQueued or from sending by a release, sending by MarkSending, delivered only from sending by MarkDelivered, failed only by MarkFailed and cancelled only by a cancel, from a status they list. |
| Origins.DeliveredWasAccepted | cmd/worker/main.go:291-306 | In every run a delivered row had a post accepted before, and its provider id is exactly the one that answer carried. |
| Origins.FailedWasRefused | cmd/worker/main.go:262-332 | In every run a failed row had a message that cannot be built, or an answer that was permanent, unknown, or transient at the fifth retry. |
| Origins.BrokerSteps | internal/amqp/amqp.go:276-377 | In every run, what each step does to messages and outbox entries: exactly the publishes, republishes and lost connections add a message, one, a publish without retries, a republish with one more; no message changes its root or count; only settled ones go; entries are added exactly by Enqueue, and marked by a commit on a pending row or a drain. |
| Theorems.DeliveredOnce | cmd/worker/main.go:291-306 | In every run MarkDelivered reports success at most once per row, the delivered event is sent at most once and never more often than that, and only a delivered row is announced or has a provider message id. |
| Theorems.NeverEarly | internal/runner/background.go:61-76 | In every run no initial publish, by the API, the relay or the scheduler, no republish and no webhook post happens before scheduled_at, although the relay never looks at it. |
| Theorems.RetriesBounded | cmd/worker/main.go:325-334 | In every run every message, queued, unacked or dead-lettered, has a retry count of at most five. |
| Theorems.SchedulerLock | internal/db/outbox_scheduler.go:52-82 | In every run the row claimed by a scheduler transaction is still pending and scheduled at each later step of it, and a commit that succeeds queues it. |
| Theorems.LossAccounting | internal/api/handlers.go:211-250 | With any database errors and any process crashing at any point, but no handler outliving its connection: an unfinished row has a carrier, or it was given up at one of the enumerated drop points and has counted as lost in every state since. |
| Theorems.LossHappened | cmd/worker/main.go:247-332 | A row counts as lost only from a step on that is an enumerated drop point, and without a break since then; it may still have a carrier, such as the scheduler. |
| Theorems.ClaimTakesUp | cmd/worker/main.go:282-291 | A worker's successful MarkSending ends a row's counting as lost, so that only drops after the last claim matter. |
| Theorems.StrandedSince | cmd/worker/main.go:247-347 | In every run, lost connections included, an unfinished row without any carrier lost its last one at one step, and has had none in every state since. |
| Theorems.StrandedWhere | internal/api/handlers.go:211-250 | While no handler outlives its connection, the step that takes a row's last carrier is a drop point, a last MarkDelivered that finds the row released, a MarkQueued for a copy that is dead already, or an outbox entry written after the row left pending; for a row without a schedule one of the first two. |
| Limits.DropStrands | cmd/worker/main.go:247-250 | For every notification there is a run without crashes in which one failed read strands it: unfinished, and nothing carries it. |
| Limits.QueuedForDead | internal/api/handlers.go:241-245 | For every scheduled notification there is a crash-free run in which the row counts as lost while the scheduler still carries it, and the API's own error-free MarkQueued for the dead copy then takes it out of the scheduler's reach and strands it. |
| Limits.StrandedElsewhereIff | internal/db/notifications.go:184-197 | A notification can be stranded at a step at which no worker and no API call gives it up exactly when it is scheduled. |
| Limits.OrphanStrands | cmd/worker/main.go:62-93 | Loss accounting needs its condition: for every notification there is a run in which a handler outlives its connection, every other step is quiet, no drop point is passed, and the row ends stranded. |
| Coverage.LossNeedsDropPoint | cmd/worker/main.go:247-332 | A step by which a row comes to count as lost is one of: abandoned API task, failed re-read, failed outbox write, failed worker read or template lookup, failed MarkSending that is acked, failed and ignored MarkFailed, failed last MarkDelivered, MarkDelivered given up. |
| Coverage.StrandingStep | cmd/worker/main.go:62-93 | Any single step that takes the last carrier of an unfinished row is one of those, a last MarkDelivered that misses, a MarkQueued for a dead copy, or a late outbox entry. |
| Coverage.UnscheduledStrandingStep | internal/api/handlers.go:211-250 | For a row without a schedule it is a drop point or a last MarkDelivered that misses. |
| Coverage.CoveredHasCarrier | internal/api/handlers.go:211-250 | The coverage invariant gives a concrete carrier for every unfinished row: the API task, the outbox or schedule with nobody past its publish, or a live broker message. |
| Coverage.StepIsCovered | cmd/worker/main.go:282-347 | Every step of every process, faults and crashes included, except losing a broker connection, keeps the coverage invariant. |
| Theorems.DuplicateBound | cmd/worker/main.go:291-306 | In every run, with any faults, crashes and lost connections: 2xx answers, and the messages that may still be posted, are together at most the successful publishes plus the workers that died or lost their connection while handling the notification. |
| Theorems.AcceptedTally | cmd/worker/main.go:291-306 | Without worker crashes, the number of 2xx answers in the run is the number of initial publishes that have had one: no publish gets two. |
| Theorems.LineageBounds | cmd/worker/main.go:325-347 | Without worker crashes, the descendants of one publish are posted at most 6 times plus the releases, republished at most 5 times, and handled at most 6 times plus all requeues. |
| Theorems.LineageBalance | cmd/worker/main.go:274-347 | Without worker crashes, while a lineage waits in a queue its transient posts, and its posts, equal its retry count plus its releases, and its handlings are that plus its rate-limit requeues. |
| Theorems.SleptLong | cmd/worker/main.go:335-340 | Without worker crashes, a lineage that is never released and uses all its retries, because it is republished five times or posted six times, sleeps at least 7750 ms and under 8000 ms in all, whether it goes on or has ended. |
| Lineage.StepIsTraced | cmd/worker/main.go:51-60 | Every step other than a worker crash keeps each lineage to one live message and its counters in balance with that message's retry count and position. |
| Theorems.RootsTally | cmd/worker/main.go:247-347 | The counters kept per lineage equal the number of posts, transient answers, republishes, handlings, releases and rate-limit requeues that really occur in the run. |
| Theorems.SleepsTally | cmd/worker/main.go:335-340 | The sleeping time kept per lineage is the sum of the backoffs that occur in the run. |
| Tallies.BooksTally | internal/api/handlers.go:234-245 | The counters kept per notification equal the number of publishes, successful MarkDelivered calls and delivered events that occur in the run. |
| QuietTheorems.PublishedOnce | internal/runner/background.go:61-130 | In quiet runs with any number of replicas API and relay together publish a notification at most once, the scheduler at most once, and both only if it was scheduled and already due when the API looked. |
| QuietTheorems.CheckRecorded | internal/api/handlers.go:210-222 | The condition of the publish bound is an observable one: the schedule had passed at the API's clock reading in this run. |
| QuietTheorems.NothingLost | internal/amqp/amqp.go:366-377 | In quiet runs, also when a past-due row has two copies handled by different workers: every unfinished row has a carrier, and a queued or sending one has a live message. |
| QuietTheorems.ExactlyOneCarrier | internal/api/handlers.go:210-249 | In quiet runs a notification that was not already due at the API's check has exactly one carrier while unfinished. |
| QuietTheorems.OneLiveMessage | cmd/worker/main.go:342-347 | In quiet runs a notification that was not already due at the API's check has at most one live broker message at any time. |
| Theorems.OneLiveCopy | cmd/worker/main.go:342-347 | Without worker crashes, but with any database errors, a notification published at most once has at most one live broker message at any time. |
| QuietTheorems.ClaimHolds | internal/db/notifications.go:139-151 | In quiet runs, while a notification has been published once, its row is sending from a worker's MarkSending until that worker's own MarkDelivered, MarkFailed, release or republish. |
| QuietTheorems.NeverPostedAfterCancel | internal/db/notifications.go:211-221 | In quiet runs no webhook post begins once a cancel has succeeded, as long as the notification was published once. |
| Quiet.StepIsQuiet | internal/db/outbox_scheduler.go:52-82 | Every quiet step keeps the publish-once, marker and claim invariants, with the relay's lock on the outbox row only and the scheduler's lock on the notification row. |
| Quiet.PublishBound | internal/runner/background.go:115-130 | Those invariants bound the publishes by one, or by two when the schedule had passed at the check. |
| Quiet.OneCarrier | cmd/worker/main.go:342-347 | Those invariants leave no room for two different carriers. |
| Safety.StepIsSafe | internal/db/notifications.go:130-221 | Every step of every process, whatever fails and even when a handler outlives its broker connection, keeps the safety invariant. |
| Limits.CancelSafetyFailsIff | cmd/worker/main.go:282-291 | For every notification a request can insert: some quiet run posts it after a successful cancel exactly when it is scheduled. |
| Limits.PublishedTwiceIff | internal/runner/background.go:115-130 | For every notification: some quiet run publishes it twice exactly when it is scheduled. |
| Limits.AcceptedTwiceIff | cmd/worker/main.go:291-306 | For every notification: in some quiet run the webhook accepts it twice exactly when it is scheduled. |
| Limits.CrashAcceptsTwice | cmd/worker/main.go:291-302 | The duplicate bound counts crashes because it must: for every notification there is a run with one publish, a worker crash and two 2xx answers. |
| Worker.ConsumeOne | internal/amqp/amqp.go:366-377 | Whatever the calls return and whatever else happens meanwhile, one turn of the consumer loop takes the message, does exactly what Handled says for these results, and settles it: gone, back in the queue exactly when the handler asked for a requeue, or dead-lettered, with its retry count unchanged; after an accepted and recorded post the row is delivered under the webhook's id. |
| Worker.HandleDelivery | cmd/worker/main.go:219-347 | The handler's own steps are all accounted for, in order, and carry the results of its calls: read, build, limiter, claim, one post with the webhook's answer, and what that answer calls for. The row is the one its read found, the verdict is the one the protocol has reached, what is posted is built from the row whenever that is looked at, and an accepted and recorded post leaves the row delivered under the webhook's id. |
| Worker.HandledMeans | cmd/worker/main.go:247-347 | Which results lead where: at most one post, only for an unfinished row whose message was built and admitted; deliveries are recorded and announced exactly after an accepted post; the row is failed exactly when the message can never be built, or after a posted permanent, unknown or exhausted answer; backing off, republishing and releasing happen exactly after a posted transient answer with retries left. |
| Worker.HandledReturns | cmd/worker/main.go:247-347 | Which results are acked, requeued or dead-lettered: a failed read or template lookup is dead-lettered, a refused limiter requeued without a post, a refusal acked, an accepted post acked exactly when the delivery was recorded and announced, a retried one acked exactly when it was republished and else requeued. |
| Worker.Process | cmd/worker/main.go:262-291 | The part for an unfinished row, with the acts of each way out: a message that is missing content, of another channel or not rendered fails the row, a failed lookup dead-letters, else limiter, claim and post follow. |
| Worker.Conclude | cmd/worker/main.go:291-347 | What follows each webhook answer, act by act: recording and announcing, failing, or backing off and republishing or releasing. |
| Worker.BuildStable | cmd/worker/main.go:350-375 | What is built for the webhook does not depend on when in the run the row is read. |
| Worker.MarkDeliveredWithRetry | cmd/worker/main.go:62-93 | Attempts follow one another, each started before the 45 s deadline, at most thirty; success is reported exactly when one was reported, and the row is then delivered under the webhook's id; failure means thirty attempts or that the deadline has passed. |
| Worker.AttemptsBound | cmd/worker/main.go:62-93 | Unless a shutdown cuts a wait short at most 27 attempts are made. |
| Worker.TryMarkSending | cmd/worker/main.go:282-289 | Success leaves the row sending and the worker ready to post; any failure leads to an ack. |
| Worker.RevertSendingAndRequeue | cmd/worker/main.go:51-60 | Always asks for a requeue; the update puts exactly a sending row back to queued, unless the call failed. |
| Worker.RepublishDelivery | cmd/worker/main.go:342-347 | Success puts one new message of the same lineage, with one more retry, in the queue and leads to an ack; failure leads to the release. |
| Worker.FailAndEmit | cmd/worker/main.go:308-332 | MarkFailed, whose error is ignored, and then the event lead to an ack. |
| Worker.TryMarkFailed | internal/db/notifications.go:169-182 | The call makes a pending, queued or sending row failed unless the database failed it, changes nothing else, and leaves finished rows alone. |
| Endpoint.CreateNotifications | internal/api/handlers.go:129-256 | The whole create endpoint, in any state of any run, so also after and amid other requests: a refused or rolled-back request changes nothing; otherwise it commits exactly what the specification of creation says for the tables as they are. When the commit is also reported, all that is ever done for a new row is: one clock reading, one re-read, and if it works and the row is due one publish, followed by up to five MarkQueued or by one outbox entry; and it is reported queued exactly when a MarkQueued was. When the commit took effect but reported an error, the client gets an error and every new row stays pending with nothing published. |
| Endpoint.NewRowsReported | internal/api/handlers.go:195-208 | The rows committed for results reported inserted are those of their items. |
| Endpoint.LostAnswer | internal/api/handlers.go:205-208 | Sending that request again with the same keys, at any later time of any run, inserts nothing, commits no row and answers with the first ids; its rows without a schedule, and only those, are stranded in every later state until they are cancelled. |
| Snapshots.CommitAdmitted | migrations/000001_initial.up.sql:30-57 | What an accepted request commits always passes the primary key, batch reference and unique index. |
| Snapshots.CommitCreates | internal/api/handlers.go:182-208 | The protocol's commit step leaves the tables as the specification of creation says. |
| Snapshots.RunLasts | internal/db/notifications.go:51-124 | Through any run, with any requests, faults and crashes, keys stay bound to their rows, rows keep their columns and batches their counts. |
| Snapshots.ReplayInRun | internal/db/notifications.go:89-124 | Idempotency end to end: a fully keyed request sent again in any later state of any run, after any publishing, delivering, cancelling and other requests, inserts nothing and is answered with the ids of the first time. |
| Publishers.PublishCommitted | internal/api/handlers.go:210-249 | The post-commit loop does for every newly inserted row, whatever happens meanwhile, exactly what its schedule, the one clock reading and the results of its calls ask for, and reports it queued exactly when its own MarkQueued reported success; the row has then left pending. |
| Publishers.PublishOne | internal/api/handlers.go:211-249 | One turn of that loop: a re-read; nothing more if it fails or the row is scheduled later; else one publish, then up to five MarkQueued when the broker took it and exactly one outbox write when not; other rows of the request keep their place. |
| Publishers.MarkQueuedWithRetry | internal/db/markqueued_retry.go:11-45 | At most five attempts; success is reported exactly when one of them succeeded, and means that the row is queued. |
| Publishers.EnqueueOutbox | internal/api/handlers.go:221-240 | When the database works an unpublished entry for the row is there afterwards. |
| Publishers.RelayIteration | internal/runner/background.go:61-76 | One relay transaction, with other processes acting between its calls: it publishes a pending row exactly once and marks the entry of any other row without publishing; it succeeds exactly when its calls work and, if it published, the row is still pending and unlocked at the commit; it ends unlocked. |
| Publishers.RelayCommit | internal/runner/background.go:70-76 | The row update and the entry's mark take effect together or not at all, also when the database reports an error, although the row is not locked. |
| Publishers.SchedIteration | internal/runner/background.go:115-130 | One scheduler transaction reads, publishes once and commits, each only after the one before worked, and succeeds exactly when all three do: the row lock makes its status check and its MarkQueued guard pass. |
| Publishers.CancelNotification | internal/db/notifications.go:211-221 | A cancel succeeds exactly on a pending or queued row, changes only its status, and a refused one changes nothing. |
| Processes.World.Perform | internal/db/notifications.go:130-221 | Each store or broker call is one step of the run and changes the state as the protocol says. |
| Processes.World.Others | internal/runner/background.go:24-130 | Between two statements of a process every other process may take any steps; they leave the process's own position alone. |
| Processes.StepKeeps | internal/amqp/amqp.go:366-377 | No step of one process moves another's delivery, task, relay or scheduler transaction. |
| Drain.Tables.Tick | internal/runner/background.go:32-56 | With one relay, working publishes and no database error, while other processes insert and move rows and add entries: entries are marked in id order, claimed at most twice, published at most once, and at least once if marked by a commit; a tick marks at least min(12, k) of k entries, or min(25, k) when no row moves under it. |
| Drain.Tables.Iterate | internal/runner/background.go:61-76 | An iteration publishes the first entry if its row is pending and commits it unless the row moved before the update, and discards it unpublished if not. |
| Drain.Tables.ClaimOutboxBatch | internal/db/outbox_scheduler.go:15-43 | Returns the first unpublished entry in id order, if there is one. |
| Drain.Tables.Exec1 | internal/db/notifications.go:130-221 | A guarded update affects the row exactly when it exists and its status is in the WHERE list, and then sets the status it names, and a delivery's id. |
| Creation.Database.CreateNotifications | internal/api/handlers.go:129-208 | Exactly which requests are refused and why, and that every faulty item is reported once, in order and with its first fault. The table becomes that of inserting the items one after the other exactly when every call works and the commit takes effect, and else is unchanged; the request is answered with the results exactly when the commit also reports no error. |
| Creation.Database.InsertItems | internal/api/handlers.go:195-208 | The loop completes exactly when every insert works; then table, results and hit count are those of the specification. |
| Creation.Database.InsertNotification | internal/db/notifications.go:51-124 | Insert, or on a key conflict return the row that has the trimmed key, whatever else differs. |
| Creation.Database.CheckItems | internal/api/handlers.go:145-164 | Collects every faulty item, in order, with its first fault, and nothing else. |
| Histories.KeyForever | internal/db/notifications.go:89-109 | Over any history of committed requests and status changes a key stays bound to one row forever, and that row keeps the key. |
| Histories.KeyUnique | migrations/000001_initial.up.sql:55-57 | Two rows never share a key. |
| Histories.RowsAreItemsLessHits | internal/api/handlers.go:194-208 | Conservation: rows are the items of all committed requests less their idempotent hits. |
| Histories.EveryRowInserted | internal/api/handlers.go:195-208 | Every row was reported inserted by some request. |
| Histories.InsertedOnce | internal/api/handlers.go:211-214 | No row is reported inserted by two requests, or twice by one, so only one publish loop gets it. |
| Histories.Replay | internal/db/notifications.go:111-124 | Sending a fully keyed request again, at any later time, inserts nothing, changes no row and answers with the same ids. |
| Histories.HitIsKnown | internal/db/notifications.go:100-109 | An item is answered with a row from before the request or one that an item at or before it inserted. |
| Histories.BatchSize | internal/db/notifications.go:34-49 | At every later time the count recorded for a batch is its request's number of items, and the batch holds that many rows less the request's hits: exactly the count when there was no hit. |
| Histories.ResultsDistinct | internal/api/handlers.go:195-214 | The rows of one answer reported inserted are different rows, which the publish loop relies on. |
| Histories.CreatedRow | internal/db/notifications.go:51-99 | A row reported inserted is new and is the accepted item's row. |
| Validation.StoredColumns | internal/db/notifications.go:51-86 | That row, column by column: stripped texts, the channel and priority the item names (normal if none), the stripped key unless blank, the schedule, template and payload as given, pending and without provider id. |
| Validation.ValidateReportsFirst | internal/domain/notification.go:67-125 | An item is reported for a fault exactly when it has that fault and none that is looked for earlier; faults are stated without trimming or splitting functions. |
| Validation.AcceptedIff | internal/domain/notification.go:67-125 | An item is accepted exactly when it has no fault. |
| Validation.AcceptedMeetsCheck | migrations/000001_initial.up.sql:46-52 | The row of every accepted item meets the body CHECK. |
| Wire.InlineOnTheWire | cmd/worker/main.go:350-359 | From acceptance to webhook, over any run: the posted recipient, channel and priority are the accepted ones and the text is exactly the trimmed text whose lengths were checked. |
| Wire.TemplateOnTheWire | cmd/worker/main.go:360-375 | From acceptance to webhook, over any run: the missing-content branch is not reached, a lookup error and a channel mismatch are told apart, and text is posted exactly when the template can be read, is for the row's channel and renders to some text with the accepted payload. |
| Wire.TemplatePosted | cmd/worker/main.go:350-375 | What is then posted is the template's body with each placeholder replaced by its value in the accepted payload, with the accepted recipient, channel and priority. |
| Wire.TemplateTextClosed | internal/domain/template_render.go:45-48 | What is posted for a template holds no placeholder. |
| Wire.StoredStays | internal/db/notifications.go:130-221 | In every later state of every run the stored row still has everything accepted and meets the CHECK. |
| Wire.InlineIsStripped | cmd/worker/main.go:351-359 | For any stored row, text that is not blank is posted without its surrounding blanks, in the message's own envelope without template and payload. |
| Wire.MissingContentIff | cmd/worker/main.go:360-362 | The missing-content branch is taken exactly when the row has neither text nor a template. |
| Text.StrippedIsTrim | internal/db/notifications.go:68-75 | Trimming yields the one text that remains when the surrounding blanks are taken off. |
| Text.TrimIdempotent | cmd/worker/main.go:354-356 | Trimming twice is trimming once, so validation, store and send agree. |
| Text.CutAtFirstLine | internal/domain/notification.go:98-122 | First line and remainder are the one way to cut a text at its first newline. |
| Text.ByteLenIs | internal/domain/notification.go:98-125 | The lengths checked are those of the UTF-8 encoding. |
| Text.EncodingUnique | internal/domain/notification.go:98-125 | That encoding loses nothing: different texts have different bytes. |
| Template.ScanIsLeftmost | internal/domain/template_render.go:9-28 | The hand-written scanner finds the one leftmost non-overlapping decomposition of any body into characters and placeholders. |
| Template.FrontIff | internal/domain/template_render.go:9 | The scanner recognises a placeholder at the front of a text exactly when the pattern matches there. |
| Template.MatchStringIff | internal/domain/template_render.go:12-14 | The search agrees with the pattern occurring anywhere. |
| Template.MatchMeansHole | internal/domain/template_render.go:12-14 | The pattern occurs exactly when the decomposition has a placeholder. |
| Template.ScanSpells | internal/domain/template_render.go:22-28 | The decomposition loses nothing: with no values filled in its pieces spell the body. |
| Template.FilledIff | internal/domain/template_render.go:22-44 | Filling in yields the one text made of one piece for each token, in order: a character itself, a value for a key that is present, else the placeholder's own text. |
| Template.ScannedHole | internal/domain/template_render.go:23-27 | Matching a found placeholder again by itself, as the replacement function does, yields the same key. |
| Template.MissingKeyRefused | internal/domain/template_render.go:28-31 | If any placeholder's key is missing from the payload the rendering is refused. |
| Template.RenderSucceedsIff | internal/domain/template_render.go:11-49 | Exactly when rendering succeeds, and with which text, in terms of those pieces. |
| Template.RenderFails | internal/domain/template_render.go:16-47 | Exactly when it fails for an empty payload, a malformed one, or unresolved placeholders. |
| Template.RenderedMeaning | internal/domain/template_render.go:22-49 | A successful result consists of the gaps kept verbatim and each placeholder's value, holds no placeholder, and rendering it again with any payload changes nothing. |
| Template.BraceFreeRenders | internal/domain/template_render.go:22-49 | Rendering succeeds whenever all keys are present and neither the gaps nor the inserted values contain an opening brace. |
| Walks.NoRowTwice | internal/api/handlers.go:363-366 | Following cursors never returns a row twice, while other requests insert rows and change statuses. |
| Walks.ReturnedOnce | internal/db/notifications.go:298-315 | A complete walk returns every row that was there from the start and matched at every request. |
| Walks.ReturnedMatches | internal/db/notifications.go:303-306 | Whatever is returned is there, has the status and channel asked for, was created within the bounds, and comes after the cursor. |
| Walks.WalkPage | internal/api/handlers.go:363-366 | Each answer of a walk has the newest rows asked for, newest first, on the columns; and the next request asks for what comes after its last row. |
| Walks.WalkLength | internal/api/handlers.go:362-366 | A walk of n requests has shown (n - 1) times the limit different rows of the table, so it ends. |
| Walks.StaticWalk | internal/db/notifications.go:298-316 | On a table at rest the pages concatenate, in exactly as many requests as its length calls for, to the full listing, which has exactly the rows asked for, created_at descending and then id descending. |
| Walks.RunEvolves | internal/db/notifications.go:130-221 | The table changes as the walk theorems assume in every run of the protocol. |
| Walks.OverLimit | internal/api/handlers.go:363-366 | Asking for more than a hundred never yields a cursor, so the walk is complete exactly when at most a hundred rows match. |
| Listing.ListNotifications | internal/api/handlers.go:296-371 | The endpoint refuses a limit below one; otherwise it answers with the newest rows asked for, newest first, a row being left out only below a full page, and with the position of the last row as cursor exactly when as many rows as asked for came. |
| Listing.List | internal/db/notifications.go:269-328 | The row loop returns that page in order, with the clamped limit. |
| Listing.PageIsPage | internal/db/notifications.go:298-316 | WHERE, ORDER BY and LIMIT stated on the columns: the specification's page has those rows in that order. |
| Listing.NewestFirstUnique | internal/db/notifications.go:315 | A set of rows has only one newest-first order, because ids break ties. |
| Backoff.RetryBackoff | cmd/worker/main.go:408-422 | The loop computes min(250 ms * 2^n, 30 s) plus a jitter below 50 ms; a negative count waits like none. |
| Backoff.BackoffMonotone | cmd/worker/main.go:408-422 | The delay before jitter never shrinks with the retry count and stays between 250 ms and 30 s. |
| Backoff.CapReached | cmd/worker/main.go:410-418 | The 30 s cap is reached exactly from retry count seven on. |
| Backoff.DeadlineBeforeLastAttempts | cmd/worker/main.go:62-93 | The waits before attempt i stay under the 45 s deadline exactly up to attempt 26; with it MarkDeliveredWithRetry is bounded. |
| Routing.RepublishHeaders | internal/amqp/amqp.go:276-281 | The header loop builds the copy of the table with the retry count replaced. |
| Routing.CloneHeaders | cmd/worker/main.go:397-406 | The copying loop yields an equal table. |
| Routing.RepublishCounts | internal/amqp/amqp.go:30-50 | Republishing counts one more retry exactly when that fits in 32 bits, and keeps every other header. |
| Routing.ChainCounts | internal/amqp/amqp.go:276-281 | A message first published without the header carries count r after r republishes, all other headers unchanged. |
| Routing.DeclareTopology | internal/amqp/amqp.go:113-147 | The two loops bind exactly the nine channel and priority keys, each to its channel's queue. |
| Routing.RoutedToOwnQueue | internal/amqp/amqp.go:52-56 | Every notification message reaches the queue of its own channel and no other. |
| Routing.AnswerDecides | internal/delivery/delivery.go:81-97 | Which status codes lead to a retry, a recorded delivery under the id of the answer, or a failed row, with the retry limit. |

## Left out

- Lost broker connections appear in the theorems for every run only; coverage, loss accounting, lineage and quiet-run theorems assume none, and `Limits.OrphanStrands` shows that coverage and loss accounting do not hold with them.
- Theorems.LineageBounds: assumes no worker crash; a bound that counts crashes is proved for accepted posts only, in `Theorems.DuplicateBound`.
- Loops around transactions: a relay tick is modelled whole in `Drain`, for one relay with working calls; for many replicas and faults single iterations are modelled and their number is arbitrary. The scheduler's tick is modelled by its iterations only.
- Order inside one create request: in the state machine the post-commit tasks of a request's rows interleave freely, which allows more than the loop; the loop itself is `Publishers.PublishCommitted`.
- The shared stores are values inside one class, and a creation transaction takes effect as one step; statement-level SQL execution, isolation levels, deadlocks and AMQP frames are assumed to give atomic guarded updates, row locks, a unique index and persistent queues.
- Prefetch, message priorities inside a queue and queue order: any queued message may be delivered next.
- Malformed message bodies and ids, which are dead-lettered before the database is touched, and rows deleted by hand.
- "failed" events: MarkFailed's error is ignored and a cancel can win the race, so the event need not match the row.
- Status events to WebSocket clients, their lost publishes and the socket fan-out.
- Rate limiting algorithms: the wait is an arbitrary success or error.
- JSON decoding and number formatting of template values, jsonb normalisation, base64 and time formats of the cursor, correlation ids and tracing headers.
- A filter text that names no status or channel (the query then selects nothing), and `ListByBatchID`.
- Page limits above a hundred beyond `Walks.OverLimit`, and any claim that a cursor means that more rows exist: a full last page also carries one.
- Deleting templates: no endpoint does; a missing template is a lookup error here, and `Wire.MissingContentIff` says what a removed reference would lead to.
- HTTP routing, configuration, metrics, logging, migrations runner, connection set-up and reconnects.
