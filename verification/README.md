# Event lifecycle: a Dafny model

The service takes signed webhooks, stores each as a row of the `events` table, hands its id to a queue,
and lets workers process it, with retries, a dead-letter lane, manual retry and redrive. Table and broker
change in separate steps, publish comes before acknowledge, and anything can stop in between. This project
models that protocol and proves what it keeps.

`dafny verify dfyconfig.toml` checks everything.

| file | content |
|---|---|
| `Lifecycle`, `Protocol` | the event record; the protocol over RabbitMQ as a state machine of single steps |
| `Safety`, `Intake`, `SafetyTheorems` | what every run keeps, with any number of actors, duplicates, a crash at any point, and load and commit of a row as separate steps |
| `RowLaw`, `Outcome` | how a row follows from its attempt count although it is loaded and committed in separate steps, and exactly when it does |
| `Schedule`, `Fates` | termination of the workers, and independence of their schedule |
| `CleanRuns`, `Agreement`, `Summary` | runs without crash and manual retry: redrive arithmetic, exactly when lanes and table agree, summary counts |
| `Witnesses` | runs that show where those conditions are needed |
| `RedisQueue` | the Redis backend: a different machine, and the exact length of its drain |
| `Text`, `Json`, `QueuePayload`, `Signature` | the wire forms: UTF-8, Python integers, JSON, UUID text, the queue body, the signed bytes |
| `Scripts` | one worker turn, one redrive, one webhook and one retry request as runs, in closed form |
| `Queue`, `Store`, `Service` | the same operations as methods on broker, table and application objects, proved to be such runs |
| `Sums` | sums over sequences |

An action of the state machine (`Protocol.Action`) names everything the state does not determine: which
actor moves, which id is drawn, whether a publish is confirmed, where the broker puts a message back. A run
is a sequence of actions, so "for every run" covers every interleaving. `M` is
`RABBITMQ_MAX_DELIVERY_ATTEMPTS`, at least 1 (`app/config.py:81-86`).

What the broker and the database are assumed to do: lanes are FIFO and durable; an unacknowledged message
goes back to its lane, anywhere in it, when its holder stops; expiry takes the head of the retry lane; a
drawn UUID is new; the unique index on `delivery_id` and the guarded UPDATE are atomic; each statement sees the
table as it is when it runs (READ COMMITTED), and a flush writes the changed columns only. A commit that fails
and a worker's or redrive's publish that raises stop the actor, like a crash. The publish of a webhook or
retry request may also raise after the broker has the message (`Unconfirmed`).

Where the code says less than, or something else than, one might expect:

- The counter in the dead-letter lane after `r` redrives is `n - M * (r + 1)`: the lane is reached only
  after a full cycle of `M` attempts (`CleanRuns.RedriveArithmetic`).
- An empty delivery id skips the duplicate lookup (`app/routers/webhooks.py:106`) but is stored, so that a
  second one is answered by the unique index with status 500 (`Scripts.InsertRun`).
- Redis has no acknowledgement: a worker that stops after its pop drops a copy, and the event is lost when as
  many copies were dropped as were pushed (`RedisQueue.RedisLosesExactly`); RabbitMQ loses none
  (`SafetyTheorems.NoEventLost`).
- A row is loaded and committed in separate steps, and a commit writes only the columns that differ from the
  loaded ones. With one worker the outcome of an event still follows from its attempts, whatever the API process
  does in between (`Outcome.OutcomeByAttempts`, `OneWorkerUndisputed`). But a redrive's mark between the load and
  the commit of a last attempt can leave a failed row without an error message, with one worker and no crash
  (`Witnesses.FailedCanLackMessage`). Two sessions on one row can lose updates and undo `Processed`
  (`Witnesses.UpdatesCanBeLost`, `ProcessedCanBeUndone`). `RowLaw.RowLawExactly` and `AbsorbingExactly` say of every
  run when the rows keep their law; no event is lost either way.
- `mark_events_pending` runs after the redrive has published, so a worker can see the message first, and the
  row can end pending beside a dead letter (`Witnesses.LanesCanDisagree`). Lanes and table agree throughout a run
  without crash and manual retry exactly when no mark hits an event that has been dead-lettered again and no last
  attempt that fails commits over a failed row marked since its load (`Agreement.AgreesExactly`). It is enough
  that no worker dequeues while a redrive request is open (`Agreement.PatientMeetsGuards`).
- The summary counts by three statements, so its counts add up to the total only when no row is inserted
  between them (`Summary.CountsAddUp`).
- `int` strips white space and reads digits of any script, but not the separators U+001C to U+001F, because it
  narrows text to ASCII first (`Text.PyInt`).
- The error that `run_worker` raises without a queue names Redis only, but RabbitMQ is accepted as well
  (`app/worker.py:21-22`).

## Model

| member | source | states |
|---|---|---|
| SafetyTheorems.NoEventLost | app/queue.py:281-311 | in every run, an event whose enqueue ever reached the broker is processed, or a message that obliges somebody to process it is in a lane or in a hand; racing commits on one row included |
| SafetyTheorems.CopyConservation | app/queue.py:281-335 | copies in the lanes and in hands equal enqueues plus hand-overs interrupted between publish and ack, less acks after success |
| SafetyTheorems.AttemptsInRange | app/queue.py:294-311 | attempts are 1..M in main and with workers, 2..M in retry, M in the dead letters; the worker's last-attempt test and the router's agree on every message held |
| SafetyTheorems.IntakeIdempotent | app/routers/webhooks.py:106-146 | with any interleaving of lookups and inserts: one row per delivery id, all answers about a delivery id name that row, at most one of them is `accepted` |
| SafetyTheorems.RepeatsChangeNothing | app/routers/webhooks.py:107-120 | any number of repeated deliveries leaves table, lanes and all requests in progress as they were, and each gets one answer |
| SafetyTheorems.StrandedStaysStranded | app/routers/webhooks.py:131-138 | a row whose event never reached the broker has no copy anywhere and is as it was inserted |
| SafetyTheorems.InvariantStep | app/queue.py:231-335 | the joint invariant behind these theorems survives every step of every actor |
| Safety.TidyStep | app/queue.py:294-309 | every step leaves attempt numbers fitting their lanes, and messages only for rows that were enqueued |
| Safety.SafeStep | app/queue.py:281-311 | no step takes the last obligation of an unprocessed event away |
| Safety.BalancesStep | app/queue.py:281-335 | every step keeps the balance of copies |
| Intake.IntakeStep | app/crud.py:11-36 | every step keeps rows distinct by delivery id and answers true and unique |
| Intake.StrandedStep | app/worker.py:25-39 | no step changes a row whose event was never enqueued |
| Lifecycle.AttemptMeets | app/services/processor.py:28-65 | an attempt in one step keeps the law of its row, at each of the three levels: outcome, stamps, error message |
| Lifecycle.MarkedMeets | app/crud.py:96-105 | so does the guarded UPDATE of a redrive |
| Lifecycle.WrittenMeets | app/services/processor.py:42-56 | a commit over a row that has moved on keeps the law just when the columns it leaves alone, and a `Processed` it would overwrite, are as stated |
| Lifecycle.WrittenColumns | app/services/processor.py:28-56 | column by column what a commit leaves in the row, with the fault that each kind of payload ends in |
| Lifecycle.WrittenUpToDate | app/services/processor.py:28-56 | over a row that was at most marked since its load, a commit counts one attempt, keeps the counter's course and ends processed just when an attempt on the row itself would |
| RowLaw.RowLawExactly | app/services/processor.py:68-74 | for every run with any number of sessions: all rows meet the law throughout just when every commit finds what it must find |
| Outcome.AbsorbingExactly | app/services/processor.py:50-56 | while outcomes follow from attempts, no row ever leaves `Processed` just when no commit of a failure meets a processed row |
| Outcome.UndisputedCommits | app/services/processor.py:68-74 | where no two sessions have attempts on one row under way, every commit finds what outcome and stamps need, marks in between included |
| Outcome.OneWorkerUndisputed | app/worker.py:25-39 | runs with one worker are such runs, with any crashes, redrives, webhooks and manual retries |
| Outcome.OutcomeByAttempts | app/services/processor.py:28-56 | in such runs, whatever duplicates, crashes, redrives and manual retries happened, the counter is `max(0, n0 - attempts)` and the row is processed just when it is not forced and has had more than `n0` attempts |
| Outcome.ProcessedIsAbsorbing | app/services/processor.py:42-56 | in such runs an event once processed stays processed, although an attempt never looks at the status |
| Outcome.RowsStamped | app/services/processor.py:42-55 | in such runs `processed_at` is set just for processed rows, which have no error message, and untried rows are pending |
| Outcome.RowsConsistent | app/services/processor.py:42-55 | when every commit meets the full condition, failed rows have an error message as well |
| Schedule.CalmStepDecreases | app/queue.py:113-121 | every worker step, loads and commits included, and every expiry lowers a measure weighted by lane and attempts left, for forced and unreadable payloads too |
| Schedule.CalmRunEnds | app/worker.py:25-39 | a run of such steps is no longer than the measure at its start |
| Schedule.StepsLeftLinear | app/queue.py:294-311 | with attempt numbers in range the measure is at most 6 M per message in main, retry or a worker's hand |
| Schedule.CalmRunBounded | app/queue.py:294-311 | from every reachable state a run of worker steps and expiries has at most that many steps |
| Schedule.SomeCalmStep | app/worker.py:25-39 | as long as main, retry or a worker's hand has something, a worker or the broker can move |
| Schedule.CalmRunToQuiet | app/worker.py:25-39 | every state can be run to quiet |
| Fates.FateInClosedForm | app/services/processor.py:28-56 | the recursive course of an event delivered with attempt `a` and counter `n` takes `min(n + 1, M - a + 1)` deliveries (`M - a + 1` if forced), and ends dead-lettered just when forced, unreadable or `n >= M - a + 1` |
| Fates.SchedulesAgree | app/queue.py:294-311 | from one message per event, all schedules of workers and expiries that come to rest end with the same rows and the same dead letters, however loads and commits interleave |
| Fates.DeliveriesExact | app/worker.py:34-39 | in every such schedule an event gets exactly that number of attempts and is failed and dead-lettered, or else processed, as said |
| Fates.QuietIsFulfilled | app/queue.py:305-311 | at quiet, each row and the dead-letter lane are exactly what the events' fates say |
| CleanRuns.RedriveArithmetic | app/services/processor.py:32-37 | an event born with counter `n` is processed after exactly `n / M` redrives and `n + 1` attempts, and has counter `n - M * (r + 1)` in the dead-letter lane after `r` redrives; marks may fall between load and commit |
| CleanRuns.AtRestAfterRedrives | tools/smoke_check.py:126-174 | at rest it is processed just when it has had `n / M` redrives, and otherwise sits in the dead-letter lane |
| Agreement.AgreesExactly | app/routers/webhooks.py:246-247 | throughout a run without crash and manual retry retry messages belong to pending events, main messages to pending ones or to failed ones that a redrive has still to mark, and dead letters to failed ones, just when every mark spares what was dead-lettered again and every last failure commits over the status it loaded |
| Agreement.PatientMeetsGuards | app/routers/webhooks.py:246-247 | those guards are met when no worker dequeues while a redrive is open |
| Summary.WhereAtRest | app/worker.py:34-39 | at rest a row's status says in which lane its one message is, and conversely |
| Summary.LanesAgreeAtRest | app/crud.py:66-85 | under those guards each enqueued event has one message at rest unless processed, and the summary's `failed` is the depth of the dead-letter lane, `pending` that of main and retry plus the rows never enqueued, `processed` the number of enqueued events without a message |
| Summary.CountsAddUp | app/crud.py:66-85 | over three snapshots of a growing table: pending, processed and failed add up to the total just when no row came between the first two statements, and the counts by source just when none came between the first and the third |
| Summary.CountsMean | app/crud.py:76-84 | each count is the number of rows with that status or source in the snapshot of its statement, and a source is listed just when a row has it |
| Summary.BySourceRaised | app/crud.py:20-28 | a new row raises the count of its source by one and leaves the other sources alone |
| Summary.SourceGrows | app/crud.py:20-28 | over every run the rows of a source grow by exactly the stored webhooks of that source; no worker, redrive or retry changes it |
| Witnesses.LanesCanDisagree | app/routers/webhooks.py:246-247 | for every M, a run with one worker and without crash or manual retry that ends at rest with a dead letter whose event is pending |
| Witnesses.FailedCanLackMessage | app/crud.py:96-107 | for every M of at least 2, a run with one worker and without crash or manual retry that ends at rest with a failed row that has no error message |
| Witnesses.UpdatesCanBeLost | app/services/processor.py:50-56 | a run without crash, with two sessions on one row, that ends with a processed row that has an error message and too small an attempt count |
| Witnesses.ProcessedCanBeUndone | app/services/processor.py:50-56 | such a run in which the stale failure of a last attempt turns a processed row into a failed one |
| RedisQueue.RedisNeverFails | app/queue.py:257-257 | with M at least 2 no Redis run makes an event failed, crashes included |
| RedisQueue.RedisConservation | app/queue.py:251-257 | in every Redis run, crashes included, the copies of an unprocessed event in the list and in hands, and those crashes dropped, are together its pushes |
| RedisQueue.RedisLosesExactly | app/queue.py:287-289 | a pushed, unprocessed event is out of reach just when as many copies were dropped as pushed |
| RedisQueue.RedisKeeps | app/queue.py:287-289 | an event pushed more often than dropped is processed or is in the list or a hand; a forced one is always in the list or a hand |
| RedisQueue.RedisCrashLoses | app/queue.py:251-257 | one crash after a pop leaves an enqueued pending event with no copy |
| RedisQueue.IterationCounts | app/worker.py:25-39 | each turn on a non-empty list takes exactly one off the drain time |
| RedisQueue.DrainIsExact | app/worker.py:25-39 | without forced or unreadable events the list is empty after `k` turns just when `k` is at least its length plus the failures its distinct events have left, and every queued event is then processed |
| RedisQueue.IterationIsRun | app/worker.py:25-39 | such a turn is a pop, a try and a repush or drop of the step machine |
| Text.DecodeEncode | app/queue.py:52-59 | UTF-8 decoding undoes encoding on every encodable text |
| Text.EncodeDecode | app/security.py:41-41 | encoding undoes strict decoding on every valid byte sequence |
| Text.PyIntShown | app/security.py:25-25 | `int(str(n)) == n` for every integer |
| Text.PyIntPadded | app/security.py:25-25 | blanks of ASCII and Latin-1 around a printed integer do not matter |
| Text.IntegerAlphabet | app/security.py:25-27 | a text that converts holds, once narrowed to ASCII, white space, signs, digits of the base, underscores and the letter of a prefix only |
| Text.HexValue | app/queue.py:53-53 | fixed-width hexadecimal has the asked number of digits and the value it was made from |
| Json.ParsePlainString | app/queue.py:59-59 | a string without quotes, escapes and controls is read back up to its closing quote |
| Json.ParseShownNumber | app/queue.py:59-59 | a printed integer is read back, and nothing after it |
| Json.ParseDumped | app/queue.py:52-59 | every text that can be encoded is read back from its printed form with `ensure_ascii`, escapes and surrogate pairs included |
| QueuePayload.UuidTextLayout | app/queue.py:53-53 | the text of an id has 36 characters, dashes exactly at 8, 13, 18 and 23, lower-case hexadecimal digits elsewhere, and those have the id as value (section 4 of RFC 9562) |
| QueuePayload.BodyTextLayout | app/queue.py:51-55 | where key, id and number stand in a body, byte for byte |
| QueuePayload.ParseUuidText | app/queue.py:60-60 | `uuid.UUID(str(u)) == u` for every 128-bit value |
| QueuePayload.ReadableDigits | app/queue.py:257-260 | a text of hexadecimal digits and dashes is an id just when it has 32 digits, and then their value |
| QueuePayload.UnreadableUuid | app/queue.py:257-260 | a text shorter than 32 characters, or with a character no id holds, is skipped |
| QueuePayload.ParseBodyText | app/queue.py:51-59 | a body with any plain text for its id parses to the dictionary it was made from, whole |
| QueuePayload.ReadBodyWith | app/queue.py:58-60 | such a body is malformed just when the text is no id, and else gives that id and its attempt |
| QueuePayload.ReadBodyWithoutAttempt | app/queue.py:60-60 | without an attempt it counts as the first |
| QueuePayload.ReadBodyWithoutId | app/queue.py:60-60 | without an event id it is malformed |
| QueuePayload.UnreadableBody | app/queue.py:271-276 | what is not UTF-8, or is no JSON object by its first character, is malformed |
| QueuePayload.AttemptConverts | app/queue.py:60-60 | which JSON values convert to an attempt number, and to which |
| QueuePayload.BodyRoundTrip | app/queue.py:51-60 | what the service publishes it decodes to the same id and attempt, so it drops none of its own messages |
| QueuePayload.BodyInjective | app/queue.py:51-55 | different messages have different bodies |
| Signature.IntegerTextScalar | app/security.py:25-25 | a time stamp that converts to an integer, in digits and spaces of any script, has no dot and can be encoded |
| Signature.FramingInjective | app/security.py:41-41 | requests whose time stamps are integers sign the same bytes only if time stamp text and body are the same |
| Signature.PassesExactly | app/security.py:13-53 | for any headers and secret, a request passes just when no secret is set, or both headers are there and not empty, the time stamp is an integer `t` with `t - tolerance <= now <= t + tolerance`, the body is UTF-8 and the signature is the digest of time stamp, dot and body |
| Signature.MissingHeadersRefused | app/security.py:17-22 | with a secret set, a missing or empty header is refused as such, and nothing else is |
| Signature.RefusedExactly | app/security.py:24-53 | which of the other refusals a request with both headers gets, or that it raises |
| Signature.SenderAndVerifierAgree | tools/send_signed_webhook.py:12-39 | the sender's signature at `t` is the digest of time, dot and body; it passes at `now` just when `t - tolerance <= now <= t + tolerance`, and is otherwise refused for that reason |
| Scripts.TurnIsRun | app/worker.py:25-39 | an undisturbed worker turn is a run of single steps with a closed form |
| Scripts.TurnsAreRun | app/worker.py:25-39 | so is any number of them |
| Scripts.ExpiriesKeepOrder | app/queue.py:113-121 | expiries move the head of the retry lane to the end of main in order, attempts unchanged |
| Scripts.RedriveIsRun | app/queue.py:322-338 | an undisturbed redrive request is a run: exactly the first `min(limit, depth)` dead letters move to main in order with attempt 1, then their unprocessed events become pending |
| Scripts.RedriveTwice | app/queue.py:322-338 | redriving `a` and then `b` is redriving `a + b` |
| Scripts.InsertRun | app/crud.py:29-36 | a delivery not found is inserted, or rejected by the unique index when the lookup was skipped |
| Scripts.AcceptRun | app/routers/webhooks.py:122-146 | an accepted webhook is a run that stores the row, then publishes attempt 1 and answers by the publish's outcome |
| Scripts.RetryRun | app/routers/webhooks.py:212-233 | a manual retry is refused for an unknown or a processed event without effect, and otherwise adds one message |
| Queue.MessagesConcat | app/queue.py:271-276 | what a lane means is the concatenation of what its parts mean, malformed bodies left out |
| Queue.MessagesPublish | app/queue.py:134-146 | publishing adds exactly the published message to a lane's meaning |
| Queue.MessagesFresh | app/queue.py:333-333 | the bodies a redrive publishes mean its ids, in order, with attempt 1 |
| Queue.EventQueue.EnqueueEvent | app/queue.py:231-245 | one body or id at the end of the backend's main queue, nothing else changed, and failure just where the publish is not confirmed |
| Queue.EventQueue.DequeueEvent | app/queue.py:248-278 | takes exactly the head; a malformed body is acknowledged and dropped, a malformed id skipped |
| Queue.EventQueue.CompleteEvent | app/queue.py:281-283 | releases exactly the envelope's delivery |
| Queue.EventQueue.RetryOrDeadLetter | app/queue.py:286-311 | the envelope's delivery is released and one message put in its place, in retry with the next attempt or in the dead letters with the same one |
| Queue.EventQueue.RedriveDeadLetter | app/queue.py:314-338 | for any contents and any limit: exactly the first `min(limit, depth)` bodies leave, the decodable ones arrive in main in order with attempt 1, and their ids are returned in order |
| Store.Database.ProcessEvent | app/services/processor.py:21-65 | changing the object field by field and committing once writes the columns that differ and no others, with status, stamp and error of each kind of outcome |
| Store.Database.ProcessEventById | app/services/processor.py:68-74 | on an undisturbed row one whole attempt, column by column; an unknown id counts as processed |
| Store.Database.GetEventByDeliveryId | app/crud.py:54-57 | finds a row with the delivery id just when there is one |
| Store.Database.CreateEvent | app/crud.py:11-36 | adds one row with the request's delivery, source, counter and force flag, pending, untried, without stamp or error, just when no row has its delivery id; the count of its source rises by one |
| Store.Database.MarkEventsPending | app/crud.py:88-107 | the listed unprocessed rows become pending, unstamped and without error, all else about them and all other rows unchanged |
| Store.Database.GetEventsSummary | app/crud.py:66-85 | each count is the size of the set of rows it names, in the snapshot of its statement, and when they add up |
| Service.Attend | app/worker.py:34-39 | process, then ack or route: table, lanes and unacknowledged messages afterwards, on either backend |
| Service.LoopBody | app/worker.py:26-39 | one turn delivers just when the head can be read, and leaves no delivery unacknowledged |
| Service.Application.WorkerTurn | app/worker.py:26-39 | a turn is a run of the RabbitMQ machine, or one iteration of the Redis drain |
| Service.Application.RunWorker | app/worker.py:20-40 | any number of polls is that many turns of the closed form on either backend, less the polls that brought something malformed |
| Service.Application.RetryEvent | app/routers/webhooks.py:207-233 | the request is a run, with the answer, rows and lanes each guard leads to, on all three backends |
| Service.Application.ReceiveWebhook | app/routers/webhooks.py:106-146 | the request is a run; a repeated delivery is answered with the row that holds it and changes nothing; a new one is stored with the request's own fields |
| Service.Application.RedriveDlq | app/routers/webhooks.py:242-248 | the request is a run that moves and marks exactly the readable ones among the first dead letters |

## Left out

- Service.Application.RunWorker: takes the number of polls, because the loop of `run_worker` has no end.
- Outcome.OutcomeByAttempts: requires that no two sessions have attempts on one row under way, as with one worker; otherwise it is false (`Witnesses.UpdatesCanBeLost`), and `RowLaw.RowLawExactly` has the exact condition.
- Outcome.RowsConsistent: that failed rows have an error message is false even with one worker (`Witnesses.FailedCanLackMessage`), so it takes the exact condition on each commit; `RowsStamped` is what holds without it.
- Summary.LanesAgreeAtRest: takes the guards of `AgreesExactly`, because without them it is false (`Witnesses.LanesCanDisagree`).
- Store.Database.ProcessEventById: loads and commits with nothing in between; `ProcessEvent` states the commit over a row that has changed meanwhile.
- SafetyTheorems.NoEventLost: speaks of events whose enqueue reached the broker; a row stored before a failed enqueue has no message until a manual retry, as README.md:192 of the repository admits (`StrandedStaysStranded`).
- Text.PyIntShown: the modelled `int(...)` of a text has no limit on the number of digits; its table of digits is that of Unicode 14.0, as in Python 3.11.
- QueuePayload.BodyRoundTrip: the modelled `json.loads` has no recursion limit and keeps decimal fractions exact where Python rounds them to binary64 or overflows; neither matters to bodies the service writes.
- The payload is reduced to the failure counter, as `int(...)` converts it, and the force flag; `processed_at` to whether it is set; `error_message` to the kind of fault.
- Column lengths, the other columns of a row, and `list_events`, whose order among equal `received_at` is not fixed.
- Keyed hashing: any function from key and bytes to a hexadecimal text stands for HMAC-SHA256; constant-time comparison and hash strength are not modelled.
- The JSON text of the webhook body that the sender builds, the HTTP transport, routing, request validation and the API key.
- Connections, channels, topology declaration, health checks, `get_queue_snapshot`, settings, logging, tracing and metrics.
- Time: the retry delay is any delay, poll timeouts are empty polls, and the clock of the signature check is a parameter.
- The interleaving of several inline background tasks; without a queue the attempt follows its answer directly.
- RedisQueue.RedisConservation: an attempt is one step on Redis; the redrive's mark, the only other writer, does not run there, so this leaves out racing commits of several workers on one row only.
- Redis runs of the step machine store rows and push ids in any order, but duplicate lookups, refused requests and manual retries appear there only as further pushes.
