# Log delivery pipeline: a verified model

The service takes batches of log lines over HTTP, puts them into the Kafka topic `logs.raw` or, when
that fails, into files of a spool directory, and a worker moves them from the topic into Elasticsearch,
the dead-letter topic or replay files. Its documentation promises that accepted input is not dropped
(docs/architecture.md:27-31). This project models the handlers, the spool, its replayer, the topic, the
worker's consuming loop and its replay loop, and proves that promise and the properties it rests on.

Two state machines take one external effect per step, so that handlers, replayers, Kafka,
Elasticsearch, the file system and crashes interleave in every possible way:

- `Api` (with `Steps`, `Intake`, `Durability`, `Promises`, `Identity`): any number of requests, the
  spool and its replayer. The capacity test takes two steps, the listing of the directory and the look
  at its files, and files may be removed between them. `Reach`, `Limits`, `Vanishing` and `Alone` show
  how far its promises go.
- `Consumer` (with `Guarantees` and `Passing`): the worker, with the retry engine of `Retry` and the
  response sorting of `Bulk` inside its steps. `Endings` tells how a call of that engine ends.

`Pipeline` puts them together over one topic, `ByLine` with replay files written line by line.
`Frontend`, `Service` and `Metrics` hold the code as it is written, classes whose methods update fields
in place; what their calls leave outside the process (the topic, documents, dead letters, offsets) is
kept in fields as well. Each of their methods is proved to do what a run of its machine does, so what
holds of all runs holds of them; and what each leaves in its fields is stated besides, in terms of what
was waiting and what the outside world answered. `Scripts` names those answers for the worker, `Turns`
proves what a flush, a turn of the loop and a replay pass make of them. `Text`, `Logline` and `Codec`
are the parser and the JSON-lines format in full, `Json` tells which texts are JSON; `Records` joins
them; `BulkBody` is the request body, `SpoolUsage` the capacity test and the mode, `Races` the writing
of one file at the grain of lines.

Replies of the outside world are arguments of actions and methods: publish results, bulk replies, dead
letter results, commit results, file results, the moment a context ends. An error may always hide an
effect: a failed publish may have stored some messages, a failed bulk request any of its documents, a
failed commit may have moved offsets. Time parsing, address parsing and the JSON form of a time are
abstract functions (`Env`) of which one law is used: what was rendered as a time reads back as it
(`Lawful`). Records carry an identity of the model, so that two equal lines are two records.

## What the code does and the documentation does not say

- docs/architecture.md:22 sends poison records to `logs.dlq`. Exactly the poison payloads that are empty
  or JSON can get there: any other is put into a raw JSON field and cannot be marshalled
  (`Passing.ParkedExactly`).
- docs/architecture.md:30 commits only after safe storage. An offset can pass a message that is not safe
  in exactly these cases (`Passing.PassedExactly`): a message that decodes, when poison behind it in its
  partition can become a dead letter, whose commit is immediate and overtakes what waits in the batch
  (`Passing.PoisonCommitLosesAMessage`); a poison message, when anything behind it can be committed, for
  it is passed over when its dead letter fails (`Passing.SkippedPoisonIsLost`). Messages the API produced
  are never poison (`Pipeline.PoisonIsUnreachable`).
- docs/architecture.md:29 answers 503 only when no safe capacity is left, with `Retry-After`. The
  fallback to the spool runs under the context the publishing used, so it fails when that has ended,
  and then no `Retry-After` is sent (`Limits.LateFallbackIsRefused`, `Frontend.RefusedAfterKafkaExactly`).
- The capacity of the spool is tested before the write and not with it. Requests that come together
  overshoot it by up to one payload for each but one (`Promises.SpoolIsBounded`), and requests of any
  size that fits do (`Limits.BoundIsReached`); only one request at a time keeps to it
  (`Limits.StaysWithinExactly`).
- A file that is removed during the walk makes the spool look empty
  (`SpoolUsage.VanishedFileHidesTheRest`). Then the spool has a bound only if requests come one at a time
  (`Alone.BoundedExactly`), and even that one is above the capacity
  (`Vanishing.VanishedFileBreaksTheBound`).
- A response with fewer items than events drops events (`Bulk.AccountedExactly`).
- A back-off for attempt 36 or later overflows and mostly does not wait at all (`Retry.BackoffExactly`).
- A line of 64 KiB or more makes its file unreadable for good; the file is kept
  (`Codec.JsonLinesRoundTrip`).
- A replay file can be read and removed while it is still being written (`Races.LostExactly`).

## Model

| member | source | states |
|---|---|---|
| Pipeline.NoLoss | docs/architecture.md:27-30 | in every run of API, topic and worker, through failures and crashes, each record answered with 202 is in a finished spool file, in the topic at or above the committed offset, or in Elasticsearch, the dead-letter topic or a replay file, as long as Elasticsearch never gave a short item list or called an item stored that was not, and with each replay file written in one step |
| ByLine.NoLossByLine | internal/worker/service.go:335-357 | the same with replay files opened under their final name and written line by line, as long as no pass of the replay loop reads the file being written |
| ByLine.RunRefines | internal/worker/service.go:335-390 | every such run ends where some run with replay files written in one step ends |
| Pipeline.PoisonIsUnreachable | internal/worker/service.go:186-208 | in every run fed by the API the worker never holds an undecodable message, passes none over and overtakes none |
| Guarantees.CommittedOffsetsAreSafe | internal/worker/service.go:145-298 | in every run, poison, failed flushes, ambiguous commits and restarts included: each offset below a committed one is safe, passed over or overtaken by a poison commit, and each offset fetched is that, waiting or in hand |
| Guarantees.WatermarkSafety | internal/worker/service.go:145-248 | for each partition whose messages decode, whatever the others hold: below its committed offset all records are stored, and each fetched record is stored or in the batch |
| Guarantees.DecodablePartitionsHaveNoException | internal/worker/service.go:186-208 | no run passes over or overtakes a message of a partition without poison |
| Guarantees.EveryFetchedMessageIsAccountedFor | internal/worker/service.go:150-213 | the full ledger, poison included: each message fetched in the session is safe, in the batch, in hand, or passed over |
| Guarantees.OnlySafeMessagesAreCommitted | internal/worker/service.go:201-247 | in every run, whatever is handed to CommitMessages next is safe already |
| Guarantees.BatchIsLeftSafely | internal/worker/service.go:150-162 | in every run, a message leaves the batch only when it is safe, or in a crash |
| Guarantees.FilesAreRemovedWhenPlaced | internal/worker/service.go:377-409 | in every run, when a replay file with events goes, each event has been indexed or is a dead letter |
| Guarantees.RemovedInItsPass | internal/worker/service.go:392-406 | in every run the pass about to remove a file placed its events itself: with one bulk call and its dead letters Elasticsearch and the dead-letter topic took each event of the file, and the replay loop has not moved since |
| Guarantees.ReindexPlacesAll | internal/worker/service.go:392-404 | that bulk call with its dead letters takes the whole multiset of events |
| Passing.ParkedExactly | internal/worker/service.go:186-207 | a message can become a dead letter, in some run, if and only if it does not decode and its payload is empty or JSON; and then some run also commits it |
| Passing.PassedExactly | internal/worker/service.go:186-213 | for every topic and message: some run with a truthful Elasticsearch commits an offset beyond the message while it is not safe, if and only if a later message of its partition is poison that can become a dead letter or, when the message is poison itself, decodes |
| Passing.PartitionIsKeptExactly | internal/worker/service.go:186-213 | so no message of a partition is ever passed unsafely if and only if none has such a later message |
| Records.MalformedIsPoison | internal/worker/service.go:217-221 | a payload that is empty or not JSON never decodes |
| Json.DecodedIsJson | internal/worker/service.go:193 | every payload that decodes is JSON by RFC 8259 |
| Passing.PoisonCommitIsSafeExactly | internal/worker/service.go:201-207 | after the commit of a dead-lettered poison message all offsets below it are safe, earlier exceptions apart, if and only if every message of its partition still in the batch is stored, earlier exceptions apart |
| Passing.PoisonCommitLosesAMessage | internal/worker/service.go:187-207 | for every topic: the run that makes poison a dead letter and commits it passes every earlier message of its partition unsafely, and a restart forgets them |
| Passing.SkippedPoisonIsLost | internal/worker/service.go:197-200 | for every topic: the run that passes poison over, and indexes and commits a later message of its partition, leaves the poison nowhere below the committed offset |
| Guarantees.ReplayConservation | internal/worker/service.go:292-317 | from an empty directory, with all-or-nothing file operations, replayed records plus records in replay files equal failed records minus dead letters at every step boundary |
| Guarantees.ReplayLawHolds | internal/worker/service.go:377-409 | the same law in every run, with the exact correction for crashes and failed file operations |
| Consumer.StepKeeps | internal/worker/service.go:145-298 | every step of consumer, replay loop, broker or crash keeps the ledger and watermark invariant |
| Consumer.AttemptPlaces | internal/worker/service.go:252-276 | after one attempt each pending record is stored or still pending |
| Consumer.ReindexPlaces | internal/worker/service.go:392-404 | a replay file reaches removal only with each of its events indexed or a dead letter |
| Retry.SafeBatchIsConserved | internal/worker/service.go:250-298 | a batch reported safe is in the three stores: each event at least once when stored items are stored, exactly once when errors store nothing |
| Retry.CopiesAreBounded | internal/worker/service.go:250-290 | one call, failed or not, makes at most RetryMax+1 requests, stores at most one copy of an occurrence per request and makes it a dead letter at most once; a call that does not fail makes it a dead letter or replay record at most once |
| Retry.PendingShrinks | internal/worker/service.go:266-275 | what is still pending is a subsequence of what was pending |
| Retry.SafeBatchIsCounted | internal/worker/service.go:250-317 | a safe batch adds its length to indexed plus failed, its dead letters to dlq, its replay records and dead letters to failed, and at most RetryMax times its length to retried |
| Retry.RetriedIsBounded | internal/worker/service.go:280-281 | the retried counter grows by at most the pending length per remaining attempt |
| Retry.BackoffIsDoubling | internal/worker/service.go:442-448 | for attempts 0 to 35 the wait is 200 ms doubled per attempt, capped at 5 s |
| Retry.BackoffExactly | internal/worker/service.go:442-448 | in 64-bit arithmetic the wait is the capped doubling if and only if the attempt is at most 35 or one of seven others; otherwise it is not positive |
| Retry.BackoffIsMonotone | internal/worker/service.go:442-448 | no later attempt up to 35 waits less |
| Retry.WaitingIsBounded | internal/worker/service.go:281-289 | without Retry-After and for RetryMax up to 36 the whole wait is at most 200(2^n - 1) ms for n up to 5 and 6200 + 5000(n - 5) ms beyond |
| Bulk.SortItems | internal/storage/elasticsearch.go:97-118 | the loop over items gives the stored count, the retryable and the permanently failed events, each in batch order; the next rows say which, in status numbers |
| Bulk.OneItemAtATime | internal/storage/elasticsearch.go:98-116 | what each further item changes, in status numbers: 2xx is counted; 429 and 500 upwards append its event to the retryable ones; anything else appends a permanent failure with the item's status and its reason or, for want of one, its kind; an item without a result is a permanent failure with status 0 |
| Bulk.PermanentStatuses | internal/storage/elasticsearch.go:104-115 | for all events and items: no permanent failure carries 2xx, 429 or a status of 500 or more |
| Bulk.RetryableByStatus | internal/storage/elasticsearch.go:107-109 | for all events and items: each event whose item says 429, or 500 or more, is retryable at its place in the order, and there are no others |
| Bulk.Index | internal/storage/elasticsearch.go:58-119 | the outcome for each kind of reply, in numbers: no reply, 429 and 5xx (all events retryable, with the wait asked for), other 4xx, unreadable body; with items the sorted result |
| Bulk.ClassesPartition | internal/storage/elasticsearch.go:97-118 | the three classes of a batch add up to the batch as multisets |
| Bulk.MasksPartition | internal/storage/elasticsearch.go:97-118 | selections by three masks of which exactly one marks each position add up to the list |
| Bulk.PermanentEvents | internal/storage/elasticsearch.go:111-115 | the permanent failures carry exactly the events of their positions, in order |
| Bulk.AccountedExactly | internal/storage/elasticsearch.go:98-116 | the total reported is the number of events if and only if every event has an item and no surplus item reports success; and the three classes hold each event once if and only if every event has an item |
| Bulk.ShortResponseDropsAnEvent | internal/storage/elasticsearch.go:98-106 | three events, two items: the third event is in no class |
| Bulk.PickIsSubsequence | internal/storage/elasticsearch.go:98-116 | selecting by position keeps the order of the batch |
| BulkBody.Build | internal/storage/elasticsearch.go:121-137 | the loop writes an action line and a document line per event, or nothing when an event cannot be encoded |
| BulkBody.BodyRoundTrip | internal/storage/elasticsearch.go:121-137 | reading the body two lines at a time gives back the events in order, each under the index logs- with the day of its time, or of today when it has none |
| BulkBody.ActionText | internal/storage/elasticsearch.go:126-131 | the exact text of an action line |
| Service.Service.IndexSafely | internal/worker/service.go:250-298 | the retry loop with its counters does exactly the machine's attempts and replay file; it fails if and only if, in the attempts it makes, a dead letter fails, a wait is cancelled, or the last attempt leaves events and the replay file cannot be written; what Elasticsearch accepts at once is stored and nothing else changes; with Elasticsearch out of reach it makes RetryMax+1 calls, all events end in one new replay file and are counted as failed |
| Endings.FailsExactly | internal/worker/service.go:250-298 | for any batch, number of retries and answers: the call fails if and only if such an attempt is come to |
| Endings.UnreachableElasticsearch | internal/worker/service.go:250-298 | for any batch that is not empty and any RetryMax: when nothing answers, nothing is cancelled and the file can be written, the call succeeds after RetryMax+1 requests, with the batch in a new replay file and the exact counters |
| Endings.AttemptCountsAndWaits | internal/worker/service.go:250-291 | what each attempt adds to every counter, and that the wait before the next one is the Retry-After of the reply if it has one and the back-off otherwise |
| Endings.BackoffInNanoseconds | internal/worker/service.go:442-448 | 200 ms, 400 ms, 800 ms, 1.6 s, 3.2 s, and 5 s for attempts 5 to 35 |
| Endings.AcceptedAtOnce | internal/worker/service.go:250-268 | a reply that says of every event that it is stored ends the loop, with every event in Elasticsearch and no dead letter |
| Turns.IndexRun | internal/worker/service.go:250-298 | the machine's run of a flush, attempt by attempt, ends in the world and with the success that the recursive function of the call gives |
| Service.Service.SendPermanentFailures | internal/worker/service.go:300-317 | the dead letters written before a failure are in the topic, and the counters change only when all are |
| Service.Service.WriteReplayFile | internal/worker/service.go:335-357 | nothing for no events; one new file with all events after success; after a failure no file or one with the events written so far; and success in exactly the first two cases |
| Service.Service.ProcessBatch | internal/worker/service.go:236-248 | indexing, then the commit of the whole batch |
| Service.Service.Flush | internal/worker/service.go:150-162 | the batch is emptied if and only if indexing and commit both succeed; the offsets move only when indexing does; a batch that Elasticsearch accepts is in it, and one that nothing answers for is in a new replay file |
| Turns.FlushRun | internal/worker/service.go:150-162 | the same of the machine's runs, with the gauge of the batch and all that a flush does not touch |
| Scripts.CommitReaches | internal/worker/service.go:247 | a commit that the broker carries out reaches the offset after any chosen message of the batch |
| Service.Service.Receive | internal/worker/service.go:184-213 | a fetched message is counted, decoded, queued, and a full batch flushed; an undecodable one is handled at once |
| Service.Service.HandlePoison | internal/worker/service.go:186-208 | when the payload is empty or JSON and the dead letter is sent, it is in the topic, the offset moves as the broker says, and both counters grow if the commit succeeds; otherwise documents, letters, offsets and counters stay |
| Service.Service.ConsumeLoop | internal/worker/service.go:145-215 | for any sequence of ticks, messages and failures the loop is a run of the machine, and each partition has advanced by the messages offered up to the turn that ended it |
| Service.Service.TakeTurn | internal/worker/service.go:164-214 | a turn ends the loop exactly on shutdown or a cancelled fetch; a tick, a shutdown or a cancelled fetch whose flush Elasticsearch accepts leaves no waiting record in the batch and all of them in Elasticsearch; the batch stays below the bulk size unless the flush of that turn failed; exactly the message fetched advances its partition |
| Turns.TurnRun | internal/worker/service.go:164-214 | the same of the machine's runs, from any state between two turns |
| Turns.MessageRun | internal/worker/service.go:184-213 | a fetched message that decodes is the last in the batch, or the batch was full and its flush succeeded; one that does not leaves the batch as it was |
| Service.Service.ReplayOnce | internal/worker/service.go:377-409 | a replay pass over any listing is a run of the machine; it ends early only at a file that was read, whose events Elasticsearch took, and of which a dead letter or the removal failed, and for a listing without repetition if and only if there is one; up to there every file that was taken is gone, with each event a document or a dead letter if Elasticsearch was truthful; only files that were read go, so an unreadable one stays and the pass goes on |
| Turns.FileRun | internal/worker/service.go:382-406 | what one file of a pass leaves of itself, of the pass, of the documents and dead letters, and of each counter |
| Turns.NextOfPass | internal/worker/service.go:382-406 | what holds of the files passed so far holds with the next one, names that come twice included |
| Promises.AcceptedIsDurable | internal/ingestion/handler.go:134-166 | in every run each record of a request answered with 202 is in a finished spool file or in the topic, and every message of the topic decodes |
| Promises.PublicationIsAtomic | internal/spool/writer.go:65-71 | in every run a spool file is partial only under its temporary name, a finished file holds its whole batch, a removed one is wholly in the topic, and the replayer publishes whole batches only |
| Promises.SpoolIsBounded | internal/spool/writer.go:55-71 | from any directory within maxBytes, with N concurrent requests of payloads up to P and no file vanishing during a walk: bytes on disk plus payloads past the test stay within maxBytes + (N-1)P in every interleaving; with N = 1 within maxBytes |
| Limits.BoundIsReached | internal/spool/writer.go:55-71 | from nothing, for requests of any one size that fits: with k of them filling the spool and N more allowed at once, a run with whole walks ends with k - 1 + N payloads; where k fill it exactly this is maxBytes + (N-1)P |
| Limits.StaysWithinExactly | internal/spool/writer.go:55-63 | given any request that fits the spool and takes space in it, the spool stays within maxBytes in every run with whole walks if and only if the semaphore admits one request; without a semaphore it does not |
| Limits.NoSemaphoreNoBound | internal/ingestion/handler.go:169-172 | without a semaphore n requests at once spool n payloads, for every n |
| Vanishing.NoBoundWhenFilesVanish | internal/spool/writer.go:143-145 | from nothing, for any request that fits and any semaphore but one that admits a single request: when files vanish during walks the spool ends above any given number of bytes |
| Alone.OneAtATimeIsBounded | internal/spool/writer.go:55-71 | with one request at a time the spool stays below maxBytes payloads in every run, whatever vanishes |
| Alone.BoundedExactly | internal/spool/writer.go:143-145 | when files can vanish during walks some bound holds for all runs if and only if the semaphore admits one request at a time |
| Vanishing.VanishedFileBreaksTheBound | internal/spool/writer.go:143-145 | for every N, one included: a small file vanishes during the walks of N requests in a full spool, all pass, and the spool ends above maxBytes + (N-1)P |
| Limits.LateFallbackIsRefused | internal/ingestion/handler.go:120-162 | a run from nothing that answers 503 beside an empty spool with room, because the context has ended; with a live context the same request is admitted |
| Promises.SemaphoreIsExact | internal/ingestion/handler.go:169-188 | in every run the semaphore counts the requests between acquire and release, at most the limit |
| Promises.RequestsAreAccountedFor | internal/ingestion/handler.go:73-182 | in every run requests are batches plus rejections plus undecided; at rest publish errors are spooled batches plus spool errors plus rejections without a spool |
| Identity.AcceptedAreDistinct | internal/metrics/counters.go:112-116 | accepted records have distinct identities, and without a crash the counter of accepted records is their number |
| Intake.StepKeepsBound | internal/spool/writer.go:55-63 | every step keeps the spool bound, walks that meet no vanished file included |
| Intake.StepKeepsTokens | internal/ingestion/handler.go:77-80 | every step keeps the semaphore count exact |
| Intake.StepKeepsFiles | internal/spool/writer.go:65-71 | every step keeps each file being written with one request and a prefix of its batch |
| Durability.StepKeepsPlaced | internal/spool/replayer.go:82-100 | every step of handler or replayer keeps accepted records durable and removed files published; a topic that decodes keeps decoding |
| Durability.RenameKeeps | internal/spool/writer.go:71 | the rename makes the whole batch durable at once |
| Api.ValidateRequest | internal/ingestion/handler.go:190-222 | accepted if and only if the request names a source, has records within the limit and each parses; then, field by field, each event has the trimmed source, the trimmed line, the parsed fields, the time of receipt, no processing time and no worker; refused with the first reason that applies and the first record that is no log line |
| Api.ValidationIsAllOrNothing | internal/ingestion/handler.go:190-222 | the same if-and-only-if and the same fields of the specification, and that the event parses again from its raw text |
| Api.ValidationErrors | internal/ingestion/handler.go:191-207 | every refusal is for the first reason that applies, and a bad record is the first one |
| Api.ReadSlotExactly | internal/spool/writer.go:88-118 | a spool file reads as exactly the records written, or not at all |
| Frontend.Frontend.ServeHTTP | internal/ingestion/handler.go:73-167 | a request is answered with 202 if and only if it is admitted, read, valid and stored in Kafka or, failing that, the spool; the exact response otherwise; it is counted once, with the records accepted, rejected and spooled and the failures of Kafka and spool, and gives the semaphore back |
| Frontend.AnswerTable | internal/ingestion/handler.go:81-166 | the answers in numbers: 405, 400, 413, 400, 422 if and only if the request is not valid, 503 when it is stored nowhere, 202 with the number of its records and where they are |
| Frontend.RefusedAfterKafkaExactly | internal/ingestion/handler.go:144-162 | after a failed publish a valid batch is refused if and only if the context has ended, the spool has no room, the file system fails or the batch cannot be encoded; an ended context refuses a batch that would fit |
| Frontend.Frontend.StoreBatch | internal/ingestion/handler.go:127-166 | Kafka first, then the spool; response, accepted records and counters of each outcome |
| Frontend.Frontend.Write | internal/spool/writer.go:40-72 | success if and only if context, directory, encoding, capacity and file all allow it; ErrFull exactly when there is no room; every error before the file is opened leaves all files as they were; an exhausted mode means ErrFull for every encodable batch that holds anything |
| Frontend.Frontend.SpoolState | internal/spool/writer.go:74-86 | the usage shown is the bytes of the finished files, the mode that of the usage |
| Frontend.Frontend.Publish | internal/kafka/producer.go:36-52 | success means the message of each record is in the topic; failure may leave any of them there |
| Frontend.Frontend.Acquire | internal/ingestion/handler.go:169-182 | admission fails exactly when the semaphore is full, and is then counted as a rejection |
| Frontend.Frontend.ReplayOnce | internal/spool/replayer.go:73-103 | a pass over any listing does exactly the actions of that pass; each readable file up to where it stops is gone and its records are in the topic; it stops early only at a readable file that was not acknowledged or could not be removed; and it counts as replayed exactly the records it takes out of the spool |
| Frontend.Frontend.KeepsPromises | docs/architecture.md:27-28 | the code's own fields keep the promises: accepted records durable, in-flight count within its limit, counters balanced at rest |
| SpoolUsage.DirUsage | internal/spool/writer.go:125-147 | a complete walk gives the bytes and number of finished files; a walk that first meets a vanished file gives 0 bytes; another error is passed on |
| SpoolUsage.HeldInParts | internal/spool/writer.go:125-142 | each finished file counts once with its size; directories and temporary files count nothing |
| SpoolUsage.Overflows | internal/spool/writer.go:55-63 | without a limit nothing is refused; otherwise the test is used bytes plus payload above the limit on the true usage, and on no usage at all when a file vanishes |
| SpoolUsage.VanishedFileHidesTheRest | internal/spool/writer.go:143-145 | in any directory, whichever file vanishes during the walk: the test admits exactly the payloads that fit an empty spool, and is wrong if and only if the payload fits the limit but not beside the files left |
| SpoolUsage.ModeExactly | internal/spool/writer.go:156-166 | the four modes in whole numbers: nothing used, below four fifths, below all, all |
| SpoolUsage.ModeIsMonotone | internal/spool/writer.go:149-167 | more bytes never show a milder mode |
| SpoolUsage.ExhaustedIsFull | internal/spool/writer.go:60-62 | the mode is exhausted if and only if the test refuses every payload |
| Frontend.ModeAgreesWithAdmission | internal/spool/writer.go:55-63 | for every directory and every encodable batch that holds anything: exhausted means it does not fit; otherwise there is room, and it is turned away if and only if it is larger than the room |
| Races.LostExactly | internal/worker/service.go:342-390 | at the grain of lines, a completed file loses nothing if and only if it is still there or the pass that removed it read it after its last line |
| Races.LostLines | internal/worker/service.go:342-390 | the lines lost are exactly those written after that read |
| Races.EarlyPassLosesTheRest | internal/worker/service.go:342-390 | for any size and any early moment there is a run that loses all later lines |
| Races.RenameLosesNothing | internal/spool/writer.go:65-71 | with a temporary name and a rename no run loses a line |
| Records.NeverPoison | internal/worker/service.go:217-234 | an event the API built, encoded and decoded by the worker, is that event with only the worker's two stamps added |
| Records.NeverPoisonAfterSpooling | internal/spool/replayer.go:82-92 | the same after a passage through a spool file |
| Records.DecodedFields | internal/worker/service.go:217-234 | for any payload: the error of each failure, or source, raw text and time of receipt of the message, the fields parsed from the raw text, and the worker's two stamps |
| Logline.AcceptedLines | internal/logline/parser.go:32-76 | a line parses if and only if it is some spacing of five legal words |
| Logline.AcceptedExactly | internal/logline/parser.go:32-76 | in literal terms: five fields, a time, an address, one of seven methods, a path that starts with a slash, a status from 100 to 599; and each field of the record |
| Logline.FirstFault | internal/logline/parser.go:33-66 | a blank line is reported as empty, any other by the first check that fails |
| Logline.ParseLayout | internal/logline/parser.go:32-76 | whatever the spacing, the fields are those words |
| Logline.ParseIsStable | internal/logline/parser.go:32-76 | parsing the raw text of a parsed record gives the same record |
| Logline.PrintThenParse | internal/logline/parser.go:32-76 | legal space-free fields joined by single spaces parse to exactly those fields |
| Logline.GeneratedLinesParse | cmd/log-generator/main.go:219-225 | every generated line parses to the method, path and status drawn, given that the time and address readers accept the texts drawn for them |
| Text.FieldsOfLayout | internal/logline/parser.go:38-41 | splitting at white space gives back the words, whatever white space separates and surrounds them |
| Text.EveryTextIsALayout | internal/logline/parser.go:33-41 | every text is such a layout of its fields |
| Text.PrintThenRead | cmd/log-generator/main.go:224 | printing a number and reading it back is the identity |
| Codec.EventRoundTrip | internal/logevent/event.go:5-16 | an encoded event decodes to itself and its line holds no line break |
| Codec.ReadEscaped | internal/spool/writer.go:107-118 | string escaping by section 7 of RFC 8259 is inverted by reading, whatever follows the string |
| Codec.MarshalJSONLines | internal/spool/writer.go:107-118 | one encoded line per event, or nothing when one cannot be encoded |
| Codec.ReadFile | internal/spool/writer.go:88-105 | the scanning loop reads what the line-by-line specification reads |
| Codec.JsonLinesRoundTrip | internal/worker/service.go:411-432 | both readers give back exactly the events written when every line is under 64 KiB, and an error otherwise |
| Codec.ScannerLimit | internal/spool/writer.go:88-105 | in bytes: a file reads as the events written if and only if each encoded line has fewer than 65536 bytes |
| Codec.BlankLines | internal/worker/service.go:419-431 | a line of white space is passed over by the worker's reader; an empty line is an error for the spool's |
| Codec.EncodedText | internal/logevent/event.go:5-16 | the exact JSON text of an event: keys, order, quoting, and worker_id only when there is one |
| Metrics.Counters.ObserveAccepted | internal/metrics/counters.go:112-139 | each accepted event is counted once under its key; the table agrees with the whole history |
| Metrics.KeysIdentify | internal/metrics/counters.go:125-136 | two events share a key if and only if they agree in the minute they count under, source, address, method, path and status |
| Metrics.CountedWhen | internal/metrics/counters.go:119-136 | the minute is that of the event's time, or of its receipt when that is Go's zero time, and the other five dimensions are the event's |
| Metrics.CountsAddUp | internal/metrics/counters.go:112-139 | the counts of the table add up to the number of accepted events |
| Metrics.Counters.Agrees | internal/metrics/counters.go:112-139 | at any time the counts of the table add up to acceptedRecordsTotal |
| Metrics.Counters.DimensionSnapshot | internal/metrics/counters.go:211-248 | whatever order the map is traversed in, the rows are the table's, each once, strictly sorted |
| Metrics.SnapshotIsUnique | internal/metrics/counters.go:228-245 | there is only one such list of rows |
| Metrics.SnapshotIgnoresOrder | internal/metrics/counters.go:112-139 | the same events in any order and any batches give the same snapshot |
| Metrics.LessChains | internal/metrics/counters.go:228-245 | the comparison by bucket, source, address, path, method and status is transitive |
| Metrics.LessIsTotal | internal/metrics/counters.go:228-245 | it is irreflexive, asymmetric and total on distinct keys |
| Metrics.FirstDifferenceDecides | internal/metrics/counters.go:228-245 | minute, source, address, path, method, status: the first in which two keys differ decides |
| Metrics.BeforeExactly | internal/metrics/counters.go:228-245 | strings are ordered by their first difference, a proper prefix before what it begins |

## Left out

- HTTP headers, the body reader and error texts other than the status: they carry no state.
- internal/dashboard, web/dashboard, internal/config, the commands other than makeLogLine, the scripts:
  wiring, pages and queries.
- Kafka's own protocol, consumer groups and balancing: publish may store any part of a batch, fetch goes
  in offset order per partition, and a commit leaves each partition's offset or moves it to one past
  some message of the call. One worker consumes all partitions.
- The payload limit in Promises.SpoolIsBounded is an assumption about requests; the model does not
  derive it from the body limit, since escaping can lengthen text.
- Power loss: the code does not sync files, so durable means surviving the process.
- Time parsing, address parsing and calendar formatting are abstract functions; only trimming,
  splitting, digits and ranges are concrete. Texts are sequences of characters, so invalid UTF-8 and
  its replacement are not modelled.
- JSON other than one flat object of known keys: no white space between tokens, no nesting, keys
  compared exactly, surrogate pairs in escapes read as replacement characters. What the encoder writes
  is within this.
- A bulk item with more than one operation name: one of its results is chosen. Reason texts are kept,
  Retry-After is a number.
- Names of spool and replay files: each is fresh. Two API writes in the same nanosecond would collide.
- The two fields the worker stamps on events (time and worker id) are not part of a stored record's
  identity.
- Promises.SpoolIsBounded: assumes that no file vanishes during a walk; without that it is false, as
  Vanishing.VanishedFileBreaksTheBound and Vanishing.NoBoundWhenFilesVanish show. Files that appear
  during a walk are not in its listing.
- Logline.GeneratedLinesParse: the address is an abstract function's reading of the drawn text.
- The nesting limit of the Go JSON scanner (10000 levels) is not in Json.IsJson.
- ByLine.NoLossByLine: says nothing of runs in which a pass reads the file being written; what is lost
  then is stated for one file in Races.LostExactly and Races.LostLines.
- Frontend.Frontend.Write: the empty batch, for which the code returns at once, is not reached from
  ServeHTTP and has no transition in the machine. No other request runs during it, so its walk is
  whole; walks beside a replayer are those of the machine.
- Frontend.Frontend.ServeHTTP: the method runs one request by itself from any state of the others; the
  interleavings are those of the machine.
- SpoolUsage.ModeExactly: the ratio is exact, the code's is a float64 quotient.
- Gauges for CPU, memory, uptime, average batch size and replay backlog, and whether the spool ever
  drains.
