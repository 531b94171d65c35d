# Email campaign scheduler and rate-limited dispatch

This project is a Dafny model of the core of Email-Scheduler, a service that sends a batch of e-mails from one sender to many recipients. It covers five parts:

- The **scheduler** (`scheduleCampaign`) normalises the recipient list and refuses an empty one. It creates a campaign row and one recipient row per address, then enqueues one delayed delivery job per row. Last, it marks the campaign IN_PROGRESS.
- The **queue** holds jobs keyed by a job id. The id is deterministic (`campaignId-recipientId`) unless an override is given.
- The **dispatch handler** (`processEmailJob`) runs once per job:
  - an idempotency gate skips any recipient that is not PENDING;
  - a per-sender hourly rate gate re-queues the job for the next hour;
  - otherwise the mail is handed to the transport;
  - one atomic transaction then records SENT or FAILED.
- The **rate limiter** keeps a Redis counter per (sender, calendar hour). It is incremented after each delivery and given a 3660-second expiry on its first increment.
- The **compose form** parses an uploaded file of addresses and maintains the form's recipient list (merge an upload, add a typed address, remove one). It also checks the required fields on submit.

The read-side queries of the scheduler are modelled too: scheduled sends, sent history and campaign detail.

## How the model is built

- **State in classes.** The state the source mutates lives in classes:
  - `RateLimiter.Redis`: a map from key to counter entry;
  - `EmailQueue.Queue`: a map from job id to job;
  - `Records.Database`: the three tables as sequences;
  - `Worker.Transport`: the log of mails handed to the transport.
- **Methods and their spec functions.** Every method that changes state (`Incr`, `Add`, `CommitSent`, `ScheduleCampaign`, `ProcessEmailJob`, …) is proved to leave its objects in the state given by a function of the old state (`Incremented`, `QueueAdd`, `SentCommitted`, `Launched`/`ScheduledJobs`, `Handle`, …). The properties the system promises are then proved as lemmas about those functions.
- **Loops.** The loops of the source are methods with invariants. They are the enqueue loop of `scheduleCampaign`, the nested loops of `getScheduledEmails` and the parse loop of `parseEmailsFromFile`.
- **The system invariant.** `Consistency.Consistent` ties the store to the queue:
  - every recipient row belongs to a stored campaign;
  - `totalRecipients` counts a campaign's rows and `processedCount` counts its SENT rows;
  - there are as many sent-email records as settled rows;
  - every queued job's id begins with its campaign id and a dash, and its payload is a faithful snapshot of one stored row and its campaign.

  Scheduling and every handler call are proved to keep this invariant.
- **Inputs.** The clock and the transport's answer are inputs. A `Clock` holds epoch milliseconds and the local calendar hour that `Date` would report; a `SendResult` is the transport's answer.
- **Generated ids.** The store generates row ids. The model derives them from the row position: `"c"` or `"r"` followed by the decimal index. This makes them distinct and free of dashes, which is what the source's cuid ids provide.

Two facts about the code shape the model:

- `processedCount` is incremented only by the success transaction (`backend/src/workers/emailWorker.ts:66-69`). The failure transaction does not touch the campaign (`backend/src/workers/emailWorker.ts:74-92`).
- No code path sets a campaign to COMPLETED or FAILED. The only status write is the IN_PROGRESS update of `scheduleCampaign` (`backend/src/services/schedulerService.ts:86-89`).

## Model

| member | source | states |
|---|---|---|
| RateLimiter.HourWindowFormat | backend/src/lib/rateLimiter.ts:9 | the bucket label is the year followed by `-MM-DD-HH`: the 1-based month, the day and the hour, each as exactly two digits |
| RateLimiter.HourWindowInjective | backend/src/lib/rateLimiter.ts:7-10 | two clock readings get the same label if and only if they fall in the same calendar hour |
| RateLimiter.HourWindowCharacters | backend/src/lib/rateLimiter.ts:9 | a label consists only of digits and dashes, so it holds no ':' |
| RateLimiter.RateKeyInjective | backend/src/lib/rateLimiter.ts:4-14 | for windows without ':', the key `email_rate:<sender>:<window>` determines both the sender and the window |
| RateLimiter.SenderKeyInjective | backend/src/lib/rateLimiter.ts:12-27 | counters of different senders, or of one sender in different hours, live under different keys |
| RateLimiter.IncrementHourly | backend/src/lib/rateLimiter.ts:12-20 | after INCR: the key is present and counts one more, an absent key counting as 0; the 3660 s expiry is set exactly when the old count was 0, and an existing expiry is otherwise kept; every other key is untouched |
| RateLimiter.Redis.Incr | backend/src/lib/rateLimiter.ts:15 | INCR returns the old count plus one (0 for an absent key) and keeps an existing expiry |
| RateLimiter.Redis.Expire | backend/src/lib/rateLimiter.ts:17 | EXPIRE sets the time to live of a present key and reports whether the key was present |
| RateLimiter.Redis.Get | backend/src/lib/rateLimiter.ts:25 | GET returns the stored count of a present key and nothing for an absent one, changing nothing |
| RateLimiter.IncrementSenderHourlyCount | backend/src/lib/rateLimiter.ts:12-20 | the Redis state becomes `IncrementHourly` of the sender's key for the clock's hour, and the call returns the old count plus one |
| RateLimiter.GetSenderHourlyCount | backend/src/lib/rateLimiter.ts:22-27 | returns 0 for an absent key and the stored count otherwise; the store is not modified |
| RateLimiter.EffectiveLimit | backend/src/lib/rateLimiter.ts:34 | a given override, including 0, is the limit; only an absent one falls back to 100 |
| RateLimiter.CanSendEmail | backend/src/lib/rateLimiter.ts:29-36 | the answer is true if and only if the sender's count for the hour is below the effective limit |
| RateLimiter.MsUntilNextHour | backend/src/lib/rateLimiter.ts:38-44 | the wait lies in (0, 3600000], equals 3600000 − (now mod 3600000), and lands exactly on the start of the hour after the one containing now |
| EmailQueue.NewJob | backend/src/queues/emailQueue.ts:9-46 | the job carries the payload unchanged and the given delay, with 5 attempts, exponential backoff from 5000 ms, and the last 1000 completed and 5000 failed jobs kept |
| EmailQueue.JobId | backend/src/queues/emailQueue.ts:41 | a non-empty override is the id verbatim; an absent or empty override gives `campaignId-recipientId` |
| EmailQueue.DefaultJobIdInjective | backend/src/queues/emailQueue.ts:41 | for dash-free campaign ids, the default id determines the campaign and the recipient |
| EmailQueue.SecondDefaultEnqueueIgnored | backend/src/queues/emailQueue.ts:41-46 | two enqueues for one recipient without an override share one id, and the second leaves the queue as the first left it |
| EmailQueue.Queue.Add | backend/src/queues/emailQueue.ts:42-46 | the queue gains the job under its id unless that id is already held; the call returns the id |
| EmailQueue.ScheduleEmailJob | backend/src/queues/emailQueue.ts:36-47 | returns the derived id, which the queue then holds; a new id holds exactly `NewJob(data, delayMs)` |
| EmailQueue.EnqueueAllFresh | backend/src/services/schedulerService.ts:67-84 | a batch of new, distinct ids adds each job under its own id, keeps every existing job, and adds no other key |
| EmailQueue.EnqueueAllSize | backend/src/services/schedulerService.ts:67-84 | the queue grows by exactly the size of such a batch |
| EmailQueue.EnqueuedIdsCount | backend/src/services/schedulerService.ts:67-84 | a batch of distinct ids takes as many ids as it has entries |
| Records.CampaignIdInjective | backend/src/services/schedulerService.ts:35-47 | generated campaign ids are equal if and only if the row positions are |
| Records.RecipientIdInjective | backend/src/services/schedulerService.ts:55-57 | generated recipient ids are equal if and only if the row positions are |
| Records.RowsOfMembers | backend/src/services/schedulerService.ts:62-65 | a `where` selection holds exactly the rows of the table that satisfy it |
| Records.RowsOfAppend | backend/src/services/schedulerService.ts:62-65 | selecting from two tables appended is appending the two selections |
| Records.TallyUpdate | backend/src/workers/emailWorker.ts:50-69 | replacing one row changes a count only by that row's old and new contribution |
| Records.SettleTallies | backend/src/workers/emailWorker.ts:48-95 | settling a PENDING row keeps per-campaign row counts, adds one settled row, and adds one SENT row to its campaign exactly when it becomes SENT |
| Records.ProcessedWithinTotal | backend/src/workers/emailWorker.ts:66-69 | in a valid store no campaign has processed more recipients than it has |
| Records.EmptyValid | backend/src/services/schedulerService.ts:35-57 | the empty store satisfies the invariant |
| Records.FindCampaignAt | backend/src/services/schedulerService.ts:86-89 | looking up the id of campaign k finds row k |
| Records.FindRecipientAt | backend/src/workers/emailWorker.ts:19-21 | looking up the id of recipient j finds row j |
| Records.NewRowsPending | backend/src/services/schedulerService.ts:49-57 | the rows `createMany` adds carry their generated ids and the given campaign, and are PENDING |
| Records.NewCampaignMarked | backend/src/services/schedulerService.ts:86-89 | the status update of a campaign just created with its rows finds it, sets its status, and changes nothing else |
| Records.CampaignWithRecipientsValid | backend/src/services/schedulerService.ts:35-57 | creating a campaign whose `totalRecipients` is the number of its new rows, and then those rows, keeps the store valid |
| Records.StatusUpdateValid | backend/src/services/schedulerService.ts:86-89 | the status update succeeds if and only if the campaign exists, and then keeps the store valid |
| Records.SentCommittedShape | backend/src/workers/emailWorker.ts:49-70 | the success transaction on row j of campaign c sets the row to SENT at the given time, appends the record, and adds one to that campaign's `processedCount` |
| Records.SentCommittedValid | backend/src/workers/emailWorker.ts:49-70 | the success transaction of a PENDING recipient, charged to its own campaign, succeeds and keeps the store valid |
| Records.SentTablesValid | backend/src/workers/emailWorker.ts:49-70 | the store after that transaction is valid |
| Records.FailureCommittedValid | backend/src/workers/emailWorker.ts:74-92 | the failure transaction of a PENDING recipient succeeds and keeps the store valid |
| Records.Database.constructor | backend/src/services/schedulerService.ts:35-57 | a new database has three empty tables |
| Records.Database.CreateCampaign | backend/src/services/schedulerService.ts:35-47 | appends the campaign row under the next generated id and returns that id |
| Records.Database.CreateManyRecipients | backend/src/services/schedulerService.ts:55-57 | appends one PENDING row per element of `data` and returns their number |
| Records.Database.FindManyRecipients | backend/src/services/schedulerService.ts:62-65 | returns the campaign's rows in ascending `orderIndex` |
| Records.Database.FindUniqueRecipient | backend/src/workers/emailWorker.ts:19-21 | returns nothing exactly when no row has the id, and otherwise the first row with it |
| Records.Database.UpdateCampaignStatus | backend/src/services/schedulerService.ts:86-89 | sets the status when the campaign exists; otherwise reports failure and changes nothing |
| Records.Database.CommitSent | backend/src/workers/emailWorker.ts:49-70 | applies the success transaction atomically, or reports failure and changes nothing when a row is missing |
| Records.Database.CommitFailed | backend/src/workers/emailWorker.ts:74-92 | applies the failure transaction atomically, or reports failure and changes nothing |
| Consistency.EmptyConsistent | backend/src/services/schedulerService.ts:18-92 | an empty store with an empty queue is consistent |
| Consistency.DescribedCampaign | backend/src/queues/emailQueue.ts:41 | a payload that describes the store names a stored campaign, so its job-id prefix has no dash |
| Consistency.ExtendedKeepsSnapshots | backend/src/services/schedulerService.ts:35-57 | a store that only appends rows keeps every field a job snapshots |
| Consistency.JobsDescribeKept | backend/src/workers/emailWorker.ts:48-95 | writes that keep the snapshot fields keep every queued job faithful |
| Scheduler.NormalisedRecipientsContents | backend/src/services/schedulerService.ts:30 | the normalised list has no repeats; each entry is non-empty, lower case and without whitespace at either end; an address is in it exactly when it is a non-empty lowercased-then-trimmed input |
| Scheduler.NormalisedFirstSeenOrder | backend/src/services/schedulerService.ts:30 | the normalised list keeps the order of first occurrence among the normalised inputs |
| Scheduler.NormalisedOfNormalForm | backend/src/services/schedulerService.ts:30 | a list already in normal form and without repeats is left as it is |
| Scheduler.NormaliseIdempotent | backend/src/services/schedulerService.ts:30 | normalising twice is normalising once |
| Scheduler.JobDelay | backend/src/services/schedulerService.ts:69 | a job's delay is never negative when the spacing is not |
| Scheduler.JobDelayMonotone | backend/src/services/schedulerService.ts:67-69 | delays are non-decreasing in the position, and differ by exactly (j − i) × delayBetweenMs |
| Scheduler.JobFireTime | backend/src/services/schedulerService.ts:59-69 | job i fires at startTime + i × delay when the start is in the future, and i × delay after now otherwise |
| Scheduler.CreatedShape | backend/src/services/schedulerService.ts:35-57 | before any job is enqueued, the new campaign is SCHEDULED and carries the input's owner, subject, body, sender and start time, the effective spacing and limit, `totalRecipients` equal to the number of normalised addresses and nothing processed; its rows are appended and nothing else changes |
| Scheduler.ScheduleCampaign | backend/src/services/schedulerService.ts:18-92 | an empty normalised list fails with "No valid recipients" and writes nothing; otherwise the store becomes `Launched`, the queue becomes `ScheduledJobs`, and the new campaign's id is returned |
| Scheduler.EnqueueRows | backend/src/services/schedulerService.ts:67-84 | the loop adds job i for row i under the default id, in row order |
| Scheduler.NewRowsShape | backend/src/services/schedulerService.ts:49-57 | row i is created for address i with orderIndex i, PENDING and unsent, so the indices are exactly 0..N−1 |
| Scheduler.AppendedRowsReadBack | backend/src/services/schedulerService.ts:62-65 | rows appended for a campaign no other row references are read back in `orderIndex` order exactly as appended |
| Scheduler.ScheduledRows | backend/src/services/schedulerService.ts:55-65 | in a valid store, the rows read back for the new campaign are exactly the rows just created |
| Scheduler.BatchIdsFresh | backend/src/services/schedulerService.ts:67-84 | the new campaign's job ids are new to a consistent queue and distinct from one another |
| Scheduler.LaunchedShape | backend/src/services/schedulerService.ts:35-89 | scheduling appends one campaign that is IN_PROGRESS, has `totalRecipients` equal to the normalised length and nothing processed, appends its rows, and changes no existing row |
| Scheduler.LaunchedCampaign | backend/src/services/schedulerService.ts:26-89 | the appended campaign has the owner, subject and start time of the input, the effective delay (2000 when omitted) and status IN_PROGRESS |
| Scheduler.LaunchedValid | backend/src/services/schedulerService.ts:35-89 | scheduling keeps the store valid |
| Scheduler.BatchDescribes | backend/src/services/schedulerService.ts:70-83 | job i's payload snapshots row i and the new campaign (id, address, sender, subject, body, owner, hourly limit, orderIndex i), and its id begins with the campaign id and a dash |
| Scheduler.ScheduleKeepsConsistent | backend/src/services/schedulerService.ts:18-92 | scheduling keeps the store and the queue consistent and adds exactly one job per normalised address |
| Scheduler.GetScheduledEmails | backend/src/services/schedulerService.ts:94-133 | the nested loops produce exactly the flattened view of the user's active campaigns in start-time order |
| Scheduler.AppendEntries | backend/src/services/schedulerService.ts:120-130 | the inner loop appends one entry per pending recipient, in order |
| Scheduler.ScheduledViewSound | backend/src/services/schedulerService.ts:118-131 | every entry of the view is the entry of some pending recipient of one of the listed campaigns |
| Scheduler.ScheduledViewComplete | backend/src/services/schedulerService.ts:118-131 | every pending recipient of a listed campaign has its entry in the view |
| Scheduler.ScheduledEmailsSound | backend/src/services/schedulerService.ts:95-131 | every listed entry shows a PENDING recipient of one of the user's SCHEDULED or IN_PROGRESS campaigns, with its id, address and subject, labelled 'pending' exactly for IN_PROGRESS; the recipient is the campaign's i-th pending recipient in `orderIndex` order, for some i, and the entry's time is startTime + i × delayBetweenMs |
| Scheduler.Origin | backend/src/services/schedulerService.ts:118-131 | each position of the flattened view comes from a listed campaign and a position among its pending recipients, and holds that recipient's entry |
| Scheduler.ScheduledViewOrder | backend/src/services/schedulerService.ts:118-131 | an earlier position of the view comes from an earlier listed campaign, or from the same campaign at an earlier pending position |
| Scheduler.ScheduledEmailsOrdered | backend/src/services/schedulerService.ts:95-131 | for two positions p < q of the list, p's campaign starts no later than q's; when the campaign is the same, p's recipient is earlier and has an `orderIndex` no greater than q's |
| Scheduler.ScheduledEmailsComplete | backend/src/services/schedulerService.ts:95-131 | every PENDING recipient of a SCHEDULED or IN_PROGRESS campaign of the user is listed |
| Scheduler.LaunchedPending | backend/src/services/schedulerService.ts:101-104 | right after scheduling, the new campaign's pending recipients are its new rows |
| Scheduler.NewEntryFields | backend/src/services/schedulerService.ts:119-129 | the entry of new row i has the row's id, the campaign id, address i, the subject, time startTime + i × delay and label 'pending' |
| Scheduler.ScheduleThenView | backend/src/services/schedulerService.ts:59-131 | right after scheduling, address i is listed 'pending' at startTime + i × delay, which for a future start is exactly when its job fires |
| Scheduler.SentOfUser | backend/src/services/schedulerService.ts:137 | the selection holds exactly the user's records |
| Scheduler.SentEmailsProperties | backend/src/services/schedulerService.ts:135-141 | the history holds only the user's records, at most `limit` of them, latest first; a record is left out only when `limit` are shown, and then it is no later than every record shown |
| Scheduler.CampaignDetailOf | backend/src/services/schedulerService.ts:143-150 | there is no detail exactly when no campaign has that id and owner; otherwise the detail is that campaign with its rows in `orderIndex` order |
| Scheduler.ScheduleThenDetail | backend/src/services/schedulerService.ts:143-150 | right after scheduling, the owner gets the new campaign IN_PROGRESS with exactly its new rows in order, and any other user gets nothing |
| Worker.Transport.Send | backend/src/workers/emailWorker.ts:41-46 | the mail is logged as attempted once and the given answer is returned |
| Worker.ProcessEmailJob | backend/src/workers/emailWorker.ts:15-96 | the outcome and the new state of store, queue, counters and transport log are those of `Handle` on the old state |
| Worker.SkipIffSettled | backend/src/workers/emailWorker.ts:19-25 | the call is skipped exactly when no row has the recipient id or that row is not PENDING, and a skipped call changes nothing at all |
| Worker.ThrottledDefers | backend/src/workers/emailWorker.ts:28-38 | a throttled call sends nothing, keeps store and counters (the recipient stays PENDING), and adds only the retry job `campaignId-recipientId-retry-<now>` with the same payload, due at the next hour |
| Worker.RetryIdIsNotDefault | backend/src/workers/emailWorker.ts:35 | a retry id never equals the default id of any scheduled job |
| Worker.DeliveredSettles | backend/src/workers/emailWorker.ts:48-70 | a delivered mail sets its recipient SENT at the clock's time, appends one SENT record and adds one to its campaign's `processedCount`; no other row or campaign changes |
| Worker.DeliveredCounts | backend/src/workers/emailWorker.ts:41-72 | after a delivery, the sender's counter for the hour goes up by one, no other counter or job changes, the mail was handed over once, and the store stays valid |
| Worker.RejectedEffects | backend/src/workers/emailWorker.ts:73-95 | a failed send sets the recipient FAILED, appends one FAILED record carrying the error, and ends with the error's message (or 'Send failed' when it is empty); campaigns, counters and jobs are unchanged |
| Worker.RejectedValid | backend/src/workers/emailWorker.ts:73-95 | the failure commit keeps the store valid |
| Worker.CounterMovesOnlyOnDelivery | backend/src/workers/emailWorker.ts:48-72 | a counter changes only on a delivery, and then only the sender's counter for the clock's hour, by one |
| Worker.HandleRespectsCap | backend/src/workers/emailWorker.ts:28-72 | a counter at or below a cap stays so when the job's limit is at most the cap |
| Worker.RunCountsDeliveries | backend/src/workers/emailWorker.ts:48-72 | over any sequence of calls, a (sender, hour) counter is its start value plus the deliveries counted under it |
| Worker.RunRespectsCap | backend/src/workers/emailWorker.ts:28-72 | with sequential handling, a counter that starts within the cap ends within it |
| Worker.HourlyDeliveriesCapped | backend/src/workers/emailWorker.ts:28-72 | a sender never gets more than the cap delivered in one calendar hour, counting those already counted |
| Worker.HandleKeepsConsistent | backend/src/workers/emailWorker.ts:15-96 | a call on a payload that describes the store keeps the store valid and every queued job faithful, and its transaction never fails |
| Worker.RunKeepsConsistent | backend/src/workers/emailWorker.ts:15-96 | any run over queued jobs keeps the system consistent |
| Worker.StatusMovesOneWay | backend/src/workers/emailWorker.ts:23-77 | a call changes at most its own recipient's row, only from PENDING to SENT or FAILED, and keeps its id, campaign, address and position |
| Worker.RerunIsNoOp | backend/src/workers/emailWorker.ts:23-25 | after a delivery or a failure, running the same job again is skipped and changes nothing, whatever the clock and the transport say |
| Compose.Split | frontend/src/components/ComposeModal.tsx:17 | the pieces are separator-free, only the first or the last can be empty, and the pieces interleaved with the maximal separator runs of the text give back the text, so nothing is lost |
| Compose.SplitOfInterleave | frontend/src/components/ComposeModal.tsx:17 | conversely, any text written as separator-free pieces (only the first and last may be empty) with non-empty separator runs between them splits into exactly those pieces, and those are its runs |
| Compose.SplitJoinRoundTrip | frontend/src/components/ComposeModal.tsx:17 | splitting undoes joining by commas for non-empty, separator-free pieces |
| Compose.EmailShapedMatches | frontend/src/components/ComposeModal.tsx:19-22 | the one-scan address test accepts exactly what `^[^\s@]+@[^\s@]+\.[^\s@]+$` matches |
| Compose.LowerKeepsShape | frontend/src/components/ComposeModal.tsx:22-23 | lowercasing keeps an address shaped like an address |
| Compose.Accept | frontend/src/components/ComposeModal.tsx:19-24 | one piece contributes at most one address, and what it contributes matches `^[^\s@]+@[^\s@]+\.[^\s@]+$` and is lower case |
| Compose.ParseEmailsFromFile | frontend/src/components/ComposeModal.tsx:16-27 | the loop computes the accepted addresses without repeats (`ParsedEmails`) |
| Compose.AcceptedMembers | frontend/src/components/ComposeModal.tsx:20-25 | an address is pushed exactly when some piece yields it |
| Compose.ParsedEmailsContents | frontend/src/components/ComposeModal.tsx:16-27 | the parsed list has no repeats; an address is in it exactly when some trimmed piece is shaped like an address and lowercases to it; every entry is lower case and shaped like an address |
| Compose.ParsedFirstSeenOrder | frontend/src/components/ComposeModal.tsx:26 | the parsed list keeps the order in which addresses first appear |
| Compose.MergeParsedShape | frontend/src/components/ComposeModal.tsx:63 | a merge keeps the old list in front and appends the new addresses not already present, once each, in first-seen order |
| Compose.AddRecipientEffect | frontend/src/components/ComposeModal.tsx:69-75 | a typed address is appended lowercased and trimmed exactly when, trimmed, it is non-empty, holds an '@' and is not already present, and then the field is cleared; otherwise list and field are unchanged |
| Compose.RemoveRecipientEffect | frontend/src/components/ComposeModal.tsx:77-79 | removing takes the address out and keeps the others in order; an absent address changes nothing |
| Compose.ApplyEditKeepsWellFormed | frontend/src/components/ComposeModal.tsx:63-79 | each update keeps the list free of repeats and made of normalised addresses with an '@' |
| Compose.ApplyEditsKeepWellFormed | frontend/src/components/ComposeModal.tsx:34-79 | from the empty list the form starts with, any sequence of updates keeps the list well formed |
| Compose.SubmitError | frontend/src/components/ComposeModal.tsx:88-91 | submission is refused, with the fixed message, exactly when subject, body or sender is empty or the list is empty |
| Compose.SubmittedListSchedulable | frontend/src/components/ComposeModal.tsx:88-103 | a list the form submits comes through the scheduler's normalisation unchanged and non-empty, so it is never refused for having no valid recipients |
| Text.Trim | backend/src/services/schedulerService.ts:30 | `trim` yields the slice of the input that remains after the leading and the trailing whitespace are removed: everything before and after it is whitespace, it has no whitespace at either end, and it is empty exactly when the input is all whitespace |
| Text.TrimIdempotent | frontend/src/components/ComposeModal.tsx:21 | trimming twice is trimming once |
| Text.NatToStringInjective | backend/src/lib/rateLimiter.ts:9 | distinct numbers have distinct decimal representations |
| Text.TwoDigits | backend/src/lib/rateLimiter.ts:9 | a number below 100 padded to two places is its tens digit followed by its units digit |
| Lists.Dedup | backend/src/services/schedulerService.ts:30 | `[...new Set(s)]` has no repeats and holds exactly the values of s |
| Lists.DedupFirstSeenOrder | frontend/src/components/ComposeModal.tsx:26 | a deduplicated sequence lists values in the order of their first occurrence |
| Lists.DedupAppend | frontend/src/components/ComposeModal.tsx:63 | deduplicating a list without repeats followed by more values keeps the list and appends the unseen values, deduplicated |
| Lists.DedupFilterCommute | backend/src/services/schedulerService.ts:30 | dropping empty strings after deduplication gives the same as dropping them before |
| Lists.RemoveAll | frontend/src/components/ComposeModal.tsx:78 | `filter((r) => r !== x)` holds exactly the values of the input other than x |
| Lists.SortBy | backend/src/services/schedulerService.ts:62-107 | an `orderBy` result is in ascending order of the key and a permutation of the selection |

## Left out

- The clock is read once per handler call; the source's separate `new Date()` and `Date.now()` readings, a few microseconds apart, are taken to agree.
- `Clock` carries the epoch time and its local calendar hour as independent inputs; the time-zone conversion that relates them, and daylight-saving transitions, are not modelled.
- RateLimiter.MsUntilNextHour: hour boundaries are taken to fall on multiples of 3600000 ms of epoch time, which is what the source computes only in a time zone whose offset is a whole number of hours and without a DST change in the hour.
- The Redis time to live is recorded but does not count down; key expiry after 3660 s is not modelled.
- Enqueue failures are not modelled: `queue.add` always succeeds. A Redis error part-way through the enqueue loop of `scheduleCampaign` would leave the campaign SCHEDULED (Scheduler.CreatedShape) with only some of its jobs queued; the model does not capture that intermediate outcome.
- BullMQ internals are not modelled: delayed firing, the retries with backoff after a thrown error, pruning of completed and failed jobs, and the worker limiter. A retry of a failed job appears as a rerun of the same payload (Worker.RerunIsNoOp).
- Worker concurrency is not modelled, and with it the check-then-increment race between workers. Worker.HourlyDeliveriesCapped holds for sequential handling only.
- The mail transport is an input answer (`SendResult`); nodemailer, the mailer's fallbacks and its message id are not modelled.
- Prisma transactions are single atomic steps. A missing row makes the transaction fail and change nothing; that outcome is `CommitError`.
- Worker.HandleKeepsConsistent: proves that `CommitError` never occurs on a consistent system. The exception a failed status update would throw at the end of `scheduleCampaign` is likewise impossible for a campaign created in the same call (Records.NewCampaignMarked), so the model does not propagate it.
- Row ids are derived from row positions instead of generated cuids. That keeps ids distinct and dash-free, the two properties the job ids rely on.
- Prisma `orderBy` is modelled by a stable insertion sort. The order among rows with equal keys, which the database leaves unspecified, is therefore one particular choice.
- `scheduledTime` of a listed entry is kept as epoch milliseconds, not formatted with `toISOString`.
- `EmailJobData.hourlyLimit` is optional in the queue, but the scheduler always passes the effective limit.
- Whitespace follows the JavaScript `\s` class code point by code point. `toLowerCase` is modelled as ASCII case folding only; non-ASCII case mappings are not modelled.
- `split` is modelled on the separator class `[\r\n,;]+` by an explicit scan, not by a regular-expression engine; likewise the address pattern.
- Compose.RemoveRecipientEffect: the order-keeping statement is made for lists without repeats, which is every list the form can hold (Compose.ApplyEditsKeepWellFormed). For arbitrary lists, Lists.RemoveAll states only which values remain.
- The compose form's React plumbing is not modelled:
  - the `FileReader` upload;
  - the reset of subject, body and list when the modal closes;
  - the 30-minute default start time;
  - the loading and error state;
  - the API call itself.
  
  The form's other fields (delay, hourly limit, sender) enter only through the required-field check.
- The HTTP routes, authentication, configuration parsing and the dashboard UI are not part of this model. The configured values used are 2000 ms between sends and 100 mails per sender per hour. The configured worker concurrency of 5 is not modelled, since handling is sequential.
