/** The campaign scheduler: it normalises a recipient list, stores a
    campaign with one recipient row per address, enqueues one delayed job
    per recipient and then marks the campaign IN_PROGRESS; and the three
    read-side queries over the store. */
module Scheduler {
  import opened Wrappers
  import opened Text
  import opened Lists
  import RateLimiter
  import opened EmailQueue
  import opened Records
  import opened Consistency

  /** The configured `delayBetweenEmailsMs`. */
  const DELAY_BETWEEN_EMAILS_MS: int := 2000

  const NO_VALID_RECIPIENTS: string := "No valid recipients"

  /** `ScheduleCampaignInput`; `None` stands for an omitted optional field. */
  datatype ScheduleInput = ScheduleInput(
    userId: string,
    subject: string,
    body: string,
    fromEmail: string,
    recipients: seq<string>,
    startTime: int,
    delayBetweenMs: Option<int>,
    hourlyLimit: Option<int>)

  // ---------------------------------------------------------------- recipient normalisation

  function NormaliseAddress(e: string): string {
    Trim(ToLower(e))
  }

  function NormaliseAll(es: seq<string>): (r: seq<string>)
    ensures |r| == |es| && forall i :: 0 <= i < |es| ==> r[i] == NormaliseAddress(es[i])
  {
    seq(|es|, i requires 0 <= i < |es| => NormaliseAddress(es[i]))
  }

  predicate NonEmpty(s: string) {
    s != []
  }

  /** `[...new Set(recipients.map((e) => e.toLowerCase().trim()))].filter(Boolean)`. */
  function NormalisedRecipients(es: seq<string>): seq<string> {
    Filter(Dedup(NormaliseAll(es)), NonEmpty)
  }

  /** An address as the scheduler stores it: non-empty, lower case, and
      without whitespace at either end. */
  predicate NormalForm(e: string) {
    e != [] && IsLower(e) && !IsWhitespace(e[0]) && !IsWhitespace(e[|e| - 1])
  }

  lemma NormaliseAddressForm(e: string)
    ensures NormaliseAddress(e) != [] ==> NormalForm(NormaliseAddress(e))
  {
    var lowered := ToLower(e);
    ToLowerIsLower(e);
    TrimKeepsLower(lowered);
    TrimmedEnds(lowered);
  }

  /** The normalised list holds exactly the non-empty normalised inputs,
      each once, each in normal form. */
  lemma NormalisedRecipientsContents(es: seq<string>)
    ensures NoDuplicates(NormalisedRecipients(es))
    ensures forall i :: 0 <= i < |NormalisedRecipients(es)| ==> NormalForm(NormalisedRecipients(es)[i])
    ensures forall x :: x in NormalisedRecipients(es) <==> x != [] && x in NormaliseAll(es)
  {
    var m := NormaliseAll(es);
    DedupFilterCommute(m, NonEmpty);
    forall i | 0 <= i < |NormalisedRecipients(es)| ensures NormalForm(NormalisedRecipients(es)[i]) {
      var x := NormalisedRecipients(es)[i];
      assert x in m;
      var k :| 0 <= k < |m| && m[k] == x;
      NormaliseAddressForm(es[k]);
    }
  }

  /** The normalised list keeps the order in which addresses first occur
      among the normalised inputs. */
  lemma NormalisedFirstSeenOrder(es: seq<string>, i: nat, j: nat)
    requires i < j < |NormalisedRecipients(es)|
    ensures NormalisedRecipients(es)[i] in NormaliseAll(es) && NormalisedRecipients(es)[j] in NormaliseAll(es)
    ensures FirstIndex(NormaliseAll(es), NormalisedRecipients(es)[i]) < FirstIndex(NormaliseAll(es), NormalisedRecipients(es)[j])
  {
    var m := NormaliseAll(es);
    var f := Filter(m, NonEmpty);
    DedupFilterCommute(m, NonEmpty);
    assert NormalisedRecipients(es) == Dedup(f);
    DedupFirstSeenOrder(f, i, j);
    FilterFirstIndexOrder(m, NonEmpty, Dedup(f)[i], Dedup(f)[j]);
  }

  /** A list already in normal form and without repetitions is left as it
      is, so normalising twice is normalising once. */
  lemma NormalisedOfNormalForm(es: seq<string>)
    requires NoDuplicates(es) && forall i :: 0 <= i < |es| ==> NormalForm(es[i])
    ensures NormalisedRecipients(es) == es
  {
    forall i | 0 <= i < |es| ensures NormaliseAddress(es[i]) == es[i] {
      ToLowerIsLower(es[i]);
      TrimOfTrimmed(es[i]);
    }
    assert NormaliseAll(es) == es;
    DedupOfDistinct(es);
    FilterAllKept(es, NonEmpty);
  }

  lemma NormaliseIdempotent(es: seq<string>)
    ensures NormalisedRecipients(NormalisedRecipients(es)) == NormalisedRecipients(es)
  {
    NormalisedRecipientsContents(es);
    NormalisedOfNormalForm(NormalisedRecipients(es));
  }

  // ---------------------------------------------------------------- send offsets

  /** `Math.max(0, startMs - now) + i * delayBetweenMs`. */
  function JobDelay(startMs: int, nowMs: int, i: nat, delayBetweenMs: int): (r: int)
    ensures delayBetweenMs >= 0 ==> r >= 0
  {
    (if startMs - nowMs > 0 then startMs - nowMs else 0) + i * delayBetweenMs
  }

  /** Later recipients never fire earlier when the spacing is not negative. */
  lemma JobDelayMonotone(startMs: int, nowMs: int, i: nat, j: nat, delayBetweenMs: int)
    requires i <= j && delayBetweenMs >= 0
    ensures JobDelay(startMs, nowMs, i, delayBetweenMs) <= JobDelay(startMs, nowMs, j, delayBetweenMs)
    ensures JobDelay(startMs, nowMs, j, delayBetweenMs) - JobDelay(startMs, nowMs, i, delayBetweenMs) == (j - i) * delayBetweenMs
  {
    assert j * delayBetweenMs == i * delayBetweenMs + (j - i) * delayBetweenMs by {
      assert j == i + (j - i);
    }
  }

  /** A job for recipient `i` fires at `startTime + i * delayBetweenMs` when
      the start lies in the future, and `i * delayBetweenMs` after now when
      it lies in the past. */
  lemma JobFireTime(startMs: int, nowMs: int, i: nat, delayBetweenMs: int)
    ensures startMs >= nowMs ==> nowMs + JobDelay(startMs, nowMs, i, delayBetweenMs) == startMs + i * delayBetweenMs
    ensures startMs < nowMs ==> nowMs + JobDelay(startMs, nowMs, i, delayBetweenMs) == nowMs + i * delayBetweenMs
  {
  }

  // ---------------------------------------------------------------- scheduling a campaign, as functions

  /** `delayBetweenMs = config.scheduler.delayBetweenEmailsMs`: the default
      applies only when the field is omitted. */
  function EffectiveDelay(input: ScheduleInput): int {
    input.delayBetweenMs.GetOr(DELAY_BETWEEN_EMAILS_MS)
  }

  /** `hourlyLimit = config.scheduler.maxEmailsPerHourPerSender`. */
  function EffectiveHourlyLimit(input: ScheduleInput): int {
    input.hourlyLimit.GetOr(RateLimiter.MAX_EMAILS_PER_HOUR_PER_SENDER)
  }

  function CampaignDataOf(input: ScheduleInput, total: nat): CampaignData {
    CampaignData(input.userId, input.subject, input.body, input.fromEmail, input.startTime,
                 EffectiveDelay(input), EffectiveHourlyLimit(input), Scheduled, total)
  }

  /** `recipientsData`: one row per address, numbered from 0. */
  function RecipientDataOf(campaignId: string, emails: seq<string>): (ds: seq<RecipientData>)
    ensures |ds| == |emails|
  {
    seq(|emails|, i requires 0 <= i < |emails| => RecipientData(campaignId, emails[i], i))
  }

  /** The payload of the job for the `i`-th created row. */
  function JobDataOf(campaignId: string, r: Recipient, i: nat, input: ScheduleInput): EmailJobData {
    EmailJobData(campaignId, r.id, r.email, input.fromEmail, input.subject, input.body, i,
                 input.userId, Some(EffectiveHourlyLimit(input)))
  }

  /** The enqueues of the scheduling loop over `rows`, in order. */
  function JobBatch(campaignId: string, rows: seq<Recipient>, input: ScheduleInput, nowMs: int): (es: seq<Enqueue>)
    ensures |es| == |rows|
  {
    seq(|rows|, i requires 0 <= i < |rows| =>
      Enqueue(DefaultJobId(campaignId, rows[i].id),
              NewJob(JobDataOf(campaignId, rows[i], i, input), JobDelay(input.startTime, nowMs, i, EffectiveDelay(input)))))
  }

  /** The store after the campaign and its recipient rows are created. */
  function Created(t: Tables, input: ScheduleInput): Tables {
    var emails := NormalisedRecipients(input.recipients);
    WithRecipients(WithCampaign(t, CampaignDataOf(input, |emails|)),
                   RecipientDataOf(CampaignId(|t.campaigns|), emails))
  }

  /** The store once the campaign is marked IN_PROGRESS. */
  function Launched(t: Tables, input: ScheduleInput): Tables {
    var created := Created(t, input);
    match WithCampaignStatus(created, CampaignId(|t.campaigns|), InProgress)
    case Some(t2) => t2
    case None => created
  }

  /** The queue after the scheduling loop. */
  function ScheduledJobs(t: Tables, jobs: Jobs, input: ScheduleInput, nowMs: int): Jobs {
    var id := CampaignId(|t.campaigns|);
    EnqueueAll(jobs, JobBatch(id, RecipientsOf(Created(t, input), id), input, nowMs))
  }

  // ---------------------------------------------------------------- the service method

  /** `scheduleCampaign`. An empty normalised list is refused before anything
      is written; otherwise the campaign is created SCHEDULED with its rows,
      one job per row read back in `orderIndex` order is enqueued, and the
      campaign is marked IN_PROGRESS. */
  method ScheduleCampaign(db: Database, queue: Queue, input: ScheduleInput, nowMs: int)
    returns (result: Result<string, string>)
    modifies db, queue
    ensures NormalisedRecipients(input.recipients) == [] ==>
      && result == Failure(NO_VALID_RECIPIENTS)
      && db.Snapshot() == old(db.Snapshot())
      && queue.jobs == old(queue.jobs)
    ensures NormalisedRecipients(input.recipients) != [] ==>
      && result == Success(CampaignId(|old(db.campaigns)|))
      && db.Snapshot() == Launched(old(db.Snapshot()), input)
      && queue.jobs == ScheduledJobs(old(db.Snapshot()), old(queue.jobs), input, nowMs)
  {
    var emails := NormalisedRecipients(input.recipients);
    if |emails| == 0 {
      return Failure(NO_VALID_RECIPIENTS);
    }
    ghost var t0 := db.Snapshot();
    var id := db.CreateCampaign(CampaignDataOf(input, |emails|));
    var count := db.CreateManyRecipients(RecipientDataOf(id, emails));
    assert db.Snapshot() == Created(t0, input);
    var rows := db.FindManyRecipients(id);
    EnqueueRows(queue, id, rows, input, nowMs);
    var ok := db.UpdateCampaignStatus(id, InProgress);
    result := Success(id);
  }

  /** The enqueue loop of `scheduleCampaign`: job `i` for row `i`, under the
      default job id, in row order. */
  method EnqueueRows(queue: Queue, id: string, rows: seq<Recipient>, input: ScheduleInput, nowMs: int)
    modifies queue
    ensures queue.jobs == EnqueueAll(old(queue.jobs), JobBatch(id, rows, input, nowMs))
  {
    var delay := EffectiveDelay(input);
    ghost var batch := JobBatch(id, rows, input, nowMs);
    ghost var jobs0 := queue.jobs;
    var i := 0;
    while i < |rows|
      invariant 0 <= i <= |rows|
      invariant queue.jobs == EnqueueAll(jobs0, batch[..i])
    {
      var r := rows[i];
      var jobDelay := JobDelay(input.startTime, nowMs, i, delay);
      var jobId := ScheduleEmailJob(queue, JobDataOf(id, r, i, input), jobDelay, None);
      assert batch[..i + 1][..i] == batch[..i];
      i := i + 1;
    }
    assert batch[..|rows|] == batch;
  }

  // ---------------------------------------------------------------- what scheduling achieves

  /** The rows created for a new campaign, one per normalised address. */
  function NewRows(t: Tables, input: ScheduleInput): seq<Recipient> {
    NewRecipientRows(|t.recipients|, RecipientDataOf(CampaignId(|t.campaigns|), NormalisedRecipients(input.recipients)))
  }

  /** Row `i` created for address `i`: its id, campaign, address and
      position, PENDING and not yet sent. */
  lemma NewRowsShape(first: nat, id: string, emails: seq<string>)
    ensures var rows := NewRecipientRows(first, RecipientDataOf(id, emails));
      |rows| == |emails| &&
      forall i :: 0 <= i < |rows| ==>
        && rows[i].id == RecipientId(first + i)
        && rows[i].campaignId == id
        && rows[i].email == emails[i] && rows[i].orderIndex == i
        && rows[i].status == Pending && rows[i].sentAt == None
  {
  }

  /** Rows appended for a campaign id that no existing row references are
      read back, in `orderIndex` order, as they were appended. */
  lemma AppendedRowsReadBack(t: Tables, id: string, emails: seq<string>)
    requires forall j :: 0 <= j < |t.recipients| ==> t.recipients[j].campaignId != id
    ensures var t2 := t.(recipients := t.recipients + NewRecipientRows(|t.recipients|, RecipientDataOf(id, emails)));
      RecipientsOf(t2, id) == NewRecipientRows(|t.recipients|, RecipientDataOf(id, emails))
  {
    var added := NewRecipientRows(|t.recipients|, RecipientDataOf(id, emails));
    var t2 := t.(recipients := t.recipients + added);
    NewRowsShape(|t.recipients|, id, emails);
    assert RowsOf(t2.recipients, OfCampaign(id)) == added by {
      RowsOfAppend(t.recipients, added, OfCampaign(id));
      RowsOfNoneSelected(t.recipients, OfCampaign(id));
      RowsOfAllSelected(added, OfCampaign(id));
    }
    assert SortedBy(added, OrderIndexOf);
    SortByOfSorted(added, OrderIndexOf);
  }

  /** In a valid store, reading back the new campaign's recipients in
      `orderIndex` order gives exactly the rows just created. */
  lemma ScheduledRows(t: Tables, input: ScheduleInput)
    requires Valid(t)
    ensures RecipientsOf(Created(t, input), CampaignId(|t.campaigns|)) == NewRows(t, input)
  {
    var n := |t.campaigns|;
    var emails := NormalisedRecipients(input.recipients);
    var t1 := WithCampaign(t, CampaignDataOf(input, |emails|));
    forall j | 0 <= j < |t1.recipients| ensures t1.recipients[j].campaignId != CampaignId(n) {
      var k :| 0 <= k < n && t.recipients[j].campaignId == CampaignId(k);
      CampaignIdInjective(k, n);
    }
    AppendedRowsReadBack(t1, CampaignId(n), emails);
  }

  /** The job ids of a new campaign's batch are all new to a consistent
      queue and distinct from one another. */
  lemma BatchIdsFresh(t: Tables, jobs: Jobs, rows: seq<Recipient>, input: ScheduleInput, nowMs: int)
    requires IdsByPosition(t) && JobsDescribe(t, jobs)
    requires forall i :: 0 <= i < |rows| ==> rows[i].id == RecipientId(|t.recipients| + i)
    ensures var es := JobBatch(CampaignId(|t.campaigns|), rows, input, nowMs);
      && (forall i :: 0 <= i < |es| ==> es[i].id !in jobs)
      && (forall i, j :: 0 <= i < j < |es| ==> es[i].id != es[j].id)
  {
    var n, m := |t.campaigns|, |t.recipients|;
    var id := CampaignId(n);
    var es := JobBatch(id, rows, input, nowMs);
    CampaignIdDashFree(n);
    forall i | 0 <= i < |es| ensures es[i].id !in jobs {
      var key := es[i].id;
      assert key == id + "-" + rows[i].id;
      assert key[..|id + "-"|] == id + "-";
      if key in jobs {
        var d := jobs[key].data;
        DescribedCampaign(t, d);
        DashFreePrefixUnique(key, d.campaignId, id);
        CampaignIdInjective(FindCampaign(t, d.campaignId).value, n);
        assert false;
      }
    }
    forall i, j | 0 <= i < j < |es| ensures es[i].id != es[j].id {
      DefaultJobIdInjective(id, rows[i].id, id, rows[j].id);
      RecipientIdInjective(m + i, m + j);
    }
  }

  /** Scheduling into a store whose ids follow the row positions appends one
      campaign, IN_PROGRESS with `totalRecipients` the number of normalised
      addresses and nothing processed, appends its rows, and changes no
      existing row. */
  lemma LaunchedShape(t: Tables, input: ScheduleInput)
    requires IdsByPosition(t)
    ensures var t2, n := Launched(t, input), |t.campaigns|;
      && |t2.campaigns| == n + 1 && t2.campaigns[..n] == t.campaigns
      && t2.campaigns[n] == NewCampaignRow(CampaignId(n), CampaignDataOf(input, |NormalisedRecipients(input.recipients)|)).(status := InProgress)
      && t2.recipients == t.recipients + NewRows(t, input)
      && t2.sentEmails == t.sentEmails
  {
    var n := |t.campaigns|;
    var emails := NormalisedRecipients(input.recipients);
    var d, ds := CampaignDataOf(input, |emails|), RecipientDataOf(CampaignId(n), emails);
    NewCampaignMarked(t, d, ds, InProgress);
    assert Created(t, input) == WithRecipients(WithCampaign(t, d), ds);
  }

  /** Before the jobs are enqueued the new campaign is SCHEDULED: created
      with the input's owner, subject, body, sender and start time, the
      effective spacing and hourly limit, `totalRecipients` the number of
      normalised addresses and nothing processed, followed by its rows. */
  lemma CreatedShape(t: Tables, input: ScheduleInput)
    ensures var t2, n, c := Created(t, input), |t.campaigns|, Created(t, input).campaigns[|t.campaigns|];
      && |t2.campaigns| == n + 1 && t2.campaigns[..n] == t.campaigns
      && c.id == CampaignId(n) && c.status == Scheduled
      && c.userId == input.userId && c.subject == input.subject && c.body == input.body
      && c.fromEmail == input.fromEmail && c.startTime == input.startTime
      && c.delayBetweenMs == EffectiveDelay(input) && c.hourlyLimit == EffectiveHourlyLimit(input)
      && c.totalRecipients == |NormalisedRecipients(input.recipients)| && c.processedCount == 0
      && t2.recipients == t.recipients + NewRows(t, input)
      && t2.sentEmails == t.sentEmails
  {
  }

  lemma CreatedValid(t: Tables, input: ScheduleInput)
    requires Valid(t)
    ensures Valid(Created(t, input))
  {
    var emails := NormalisedRecipients(input.recipients);
    CampaignWithRecipientsValid(t, CampaignDataOf(input, |emails|), RecipientDataOf(CampaignId(|t.campaigns|), emails));
  }

  lemma LaunchedValid(t: Tables, input: ScheduleInput)
    requires Valid(t)
    ensures Valid(Launched(t, input))
  {
    var n := |t.campaigns|;
    var created := Created(t, input);
    CreatedValid(t, input);
    StatusUpdateValid(created, CampaignId(n), InProgress);
    assert IsCampaignId(created, CampaignId(n)) by {
      assert 0 <= n < |created.campaigns| && CampaignId(n) == CampaignId(n);
    }
  }

  /** Scheduling keeps every field a queued job copied from the store. */
  lemma LaunchedKeepsSnapshots(t: Tables, input: ScheduleInput)
    requires Valid(t)
    ensures SnapshotFieldsKept(t, Launched(t, input))
  {
    var t2 := Launched(t, input);
    LaunchedIds(t, input);
    LaunchedShape(t, input);
    assert t2.recipients[..|t.recipients|] == t.recipients;
    ExtendedKeepsSnapshots(t, t2);
  }

  /** Every job of the new batch describes its row and the new campaign. */
  lemma BatchDescribes(t: Tables, input: ScheduleInput, nowMs: int, i: nat)
    requires Valid(t) && i < |NormalisedRecipients(input.recipients)|
    ensures var n, rows := |t.campaigns|, NewRows(t, input);
      var e := JobBatch(CampaignId(n), rows, input, nowMs)[i];
      && StartsWith(e.id, e.job.data.campaignId + "-")
      && JobDescribes(Launched(t, input), e.job.data)
  {
    var n, m := |t.campaigns|, |t.recipients|;
    var id := CampaignId(n);
    var rows := NewRows(t, input);
    NewRowsAt(t, input, i);
    BatchEntryAt(id, rows, input, nowMs, i);
    LaunchedIds(t, input);
    LaunchedShape(t, input);
    LaunchedRowDescribed(Launched(t, input), t.recipients, n, rows, input, |NormalisedRecipients(input.recipients)|, i);
  }

  lemma LaunchedIds(t: Tables, input: ScheduleInput)
    requires Valid(t)
    ensures IdsByPosition(Launched(t, input))
  {
    LaunchedValid(t, input);
  }

  /** Row `i` of the `rows` a store holds after `before`, with the launched
      campaign at `n`, is described by the payload made for it. */
  lemma LaunchedRowDescribed(t2: Tables, before: seq<Recipient>, n: nat, rows: seq<Recipient>, input: ScheduleInput, total: nat, i: nat)
    requires IdsByPosition(t2) && i < |rows| && t2.recipients == before + rows
    requires rows[i].id == RecipientId(|before| + i) && rows[i].campaignId == CampaignId(n) && rows[i].orderIndex == i
    requires n < |t2.campaigns| && t2.campaigns[n] == NewCampaignRow(CampaignId(n), CampaignDataOf(input, total)).(status := InProgress)
    ensures JobDescribes(t2, JobDataOf(CampaignId(n), rows[i], i, input))
  {
    AppendAt(before, rows, i);
    NewRowSnapshot(input, total, n, rows[i], i);
    DescribesAt(t2, |before| + i, n, JobDataOf(CampaignId(n), rows[i], i, input));
  }

  /** Entry `i` of a batch: the default job id of row `i` and its payload. */
  lemma BatchEntryAt(id: string, rows: seq<Recipient>, input: ScheduleInput, nowMs: int, i: nat)
    requires i < |rows|
    ensures var e := JobBatch(id, rows, input, nowMs)[i];
      && e.job.data == JobDataOf(id, rows[i], i, input)
      && StartsWith(e.id, id + "-")
  {
    var e := JobBatch(id, rows, input, nowMs)[i];
    assert e.id[..|id + "-"|] == id + "-";
  }

  /** The payload made for a new row snapshots the row and the launched campaign. */
  lemma NewRowSnapshot(input: ScheduleInput, total: nat, n: nat, r: Recipient, i: nat)
    requires r.campaignId == CampaignId(n) && r.orderIndex == i
    ensures Snapshots(r, NewCampaignRow(CampaignId(n), CampaignDataOf(input, total)).(status := InProgress),
                      JobDataOf(CampaignId(n), r, i, input))
  {
  }

  /** Adding fresh jobs that each describe the store keeps the whole queue
      describing it. */
  lemma EnqueuedDescribe(t: Tables, jobs: Jobs, es: seq<Enqueue>)
    requires JobsDescribe(t, jobs)
    requires forall i :: 0 <= i < |es| ==> es[i].id !in jobs
    requires forall i, j :: 0 <= i < j < |es| ==> es[i].id != es[j].id
    requires forall i :: 0 <= i < |es| ==>
      StartsWith(es[i].id, es[i].job.data.campaignId + "-") && JobDescribes(t, es[i].job.data)
    ensures JobsDescribe(t, EnqueueAll(jobs, es))
  {
    EnqueueAllFresh(jobs, es);
    var after := EnqueueAll(jobs, es);
    forall key | key in after
      ensures StartsWith(key, after[key].data.campaignId + "-") && JobDescribes(t, after[key].data)
    {
      if key !in jobs {
        assert key in EnqueuedIds(es);
        var i :| 0 <= i < |es| && es[i].id == key;
      }
    }
  }

  /** The batch the scheduling loop enqueues, in a valid store. */
  function NewBatch(t: Tables, input: ScheduleInput, nowMs: int): seq<Enqueue> {
    JobBatch(CampaignId(|t.campaigns|), NewRows(t, input), input, nowMs)
  }

  lemma ScheduledJobsAreNewBatch(t: Tables, jobs: Jobs, input: ScheduleInput, nowMs: int)
    requires Valid(t)
    ensures ScheduledJobs(t, jobs, input, nowMs) == EnqueueAll(jobs, NewBatch(t, input, nowMs))
  {
    ScheduledRows(t, input);
  }

  lemma NewBatchFresh(t: Tables, jobs: Jobs, input: ScheduleInput, nowMs: int)
    requires Consistent(t, jobs)
    ensures var es := NewBatch(t, input, nowMs);
      && (forall i :: 0 <= i < |es| ==> es[i].id !in jobs)
      && (forall i, j :: 0 <= i < j < |es| ==> es[i].id != es[j].id)
  {
    NewRowsShape(|t.recipients|, CampaignId(|t.campaigns|), NormalisedRecipients(input.recipients));
    BatchIdsFresh(t, jobs, NewRows(t, input), input, nowMs);
  }

  lemma NewBatchDescribes(t: Tables, input: ScheduleInput, nowMs: int)
    requires Valid(t)
    ensures var es := NewBatch(t, input, nowMs);
      forall i :: 0 <= i < |es| ==>
        StartsWith(es[i].id, es[i].job.data.campaignId + "-") && JobDescribes(Launched(t, input), es[i].job.data)
  {
    var es := NewBatch(t, input, nowMs);
    forall i | 0 <= i < |es|
      ensures StartsWith(es[i].id, es[i].job.data.campaignId + "-") && JobDescribes(Launched(t, input), es[i].job.data)
    {
      BatchDescribes(t, input, nowMs, i);
    }
  }

  /** Scheduling keeps the store and the queue consistent and adds one job
      per normalised address. */
  lemma ScheduleKeepsConsistent(t: Tables, jobs: Jobs, input: ScheduleInput, nowMs: int)
    requires Consistent(t, jobs)
    ensures Consistent(Launched(t, input), ScheduledJobs(t, jobs, input, nowMs))
    ensures |ScheduledJobs(t, jobs, input, nowMs)| == |jobs| + |NormalisedRecipients(input.recipients)|
  {
    var es := NewBatch(t, input, nowMs);
    var t2 := Launched(t, input);
    ScheduledJobsAreNewBatch(t, jobs, input, nowMs);
    NewBatchFresh(t, jobs, input, nowMs);
    EnqueueAllSize(jobs, es);
    LaunchedValid(t, input);
    LaunchedKeepsSnapshots(t, input);
    JobsDescribeKept(t, t2, jobs);
    NewBatchDescribes(t, input, nowMs);
    EnqueuedDescribe(t2, jobs, es);
  }

  // ---------------------------------------------------------------- getScheduledEmails

  /** One element of the flattened list the UI shows; `scheduledTime` is in
      milliseconds since the epoch. */
  datatype ScheduledEntry = ScheduledEntry(
    id: string,
    campaignId: string,
    to: string,
    subject: string,
    scheduledTime: int,
    status: string)

  const LABEL_PENDING: string := "pending"
  const LABEL_SCHEDULED: string := "scheduled"

  predicate ActiveFor(c: Campaign, userId: string) {
    c.userId == userId && (c.status == Scheduled || c.status == InProgress)
  }

  /** `where: { userId, status: { in: ['SCHEDULED', 'IN_PROGRESS'] } }`, in
      table order. */
  function ActiveCampaignsOf(cs: seq<Campaign>, userId: string): (r: seq<Campaign>)
    ensures forall c :: c in r <==> c in cs && ActiveFor(c, userId)
    decreases |cs|
  {
    if |cs| == 0 then []
    else
      assert forall c :: c in cs <==> c in cs[..|cs| - 1] || c == cs[|cs| - 1];
      ActiveCampaignsOf(cs[..|cs| - 1], userId) + (if ActiveFor(cs[|cs| - 1], userId) then [cs[|cs| - 1]] else [])
  }

  function StartTimeOf(c: Campaign): int {
    c.startTime
  }

  /** The user's active campaigns, `orderBy: { startTime: 'asc' }`. */
  function UserCampaigns(t: Tables, userId: string): seq<Campaign> {
    SortBy(ActiveCampaignsOf(t.campaigns, userId), StartTimeOf)
  }

  /** The included recipients: PENDING, `orderBy: { orderIndex: 'asc' }`. */
  function PendingRecipientsOf(t: Tables, campaignId: string): seq<Recipient> {
    SortBy(RowsOf(t.recipients, PendingOf(campaignId)), OrderIndexOf)
  }

  /** The entry for the `i`-th pending recipient of `c`; the label is
      'pending' for an IN_PROGRESS campaign and 'scheduled' otherwise. */
  function EntryFor(c: Campaign, r: Recipient, i: nat): ScheduledEntry {
    ScheduledEntry(r.id, c.id, r.email, c.subject, c.startTime + i * c.delayBetweenMs,
                   if c.status == InProgress then LABEL_PENDING else LABEL_SCHEDULED)
  }

  function EntriesOf(c: Campaign, rs: seq<Recipient>): (es: seq<ScheduledEntry>)
    ensures |es| == |rs|
  {
    seq(|rs|, i requires 0 <= i < |rs| => EntryFor(c, rs[i], i))
  }

  /** The flattened entries of `cs`, campaign after campaign. */
  function ScheduledView(t: Tables, cs: seq<Campaign>): seq<ScheduledEntry>
    decreases |cs|
  {
    if |cs| == 0 then []
    else ScheduledView(t, cs[..|cs| - 1]) + EntriesOf(cs[|cs| - 1], PendingRecipientsOf(t, cs[|cs| - 1].id))
  }

  function ScheduledEmails(t: Tables, userId: string): seq<ScheduledEntry> {
    ScheduledView(t, UserCampaigns(t, userId))
  }

  lemma ScheduledViewStep(t: Tables, cs: seq<Campaign>, k: nat)
    requires k < |cs|
    ensures ScheduledView(t, cs[..k + 1]) == ScheduledView(t, cs[..k]) + EntriesOf(cs[k], PendingRecipientsOf(t, cs[k].id))
  {
    assert cs[..k + 1][..k] == cs[..k];
  }

  lemma EntriesOfStep(c: Campaign, rs: seq<Recipient>, i: nat)
    requires i < |rs|
    ensures EntriesOf(c, rs[..i + 1]) == EntriesOf(c, rs[..i]) + [EntryFor(c, rs[i], i)]
  {
  }

  /** `getScheduledEmails`: the two queries, then the loop over campaigns
      and the inner loop over their pending recipients. */
  method GetScheduledEmails(db: Database, userId: string) returns (scheduled: seq<ScheduledEntry>)
    ensures scheduled == ScheduledEmails(db.Snapshot(), userId)
  {
    var t := db.Snapshot();
    var campaigns := UserCampaigns(t, userId);
    scheduled := [];
    var k := 0;
    while k < |campaigns|
      invariant 0 <= k <= |campaigns|
      invariant scheduled == ScheduledView(t, campaigns[..k])
    {
      var c := campaigns[k];
      scheduled := AppendEntries(scheduled, c, PendingRecipientsOf(t, c.id));
      ScheduledViewStep(t, campaigns, k);
      k := k + 1;
    }
    assert campaigns[..k] == campaigns;
  }

  /** The inner loop of `getScheduledEmails`: one entry per pending
      recipient of `c`, in order. */
  method AppendEntries(before: seq<ScheduledEntry>, c: Campaign, recipients: seq<Recipient>) returns (scheduled: seq<ScheduledEntry>)
    ensures scheduled == before + EntriesOf(c, recipients)
  {
    scheduled := before;
    var i := 0;
    while i < |recipients|
      invariant 0 <= i <= |recipients|
      invariant scheduled == before + EntriesOf(c, recipients[..i])
    {
      EntriesOfStep(c, recipients, i);
      scheduled := scheduled + [EntryFor(c, recipients[i], i)];
      i := i + 1;
    }
    assert recipients[..i] == recipients;
  }

  /** The entry of the `i`-th pending recipient of `cs[k]`. */
  predicate EntryAt(t: Tables, cs: seq<Campaign>, k: nat, i: nat, e: ScheduledEntry) {
    k < |cs| && i < |PendingRecipientsOf(t, cs[k].id)| && e == EntryFor(cs[k], PendingRecipientsOf(t, cs[k].id)[i], i)
  }

  /** Every entry of the view is the entry of some pending recipient of one
      of the listed campaigns. */
  lemma {:induction false} ScheduledViewSound(t: Tables, cs: seq<Campaign>, e: ScheduledEntry)
    requires e in ScheduledView(t, cs)
    ensures exists k: nat, i: nat :: EntryAt(t, cs, k, i, e)
    decreases |cs|
  {
    var p, c := cs[..|cs| - 1], cs[|cs| - 1];
    assert ScheduledView(t, cs) == ScheduledView(t, p) + EntriesOf(c, PendingRecipientsOf(t, c.id));
    if e in ScheduledView(t, p) {
      ScheduledViewSound(t, p, e);
      var k: nat, i: nat :| EntryAt(t, p, k, i, e);
      EarlierEntry(t, cs, k, i, e);
    } else {
      LastEntry(t, cs, e);
    }
  }

  lemma EarlierEntry(t: Tables, cs: seq<Campaign>, k: nat, i: nat, e: ScheduledEntry)
    requires |cs| > 0 && EntryAt(t, cs[..|cs| - 1], k, i, e)
    ensures exists k: nat, i: nat :: EntryAt(t, cs, k, i, e)
  {
    assert cs[..|cs| - 1][k] == cs[k];
    assert EntryAt(t, cs, k, i, e);
  }

  lemma LastEntry(t: Tables, cs: seq<Campaign>, e: ScheduledEntry)
    requires |cs| > 0 && e in EntriesOf(cs[|cs| - 1], PendingRecipientsOf(t, cs[|cs| - 1].id))
    ensures exists k: nat, i: nat :: EntryAt(t, cs, k, i, e)
  {
    var es := EntriesOf(cs[|cs| - 1], PendingRecipientsOf(t, cs[|cs| - 1].id));
    var i :| 0 <= i < |es| && es[i] == e;
    assert EntryAt(t, cs, |cs| - 1, i, e);
  }

  /** Every pending recipient of a listed campaign has its entry. */
  lemma {:induction false} ScheduledViewComplete(t: Tables, cs: seq<Campaign>, k: nat, i: nat)
    requires k < |cs| && i < |PendingRecipientsOf(t, cs[k].id)|
    ensures EntryFor(cs[k], PendingRecipientsOf(t, cs[k].id)[i], i) in ScheduledView(t, cs)
    decreases |cs|
  {
    var p, c := cs[..|cs| - 1], cs[|cs| - 1];
    if k < |p| {
      assert cs[k] == p[k];
      ScheduledViewComplete(t, p, k, i);
    } else {
      assert EntriesOf(c, PendingRecipientsOf(t, c.id))[i] == EntryFor(cs[k], PendingRecipientsOf(t, cs[k].id)[i], i);
    }
  }

  /** Where entry `p` of the view comes from: the position of its campaign
      in `cs` and its position among that campaign's pending recipients. */
  function Origin(t: Tables, cs: seq<Campaign>, p: nat): (o: (nat, nat))
    requires p < |ScheduledView(t, cs)|
    ensures EntryAt(t, cs, o.0, o.1, ScheduledView(t, cs)[p])
    decreases |cs|
  {
    var pre, last := cs[..|cs| - 1], |cs| - 1;
    var v := ScheduledView(t, pre);
    assert ScheduledView(t, cs) == v + EntriesOf(cs[last], PendingRecipientsOf(t, cs[last].id));
    if p < |v| then
      var o := Origin(t, pre, p);
      assert pre[o.0] == cs[o.0];
      o
    else
      (last, p - |v|)
  }

  /** Positions in the view follow the listing: an earlier entry comes from
      an earlier campaign of `cs`, or from the same campaign at an earlier
      pending position. */
  lemma {:induction false} ScheduledViewOrder(t: Tables, cs: seq<Campaign>, p: nat, q: nat)
    requires p < q < |ScheduledView(t, cs)|
    ensures var o1, o2 := Origin(t, cs, p), Origin(t, cs, q);
      o1.0 < o2.0 || (o1.0 == o2.0 && o1.1 < o2.1)
    decreases |cs|
  {
    var pre := cs[..|cs| - 1];
    var v := ScheduledView(t, pre);
    assert ScheduledView(t, cs) == v + EntriesOf(cs[|cs| - 1], PendingRecipientsOf(t, cs[|cs| - 1].id));
    if q < |v| {
      ScheduledViewOrder(t, pre, p, q);
    } else if p < |v| {
      assert Origin(t, pre, p).0 < |pre|;
    }
  }

  /** The order `getScheduledEmails` promises: an earlier entry comes from a
      campaign that starts no later, and within one campaign from an
      earlier recipient in `orderIndex` order. */
  lemma ScheduledEmailsOrdered(t: Tables, userId: string, p: nat, q: nat)
    requires p < q < |ScheduledEmails(t, userId)|
    ensures var cs := UserCampaigns(t, userId);
      var o1, o2 := Origin(t, cs, p), Origin(t, cs, q);
      && cs[o1.0].startTime <= cs[o2.0].startTime
      && (o1.0 == o2.0 ==>
            && o1.1 < o2.1
            && PendingRecipientsOf(t, cs[o1.0].id)[o1.1].orderIndex <= PendingRecipientsOf(t, cs[o1.0].id)[o2.1].orderIndex)
  {
    var cs := UserCampaigns(t, userId);
    var o1, o2 := Origin(t, cs, p), Origin(t, cs, q);
    ScheduledViewOrder(t, cs, p, q);
    if o1.0 < o2.0 {
      assert StartTimeOf(cs[o1.0]) <= StartTimeOf(cs[o2.0]);
    } else {
      var rs := PendingRecipientsOf(t, cs[o1.0].id);
      assert OrderIndexOf(rs[o1.1]) <= OrderIndexOf(rs[o2.1]);
    }
  }

  /** `e` shows recipient row `r` of campaign `c` owned by `userId`, the
      `i`-th of the campaign's pending recipients in `orderIndex` order, due
      `i` spacings after the campaign's start. */
  predicate Shows(t: Tables, c: Campaign, r: Recipient, i: nat, userId: string, e: ScheduledEntry) {
    && ActiveFor(c, userId)
    && r.campaignId == c.id && r.status == Pending
    && i < |PendingRecipientsOf(t, c.id)| && PendingRecipientsOf(t, c.id)[i] == r
    && e.id == r.id && e.campaignId == c.id && e.to == r.email && e.subject == c.subject
    && e.scheduledTime == c.startTime + i * c.delayBetweenMs
    && (e.status == LABEL_PENDING <==> c.status == InProgress)
    && (e.status == LABEL_SCHEDULED <==> c.status == Scheduled)
  }

  /** Every scheduled entry shows a PENDING recipient of one of the user's
      SCHEDULED or IN_PROGRESS campaigns. */
  lemma ScheduledEmailsSound(t: Tables, userId: string, e: ScheduledEntry)
    requires e in ScheduledEmails(t, userId)
    ensures exists k, j, i: nat :: 0 <= k < |t.campaigns| && 0 <= j < |t.recipients| && Shows(t, t.campaigns[k], t.recipients[j], i, userId, e)
  {
    var cs := UserCampaigns(t, userId);
    ScheduledViewSound(t, cs, e);
    var k: nat, i: nat :| EntryAt(t, cs, k, i, e);
    UserCampaignsActive(t, userId);
    EntryShowsRow(t, cs[k], userId, i, e);
  }

  lemma UserCampaignsActive(t: Tables, userId: string)
    ensures forall c :: c in UserCampaigns(t, userId) ==> c in t.campaigns && ActiveFor(c, userId)
  {
    SortByMembers(ActiveCampaignsOf(t.campaigns, userId), StartTimeOf);
  }

  /** The entry of the `i`-th pending recipient of an active campaign of
      the store shows a row of the store. */
  lemma EntryShowsRow(t: Tables, c: Campaign, userId: string, i: nat, e: ScheduledEntry)
    requires c in t.campaigns && ActiveFor(c, userId)
    requires i < |PendingRecipientsOf(t, c.id)| && e == EntryFor(c, PendingRecipientsOf(t, c.id)[i], i)
    ensures exists k, j, i: nat :: 0 <= k < |t.campaigns| && 0 <= j < |t.recipients| && Shows(t, t.campaigns[k], t.recipients[j], i, userId, e)
  {
    var r := PendingRecipientsOf(t, c.id)[i];
    SortByMembers(RowsOf(t.recipients, PendingOf(c.id)), OrderIndexOf);
    RowsOfMembers(t.recipients, PendingOf(c.id));
    assert r in t.recipients && Selects(PendingOf(c.id), r);
    var k :| 0 <= k < |t.campaigns| && t.campaigns[k] == c;
    var j :| 0 <= j < |t.recipients| && t.recipients[j] == r;
    assert Shows(t, t.campaigns[k], t.recipients[j], i, userId, e);
  }

  /** Every PENDING recipient of a SCHEDULED or IN_PROGRESS campaign of the
      user is shown. */
  lemma ScheduledEmailsComplete(t: Tables, userId: string, k: nat, j: nat)
    requires k < |t.campaigns| && j < |t.recipients|
    requires ActiveFor(t.campaigns[k], userId)
    requires t.recipients[j].campaignId == t.campaigns[k].id && t.recipients[j].status == Pending
    ensures exists e, i: nat :: e in ScheduledEmails(t, userId) && Shows(t, t.campaigns[k], t.recipients[j], i, userId, e)
  {
    var c, r := t.campaigns[k], t.recipients[j];
    var cs := UserCampaigns(t, userId);
    CampaignListed(t, userId, k);
    var k' :| 0 <= k' < |cs| && cs[k'] == c;
    var pending := PendingRecipientsOf(t, c.id);
    PendingListed(t, c.id, j);
    var i :| 0 <= i < |pending| && pending[i] == r;
    ScheduledViewComplete(t, cs, k', i);
    assert Shows(t, c, r, i, userId, EntryFor(c, r, i));
  }

  lemma CampaignListed(t: Tables, userId: string, k: nat)
    requires k < |t.campaigns| && ActiveFor(t.campaigns[k], userId)
    ensures t.campaigns[k] in UserCampaigns(t, userId)
  {
    SortByMembers(ActiveCampaignsOf(t.campaigns, userId), StartTimeOf);
  }

  lemma PendingListed(t: Tables, campaignId: string, j: nat)
    requires j < |t.recipients| && t.recipients[j].campaignId == campaignId && t.recipients[j].status == Pending
    ensures t.recipients[j] in PendingRecipientsOf(t, campaignId)
  {
    RowsOfMembers(t.recipients, PendingOf(campaignId));
    SortByMembers(RowsOf(t.recipients, PendingOf(campaignId)), OrderIndexOf);
  }

  lemma AppendedPendingReadBack(t: Tables, id: string, emails: seq<string>)
    requires forall j :: 0 <= j < |t.recipients| ==> t.recipients[j].campaignId != id
    ensures var added := NewRecipientRows(|t.recipients|, RecipientDataOf(id, emails));
      PendingRecipientsOf(t.(recipients := t.recipients + added), id) == added
  {
    var added := NewRecipientRows(|t.recipients|, RecipientDataOf(id, emails));
    var t2 := t.(recipients := t.recipients + added);
    NewRowsShape(|t.recipients|, id, emails);
    assert RowsOf(t2.recipients, PendingOf(id)) == added by {
      RowsOfAppend(t.recipients, added, PendingOf(id));
      RowsOfNoneSelected(t.recipients, PendingOf(id));
      RowsOfAllSelected(added, PendingOf(id));
    }
    assert SortedBy(added, OrderIndexOf);
    SortByOfSorted(added, OrderIndexOf);
  }

  /** Right after scheduling, the new campaign's pending recipients are
      its new rows. */
  lemma LaunchedPending(t: Tables, input: ScheduleInput)
    requires Valid(t)
    ensures PendingRecipientsOf(Launched(t, input), CampaignId(|t.campaigns|)) == NewRows(t, input)
  {
    var n := |t.campaigns|;
    var t2 := Launched(t, input);
    LaunchedShape(t, input);
    forall j | 0 <= j < |t.recipients| ensures t.recipients[j].campaignId != CampaignId(n) {
      var k :| 0 <= k < n && t.recipients[j].campaignId == CampaignId(k);
      CampaignIdInjective(k, n);
    }
    AppendedPendingReadBack(t.(campaigns := t2.campaigns), CampaignId(n), NormalisedRecipients(input.recipients));
    assert t2 == t.(campaigns := t2.campaigns).(recipients := t.recipients + NewRows(t, input));
  }

  /** The entry of new row `i` is among the user's scheduled emails. */
  lemma NewEntryListed(t: Tables, input: ScheduleInput, i: nat)
    requires Valid(t) && i < |NewRows(t, input)|
    ensures var t2 := Launched(t, input);
      |t2.campaigns| > |t.campaigns| &&
      EntryFor(t2.campaigns[|t.campaigns|], NewRows(t, input)[i], i) in ScheduledEmails(t2, input.userId)
  {
    var n := |t.campaigns|;
    var t2 := Launched(t, input);
    LaunchedShape(t, input);
    var c := t2.campaigns[n];
    var cs := UserCampaigns(t2, input.userId);
    assert c in cs by {
      SortByMembers(ActiveCampaignsOf(t2.campaigns, input.userId), StartTimeOf);
    }
    var k :| 0 <= k < |cs| && cs[k] == c;
    LaunchedPending(t, input);
    ScheduledViewComplete(t2, cs, k, i);
  }

  /** The campaign row scheduling appends, once marked IN_PROGRESS. */
  lemma LaunchedCampaign(t: Tables, input: ScheduleInput)
    requires IdsByPosition(t)
    ensures var t2, n := Launched(t, input), |t.campaigns|;
      && |t2.campaigns| == n + 1
      && t2.campaigns[n].id == CampaignId(n) && t2.campaigns[n].userId == input.userId
      && t2.campaigns[n].subject == input.subject && t2.campaigns[n].status == InProgress
      && t2.campaigns[n].startTime == input.startTime && t2.campaigns[n].delayBetweenMs == EffectiveDelay(input)
  {
    LaunchedShape(t, input);
  }

  /** Row `i` created for address `i`. */
  lemma NewRowAt(first: nat, id: string, emails: seq<string>, i: nat)
    requires i < |emails|
    ensures i < |NewRecipientRows(first, RecipientDataOf(id, emails))|
    ensures NewRecipientRows(first, RecipientDataOf(id, emails))[i] == Recipient(RecipientId(first + i), id, emails[i], i, Pending, None)
  {
  }

  /** What the entry of new row `i` says. */
  lemma NewEntryFields(t: Tables, input: ScheduleInput, i: nat)
    requires IdsByPosition(t) && i < |NormalisedRecipients(input.recipients)|
    ensures var t2 := Launched(t, input);
      |t2.campaigns| > |t.campaigns| && i < |NewRows(t, input)| &&
      EntryFor(t2.campaigns[|t.campaigns|], NewRows(t, input)[i], i)
        == ScheduledEntry(RecipientId(|t.recipients| + i), CampaignId(|t.campaigns|),
                          NormalisedRecipients(input.recipients)[i], input.subject,
                          input.startTime + i * EffectiveDelay(input), LABEL_PENDING)
  {
    var t2, n := Launched(t, input), |t.campaigns|;
    var emails := NormalisedRecipients(input.recipients);
    assert |t2.campaigns| == n + 1 && t2.campaigns[n].id == CampaignId(n)
        && t2.campaigns[n].subject == input.subject && t2.campaigns[n].status == InProgress
        && t2.campaigns[n].startTime == input.startTime && t2.campaigns[n].delayBetweenMs == EffectiveDelay(input) by {
      LaunchedCampaign(t, input);
    }
    NewRowsAt(t, input, i);
    InProgressEntry(t2.campaigns[n], NewRows(t, input)[i], i);
  }

  lemma InProgressEntry(c: Campaign, r: Recipient, i: nat)
    requires c.status == InProgress
    ensures EntryFor(c, r, i) == ScheduledEntry(r.id, c.id, r.email, c.subject, c.startTime + i * c.delayBetweenMs, LABEL_PENDING)
  {
  }

  lemma NewRowsAt(t: Tables, input: ScheduleInput, i: nat)
    requires i < |NormalisedRecipients(input.recipients)|
    ensures i < |NewRows(t, input)|
    ensures NewRows(t, input)[i]
         == Recipient(RecipientId(|t.recipients| + i), CampaignId(|t.campaigns|), NormalisedRecipients(input.recipients)[i], i, Pending, None)
  {
    NewRowAt(|t.recipients|, CampaignId(|t.campaigns|), NormalisedRecipients(input.recipients), i);
  }

  /** Right after scheduling, the view lists address `i` of the normalised
      list as 'pending' at `startTime + i * delayBetweenMs`; when the start
      lies in the future that is exactly when its job fires. */
  lemma ScheduleThenView(t: Tables, input: ScheduleInput, nowMs: int, i: nat)
    requires Valid(t) && i < |NormalisedRecipients(input.recipients)|
    ensures var e := ScheduledEntry(RecipientId(|t.recipients| + i), CampaignId(|t.campaigns|),
                                    NormalisedRecipients(input.recipients)[i], input.subject,
                                    input.startTime + i * EffectiveDelay(input), LABEL_PENDING);
      && e in ScheduledEmails(Launched(t, input), input.userId)
      && (input.startTime >= nowMs ==> e.scheduledTime == nowMs + NewBatch(t, input, nowMs)[i].job.delay)
  {
    NewEntryFields(t, input, i);
    NewEntryListed(t, input, i);
    assert NewBatch(t, input, nowMs)[i].job.delay == JobDelay(input.startTime, nowMs, i, EffectiveDelay(input));
    JobFireTime(input.startTime, nowMs, i, EffectiveDelay(input));
  }

  // ---------------------------------------------------------------- getSentEmails

  /** The default `limit` of `getSentEmails`; the route passes none. */
  const SENT_EMAILS_LIMIT: nat := 100

  /** `where: { userId }`, in table order. */
  function SentOfUser(ss: seq<SentEmail>, userId: string): (r: seq<SentEmail>)
    ensures forall x :: x in r <==> x in ss && x.userId == userId
    decreases |ss|
  {
    if |ss| == 0 then []
    else
      assert forall x :: x in ss <==> x in ss[..|ss| - 1] || x == ss[|ss| - 1];
      SentOfUser(ss[..|ss| - 1], userId) + (if ss[|ss| - 1].userId == userId then [ss[|ss| - 1]] else [])
  }

  /** Sorting key for `orderBy: { sentAt: 'desc' }`. */
  function NegSentAt(s: SentEmail): int {
    -s.sentAt
  }

  /** `getSentEmails(userId, limit)`: the user's records, latest first, at
      most `limit` of them. */
  function SentEmailsOf(t: Tables, userId: string, limit: nat): seq<SentEmail> {
    Take(SortBy(SentOfUser(t.sentEmails, userId), NegSentAt), limit)
  }

  /** The history holds only the user's records, at most `limit`, latest
      first; it is cut short only when the user has more than `limit`
      records, and then every record it leaves out is no later than every
      record it shows. */
  lemma SentEmailsProperties(t: Tables, userId: string, limit: nat)
    ensures var r := SentEmailsOf(t, userId, limit);
      && |r| <= limit
      && (forall i :: 0 <= i < |r| ==> r[i] in t.sentEmails && r[i].userId == userId)
      && (forall i, j :: 0 <= i < j < |r| ==> r[i].sentAt >= r[j].sentAt)
      && (forall x :: x in t.sentEmails && x.userId == userId && x !in r ==>
            |r| == limit && forall i :: 0 <= i < |r| ==> x.sentAt <= r[i].sentAt)
  {
    SentEmailsOwned(t, userId, limit);
    SentEmailsLatestFirst(t, userId, limit);
    SentEmailsOmitted(t, userId, limit);
  }

  lemma SentEmailsOwned(t: Tables, userId: string, limit: nat)
    ensures var r := SentEmailsOf(t, userId, limit);
      |r| <= limit && forall i :: 0 <= i < |r| ==> r[i] in t.sentEmails && r[i].userId == userId
  {
    var own := SentOfUser(t.sentEmails, userId);
    var sorted := SortBy(own, NegSentAt);
    var r := SentEmailsOf(t, userId, limit);
    SortByMembers(own, NegSentAt);
    forall i | 0 <= i < |r| ensures r[i] in t.sentEmails && r[i].userId == userId {
      assert r[i] == sorted[i];
    }
  }

  lemma SentEmailsLatestFirst(t: Tables, userId: string, limit: nat)
    ensures var r := SentEmailsOf(t, userId, limit);
      forall i, j :: 0 <= i < j < |r| ==> r[i].sentAt >= r[j].sentAt
  {
    var sorted := SortBy(SentOfUser(t.sentEmails, userId), NegSentAt);
    var r := SentEmailsOf(t, userId, limit);
    forall i, j | 0 <= i < j < |r| ensures r[i].sentAt >= r[j].sentAt {
      assert NegSentAt(sorted[i]) <= NegSentAt(sorted[j]);
    }
  }

  lemma SentEmailsOmitted(t: Tables, userId: string, limit: nat)
    ensures var r := SentEmailsOf(t, userId, limit);
      forall x :: x in t.sentEmails && x.userId == userId && x !in r ==>
        |r| == limit && forall i :: 0 <= i < |r| ==> x.sentAt <= r[i].sentAt
  {
    var own := SentOfUser(t.sentEmails, userId);
    var sorted := SortBy(own, NegSentAt);
    var r := SentEmailsOf(t, userId, limit);
    SortByMembers(own, NegSentAt);
    forall x | x in t.sentEmails && x.userId == userId && x !in r
      ensures |r| == limit && forall i :: 0 <= i < |r| ==> x.sentAt <= r[i].sentAt
    {
      assert x in sorted;
      var p :| 0 <= p < |sorted| && sorted[p] == x;
      if p < |r| {
        assert false;
      }
      forall i | 0 <= i < |r| ensures x.sentAt <= r[i].sentAt {
        assert NegSentAt(sorted[i]) <= NegSentAt(sorted[p]);
      }
    }
  }

  // ---------------------------------------------------------------- getCampaignDetail

  datatype CampaignDetail = CampaignDetail(campaign: Campaign, recipients: seq<Recipient>)

  predicate OwnedBy(c: Campaign, campaignId: string, userId: string) {
    c.id == campaignId && c.userId == userId
  }

  /** `emailCampaign.findFirst({ where: { id, userId }, include: recipients
      by orderIndex })`: nothing for another user's campaign or a missing
      one. */
  function CampaignDetailOf(t: Tables, campaignId: string, userId: string): (r: Option<CampaignDetail>)
    ensures r.None? <==> forall k :: 0 <= k < |t.campaigns| ==> !OwnedBy(t.campaigns[k], campaignId, userId)
    ensures r.Some? ==> r.value.campaign in t.campaigns && OwnedBy(r.value.campaign, campaignId, userId)
    ensures r.Some? ==> r.value.recipients == RecipientsOf(t, campaignId)
  {
    match FindFirst(t.campaigns, (c: Campaign) => OwnedBy(c, campaignId, userId))
    case None => None
    case Some(k) => Some(CampaignDetail(t.campaigns[k], RecipientsOf(t, campaignId)))
  }

  /** Right after scheduling, the owner sees the new campaign IN_PROGRESS
      with its rows in order, and nobody else sees it. */
  lemma ScheduleThenDetail(t: Tables, input: ScheduleInput, otherUser: string)
    requires Valid(t)
    ensures var d := CampaignDetailOf(Launched(t, input), CampaignId(|t.campaigns|), input.userId);
      && d.Some? && d.value.campaign.status == InProgress
      && d.value.recipients == NewRows(t, input)
    ensures otherUser != input.userId ==>
      CampaignDetailOf(Launched(t, input), CampaignId(|t.campaigns|), otherUser).None?
  {
    var n := |t.campaigns|;
    LaunchedIds(t, input);
    LaunchedCampaign(t, input);
    NewestDetail(Launched(t, input), n, input.userId, otherUser);
    LaunchedReadBack(t, input);
  }

  /** The detail of campaign `n` is found for its owner, and for nobody else. */
  lemma NewestDetail(t2: Tables, n: nat, userId: string, otherUser: string)
    requires IdsByPosition(t2) && n < |t2.campaigns| && t2.campaigns[n].userId == userId
    ensures var d := CampaignDetailOf(t2, CampaignId(n), userId);
      d.Some? && d.value.campaign == t2.campaigns[n] && d.value.recipients == RecipientsOf(t2, CampaignId(n))
    ensures otherUser != userId ==> CampaignDetailOf(t2, CampaignId(n), otherUser).None?
  {
    assert OwnedBy(t2.campaigns[n], CampaignId(n), userId);
    var d := CampaignDetailOf(t2, CampaignId(n), userId);
    var q :| 0 <= q < |t2.campaigns| && t2.campaigns[q] == d.value.campaign;
    CampaignIdInjective(q, n);
    forall k | 0 <= k < |t2.campaigns| && otherUser != userId
      ensures !OwnedBy(t2.campaigns[k], CampaignId(n), otherUser)
    {
      CampaignIdInjective(k, n);
    }
  }

  /** The rows of the launched campaign, read back by `campaignId`, are
      exactly the rows the scheduler created. */
  lemma LaunchedReadBack(t: Tables, input: ScheduleInput)
    requires IdsByPosition(t) && ReferencesCampaigns(t)
    ensures RecipientsOf(Launched(t, input), CampaignId(|t.campaigns|)) == NewRows(t, input)
  {
    var n := |t.campaigns|;
    var t2 := Launched(t, input);
    LaunchedShape(t, input);
    forall j | 0 <= j < |t.recipients| ensures t.recipients[j].campaignId != CampaignId(n) {
      var k :| 0 <= k < n && t.recipients[j].campaignId == CampaignId(k);
      CampaignIdInjective(k, n);
    }
    AppendedRowsReadBack(t.(campaigns := t2.campaigns), CampaignId(n), NormalisedRecipients(input.recipients));
    assert t2 == t.(campaigns := t2.campaigns).(recipients := t.recipients + NewRows(t, input));
  }
}
