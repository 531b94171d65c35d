/** The dispatch handler `processEmailJob`: an idempotency gate on the
    recipient row, a rate gate that re-queues the job for the next hour, the
    send, and one atomic commit of SENT or FAILED. The mail transport and the
    clock are inputs. */
module Worker {
  import opened Wrappers
  import opened Text
  import opened RateLimiter
  import opened EmailQueue
  import opened Records
  import opened Consistency

  const SEND_FAILED: string := "Send failed"
  const RETRY_MARK: string := "-retry-"

  /** The answer of `sendEmail`: a message id, or the error's message. */
  datatype SendResult = SendOk(messageId: string) | SendError(error: string)

  /** One reading of the clock: epoch milliseconds and the local calendar
      hour they fall in. */
  datatype Clock = Clock(nowMs: nat, hour: CalendarHour)

  /** What one call of the handler ends with. `Rejected` is the error thrown
      after a failed send; `CommitError` is a transaction that threw because
      a row it updates is missing. */
  datatype Outcome =
    | Skipped
    | Deferred(jobId: string)
    | Delivered
    | Rejected(message: string)
    | CommitError

  /** The options passed to `sendEmail`. */
  datatype Mail = Mail(from: string, to: string, subject: string, html: string)

  /** The mail transport, reduced to the log of the mails handed to it; what
      each attempt returns is an input. */
  class Transport {
    var attempts: seq<Mail>

    constructor ()
      ensures attempts == []
    {
      attempts := [];
    }

    method Send(mail: Mail, result: SendResult) returns (r: SendResult)
      modifies this
      ensures attempts == old(attempts) + [mail] && r == result
    {
      attempts := attempts + [mail];
      r := result;
    }
  }

  /** Everything the handler can change. */
  datatype World = World(tables: Tables, jobs: Jobs, counters: Counters, attempts: seq<Mail>)

  function MailOf(d: EmailJobData): Mail {
    Mail(d.fromEmail, d.toEmail, d.subject, d.body)
  }

  /** `${campaignId}-${recipientId}-retry-${Date.now()}`. */
  function RetryJobId(d: EmailJobData, nowMs: nat): string {
    d.campaignId + "-" + d.recipientId + RETRY_MARK + NatToString(nowMs)
  }

  function SentRecord(d: EmailJobData, at: int): SentEmail {
    SentEmail(d.campaignId, d.userId, d.toEmail, d.subject, d.body, d.fromEmail, Sent, at, None)
  }

  function FailedRecord(d: EmailJobData, at: int, error: string): SentEmail {
    SentEmail(d.campaignId, d.userId, d.toEmail, d.subject, d.body, d.fromEmail, Failed, at, Some(error))
  }

  /** `result.error || 'Send failed'`. */
  function ErrorMessage(error: string): string {
    if error != "" then error else SEND_FAILED
  }

  /** The recipient row the gate reads, if it is PENDING. */
  function PendingRow(t: Tables, recipientId: string): Option<nat> {
    match FindRecipient(t, recipientId)
    case None => None
    case Some(j) => if t.recipients[j].status == Pending then Some(j) else None
  }

  /** One call of the handler on job payload `d`. */
  function Handle(w: World, d: EmailJobData, clock: Clock, send: SendResult): (Outcome, World) {
    if PendingRow(w.tables, d.recipientId).None? then (Skipped, w)
    else if !UnderLimit(w.counters, d.fromEmail, clock.hour, d.hourlyLimit) then
      var id := RetryJobId(d, clock.nowMs);
      (Deferred(id), w.(jobs := QueueAdd(w.jobs, id, NewJob(d, MsUntilNextHour(clock.nowMs)))))
    else
      var sent := w.(attempts := w.attempts + [MailOf(d)]);
      match send
      case SendOk(_) =>
        (match SentCommitted(w.tables, d.recipientId, d.campaignId, clock.nowMs, SentRecord(d, clock.nowMs))
         case None => (CommitError, sent)
         case Some(t2) =>
           (Delivered, sent.(tables := t2, counters := IncrementHourly(w.counters, SenderKey(d.fromEmail, clock.hour)))))
      case SendError(e) =>
        (match FailureCommitted(w.tables, d.recipientId, FailedRecord(d, clock.nowMs, e))
         case None => (CommitError, sent)
         case Some(t2) => (Rejected(ErrorMessage(e)), sent.(tables := t2)))
  }

  function WorldOf(db: Database, queue: Queue, redis: Redis, transport: Transport): World
    reads db, queue, redis, transport
  {
    World(db.Snapshot(), queue.jobs, redis.entries, transport.attempts)
  }

  /** `processEmailJob`, with the clock read once and the transport's answer
      given. */
  method ProcessEmailJob(db: Database, queue: Queue, redis: Redis, transport: Transport,
                         d: EmailJobData, clock: Clock, send: SendResult)
    returns (outcome: Outcome)
    modifies db, queue, redis, transport
    ensures (outcome, WorldOf(db, queue, redis, transport))
         == Handle(old(WorldOf(db, queue, redis, transport)), d, clock, send)
  {
    var recipient := db.FindUniqueRecipient(d.recipientId);
    if recipient.None? || recipient.value.status != Pending {
      return Skipped;
    }
    var allowed := CanSendEmail(redis, d.fromEmail, clock.hour, d.hourlyLimit);
    if !allowed {
      var delayMs := MsUntilNextHour(clock.nowMs);
      var id := ScheduleEmailJob(queue, d, delayMs, Some(RetryJobId(d, clock.nowMs)));
      return Deferred(id);
    }
    var result := transport.Send(MailOf(d), send);
    match result
    case SendOk(_) =>
      var ok := db.CommitSent(d.recipientId, d.campaignId, clock.nowMs, SentRecord(d, clock.nowMs));
      if !ok {
        return CommitError;
      }
      var _ := IncrementSenderHourlyCount(redis, d.fromEmail, clock.hour);
      outcome := Delivered;
    case SendError(e) =>
      var ok := db.CommitFailed(d.recipientId, FailedRecord(d, clock.nowMs, e));
      if !ok {
        return CommitError;
      }
      outcome := Rejected(ErrorMessage(e));
  }

  // ---------------------------------------------------------------- the gates

  /** The gate lets a job through exactly when its recipient row exists and
      is PENDING; otherwise nothing at all changes: no send, no record, no
      counter, no job. */
  lemma SkipIffSettled(w: World, d: EmailJobData, clock: Clock, send: SendResult)
    requires IdsByPosition(w.tables)
    ensures var rs := w.tables.recipients;
      Handle(w, d, clock, send).0 == Skipped <==>
        || (forall j :: 0 <= j < |rs| ==> rs[j].id != d.recipientId)
        || (exists j :: 0 <= j < |rs| && rs[j].id == d.recipientId && rs[j].status != Pending)
    ensures Handle(w, d, clock, send).0 == Skipped ==> Handle(w, d, clock, send).1 == w
  {
    var rs := w.tables.recipients;
    var r := FindRecipient(w.tables, d.recipientId);
    if r.Some? {
      forall j | 0 <= j < |rs| && rs[j].id == d.recipientId ensures j == r.value {
        RecipientIdInjective(j, r.value);
      }
    }
  }

  /** A throttled job sends nothing and leaves the store and the counters as
      they were, so its recipient stays PENDING; the only change is one
      retry job with the same payload, due at the start of the next hour. */
  lemma ThrottledDefers(w: World, d: EmailJobData, clock: Clock, send: SendResult)
    requires PendingRow(w.tables, d.recipientId).Some?
    requires !UnderLimit(w.counters, d.fromEmail, clock.hour, d.hourlyLimit)
    ensures var (out, w2) := Handle(w, d, clock, send);
      && out == Deferred(RetryJobId(d, clock.nowMs))
      && w2.tables == w.tables && w2.counters == w.counters && w2.attempts == w.attempts
      && w2.tables.recipients[PendingRow(w.tables, d.recipientId).value].status == Pending
      && RetryJobId(d, clock.nowMs) in w2.jobs
      && (forall k :: k in w.jobs ==> k in w2.jobs && w2.jobs[k] == w.jobs[k])
      && (forall k :: k in w2.jobs ==> k in w.jobs || k == RetryJobId(d, clock.nowMs))
      && (RetryJobId(d, clock.nowMs) !in w.jobs ==>
            && w2.jobs[RetryJobId(d, clock.nowMs)] == NewJob(d, MsUntilNextHour(clock.nowMs))
            && |w2.jobs| == |w.jobs| + 1)
  {
  }

  /** A retry id never equals the default id of any job of the scheduler,
      whose recipient id is a dash-free row id. */
  lemma RetryIdIsNotDefault(d: EmailJobData, nowMs: nat, campaignId: string, k: nat)
    requires '-' !in d.campaignId && '-' !in campaignId
    ensures RetryJobId(d, nowMs) != DefaultJobId(campaignId, RecipientId(k))
  {
    var s := RetryJobId(d, nowMs);
    if s == DefaultJobId(campaignId, RecipientId(k)) {
      assert s[..|d.campaignId| + 1] == d.campaignId + "-";
      assert s[..|campaignId| + 1] == campaignId + "-";
      DashFreePrefixUnique(s, d.campaignId, campaignId);
      var rest := s[|campaignId| + 1..];
      assert rest == RecipientId(k);
      assert rest == d.recipientId + RETRY_MARK + NatToString(nowMs);
      assert rest[|d.recipientId|] == '-';
      RecipientIdDashFree(k);
      assert false;
    }
  }

  // ---------------------------------------------------------------- the two commits

  lemma DeliveredWorld(w: World, d: EmailJobData, clock: Clock, messageId: string)
    requires IdsByPosition(w.tables) && JobDescribes(w.tables, d)
    requires PendingRow(w.tables, d.recipientId).Some?
    requires UnderLimit(w.counters, d.fromEmail, clock.hour, d.hourlyLimit)
    ensures var t := w.tables;
      var j, k := FindRecipient(t, d.recipientId).value, FindCampaign(t, d.campaignId).value;
      && d.recipientId == t.recipients[j].id && d.campaignId == t.recipients[j].campaignId
      && Handle(w, d, clock, SendOk(messageId))
         == (Delivered, World(SentTables(t, j, k, clock.nowMs, SentRecord(d, clock.nowMs)), w.jobs,
                              IncrementHourly(w.counters, SenderKey(d.fromEmail, clock.hour)), w.attempts + [MailOf(d)]))
  {
    var t := w.tables;
    DescribedRow(t, d);
    DeliveredAt(w, d, clock, messageId, FindRecipient(t, d.recipientId).value, FindCampaign(t, d.campaignId).value);
  }

  lemma DeliveredAt(w: World, d: EmailJobData, clock: Clock, messageId: string, j: nat, k: nat)
    requires IdsByPosition(w.tables) && j < |w.tables.recipients| && k < |w.tables.campaigns|
    requires FindRecipient(w.tables, d.recipientId) == Some(j) && w.tables.recipients[j].status == Pending
    requires d.recipientId == w.tables.recipients[j].id && d.campaignId == w.tables.recipients[j].campaignId
    requires w.tables.recipients[j].campaignId == CampaignId(k)
    requires UnderLimit(w.counters, d.fromEmail, clock.hour, d.hourlyLimit)
    ensures Handle(w, d, clock, SendOk(messageId))
         == (Delivered, World(SentTables(w.tables, j, k, clock.nowMs, SentRecord(d, clock.nowMs)), w.jobs,
                              IncrementHourly(w.counters, SenderKey(d.fromEmail, clock.hour)), w.attempts + [MailOf(d)]))
  {
    var record := SentRecord(d, clock.nowMs);
    SentCommittedShape(w.tables, j, k, clock.nowMs, record);
    HandleDelivers(w, d, clock, messageId, SentTables(w.tables, j, k, clock.nowMs, record));
  }

  /** The row and the campaign a job describes, found by their ids. */
  lemma DescribedRow(t: Tables, d: EmailJobData)
    requires IdsByPosition(t) && JobDescribes(t, d)
    ensures FindCampaign(t, d.campaignId).Some? && FindRecipient(t, d.recipientId).Some?
    ensures var j, k := FindRecipient(t, d.recipientId).value, FindCampaign(t, d.campaignId).value;
      && d.recipientId == t.recipients[j].id && d.campaignId == t.recipients[j].campaignId
      && t.recipients[j].campaignId == CampaignId(k)
  {
    DescribedCampaign(t, d);
  }

  /** A send that succeeds under the limit, followed by a successful commit. */
  lemma HandleDelivers(w: World, d: EmailJobData, clock: Clock, messageId: string, t2: Tables)
    requires PendingRow(w.tables, d.recipientId).Some?
    requires UnderLimit(w.counters, d.fromEmail, clock.hour, d.hourlyLimit)
    requires SentCommitted(w.tables, d.recipientId, d.campaignId, clock.nowMs, SentRecord(d, clock.nowMs)) == Some(t2)
    ensures Handle(w, d, clock, SendOk(messageId))
         == (Delivered, World(t2, w.jobs, IncrementHourly(w.counters, SenderKey(d.fromEmail, clock.hour)), w.attempts + [MailOf(d)]))
  {
  }

  /** A delivered mail settles its recipient as SENT at the clock's time,
      appends one SENT record and adds one to its campaign's
      `processedCount`; no other row or campaign changes. */
  lemma DeliveredSettles(w: World, d: EmailJobData, clock: Clock, messageId: string)
    requires IdsByPosition(w.tables) && JobDescribes(w.tables, d)
    requires PendingRow(w.tables, d.recipientId).Some?
    requires UnderLimit(w.counters, d.fromEmail, clock.hour, d.hourlyLimit)
    ensures var (out, w2) := Handle(w, d, clock, SendOk(messageId));
      var t, t2 := w.tables, w2.tables;
      var j, k := FindRecipient(t, d.recipientId).value, FindCampaign(t, d.campaignId).value;
      && out == Delivered
      && |t2.recipients| == |t.recipients|
      && t2.recipients[j] == t.recipients[j].(status := Sent, sentAt := Some(clock.nowMs))
      && (forall i :: 0 <= i < |t.recipients| && i != j ==> t2.recipients[i] == t.recipients[i])
      && t2.sentEmails == t.sentEmails + [SentRecord(d, clock.nowMs)]
      && |t2.campaigns| == |t.campaigns|
      && t2.campaigns[k].processedCount == t.campaigns[k].processedCount + 1
      && (forall i :: 0 <= i < |t.campaigns| && i != k ==> t2.campaigns[i] == t.campaigns[i])
  {
    DeliveredWorld(w, d, clock, messageId);
  }

  /** After the commit of a delivered mail, the sender's counter for the
      current hour goes up by one and no other counter or job changes; the
      mail was handed to the transport once, and the store stays valid. */
  lemma DeliveredCounts(w: World, d: EmailJobData, clock: Clock, messageId: string)
    requires Valid(w.tables) && JobDescribes(w.tables, d)
    requires PendingRow(w.tables, d.recipientId).Some?
    requires UnderLimit(w.counters, d.fromEmail, clock.hour, d.hourlyLimit)
    ensures var w2 := Handle(w, d, clock, SendOk(messageId)).1;
      var key := SenderKey(d.fromEmail, clock.hour);
      && w2.attempts == w.attempts + [MailOf(d)] && w2.jobs == w.jobs
      && CountOf(w2.counters, key) == CountOf(w.counters, key) + 1
      && (forall other :: other != key ==> CountOf(w2.counters, other) == CountOf(w.counters, other))
      && Valid(w2.tables)
  {
    var t := w.tables;
    var j := FindRecipient(t, d.recipientId).value;
    DeliveredWorld(w, d, clock, messageId);
    SentCommittedValid(t, j, clock.nowMs, SentRecord(d, clock.nowMs));
    SentCommittedShape(t, j, FindCampaign(t, d.campaignId).value, clock.nowMs, SentRecord(d, clock.nowMs));
  }

  lemma RejectedWorld(w: World, d: EmailJobData, clock: Clock, error: string)
    requires PendingRow(w.tables, d.recipientId).Some?
    requires UnderLimit(w.counters, d.fromEmail, clock.hour, d.hourlyLimit)
    ensures var j := FindRecipient(w.tables, d.recipientId).value;
      Handle(w, d, clock, SendError(error))
        == (Rejected(ErrorMessage(error)),
            World(FailedTables(w.tables, j, FailedRecord(d, clock.nowMs, error)), w.jobs, w.counters, w.attempts + [MailOf(d)]))
  {
  }

  /** A failed send settles its recipient as FAILED without a `sentAt`,
      appends one FAILED record carrying the error, and throws the error's
      message (or 'Send failed' when it is empty); campaigns, counters and
      jobs are unchanged. */
  lemma RejectedEffects(w: World, d: EmailJobData, clock: Clock, error: string)
    requires PendingRow(w.tables, d.recipientId).Some?
    requires UnderLimit(w.counters, d.fromEmail, clock.hour, d.hourlyLimit)
    ensures var (out, w2) := Handle(w, d, clock, SendError(error));
      var t, t2 := w.tables, w2.tables;
      var j := FindRecipient(t, d.recipientId).value;
      && out == Rejected(if error != "" then error else "Send failed")
      && w2.attempts == w.attempts + [MailOf(d)] && w2.jobs == w.jobs && w2.counters == w.counters
      && t2.campaigns == t.campaigns
      && |t2.recipients| == |t.recipients|
      && t2.recipients[j] == t.recipients[j].(status := Failed)
      && (forall i :: 0 <= i < |t.recipients| && i != j ==> t2.recipients[i] == t.recipients[i])
      && t2.sentEmails == t.sentEmails + [FailedRecord(d, clock.nowMs, error)]
      && t2.sentEmails[|t.sentEmails|].errorMessage == Some(error)
  {
    RejectedWorld(w, d, clock, error);
  }

  /** The failure commit keeps the store valid. */
  lemma RejectedValid(w: World, d: EmailJobData, clock: Clock, error: string)
    requires Valid(w.tables)
    requires PendingRow(w.tables, d.recipientId).Some?
    requires UnderLimit(w.counters, d.fromEmail, clock.hour, d.hourlyLimit)
    ensures Valid(Handle(w, d, clock, SendError(error)).1.tables)
  {
    var j := FindRecipient(w.tables, d.recipientId).value;
    RejectedWorld(w, d, clock, error);
    FailureCommittedValid(w.tables, j, FailedRecord(d, clock.nowMs, error));
  }

  // ---------------------------------------------------------------- the hourly cap

  /** Only a delivery moves a counter: the sender's counter for the hour of
      the clock goes up by one and every other counter stays. */
  lemma CounterMovesOnlyOnDelivery(w: World, d: EmailJobData, clock: Clock, send: SendResult, key: string)
    ensures var (out, w2) := Handle(w, d, clock, send);
      CountOf(w2.counters, key)
        == CountOf(w.counters, key) + (if out == Delivered && key == SenderKey(d.fromEmail, clock.hour) then 1 else 0)
  {
    var (out, w2) := Handle(w, d, clock, send);
    if out != Delivered {
      assert w2.counters == w.counters;
    }
  }

  /** A counter at or below `cap` stays there when the job's limit for that
      counter is at most `cap`: the check comes before the send and the
      increment only after a success. */
  lemma HandleRespectsCap(w: World, d: EmailJobData, clock: Clock, send: SendResult, key: string, cap: int)
    requires CountOf(w.counters, key) <= cap
    requires key == SenderKey(d.fromEmail, clock.hour) ==> EffectiveLimit(d.hourlyLimit) <= cap
    ensures CountOf(Handle(w, d, clock, send).1.counters, key) <= cap
  {
    CounterMovesOnlyOnDelivery(w, d, clock, send, key);
  }

  /** One handler call: the job's payload, the clock reading, the
      transport's answer. */
  datatype Step = Step(d: EmailJobData, clock: Clock, send: SendResult)

  /** Handler calls one after another. */
  function Run(w: World, steps: seq<Step>): World
    decreases |steps|
  {
    if steps == [] then w
    else Run(Handle(w, steps[0].d, steps[0].clock, steps[0].send).1, steps[1..])
  }

  /** How many calls of the run delivered a mail counted under `key`. */
  function Deliveries(w: World, steps: seq<Step>, key: string): nat
    decreases |steps|
  {
    if steps == [] then 0
    else
      var (out, w2) := Handle(w, steps[0].d, steps[0].clock, steps[0].send);
      (if out == Delivered && SenderKey(steps[0].d.fromEmail, steps[0].clock.hour) == key then 1 else 0)
        + Deliveries(w2, steps[1..], key)
  }

  /** Every call of the run that counts under `key` has a limit of at most `cap`. */
  predicate CappedFor(steps: seq<Step>, key: string, cap: int) {
    forall i :: 0 <= i < |steps| && SenderKey(steps[i].d.fromEmail, steps[i].clock.hour) == key ==>
      EffectiveLimit(steps[i].d.hourlyLimit) <= cap
  }

  /** The counter of a (sender, hour) key is its starting value plus the
      deliveries counted under it. */
  lemma {:induction false} RunCountsDeliveries(w: World, steps: seq<Step>, key: string)
    ensures CountOf(Run(w, steps).counters, key) == CountOf(w.counters, key) + Deliveries(w, steps, key)
    decreases |steps|
  {
    if steps != [] {
      var w2 := Handle(w, steps[0].d, steps[0].clock, steps[0].send).1;
      CounterMovesOnlyOnDelivery(w, steps[0].d, steps[0].clock, steps[0].send, key);
      RunCountsDeliveries(w2, steps[1..], key);
    }
  }

  /** With sequential handling, a counter that starts within `cap` ends
      within `cap` after any run whose jobs for that key have a limit of at
      most `cap`. */
  lemma {:induction false} RunRespectsCap(w: World, steps: seq<Step>, key: string, cap: int)
    requires CountOf(w.counters, key) <= cap && CappedFor(steps, key, cap)
    ensures CountOf(Run(w, steps).counters, key) <= cap
    decreases |steps|
  {
    if steps != [] {
      var w2 := Handle(w, steps[0].d, steps[0].clock, steps[0].send).1;
      HandleRespectsCap(w, steps[0].d, steps[0].clock, steps[0].send, key, cap);
      assert CappedFor(steps[1..], key, cap) by {
        forall i | 0 <= i < |steps[1..]| && SenderKey(steps[1..][i].d.fromEmail, steps[1..][i].clock.hour) == key
          ensures EffectiveLimit(steps[1..][i].d.hourlyLimit) <= cap
        {
          assert steps[1..][i] == steps[i + 1];
        }
      }
      RunRespectsCap(w2, steps[1..], key, cap);
    }
  }

  /** A sender never gets more than `cap` mails delivered in one calendar
      hour, counting those already counted at the start of the run. */
  lemma HourlyDeliveriesCapped(w: World, steps: seq<Step>, sender: string, hour: CalendarHour, cap: int)
    requires CountOf(w.counters, SenderKey(sender, hour)) <= cap
    requires CappedFor(steps, SenderKey(sender, hour), cap)
    ensures CountOf(w.counters, SenderKey(sender, hour)) + Deliveries(w, steps, SenderKey(sender, hour)) <= cap
  {
    RunCountsDeliveries(w, steps, SenderKey(sender, hour));
    RunRespectsCap(w, steps, SenderKey(sender, hour), cap);
  }

  // ---------------------------------------------------------------- consistency

  /** Adding a job whose id begins with its campaign id and a dash and
      whose payload describes the store keeps every queued job faithful. */
  lemma QueueAddDescribes(t: Tables, jobs: Jobs, id: string, job: Job)
    requires JobsDescribe(t, jobs) && JobDescribes(t, job.data)
    requires StartsWith(id, job.data.campaignId + "-")
    ensures JobsDescribe(t, QueueAdd(jobs, id, job))
  {
  }

  lemma SentTablesKeepSnapshots(t: Tables, j: nat, k: nat, at: int, record: SentEmail)
    requires IdsByPosition(t) && j < |t.recipients| && k < |t.campaigns|
    ensures SnapshotFieldsKept(t, SentTables(t, j, k, at, record))
  {
  }

  function FailedTables(t: Tables, j: nat, record: SentEmail): Tables
    requires j < |t.recipients|
  {
    t.(recipients := t.recipients[j := t.recipients[j].(status := Failed)], sentEmails := t.sentEmails + [record])
  }

  lemma FailedTablesKeepSnapshots(t: Tables, j: nat, record: SentEmail)
    requires IdsByPosition(t) && j < |t.recipients|
    ensures SnapshotFieldsKept(t, FailedTables(t, j, record))
  {
  }

  /** A retry id begins with the campaign id and a dash, like every job id
      of the scheduler. */
  lemma RetryIdPrefix(d: EmailJobData, nowMs: nat)
    ensures StartsWith(RetryJobId(d, nowMs), d.campaignId + "-")
  {
    var id := RetryJobId(d, nowMs);
    assert id == (d.campaignId + "-") + (d.recipientId + RETRY_MARK + NatToString(nowMs));
    assert id[..|d.campaignId + "-"|] == d.campaignId + "-";
  }

  lemma DeferKeepsConsistent(w: World, d: EmailJobData, clock: Clock, send: SendResult)
    requires JobsDescribe(w.tables, w.jobs) && JobDescribes(w.tables, d)
    requires PendingRow(w.tables, d.recipientId).Some?
    requires !UnderLimit(w.counters, d.fromEmail, clock.hour, d.hourlyLimit)
    ensures var w2 := Handle(w, d, clock, send).1;
      w2.tables == w.tables && JobsDescribe(w2.tables, w2.jobs)
  {
    var id := RetryJobId(d, clock.nowMs);
    var job := NewJob(d, MsUntilNextHour(clock.nowMs));
    assert Handle(w, d, clock, send).1 == w.(jobs := QueueAdd(w.jobs, id, job));
    RetryIdPrefix(d, clock.nowMs);
    QueueAddDescribes(w.tables, w.jobs, id, job);
  }

  lemma DeliverKeepsConsistent(w: World, d: EmailJobData, clock: Clock, messageId: string)
    requires Consistent(w.tables, w.jobs) && JobDescribes(w.tables, d)
    requires PendingRow(w.tables, d.recipientId).Some?
    requires UnderLimit(w.counters, d.fromEmail, clock.hour, d.hourlyLimit)
    ensures var (out, w2) := Handle(w, d, clock, SendOk(messageId));
      out == Delivered && Consistent(w2.tables, w2.jobs)
  {
    var t := w.tables;
    var j := FindRecipient(t, d.recipientId).value;
    DescribedCampaign(t, d);
    var k := FindCampaign(t, d.campaignId).value;
    var record := SentRecord(d, clock.nowMs);
    DeliveredWorld(w, d, clock, messageId);
    var t2 := SentTables(t, j, k, clock.nowMs, record);
    assert Valid(t2) by {
      SentCommittedValid(t, j, clock.nowMs, record);
      SentCommittedShape(t, j, k, clock.nowMs, record);
    }
    SentTablesKeepSnapshots(t, j, k, clock.nowMs, record);
    JobsDescribeKept(t, t2, w.jobs);
  }

  lemma RejectKeepsConsistent(w: World, d: EmailJobData, clock: Clock, error: string)
    requires Consistent(w.tables, w.jobs)
    requires PendingRow(w.tables, d.recipientId).Some?
    requires UnderLimit(w.counters, d.fromEmail, clock.hour, d.hourlyLimit)
    ensures var (out, w2) := Handle(w, d, clock, SendError(error));
      out.Rejected? && Consistent(w2.tables, w2.jobs)
  {
    var t := w.tables;
    var j := FindRecipient(t, d.recipientId).value;
    var record := FailedRecord(d, clock.nowMs, error);
    var t2 := FailedTables(t, j, record);
    RejectedWorld(w, d, clock, error);
    assert Valid(t2) by {
      FailureCommittedValid(t, j, record);
    }
    FailedTablesKeepSnapshots(t, j, record);
    JobsDescribeKept(t, t2, w.jobs);
  }

  /** A call on a payload that describes the store keeps the store valid and
      every queued job faithful, and its transaction never fails. */
  lemma HandleKeepsConsistent(w: World, d: EmailJobData, clock: Clock, send: SendResult)
    requires Consistent(w.tables, w.jobs) && JobDescribes(w.tables, d)
    ensures var (out, w2) := Handle(w, d, clock, send);
      out != CommitError && Consistent(w2.tables, w2.jobs)
  {
    if PendingRow(w.tables, d.recipientId).None? {
    } else if !UnderLimit(w.counters, d.fromEmail, clock.hour, d.hourlyLimit) {
      DeferKeepsConsistent(w, d, clock, send);
    } else {
      match send
      case SendOk(m) => DeliverKeepsConsistent(w, d, clock, m);
      case SendError(e) => RejectKeepsConsistent(w, d, clock, e);
    }
  }

  /** Every call of the run handles the payload of a job that is queued at
      that moment. */
  predicate DrawnFromQueue(w: World, steps: seq<Step>)
    decreases |steps|
  {
    steps == [] ||
    ((exists key :: key in w.jobs && w.jobs[key].data == steps[0].d)
     && DrawnFromQueue(Handle(w, steps[0].d, steps[0].clock, steps[0].send).1, steps[1..]))
  }

  /** Any run over queued jobs keeps the system consistent. */
  lemma {:induction false} RunKeepsConsistent(w: World, steps: seq<Step>)
    requires Consistent(w.tables, w.jobs) && DrawnFromQueue(w, steps)
    ensures Consistent(Run(w, steps).tables, Run(w, steps).jobs)
    decreases |steps|
  {
    if steps != [] {
      var key :| key in w.jobs && w.jobs[key].data == steps[0].d;
      HandleKeepsConsistent(w, steps[0].d, steps[0].clock, steps[0].send);
      RunKeepsConsistent(Handle(w, steps[0].d, steps[0].clock, steps[0].send).1, steps[1..]);
    }
  }

  // ---------------------------------------------------------------- status moves one way

  /** A call changes at most the row of its own recipient, and only from
      PENDING to SENT or FAILED; a row that is already settled is never
      touched again. */
  lemma StatusMovesOneWay(w: World, d: EmailJobData, clock: Clock, send: SendResult)
    ensures var rs, rs2 := w.tables.recipients, Handle(w, d, clock, send).1.tables.recipients;
      && |rs2| == |rs|
      && forall i :: 0 <= i < |rs| && rs2[i] != rs[i] ==>
           && rs[i].status == Pending && rs2[i].status != Pending
           && rs[i].id == d.recipientId && rs2[i].id == rs[i].id
           && rs2[i].campaignId == rs[i].campaignId && rs2[i].email == rs[i].email
           && rs2[i].orderIndex == rs[i].orderIndex
  {
  }

  /** The lookup of a recipient depends only on the ids of the rows. */
  lemma FindRecipientSameIds(t: Tables, t2: Tables, id: string)
    requires |t2.recipients| == |t.recipients|
    requires forall i :: 0 <= i < |t.recipients| ==> t2.recipients[i].id == t.recipients[i].id
    ensures FindRecipient(t2, id) == FindRecipient(t, id)
  {
  }

  /** Once a call has sent or failed, running the same job again (a queue
      retry after the thrown error, or a duplicate) is skipped and changes
      nothing, whatever the clock and the transport say. */
  lemma RerunIsNoOp(w: World, d: EmailJobData, clock: Clock, send: SendResult, clock2: Clock, send2: SendResult)
    ensures var (out, w2) := Handle(w, d, clock, send);
      out == Delivered || out.Rejected? ==> Handle(w2, d, clock2, send2) == (Skipped, w2)
  {
    var (out, w2) := Handle(w, d, clock, send);
    if out == Delivered || out.Rejected? {
      StatusMovesOneWay(w, d, clock, send);
      FindRecipientSameIds(w.tables, w2.tables, d.recipientId);
    }
  }
}
