/** The BullMQ delivery queue `email-send`: jobs keyed by a job id, carrying
    a snapshot of what to send, a delay, and the queue's default retry
    options. */
module EmailQueue {
  import opened Wrappers

  const EMAIL_QUEUE_NAME: string := "email-send"
  const JOB_NAME: string := "send-email"

  /** Default job options of the queue. */
  const DEFAULT_ATTEMPTS: nat := 5
  const BACKOFF_BASE_MS: nat := 5000
  const REMOVE_ON_COMPLETE_COUNT: nat := 1000
  const REMOVE_ON_FAIL_COUNT: nat := 5000

  datatype BackoffKind = Exponential
  datatype Backoff = Backoff(kind: BackoffKind, delay: nat)

  const DEFAULT_BACKOFF: Backoff := Backoff(Exponential, BACKOFF_BASE_MS)

  /** `defaultJobOptions`: retries, their backoff, and how many completed
      and failed jobs the queue keeps. */
  datatype JobOptions = JobOptions(attempts: nat, backoff: Backoff, removeOnCompleteCount: nat, removeOnFailCount: nat)

  const DEFAULT_JOB_OPTIONS: JobOptions :=
    JobOptions(DEFAULT_ATTEMPTS, DEFAULT_BACKOFF, REMOVE_ON_COMPLETE_COUNT, REMOVE_ON_FAIL_COUNT)

  /** The job payload `EmailJobData`: everything a worker needs, copied at
      enqueue time. `hourlyLimit` is optional. */
  datatype EmailJobData = EmailJobData(
    campaignId: string,
    recipientId: string,
    toEmail: string,
    fromEmail: string,
    subject: string,
    body: string,
    orderIndex: int,
    userId: string,
    hourlyLimit: Option<int>)

  /** A job as the queue holds it. */
  datatype Job = Job(name: string, data: EmailJobData, delay: int, options: JobOptions)

  /** The job that `scheduleEmailJob` adds: the payload unchanged, the given
      delay, five attempts with exponential backoff from 5000 ms, and the
      last 1000 completed and 5000 failed jobs kept. */
  function NewJob(data: EmailJobData, delayMs: int): (j: Job)
    ensures j.name == JOB_NAME && j.data == data && j.delay == delayMs
    ensures j.options.attempts == 5 && j.options.backoff == Backoff(Exponential, 5000)
    ensures j.options.removeOnCompleteCount == 1000 && j.options.removeOnFailCount == 5000
  {
    Job(JOB_NAME, data, delayMs, DEFAULT_JOB_OPTIONS)
  }

  // ---------------------------------------------------------------- job identity

  function DefaultJobId(campaignId: string, recipientId: string): string {
    campaignId + "-" + recipientId
  }

  /** `jobIdOverride || `${campaignId}-${recipientId}``: an override is used
      verbatim unless it is absent or the empty string, which is falsy. */
  function JobId(data: EmailJobData, jobIdOverride: Option<string>): (id: string)
    ensures jobIdOverride.Some? && jobIdOverride.value != "" ==> id == jobIdOverride.value
    ensures jobIdOverride.None? || jobIdOverride == Some("") ==>
      id == data.campaignId + "-" + data.recipientId
  {
    if jobIdOverride.Some? && jobIdOverride.value != "" then jobIdOverride.value
    else DefaultJobId(data.campaignId, data.recipientId)
  }

  predicate StartsWith(s: string, prefix: string) {
    |prefix| <= |s| && s[..|prefix|] == prefix
  }

  lemma StartsWithAt(s: string, prefix: string, i: nat)
    requires StartsWith(s, prefix) && i < |prefix|
    ensures s[i] == prefix[i]
  {
    assert s[..|prefix|][i] == prefix[i];
  }

  /** A string begins with at most one dash-free word followed by a dash. */
  lemma DashFreePrefixUnique(s: string, a: string, b: string)
    requires '-' !in a && '-' !in b
    requires StartsWith(s, a + "-") && StartsWith(s, b + "-")
    ensures a == b
  {
    var m := if |a| < |b| then |a| else |b|;
    StartsWithAt(s, a + "-", m);
    StartsWithAt(s, b + "-", m);
    assert |a| == |b| by {
      if |a| < |b| {
        assert false;
      } else if |b| < |a| {
        assert false;
      }
    }
    assert a == (a + "-")[..|a|] == s[..|a|] == (b + "-")[..|b|] == b;
  }

  /** For dash-free campaign ids, the default job id determines the campaign
      and the recipient. */
  lemma DefaultJobIdInjective(c1: string, r1: string, c2: string, r2: string)
    requires '-' !in c1 && '-' !in c2
    ensures DefaultJobId(c1, r1) == DefaultJobId(c2, r2) <==> c1 == c2 && r1 == r2
  {
    var k := DefaultJobId(c1, r1);
    if k == DefaultJobId(c2, r2) {
      assert k[..|c1| + 1] == c1 + "-";
      assert k[..|c2| + 1] == c2 + "-";
      DashFreePrefixUnique(k, c1, c2);
      assert r1 == k[|c1| + 1..] == r2;
    }
  }

  // ---------------------------------------------------------------- the queue

  type Jobs = map<string, Job>

  /** BullMQ `add` with an explicit job id: an id that the queue already
      holds is not added a second time. */
  function QueueAdd(jobs: Jobs, id: string, job: Job): Jobs {
    if id in jobs then jobs else jobs[id := job]
  }

  /** Two enqueues for the same recipient without an override collide on
      one job id, so the second one leaves the queue as the first left it. */
  lemma SecondDefaultEnqueueIgnored(jobs: Jobs, d1: EmailJobData, t1: int, d2: EmailJobData, t2: int)
    requires d1.campaignId == d2.campaignId && d1.recipientId == d2.recipientId
    ensures JobId(d1, None) == JobId(d2, None)
    ensures var once := QueueAdd(jobs, JobId(d1, None), NewJob(d1, t1));
      QueueAdd(once, JobId(d2, None), NewJob(d2, t2)) == once
  {
  }

  class Queue {
    const name: string
    var jobs: Jobs

    constructor ()
      ensures name == EMAIL_QUEUE_NAME && jobs == map[]
    {
      name := EMAIL_QUEUE_NAME;
      jobs := map[];
    }

    /** `queue.add(name, data, { delay, jobId })`; returns the job's id. */
    method Add(name: string, data: EmailJobData, delay: int, jobId: string) returns (id: string)
      modifies this
      ensures id == jobId
      ensures jobs == QueueAdd(old(jobs), jobId, Job(name, data, delay, DEFAULT_JOB_OPTIONS))
    {
      if jobId !in jobs {
        jobs := jobs[jobId := Job(name, data, delay, DEFAULT_JOB_OPTIONS)];
      }
      id := jobId;
    }
  }

  /** `scheduleEmailJob`: derive the job id and add the job under it. */
  method ScheduleEmailJob(queue: Queue, data: EmailJobData, delayMs: int, jobIdOverride: Option<string>)
    returns (id: string)
    modifies queue
    ensures id == JobId(data, jobIdOverride)
    ensures queue.jobs == QueueAdd(old(queue.jobs), id, NewJob(data, delayMs))
    ensures id in queue.jobs
    ensures id !in old(queue.jobs) ==> queue.jobs[id] == NewJob(data, delayMs)
  {
    var jobId := if jobIdOverride.Some? && jobIdOverride.value != "" then jobIdOverride.value
                 else data.campaignId + "-" + data.recipientId;
    id := queue.Add(JOB_NAME, data, delayMs, jobId);
  }

  // ---------------------------------------------------------------- a batch of enqueues

  datatype Enqueue = Enqueue(id: string, job: Job)

  /** The queue after adding `es` one after the other. */
  function EnqueueAll(jobs: Jobs, es: seq<Enqueue>): Jobs
    decreases |es|
  {
    if |es| == 0 then jobs
    else QueueAdd(EnqueueAll(jobs, es[..|es| - 1]), es[|es| - 1].id, es[|es| - 1].job)
  }

  function EnqueuedIds(es: seq<Enqueue>): set<string> {
    set i | 0 <= i < |es| :: es[i].id
  }

  /** Ids taken by a batch of distinct ids are as many as its entries. */
  lemma {:induction false} EnqueuedIdsCount(es: seq<Enqueue>)
    requires forall i, j :: 0 <= i < j < |es| ==> es[i].id != es[j].id
    ensures |EnqueuedIds(es)| == |es|
  {
    if |es| > 0 {
      var p := es[..|es| - 1];
      EnqueuedIdsCount(p);
      assert EnqueuedIds(es) == EnqueuedIds(p) + {es[|es| - 1].id};
    }
  }

  /** A batch whose ids are new and distinct adds each of its jobs under its
      own id, keeps every job already there, and adds nothing else. */
  lemma {:induction false} EnqueueAllFresh(jobs: Jobs, es: seq<Enqueue>)
    requires forall i :: 0 <= i < |es| ==> es[i].id !in jobs
    requires forall i, j :: 0 <= i < j < |es| ==> es[i].id != es[j].id
    ensures forall i :: 0 <= i < |es| ==> es[i].id in EnqueueAll(jobs, es) && EnqueueAll(jobs, es)[es[i].id] == es[i].job
    ensures forall k :: k in jobs ==> k in EnqueueAll(jobs, es) && EnqueueAll(jobs, es)[k] == jobs[k]
    ensures EnqueueAll(jobs, es).Keys == jobs.Keys + EnqueuedIds(es)
  {
    EnqueueAllHolds(jobs, es);
  }

  /** The ids of a batch are new to `jobs` and distinct. */
  predicate FreshBatch(jobs: Jobs, es: seq<Enqueue>) {
    && (forall i :: 0 <= i < |es| ==> es[i].id !in jobs)
    && (forall i, j :: 0 <= i < j < |es| ==> es[i].id != es[j].id)
  }

  /** `after` holds every job of the batch under its id and every job of
      `jobs`, and nothing else. */
  predicate HoldsBatch(jobs: Jobs, es: seq<Enqueue>, after: Jobs) {
    && (forall i :: 0 <= i < |es| ==> es[i].id in after && after[es[i].id] == es[i].job)
    && (forall k :: k in jobs ==> k in after && after[k] == jobs[k])
    && after.Keys == jobs.Keys + EnqueuedIds(es)
  }

  lemma {:induction false} EnqueueAllHolds(jobs: Jobs, es: seq<Enqueue>)
    requires FreshBatch(jobs, es)
    ensures HoldsBatch(jobs, es, EnqueueAll(jobs, es))
    decreases |es|
  {
    if |es| > 0 {
      var p, e := es[..|es| - 1], es[|es| - 1];
      FreshPrefix(jobs, es);
      EnqueueAllHolds(jobs, p);
      FreshStep(jobs, EnqueueAll(jobs, p), es);
      assert EnqueueAll(jobs, es) == EnqueueAll(jobs, p)[e.id := e.job];
    }
  }

  lemma FreshPrefix(jobs: Jobs, es: seq<Enqueue>)
    requires |es| > 0 && FreshBatch(jobs, es)
    ensures FreshBatch(jobs, es[..|es| - 1])
  {
    var p := es[..|es| - 1];
    assert forall i :: 0 <= i < |p| ==> p[i] == es[i];
  }

  /** One step of EnqueueAllHolds: the last entry of a fresh batch is added
      to what the entries before it produced. */
  lemma FreshStep(jobs: Jobs, before: Jobs, es: seq<Enqueue>)
    requires |es| > 0 && FreshBatch(jobs, es) && HoldsBatch(jobs, es[..|es| - 1], before)
    ensures es[|es| - 1].id !in before
    ensures HoldsBatch(jobs, es, before[es[|es| - 1].id := es[|es| - 1].job])
  {
    var p, e := es[..|es| - 1], es[|es| - 1];
    assert forall i :: 0 <= i < |p| ==> p[i] == es[i];
    assert forall i :: 0 <= i < |p| ==> p[i].id != e.id;
    EnqueuedIdsSnoc(es);
  }

  lemma EnqueuedIdsSnoc(es: seq<Enqueue>)
    requires |es| > 0
    ensures EnqueuedIds(es) == EnqueuedIds(es[..|es| - 1]) + {es[|es| - 1].id}
  {
    var p := es[..|es| - 1];
    forall x | x in EnqueuedIds(es) ensures x in EnqueuedIds(p) + {es[|es| - 1].id} {
      var i :| 0 <= i < |es| && es[i].id == x;
      if i < |p| {
        assert p[i].id == x;
      }
    }
    forall x | x in EnqueuedIds(p) ensures x in EnqueuedIds(es) {
      var i :| 0 <= i < |p| && p[i].id == x;
      assert es[i].id == x;
    }
  }

  /** The queue grows by exactly the size of a fresh batch. */
  lemma EnqueueAllSize(jobs: Jobs, es: seq<Enqueue>)
    requires forall i :: 0 <= i < |es| ==> es[i].id !in jobs
    requires forall i, j :: 0 <= i < j < |es| ==> es[i].id != es[j].id
    ensures |EnqueueAll(jobs, es)| == |jobs| + |es|
  {
    EnqueueAllFresh(jobs, es);
    EnqueuedIdsCount(es);
    assert jobs.Keys !! EnqueuedIds(es);
    assert |EnqueueAll(jobs, es).Keys| == |jobs.Keys| + |EnqueuedIds(es)|;
  }
}
