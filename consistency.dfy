/** How the queue and the store fit together: every queued job is a faithful
    snapshot of one recipient row and its campaign, and its id begins with
    the campaign id and a dash. */
module Consistency {
  import opened Wrappers
  import opened EmailQueue
  import opened Records

  /** The payload copies the recipient's address and position and the
      campaign's sender, content, owner and hourly limit. */
  predicate Snapshots(r: Recipient, c: Campaign, d: EmailJobData) {
    && r.campaignId == c.id
    && d.toEmail == r.email
    && d.orderIndex == r.orderIndex
    && d.fromEmail == c.fromEmail
    && d.subject == c.subject
    && d.body == c.body
    && d.userId == c.userId
    && d.hourlyLimit == Some(c.hourlyLimit)
  }

  predicate JobDescribes(t: Tables, d: EmailJobData) {
    match (FindRecipient(t, d.recipientId), FindCampaign(t, d.campaignId))
    case (Some(j), Some(k)) => Snapshots(t.recipients[j], t.campaigns[k], d)
    case _ => false
  }

  /** A payload that names row `j` and campaign `k` by their ids and
      snapshots them describes them. */
  lemma DescribesAt(t: Tables, j: nat, k: nat, d: EmailJobData)
    requires IdsByPosition(t) && j < |t.recipients| && k < |t.campaigns|
    requires d.recipientId == RecipientId(j) && d.campaignId == CampaignId(k)
    requires Snapshots(t.recipients[j], t.campaigns[k], d)
    ensures JobDescribes(t, d)
  {
    FindRecipientAt(t, j);
    FindCampaignAt(t, k);
  }

  predicate JobsDescribe(t: Tables, jobs: Jobs) {
    forall key :: key in jobs ==>
      && StartsWith(key, jobs[key].data.campaignId + "-")
      && JobDescribes(t, jobs[key].data)
  }

  /** The invariant of the whole system between two handler calls. */
  predicate Consistent(t: Tables, jobs: Jobs) {
    Valid(t) && JobsDescribe(t, jobs)
  }

  lemma EmptyConsistent()
    ensures Consistent(Tables([], [], []), map[])
  {
    EmptyValid();
  }

  /** A job that describes the store names a stored campaign, so its id
      prefix carries no dash. */
  lemma DescribedCampaign(t: Tables, d: EmailJobData)
    requires IdsByPosition(t) && JobDescribes(t, d)
    ensures FindCampaign(t, d.campaignId).Some? && FindRecipient(t, d.recipientId).Some?
    ensures d.campaignId == CampaignId(FindCampaign(t, d.campaignId).value)
    ensures '-' !in d.campaignId
  {
    CampaignIdDashFree(FindCampaign(t, d.campaignId).value);
  }

  /** `t2` keeps every row of `t` in place with the fields a job snapshots. */
  predicate SnapshotFieldsKept(t: Tables, t2: Tables) {
    && IdsByPosition(t2)
    && |t.campaigns| <= |t2.campaigns| && |t.recipients| <= |t2.recipients|
    && (forall k :: 0 <= k < |t.campaigns| ==>
          var c, c2 := t.campaigns[k], t2.campaigns[k];
          c2.id == c.id && c2.userId == c.userId && c2.subject == c.subject && c2.body == c.body
          && c2.fromEmail == c.fromEmail && c2.hourlyLimit == c.hourlyLimit)
    && (forall j :: 0 <= j < |t.recipients| ==>
          var r, r2 := t.recipients[j], t2.recipients[j];
          r2.id == r.id && r2.campaignId == r.campaignId && r2.email == r.email && r2.orderIndex == r.orderIndex)
  }

  /** A store that only appends rows keeps every snapshot field. */
  lemma ExtendedKeepsSnapshots(t: Tables, t2: Tables)
    requires IdsByPosition(t2)
    requires |t.campaigns| <= |t2.campaigns| && t2.campaigns[..|t.campaigns|] == t.campaigns
    requires |t.recipients| <= |t2.recipients| && t2.recipients[..|t.recipients|] == t.recipients
    ensures SnapshotFieldsKept(t, t2)
  {
    forall k | 0 <= k < |t.campaigns| ensures t2.campaigns[k] == t.campaigns[k] {
      assert t2.campaigns[k] == t2.campaigns[..|t.campaigns|][k];
    }
    forall j | 0 <= j < |t.recipients| ensures t2.recipients[j] == t.recipients[j] {
      assert t2.recipients[j] == t2.recipients[..|t.recipients|][j];
    }
  }

  lemma DescribesKept(t: Tables, t2: Tables, d: EmailJobData)
    requires IdsByPosition(t) && SnapshotFieldsKept(t, t2) && JobDescribes(t, d)
    ensures JobDescribes(t2, d)
  {
    DescribedCampaign(t, d);
    FindCampaignKept(t, t2, d.campaignId);
    FindRecipientKept(t, t2, d.recipientId);
  }

  /** Writes that keep the snapshot fields keep every job faithful. */
  lemma JobsDescribeKept(t: Tables, t2: Tables, jobs: Jobs)
    requires IdsByPosition(t) && SnapshotFieldsKept(t, t2) && JobsDescribe(t, jobs)
    ensures JobsDescribe(t2, jobs)
  {
    forall key | key in jobs ensures JobDescribes(t2, jobs[key].data) {
      DescribesKept(t, t2, jobs[key].data);
    }
  }
}
