/** The relational store the scheduler and the worker share: the
    `EmailCampaign`, `CampaignRecipient` and `SentEmail` tables, the Prisma
    calls made on them, and the invariant that ties the counters of a
    campaign to its recipient rows. */
module Records {
  import opened Wrappers
  import opened Text
  import opened Lists

  datatype CampaignStatus = Scheduled | InProgress | Completed | CampaignFailed

  /** Status of a recipient row; a sent-email record uses `Sent` or `Failed`. */
  datatype RecipientStatus = Pending | Sent | Failed

  datatype Campaign = Campaign(
    id: string,
    userId: string,
    subject: string,
    body: string,
    fromEmail: string,
    startTime: int,
    delayBetweenMs: int,
    hourlyLimit: int,
    status: CampaignStatus,
    totalRecipients: nat,
    processedCount: nat)

  datatype Recipient = Recipient(
    id: string,
    campaignId: string,
    email: string,
    orderIndex: int,
    status: RecipientStatus,
    sentAt: Option<int>)

  datatype SentEmail = SentEmail(
    campaignId: string,
    userId: string,
    toEmail: string,
    subject: string,
    body: string,
    fromEmail: string,
    status: RecipientStatus,
    sentAt: int,
    errorMessage: Option<string>)

  datatype Tables = Tables(campaigns: seq<Campaign>, recipients: seq<Recipient>, sentEmails: seq<SentEmail>)

  // ---------------------------------------------------------------- generated ids

  /** The store generates the id of a new row; the model derives it from
      the row's position, so ids are distinct and contain no dash. */
  function CampaignId(k: nat): string {
    "c" + NatToString(k)
  }

  function RecipientId(k: nat): string {
    "r" + NatToString(k)
  }

  lemma CampaignIdInjective(j: nat, k: nat)
    ensures CampaignId(j) == CampaignId(k) <==> j == k
  {
    if CampaignId(j) == CampaignId(k) {
      assert NatToString(j) == CampaignId(j)[1..];
      NatToStringInjective(j, k);
    }
  }

  lemma RecipientIdInjective(j: nat, k: nat)
    ensures RecipientId(j) == RecipientId(k) <==> j == k
  {
    if RecipientId(j) == RecipientId(k) {
      assert NatToString(j) == RecipientId(j)[1..];
      NatToStringInjective(j, k);
    }
  }

  lemma CampaignIdDashFree(k: nat)
    ensures '-' !in CampaignId(k)
  {
    var s := CampaignId(k);
    forall i | 0 <= i < |s| ensures s[i] != '-' {
      if i > 0 {
        assert s[i] == NatToString(k)[i - 1];
      }
    }
  }

  lemma RecipientIdDashFree(k: nat)
    ensures '-' !in RecipientId(k)
  {
    var s := RecipientId(k);
    forall i | 0 <= i < |s| ensures s[i] != '-' {
      if i > 0 {
        assert s[i] == NatToString(k)[i - 1];
      }
    }
  }

  // ---------------------------------------------------------------- lookups

  function FindCampaign(t: Tables, id: string): (r: Option<nat>)
    ensures r.Some? ==> r.value < |t.campaigns| && t.campaigns[r.value].id == id
    ensures r.None? ==> forall k :: 0 <= k < |t.campaigns| ==> t.campaigns[k].id != id
  {
    FindFirst(t.campaigns, (c: Campaign) => c.id == id)
  }

  function FindRecipient(t: Tables, id: string): (r: Option<nat>)
    ensures r.Some? ==> r.value < |t.recipients| && t.recipients[r.value].id == id
    ensures r.None? ==> forall j :: 0 <= j < |t.recipients| ==> t.recipients[j].id != id
  {
    FindFirst(t.recipients, (r: Recipient) => r.id == id)
  }

  // ---------------------------------------------------------------- selections of recipient rows

  datatype RecipientQuery =
    | OfCampaign(campaignId: string)
    | SentOf(campaignId: string)
    | PendingOf(campaignId: string)
    | Settled

  predicate Selects(q: RecipientQuery, r: Recipient) {
    match q
    case OfCampaign(c) => r.campaignId == c
    case SentOf(c) => r.campaignId == c && r.status == Sent
    case PendingOf(c) => r.campaignId == c && r.status == Pending
    case Settled => r.status != Pending
  }

  /** The rows `q` selects, in table order (a `where` clause). */
  function RowsOf(rs: seq<Recipient>, q: RecipientQuery): (r: seq<Recipient>)
    ensures |r| <= |rs|
    decreases |rs|
  {
    if |rs| == 0 then []
    else RowsOf(rs[..|rs| - 1], q) + (if Selects(q, rs[|rs| - 1]) then [rs[|rs| - 1]] else [])
  }

  lemma {:induction false} RowsOfMembers(rs: seq<Recipient>, q: RecipientQuery)
    ensures forall x :: x in RowsOf(rs, q) <==> x in rs && Selects(q, x)
    decreases |rs|
  {
    if |rs| > 0 {
      var p := rs[..|rs| - 1];
      RowsOfMembers(p, q);
      assert rs == p + [rs[|rs| - 1]];
    }
  }

  /** Number of rows `q` selects (a `count` query). */
  function Tally(rs: seq<Recipient>, q: RecipientQuery): nat {
    |RowsOf(rs, q)|
  }

  lemma {:induction false} RowsOfAppend(a: seq<Recipient>, b: seq<Recipient>, q: RecipientQuery)
    ensures RowsOf(a + b, q) == RowsOf(a, q) + RowsOf(b, q)
    decreases |b|
  {
    if |b| == 0 {
      assert a + b == a;
    } else {
      var p, x := b[..|b| - 1], b[|b| - 1];
      var last := if Selects(q, x) then [x] else [];
      RowsOfAppend(a, p, q);
      assert (a + b)[..|a + b| - 1] == a + p;
      assert (a + b)[|a + b| - 1] == x;
      calc {
        RowsOf(a + b, q);
        RowsOf(a + p, q) + last;
        (RowsOf(a, q) + RowsOf(p, q)) + last;
        RowsOf(a, q) + (RowsOf(p, q) + last);
        RowsOf(a, q) + RowsOf(b, q);
      }
    }
  }

  lemma {:induction false} RowsOfAllSelected(rs: seq<Recipient>, q: RecipientQuery)
    requires forall i :: 0 <= i < |rs| ==> Selects(q, rs[i])
    ensures RowsOf(rs, q) == rs
    decreases |rs|
  {
    if |rs| > 0 {
      RowsOfAllSelected(rs[..|rs| - 1], q);
    }
  }

  lemma {:induction false} RowsOfNoneSelected(rs: seq<Recipient>, q: RecipientQuery)
    requires forall i :: 0 <= i < |rs| ==> !Selects(q, rs[i])
    ensures RowsOf(rs, q) == []
    decreases |rs|
  {
    if |rs| > 0 {
      RowsOfNoneSelected(rs[..|rs| - 1], q);
    }
  }

  /** Replacing one row changes a count by that row's old and new
      contributions only. */
  lemma TallyUpdate(rs: seq<Recipient>, k: nat, x: Recipient, q: RecipientQuery)
    requires k < |rs|
    ensures Tally(rs[k := x], q) + (if Selects(q, rs[k]) then 1 else 0)
         == Tally(rs, q) + (if Selects(q, x) then 1 else 0)
  {
    var a, b := rs[..k], rs[k + 1..];
    assert rs == a + [rs[k]] + b;
    assert rs[k := x] == a + [x] + b;
    RowsOfAppend(a + [rs[k]], b, q);
    RowsOfAppend(a + [x], b, q);
    RowsOfAppend(a, [rs[k]], q);
    RowsOfAppend(a, [x], q);
    assert RowsOf([rs[k]], q) == RowsOf([], q) + (if Selects(q, rs[k]) then [rs[k]] else []);
    assert RowsOf([x], q) == RowsOf([], q) + (if Selects(q, x) then [x] else []);
  }

  // ---------------------------------------------------------------- the invariant

  predicate IdsByPosition(t: Tables) {
    && (forall k :: 0 <= k < |t.campaigns| ==> t.campaigns[k].id == CampaignId(k))
    && (forall j :: 0 <= j < |t.recipients| ==> t.recipients[j].id == RecipientId(j))
  }

  predicate IsCampaignId(t: Tables, id: string) {
    exists k :: 0 <= k < |t.campaigns| && id == CampaignId(k)
  }

  predicate ReferencesCampaigns(t: Tables) {
    forall j :: 0 <= j < |t.recipients| ==> IsCampaignId(t, t.recipients[j].campaignId)
  }

  predicate CountersAgree(cs: seq<Campaign>, rs: seq<Recipient>) {
    forall k :: 0 <= k < |cs| ==>
      && cs[k].totalRecipients == Tally(rs, OfCampaign(cs[k].id))
      && cs[k].processedCount == Tally(rs, SentOf(cs[k].id))
  }

  /** What the writes of the scheduler and the worker keep true:
      every recipient belongs to a stored campaign, a campaign's
      `totalRecipients` counts its recipient rows and its `processedCount`
      counts its SENT rows, and there are as many sent-email records as
      settled recipients. */
  predicate Valid(t: Tables) {
    && IdsByPosition(t)
    && ReferencesCampaigns(t)
    && CountersAgree(t.campaigns, t.recipients)
    && |t.sentEmails| == Tally(t.recipients, Settled)
  }

  lemma EmptyValid()
    ensures Valid(Tables([], [], []))
  {
  }

  /** Rewriting recipient rows without moving them between campaigns keeps
      every reference. */
  lemma SameCampaignsReferences(t: Tables, t2: Tables)
    requires ReferencesCampaigns(t)
    requires |t2.campaigns| == |t.campaigns| && |t2.recipients| == |t.recipients|
    requires forall j :: 0 <= j < |t.recipients| ==> t2.recipients[j].campaignId == t.recipients[j].campaignId
    ensures ReferencesCampaigns(t2)
  {
    forall j | 0 <= j < |t2.recipients| ensures IsCampaignId(t2, t2.recipients[j].campaignId) {
      var k :| 0 <= k < |t.campaigns| && t.recipients[j].campaignId == CampaignId(k);
      assert 0 <= k < |t2.campaigns| && t2.recipients[j].campaignId == CampaignId(k);
    }
  }

  /** Settling PENDING row `j` as `x` (same campaign) leaves every
      campaign's row count alone, adds one settled row, and adds one SENT row
      to the campaign of `j` exactly when `x` is SENT. */
  lemma SettleTallies(rs: seq<Recipient>, j: nat, x: Recipient, c: string)
    requires j < |rs| && rs[j].status == Pending
    requires x.campaignId == rs[j].campaignId && x.status != Pending
    ensures Tally(rs[j := x], OfCampaign(c)) == Tally(rs, OfCampaign(c))
    ensures Tally(rs[j := x], SentOf(c)) == Tally(rs, SentOf(c)) + (if c == x.campaignId && x.status == Sent then 1 else 0)
    ensures Tally(rs[j := x], Settled) == Tally(rs, Settled) + 1
  {
    TallyUpdate(rs, j, x, OfCampaign(c));
    TallyUpdate(rs, j, x, SentOf(c));
    TallyUpdate(rs, j, x, Settled);
  }

  lemma {:induction false} SentWithinCampaign(rs: seq<Recipient>, c: string)
    ensures Tally(rs, SentOf(c)) <= Tally(rs, OfCampaign(c))
    decreases |rs|
  {
    if |rs| > 0 {
      SentWithinCampaign(rs[..|rs| - 1], c);
    }
  }

  /** In a valid store no campaign has processed more recipients than it has. */
  lemma ProcessedWithinTotal(t: Tables, k: nat)
    requires Valid(t) && k < |t.campaigns|
    ensures t.campaigns[k].processedCount <= t.campaigns[k].totalRecipients
  {
    SentWithinCampaign(t.recipients, t.campaigns[k].id);
  }

  lemma FindCampaignAt(t: Tables, k: nat)
    requires IdsByPosition(t) && k < |t.campaigns|
    ensures FindCampaign(t, CampaignId(k)) == Some(k)
  {
    var r := FindCampaign(t, CampaignId(k));
    if r.Some? {
      CampaignIdInjective(r.value, k);
    }
  }

  lemma FindRecipientAt(t: Tables, j: nat)
    requires IdsByPosition(t) && j < |t.recipients|
    ensures FindRecipient(t, RecipientId(j)) == Some(j)
  {
    var r := FindRecipient(t, RecipientId(j));
    if r.Some? {
      RecipientIdInjective(r.value, j);
    }
  }

  /** Growing or rewriting tables whose rows keep their ids keeps every
      lookup that succeeded. */
  lemma FindCampaignKept(t: Tables, t2: Tables, id: string)
    requires IdsByPosition(t) && IdsByPosition(t2) && |t.campaigns| <= |t2.campaigns|
    requires FindCampaign(t, id).Some?
    ensures FindCampaign(t2, id) == FindCampaign(t, id)
  {
    FindCampaignAt(t2, FindCampaign(t, id).value);
  }

  lemma FindRecipientKept(t: Tables, t2: Tables, id: string)
    requires IdsByPosition(t) && IdsByPosition(t2) && |t.recipients| <= |t2.recipients|
    requires FindRecipient(t, id).Some?
    ensures FindRecipient(t2, id) == FindRecipient(t, id)
  {
    FindRecipientAt(t2, FindRecipient(t, id).value);
  }

  // ---------------------------------------------------------------- writes, as functions of the tables

  /** The `data` of `emailCampaign.create`; `processedCount` takes its
      default 0. */
  datatype CampaignData = CampaignData(
    userId: string,
    subject: string,
    body: string,
    fromEmail: string,
    startTime: int,
    delayBetweenMs: int,
    hourlyLimit: int,
    status: CampaignStatus,
    totalRecipients: nat)

  function NewCampaignRow(id: string, d: CampaignData): Campaign {
    Campaign(id, d.userId, d.subject, d.body, d.fromEmail, d.startTime, d.delayBetweenMs,
             d.hourlyLimit, d.status, d.totalRecipients, 0)
  }

  function WithCampaign(t: Tables, d: CampaignData): Tables {
    t.(campaigns := t.campaigns + [NewCampaignRow(CampaignId(|t.campaigns|), d)])
  }

  /** One element of the `data` of `campaignRecipient.createMany`; new rows
      are PENDING with no `sentAt`. */
  datatype RecipientData = RecipientData(campaignId: string, email: string, orderIndex: int)

  function NewRecipientRows(first: nat, ds: seq<RecipientData>): (rows: seq<Recipient>)
    ensures |rows| == |ds|
  {
    seq(|ds|, i requires 0 <= i < |ds| =>
      Recipient(RecipientId(first + i), ds[i].campaignId, ds[i].email, ds[i].orderIndex, Pending, None))
  }

  lemma NewRowsPending(first: nat, ds: seq<RecipientData>, campaignId: string)
    requires forall i :: 0 <= i < |ds| ==> ds[i].campaignId == campaignId
    ensures var rows := NewRecipientRows(first, ds);
      forall i :: 0 <= i < |rows| ==>
        && rows[i].id == RecipientId(first + i)
        && rows[i].campaignId == campaignId
        && rows[i].status == Pending
  {
  }

  function WithRecipients(t: Tables, ds: seq<RecipientData>): Tables {
    t.(recipients := t.recipients + NewRecipientRows(|t.recipients|, ds))
  }

  /** `emailCampaign.update({ where: { id }, data: { status } })`; the update
      fails when no campaign has that id. */
  function WithCampaignStatus(t: Tables, id: string, status: CampaignStatus): Option<Tables> {
    match FindCampaign(t, id)
    case None => None
    case Some(k) => Some(t.(campaigns := t.campaigns[k := t.campaigns[k].(status := status)]))
  }

  /** Setting the status of a campaign just created with its recipients
      finds it and changes nothing else. */
  lemma NewCampaignMarked(t: Tables, d: CampaignData, ds: seq<RecipientData>, status: CampaignStatus)
    requires IdsByPosition(t)
    ensures var n, created := |t.campaigns|, WithRecipients(WithCampaign(t, d), ds);
      && WithCampaignStatus(created, CampaignId(n), status).Some?
      && var t2 := WithCampaignStatus(created, CampaignId(n), status).value;
      && |t2.campaigns| == n + 1 && t2.campaigns[..n] == t.campaigns
      && t2.campaigns[n] == NewCampaignRow(CampaignId(n), d).(status := status)
      && t2.recipients == t.recipients + NewRecipientRows(|t.recipients|, ds)
      && t2.sentEmails == t.sentEmails
  {
    var n, created := |t.campaigns|, WithRecipients(WithCampaign(t, d), ds);
    assert created.campaigns[n].id == CampaignId(n);
    var found := FindCampaign(created, CampaignId(n));
    if found.value < n {
      assert created.campaigns[found.value] == t.campaigns[found.value];
      CampaignIdInjective(found.value, n);
      assert false;
    }
  }

  /** The success transaction of the worker: the recipient becomes SENT at
      `at`, the record is appended, and the campaign's `processedCount` goes
      up by one; if the recipient or the campaign is missing the whole
      transaction fails and nothing changes. */
  function SentCommitted(t: Tables, recipientId: string, campaignId: string, at: int, record: SentEmail): Option<Tables> {
    match (FindRecipient(t, recipientId), FindCampaign(t, campaignId))
    case (Some(j), Some(k)) =>
      Some(Tables(
        t.campaigns[k := t.campaigns[k].(processedCount := t.campaigns[k].processedCount + 1)],
        t.recipients[j := t.recipients[j].(status := Sent, sentAt := Some(at))],
        t.sentEmails + [record]))
    case _ => None
  }

  /** The failure transaction: the recipient becomes FAILED and the record is
      appended; the campaign is not touched. */
  function FailureCommitted(t: Tables, recipientId: string, record: SentEmail): Option<Tables> {
    match FindRecipient(t, recipientId)
    case None => None
    case Some(j) =>
      Some(t.(recipients := t.recipients[j := t.recipients[j].(status := Failed)],
              sentEmails := t.sentEmails + [record]))
  }

  function OrderIndexOf(r: Recipient): int {
    r.orderIndex
  }

  /** `campaignRecipient.findMany({ where: { campaignId }, orderBy: { orderIndex: 'asc' } })`. */
  function RecipientsOf(t: Tables, campaignId: string): seq<Recipient> {
    SortBy(RowsOf(t.recipients, OfCampaign(campaignId)), OrderIndexOf)
  }

  // ---------------------------------------------------------------- the writes keep the invariant

  /** Creating a campaign together with all of its recipient rows keeps the
      store valid, when `totalRecipients` is the number of rows. */
  lemma CampaignWithRecipientsValid(t: Tables, d: CampaignData, ds: seq<RecipientData>)
    requires Valid(t)
    requires d.totalRecipients == |ds|
    requires forall i :: 0 <= i < |ds| ==> ds[i].campaignId == CampaignId(|t.campaigns|)
    ensures Valid(WithRecipients(WithCampaign(t, d), ds))
  {
    var n, m := |t.campaigns|, |t.recipients|;
    var added := NewRecipientRows(m, ds);
    var t2 := Tables(t.campaigns + [NewCampaignRow(CampaignId(n), d)], t.recipients + added, t.sentEmails);
    assert WithRecipients(WithCampaign(t, d), ds) == t2;
    assert t2.campaigns[..n] == t.campaigns;
    NewRowsPending(m, ds, CampaignId(n));
    NewCampaignValid(t, t2, added);
  }

  lemma NewCampaignValid(t: Tables, t2: Tables, added: seq<Recipient>)
    requires Valid(t)
    requires |t2.campaigns| == |t.campaigns| + 1 && t2.campaigns[..|t.campaigns|] == t.campaigns
    requires t2.recipients == t.recipients + added && t2.sentEmails == t.sentEmails
    requires t2.campaigns[|t.campaigns|].id == CampaignId(|t.campaigns|)
    requires t2.campaigns[|t.campaigns|].totalRecipients == |added|
    requires t2.campaigns[|t.campaigns|].processedCount == 0
    requires forall i :: 0 <= i < |added| ==>
      && added[i].id == RecipientId(|t.recipients| + i)
      && added[i].campaignId == CampaignId(|t.campaigns|)
      && added[i].status == Pending
    ensures Valid(t2)
  {
    NewCampaignCountersAgree(t, t2, added);
    assert |t2.sentEmails| == Tally(t2.recipients, Settled) by {
      RowsOfAppend(t.recipients, added, Settled);
      RowsOfNoneSelected(added, Settled);
    }
    NewCampaignIds(t, t2, added);
    NewCampaignReferences(t, t2, added);
    ValidOfParts(t2);
  }

  lemma NewCampaignIds(t: Tables, t2: Tables, added: seq<Recipient>)
    requires IdsByPosition(t)
    requires |t2.campaigns| == |t.campaigns| + 1 && t2.campaigns[..|t.campaigns|] == t.campaigns
    requires t2.recipients == t.recipients + added
    requires t2.campaigns[|t.campaigns|].id == CampaignId(|t.campaigns|)
    requires forall i :: 0 <= i < |added| ==> added[i].id == RecipientId(|t.recipients| + i)
    ensures IdsByPosition(t2)
  {
    var m := |t.recipients|;
    forall i | 0 <= i < |t2.campaigns| ensures t2.campaigns[i].id == CampaignId(i) {
      if i < |t.campaigns| {
        assert t2.campaigns[i] == t.campaigns[i];
      }
    }
    forall i | 0 <= i < |t2.recipients| ensures t2.recipients[i].id == RecipientId(i) {
      if i >= m {
        assert t2.recipients[i] == added[i - m];
      }
    }
  }

  lemma NewCampaignCountersAgree(t: Tables, t2: Tables, added: seq<Recipient>)
    requires IdsByPosition(t) && ReferencesCampaigns(t) && CountersAgree(t.campaigns, t.recipients)
    requires |t2.campaigns| == |t.campaigns| + 1 && t2.campaigns[..|t.campaigns|] == t.campaigns
    requires t2.recipients == t.recipients + added
    requires t2.campaigns[|t.campaigns|].id == CampaignId(|t.campaigns|)
    requires t2.campaigns[|t.campaigns|].totalRecipients == |added|
    requires t2.campaigns[|t.campaigns|].processedCount == 0
    requires forall i :: 0 <= i < |added| ==> added[i].campaignId == CampaignId(|t.campaigns|) && added[i].status == Pending
    ensures CountersAgree(t2.campaigns, t2.recipients)
  {
    forall k | 0 <= k < |t2.campaigns|
      ensures t2.campaigns[k].totalRecipients == Tally(t2.recipients, OfCampaign(t2.campaigns[k].id))
      ensures t2.campaigns[k].processedCount == Tally(t2.recipients, SentOf(t2.campaigns[k].id))
    {
      NewCampaignCounters(t, t2, added, k);
    }
  }

  lemma NewCampaignReferences(t: Tables, t2: Tables, added: seq<Recipient>)
    requires ReferencesCampaigns(t)
    requires |t2.campaigns| == |t.campaigns| + 1 && t2.recipients == t.recipients + added
    requires forall i :: 0 <= i < |added| ==> added[i].campaignId == CampaignId(|t.campaigns|)
    ensures ReferencesCampaigns(t2)
  {
    var n, m := |t.campaigns|, |t.recipients|;
    forall j | 0 <= j < |t2.recipients| ensures IsCampaignId(t2, t2.recipients[j].campaignId) {
      if j < m {
        var k :| 0 <= k < n && t.recipients[j].campaignId == CampaignId(k);
        assert t2.recipients[j] == t.recipients[j];
        assert 0 <= k < |t2.campaigns| && t2.recipients[j].campaignId == CampaignId(k);
      } else {
        assert t2.recipients[j] == added[j - m];
        assert 0 <= n < |t2.campaigns| && t2.recipients[j].campaignId == CampaignId(n);
      }
    }
  }

  lemma NewCampaignCounters(t: Tables, t2: Tables, added: seq<Recipient>, k: nat)
    requires IdsByPosition(t) && ReferencesCampaigns(t) && CountersAgree(t.campaigns, t.recipients)
    requires |t2.campaigns| == |t.campaigns| + 1 && t2.campaigns[..|t.campaigns|] == t.campaigns
    requires t2.recipients == t.recipients + added
    requires t2.campaigns[|t.campaigns|].id == CampaignId(|t.campaigns|)
    requires t2.campaigns[|t.campaigns|].totalRecipients == |added|
    requires t2.campaigns[|t.campaigns|].processedCount == 0
    requires forall i :: 0 <= i < |added| ==> added[i].campaignId == CampaignId(|t.campaigns|) && added[i].status == Pending
    requires k < |t2.campaigns|
    ensures t2.campaigns[k].totalRecipients == Tally(t2.recipients, OfCampaign(t2.campaigns[k].id))
    ensures t2.campaigns[k].processedCount == Tally(t2.recipients, SentOf(t2.campaigns[k].id))
  {
    var n := |t.campaigns|;
    if k < n {
      assert t2.campaigns[k] == t.campaigns[k];
      OldCampaignCounts(t.campaigns, t.recipients, added, k);
    } else {
      NewCampaignCounts(t, added);
    }
  }

  /** Rows of the new campaign do not count towards an older campaign. */
  lemma OldCampaignCounts(cs: seq<Campaign>, rs: seq<Recipient>, added: seq<Recipient>, k: nat)
    requires CountersAgree(cs, rs) && k < |cs| && cs[k].id == CampaignId(k)
    requires forall i :: 0 <= i < |added| ==> added[i].campaignId == CampaignId(|cs|)
    ensures cs[k].totalRecipients == Tally(rs + added, OfCampaign(cs[k].id))
    ensures cs[k].processedCount == Tally(rs + added, SentOf(cs[k].id))
  {
    var c := cs[k].id;
    CampaignIdInjective(k, |cs|);
    RowsOfAppend(rs, added, OfCampaign(c));
    RowsOfAppend(rs, added, SentOf(c));
    RowsOfNoneSelected(added, OfCampaign(c));
    RowsOfNoneSelected(added, SentOf(c));
  }

  /** The new campaign counts exactly its added rows, none of them SENT. */
  lemma NewCampaignCounts(t: Tables, added: seq<Recipient>)
    requires ReferencesCampaigns(t)
    requires forall i :: 0 <= i < |added| ==> added[i].campaignId == CampaignId(|t.campaigns|) && added[i].status == Pending
    ensures Tally(t.recipients + added, OfCampaign(CampaignId(|t.campaigns|))) == |added|
    ensures Tally(t.recipients + added, SentOf(CampaignId(|t.campaigns|))) == 0
  {
    var n := |t.campaigns|;
    var c := CampaignId(n);
    RowsOfAppend(t.recipients, added, OfCampaign(c));
    RowsOfAppend(t.recipients, added, SentOf(c));
    RowsOfNoneSelected(added, SentOf(c));
    RowsOfAllSelected(added, OfCampaign(c));
    forall j | 0 <= j < |t.recipients|
      ensures !Selects(OfCampaign(c), t.recipients[j]) && !Selects(SentOf(c), t.recipients[j])
    {
      var i :| 0 <= i < n && t.recipients[j].campaignId == CampaignId(i);
      CampaignIdInjective(i, n);
    }
    RowsOfNoneSelected(t.recipients, OfCampaign(c));
    RowsOfNoneSelected(t.recipients, SentOf(c));
  }

  /** A status update changes no counter and keeps the store valid. */
  lemma StatusUpdateValid(t: Tables, id: string, status: CampaignStatus)
    requires Valid(t)
    ensures WithCampaignStatus(t, id, status).Some? <==> IsCampaignId(t, id)
    ensures WithCampaignStatus(t, id, status).Some? ==> Valid(WithCampaignStatus(t, id, status).value)
  {
    if IsCampaignId(t, id) {
      var k :| 0 <= k < |t.campaigns| && id == CampaignId(k);
      FindCampaignAt(t, k);
      StatusTablesValid(t, k, status);
    }
  }

  lemma StatusTablesValid(t: Tables, k: nat, status: CampaignStatus)
    requires Valid(t) && k < |t.campaigns|
    ensures Valid(t.(campaigns := t.campaigns[k := t.campaigns[k].(status := status)]))
  {
    var cs2 := t.campaigns[k := t.campaigns[k].(status := status)];
    var t2 := Tables(cs2, t.recipients, t.sentEmails);
    StatusKeepsCounters(t.campaigns, t.recipients, k, status);
    StatusKeepsIds(t, k, status);
    SameCampaignsReferences(t, t2);
    ValidOfParts(t2);
  }

  lemma StatusKeepsIds(t: Tables, k: nat, status: CampaignStatus)
    requires IdsByPosition(t) && k < |t.campaigns|
    ensures IdsByPosition(Tables(t.campaigns[k := t.campaigns[k].(status := status)], t.recipients, t.sentEmails))
  {
  }

  lemma StatusKeepsCounters(cs: seq<Campaign>, rs: seq<Recipient>, k: nat, status: CampaignStatus)
    requires CountersAgree(cs, rs) && k < |cs|
    ensures CountersAgree(cs[k := cs[k].(status := status)], rs)
  {
    var cs2 := cs[k := cs[k].(status := status)];
    assert forall i :: 0 <= i < |cs| ==>
      && cs2[i].id == cs[i].id
      && cs2[i].totalRecipients == cs[i].totalRecipients
      && cs2[i].processedCount == cs[i].processedCount;
  }

  /** The success transaction of a PENDING recipient, charged to the
      recipient's own campaign, succeeds and keeps the store valid. */
  lemma SentCommittedValid(t: Tables, j: nat, at: int, record: SentEmail)
    requires Valid(t) && j < |t.recipients| && t.recipients[j].status == Pending
    ensures SentCommitted(t, t.recipients[j].id, t.recipients[j].campaignId, at, record).Some?
    ensures Valid(SentCommitted(t, t.recipients[j].id, t.recipients[j].campaignId, at, record).value)
  {
    var r := t.recipients[j];
    var c :| 0 <= c < |t.campaigns| && r.campaignId == CampaignId(c);
    SentCommittedShape(t, j, c, at, record);
    SentTablesValid(t, j, c, at, record);
  }

  lemma SentTablesValid(t: Tables, j: nat, c: nat, at: int, record: SentEmail)
    requires Valid(t) && j < |t.recipients| && t.recipients[j].status == Pending
    requires c < |t.campaigns| && t.recipients[j].campaignId == CampaignId(c)
    ensures Valid(SentTables(t, j, c, at, record))
  {
    var r := t.recipients[j];
    var x := r.(status := Sent, sentAt := Some(at));
    var cs2 := t.campaigns[c := t.campaigns[c].(processedCount := t.campaigns[c].processedCount + 1)];
    var t2 := Tables(cs2, t.recipients[j := x], t.sentEmails + [record]);
    SentCountersAgree(t.campaigns, t.recipients, j, x, c);
    SettledCount(t, j, x, record);
    SentIds(t, j, c, x, t.sentEmails + [record]);
    SettleReferences(t, j, x, cs2, t.sentEmails + [record]);
    ValidOfParts(t2);
  }

  lemma SettledCount(t: Tables, j: nat, x: Recipient, record: SentEmail)
    requires |t.sentEmails| == Tally(t.recipients, Settled)
    requires j < |t.recipients| && t.recipients[j].status == Pending
    requires x.campaignId == t.recipients[j].campaignId && x.status != Pending
    ensures |t.sentEmails + [record]| == Tally(t.recipients[j := x], Settled)
  {
    SettleTallies(t.recipients, j, x, x.campaignId);
  }

  lemma SentIds(t: Tables, j: nat, c: nat, x: Recipient, ss: seq<SentEmail>)
    requires IdsByPosition(t) && j < |t.recipients| && c < |t.campaigns| && x.id == t.recipients[j].id
    ensures IdsByPosition(Tables(t.campaigns[c := t.campaigns[c].(processedCount := t.campaigns[c].processedCount + 1)],
                                 t.recipients[j := x], ss))
  {
  }

  lemma SettleReferences(t: Tables, j: nat, x: Recipient, cs2: seq<Campaign>, ss: seq<SentEmail>)
    requires ReferencesCampaigns(t) && j < |t.recipients| && x.campaignId == t.recipients[j].campaignId
    requires |cs2| == |t.campaigns|
    ensures ReferencesCampaigns(Tables(cs2, t.recipients[j := x], ss))
  {
    SameCampaignsReferences(t, Tables(cs2, t.recipients[j := x], ss));
  }

  lemma ValidOfParts(t: Tables)
    requires IdsByPosition(t) && ReferencesCampaigns(t)
    requires CountersAgree(t.campaigns, t.recipients) && |t.sentEmails| == Tally(t.recipients, Settled)
    ensures Valid(t)
  {
  }

  lemma SettleKeepsIds(t: Tables, j: nat, x: Recipient, cs2: seq<Campaign>, ss: seq<SentEmail>)
    requires IdsByPosition(t) && j < |t.recipients| && x.id == t.recipients[j].id
    requires |cs2| == |t.campaigns| && forall k :: 0 <= k < |cs2| ==> cs2[k].id == t.campaigns[k].id
    ensures IdsByPosition(Tables(cs2, t.recipients[j := x], ss))
  {
  }

  /** The store after the success transaction for row `j` of campaign `k`. */
  function SentTables(t: Tables, j: nat, k: nat, at: int, record: SentEmail): Tables
    requires j < |t.recipients| && k < |t.campaigns|
  {
    Tables(t.campaigns[k := t.campaigns[k].(processedCount := t.campaigns[k].processedCount + 1)],
           t.recipients[j := t.recipients[j].(status := Sent, sentAt := Some(at))],
           t.sentEmails + [record])
  }

  lemma SentCommittedShape(t: Tables, j: nat, c: nat, at: int, record: SentEmail)
    requires IdsByPosition(t) && j < |t.recipients| && c < |t.campaigns|
    requires t.recipients[j].campaignId == CampaignId(c)
    ensures SentCommitted(t, t.recipients[j].id, t.recipients[j].campaignId, at, record)
         == Some(SentTables(t, j, c, at, record))
  {
    FindRecipientAt(t, j);
    FindCampaignAt(t, c);
  }

  lemma SentCountersAgree(cs: seq<Campaign>, rs: seq<Recipient>, j: nat, x: Recipient, c: nat)
    requires CountersAgree(cs, rs)
    requires forall i :: 0 <= i < |cs| ==> cs[i].id == CampaignId(i)
    requires j < |rs| && rs[j].status == Pending && c < |cs|
    requires x.campaignId == rs[j].campaignId == CampaignId(c) && x.status == Sent
    ensures CountersAgree(cs[c := cs[c].(processedCount := cs[c].processedCount + 1)], rs[j := x])
  {
    var cs2 := cs[c := cs[c].(processedCount := cs[c].processedCount + 1)];
    forall k | 0 <= k < |cs2|
      ensures cs2[k].totalRecipients == Tally(rs[j := x], OfCampaign(cs2[k].id))
      ensures cs2[k].processedCount == Tally(rs[j := x], SentOf(cs2[k].id))
    {
      SentCounterAt(cs, rs, j, x, c, k);
    }
  }

  lemma SentCounterAt(cs: seq<Campaign>, rs: seq<Recipient>, j: nat, x: Recipient, c: nat, k: nat)
    requires CountersAgree(cs, rs)
    requires forall i :: 0 <= i < |cs| ==> cs[i].id == CampaignId(i)
    requires j < |rs| && rs[j].status == Pending && c < |cs| && k < |cs|
    requires x.campaignId == rs[j].campaignId == CampaignId(c) && x.status == Sent
    ensures var cs2 := cs[c := cs[c].(processedCount := cs[c].processedCount + 1)];
      && cs2[k].totalRecipients == Tally(rs[j := x], OfCampaign(cs2[k].id))
      && cs2[k].processedCount == Tally(rs[j := x], SentOf(cs2[k].id))
  {
    SettleTallies(rs, j, x, cs[k].id);
    CampaignIdInjective(k, c);
  }

  /** The failure transaction of a PENDING recipient succeeds and keeps the
      store valid. */
  lemma FailureCommittedValid(t: Tables, j: nat, record: SentEmail)
    requires Valid(t) && j < |t.recipients| && t.recipients[j].status == Pending
    ensures FailureCommitted(t, t.recipients[j].id, record).Some?
    ensures Valid(FailureCommitted(t, t.recipients[j].id, record).value)
  {
    var r := t.recipients[j];
    FindRecipientAt(t, j);
    var x := r.(status := Failed);
    var t2 := Tables(t.campaigns, t.recipients[j := x], t.sentEmails + [record]);
    assert FailureCommitted(t, r.id, record) == Some(t2);
    FailedCountersAgree(t.campaigns, t.recipients, j, x);
    SettledCount(t, j, x, record);
    SettleKeepsIds(t, j, x, t.campaigns, t.sentEmails + [record]);
    SettleReferences(t, j, x, t.campaigns, t.sentEmails + [record]);
    ValidOfParts(t2);
  }

  lemma FailedCountersAgree(cs: seq<Campaign>, rs: seq<Recipient>, j: nat, x: Recipient)
    requires CountersAgree(cs, rs)
    requires j < |rs| && rs[j].status == Pending
    requires x.campaignId == rs[j].campaignId && x.status == Failed
    ensures CountersAgree(cs, rs[j := x])
  {
    forall k | 0 <= k < |cs|
      ensures cs[k].totalRecipients == Tally(rs[j := x], OfCampaign(cs[k].id))
      ensures cs[k].processedCount == Tally(rs[j := x], SentOf(cs[k].id))
    {
      SettleTallies(rs, j, x, cs[k].id);
    }
  }

  // ---------------------------------------------------------------- the store object

  class Database {
    var campaigns: seq<Campaign>
    var recipients: seq<Recipient>
    var sentEmails: seq<SentEmail>

    function Snapshot(): Tables
      reads this
    {
      Tables(campaigns, recipients, sentEmails)
    }

    constructor ()
      ensures Snapshot() == Tables([], [], [])
    {
      campaigns, recipients, sentEmails := [], [], [];
    }

    /** `emailCampaign.create`; returns the new campaign's id. */
    method CreateCampaign(d: CampaignData) returns (id: string)
      modifies this
      ensures id == CampaignId(|old(campaigns)|)
      ensures Snapshot() == WithCampaign(old(Snapshot()), d)
    {
      id := CampaignId(|campaigns|);
      campaigns := campaigns + [NewCampaignRow(id, d)];
    }

    /** `campaignRecipient.createMany`; returns the number of rows created. */
    method CreateManyRecipients(ds: seq<RecipientData>) returns (count: nat)
      modifies this
      ensures count == |ds|
      ensures Snapshot() == WithRecipients(old(Snapshot()), ds)
    {
      recipients := recipients + NewRecipientRows(|recipients|, ds);
      count := |ds|;
    }

    /** `campaignRecipient.findMany` by campaign, in ascending `orderIndex`. */
    method FindManyRecipients(campaignId: string) returns (rows: seq<Recipient>)
      ensures rows == RecipientsOf(Snapshot(), campaignId)
    {
      rows := SortBy(RowsOf(recipients, OfCampaign(campaignId)), OrderIndexOf);
    }

    /** `campaignRecipient.findUnique` by id. */
    method FindUniqueRecipient(id: string) returns (row: Option<Recipient>)
      ensures row.None? <==> forall j :: 0 <= j < |recipients| ==> recipients[j].id != id
      ensures row.Some? ==> row.value in recipients && row.value.id == id
      ensures row.Some? ==> row.value == recipients[FindRecipient(Snapshot(), id).value]
    {
      match FindRecipient(Snapshot(), id)
      case None => row := None;
      case Some(j) => row := Some(recipients[j]);
    }

    /** `emailCampaign.update` of the status; `ok` is false when the update
        throws because the campaign is missing, and then nothing changes. */
    method UpdateCampaignStatus(id: string, status: CampaignStatus) returns (ok: bool)
      modifies this
      ensures ok == WithCampaignStatus(old(Snapshot()), id, status).Some?
      ensures ok ==> Snapshot() == WithCampaignStatus(old(Snapshot()), id, status).value
      ensures !ok ==> Snapshot() == old(Snapshot())
    {
      var r := WithCampaignStatus(Snapshot(), id, status);
      ok := r.Some?;
      if ok {
        campaigns := r.value.campaigns;
      }
    }

    /** The `$transaction` of the success path, applied atomically. */
    method CommitSent(recipientId: string, campaignId: string, at: int, record: SentEmail) returns (ok: bool)
      modifies this
      ensures ok == SentCommitted(old(Snapshot()), recipientId, campaignId, at, record).Some?
      ensures ok ==> Snapshot() == SentCommitted(old(Snapshot()), recipientId, campaignId, at, record).value
      ensures !ok ==> Snapshot() == old(Snapshot())
    {
      var r := SentCommitted(Snapshot(), recipientId, campaignId, at, record);
      ok := r.Some?;
      if ok {
        campaigns, recipients, sentEmails := r.value.campaigns, r.value.recipients, r.value.sentEmails;
      }
    }

    /** The `$transaction` of the failure path, applied atomically. */
    method CommitFailed(recipientId: string, record: SentEmail) returns (ok: bool)
      modifies this
      ensures ok == FailureCommitted(old(Snapshot()), recipientId, record).Some?
      ensures ok ==> Snapshot() == FailureCommitted(old(Snapshot()), recipientId, record).value
      ensures !ok ==> Snapshot() == old(Snapshot())
    {
      var r := FailureCommitted(Snapshot(), recipientId, record);
      ok := r.Some?;
      if ok {
        campaigns, recipients, sentEmails := r.value.campaigns, r.value.recipients, r.value.sentEmails;
      }
    }
  }
}
