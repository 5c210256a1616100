// What every operation of the campaign services keeps, and what follows for every run: one open running campaign per
// phone.

module CampaignInvariants {
  import opened Options
  import opened CampaignErrors
  import opened PhoneSafety
  import opened CampaignService
  import P = Preparation
  import R = RecipientStatus
  import C = CampaignStatus

  // ---------------------------------------------------------------------------------------------
  // The invariant
  // ---------------------------------------------------------------------------------------------

  predicate BeforeStart(status: C.Status) {
    status.Draft? || status.Preparing? || status.Scheduled? || status.Ready? || status.Queued?
  }

  predicate Unattempted(row: Recipient) {
    (row.status.Pending? || row.status.Skipped? || row.status.Cancelled?)
    && row.nextAttemptAt.None? && row.providerId.None?
  }

  ghost predicate Tables(db: Db) {
    && db.env.attempts > 0 && db.env.batchSize > 0 && db.env.maxBatchSize > 0
    && (forall r :: r in db.rows ==> r.campaign in db.campaigns)
    && (forall r :: r in db.rows <==> r in db.order)
    && (forall c :: c in db.campaigns ==> db.campaigns[c].phone in db.phones)
  }

  /** How a campaign's status, its start time and its rows hang together. */
  ghost predicate CampaignOk(db: Db, c: CampaignId)
    requires c in db.campaigns
  {
    var campaign := db.campaigns[c];
    && (BeforeStart(campaign.status) ==> campaign.startedAt.None?)
    && (campaign.startedAt.Some? ==> campaign.startedAt.value <= db.now)
    && (campaign.startedAt.None? ==> forall r :: r in db.rows && r.campaign == c ==> Unattempted(db.rows[r]))
    && (campaign.status.Running? && campaign.startedAt.None? ==> Quiet(db, c))
    && (campaign.status.Completed? ==> Quiet(db, c))
    && (campaign.status.Queued? || campaign.status.Preparing? ==> forall r :: r in db.rows ==> r.campaign != c)
  }

  ghost predicate CampaignsOk(db: Db) {
    forall c :: c in db.campaigns ==> CampaignOk(db, c)
  }

  /** At most one running campaign per phone still has open recipients. */
  ghost predicate OneOpenPerPhone(db: Db) {
    forall c, d :: c in db.campaigns && d in db.campaigns && c != d
                   && db.campaigns[c].status.Running? && db.campaigns[d].status.Running?
                   && db.campaigns[c].phone == db.campaigns[d].phone ==>
                     Quiet(db, c) || Quiet(db, d)
  }

  ghost predicate SendingOk(db: Db) {
    forall r :: r in db.sending ==> r in db.rows && db.rows[r].status.Processing? && db.rows[r].providerId.None?
  }

  ghost predicate MessagesOk(db: Db) {
    forall r :: r in db.rows ==>
      match db.rows[r].message
      case Some(m) => m in db.messages && db.messages[m].providerId == db.rows[r].providerId
      case None => db.rows[r].providerId.None?
  }

  ghost predicate Good(db: Db) {
    Tables(db) && CampaignsOk(db) && OneOpenPerPhone(db) && SendingOk(db) && MessagesOk(db)
  }

  // ---------------------------------------------------------------------------------------------
  // Operations that start nothing
  // ---------------------------------------------------------------------------------------------

  /** A row never opens again, and rows of campaigns that have not started can only be cancelled. */
  ghost predicate RowCalm(db: Db, db': Db, r: RowId)
    requires r in db.rows && r in db'.rows
  {
    && (R.Open(db'.rows[r].status) ==> R.Open(db.rows[r].status))
    && (|| db'.rows[r] == db.rows[r]
        || (R.Waiting(db.rows[r].status) && db'.rows[r] == db.rows[r].(status := R.Cancelled))
        || (r.campaign in db.campaigns && db.campaigns[r.campaign].startedAt.Some?))
  }

  ghost predicate CampaignCalm(db: Db, db': Db, c: CampaignId)
    requires c in db.campaigns && c in db'.campaigns
  {
    var before, after := db.campaigns[c], db'.campaigns[c];
    && after.phone == before.phone && after.startedAt == before.startedAt
    && (C.Active(after.status) || BeforeStart(after.status) ==> after.status == before.status)
    && (after.status.Completed? ==> before.status.Completed? || Quiet(db', c))
  }

  /** The operation starts no campaign and opens no row. */
  ghost predicate Calm(db: Db, db': Db) {
    && db'.env == db.env && db.now <= db'.now && db'.order == db.order
    && db'.campaigns.Keys == db.campaigns.Keys && db'.rows.Keys == db.rows.Keys && db.phones.Keys <= db'.phones.Keys
    && (forall r :: r in db.rows ==> RowCalm(db, db', r))
    && (forall c :: c in db.campaigns ==> CampaignCalm(db, db', c))
  }

  lemma CalmKeepsQuiet(db: Db, db': Db, c: CampaignId)
    requires Calm(db, db') && Quiet(db, c)
    ensures Quiet(db', c)
  {}

  lemma CalmComposes(db: Db, db1: Db, db2: Db)
    requires Calm(db, db1) && Calm(db1, db2)
    ensures Calm(db, db2)
  {}

  lemma CalmKeepsCampaign(db: Db, db': Db, c: CampaignId)
    requires Tables(db) && Calm(db, db') && c in db.campaigns && CampaignOk(db, c)
    ensures c in db'.campaigns && CampaignOk(db', c)
  {
    assert CampaignCalm(db, db', c);
    forall r | r in db'.rows && r.campaign == c && db'.campaigns[c].startedAt.None?
      ensures Unattempted(db'.rows[r])
    {
      assert RowCalm(db, db', r) && Unattempted(db.rows[r]);
    }
    if Quiet(db, c) {
      CalmKeepsQuiet(db, db', c);
    }
  }

  lemma CalmKeepsOneOpen(db: Db, db': Db)
    requires OneOpenPerPhone(db) && Calm(db, db')
    ensures OneOpenPerPhone(db')
  {
    hide Quiet, RowCalm;
    forall c, d | c in db'.campaigns && d in db'.campaigns && c != d
                  && db'.campaigns[c].status.Running? && db'.campaigns[d].status.Running?
                  && db'.campaigns[c].phone == db'.campaigns[d].phone
      ensures Quiet(db', c) || Quiet(db', d)
    {
      assert CampaignCalm(db, db', c) && CampaignCalm(db, db', d);
      if Quiet(db, c) {
        CalmKeepsQuiet(db, db', c);
      } else {
        CalmKeepsQuiet(db, db', d);
      }
    }
  }

  lemma CalmKeepsTables(db: Db, db': Db)
    requires Tables(db) && Calm(db, db')
    ensures Tables(db')
  {
    hide RowCalm, Quiet;
    forall c | c in db'.campaigns ensures db'.campaigns[c].phone in db'.phones {
      assert CampaignCalm(db, db', c);
    }
  }

  lemma CalmKeeps(db: Db, db': Db)
    requires Tables(db) && CampaignsOk(db) && OneOpenPerPhone(db) && Calm(db, db')
    ensures Tables(db') && CampaignsOk(db') && OneOpenPerPhone(db')
  {
    hide Tables, OneOpenPerPhone, CampaignOk, RowCalm, CampaignCalm;
    CalmKeepsTables(db, db');
    CalmKeepsOneOpen(db, db');
    forall c | c in db'.campaigns ensures CampaignOk(db', c) {
      CalmKeepsCampaign(db, db', c);
    }
  }

  // ---------------------------------------------------------------------------------------------
  // The calm operations
  // ---------------------------------------------------------------------------------------------

  lemma NoneCounted(db: Db, c: CampaignId, status: R.Status)
    requires CountOf(db, c, status) == 0
    ensures forall r :: r in db.rows && r.campaign == c ==> db.rows[r].status != status
  {
    forall r | r in db.rows && r.campaign == c ensures db.rows[r].status != status {
      assert r !in RowsWith(db, c, (s: R.Status) => s == status);
    }
  }

  lemma RefreshCalm(db: Db, c: CampaignId)
    ensures Calm(db, Refresh(db, c))
  {
    hide CountOf;
    if c in db.campaigns && CountOf(db, c, R.Pending) + CountOf(db, c, R.Queued) + CountOf(db, c, R.Processing) == 0 {
      NoneCounted(db, c, R.Pending);
      NoneCounted(db, c, R.Queued);
      NoneCounted(db, c, R.Processing);
      assert Quiet(Refresh(db, c), c);
    }
  }

  lemma CalmSelf(db: Db)
    ensures Calm(db, db)
  {}

  lemma PauseOneCalm(db: Db, c: CampaignId)
    ensures Calm(db, PauseOne(db, c))
  {}

  lemma AutoPauseCalm(db: Db, c: CampaignId)
    ensures Calm(db, EvaluateAutoPause(db, c))
  {
    hide PauseReasonOf, Calm, PauseOne;
    CalmSelf(db);
    PauseOneCalm(db, c);
  }

  lemma PauseOnPhoneCalm(db: Db, p: PhoneId)
    ensures Calm(db, PauseOnPhone(db, p))
  {}

  lemma PausePhoneCalm(db: Db, p: PhoneId)
    ensures Calm(db, PausePhone(db, p))
  {
    PauseOnPhoneCalm(db, p);
    PhonesAreSeparate(db, PauseOnPhone(db, p), PausePhone(db, p).phones);
  }

  // Tables that the calm relation hardly looks at.
  lemma PhonesAreSeparate(db: Db, db': Db, phones: map<PhoneId, PhoneState>)
    requires Calm(db, db') && db'.phones.Keys <= phones.Keys
    ensures Calm(db, db'.(phones := phones))
  {}

  lemma SendingIsSeparate(db: Db, db': Db, sending: map<RowId, nat>)
    requires Calm(db, db')
    ensures Calm(db, db'.(sending := sending))
  {}

  lemma UpdateRowCalm(db: Db, r: RowId, row: Recipient)
    requires r in db.rows
    requires R.Open(row.status) ==> R.Open(db.rows[r].status)
    requires (r.campaign in db.campaigns && db.campaigns[r.campaign].startedAt.Some?)
             || (R.Waiting(db.rows[r].status) && row == db.rows[r].(status := R.Cancelled))
    ensures Calm(db, UpdateRow(db, r, row))
  {}

  lemma UpdateRowsCalm(db: Db, hit: RowId -> bool, status: R.Status)
    requires forall r :: r in db.rows && hit(r) ==>
               && (R.Open(status) ==> R.Open(db.rows[r].status))
               && ((r.campaign in db.campaigns && db.campaigns[r.campaign].startedAt.Some?)
                   || (R.Waiting(db.rows[r].status) && status.Cancelled?))
    ensures Calm(db, UpdateRows(db, hit, status))
  {}

  lemma AttemptedStarted(db: Db, r: RowId)
    requires Tables(db) && CampaignsOk(db) && r in db.rows
    requires db.rows[r].status.Queued? || db.rows[r].status.Processing? || db.rows[r].providerId.Some?
    ensures db.campaigns[r.campaign].startedAt.Some?
  {}

  lemma CancelCalm(db: Db, c: CampaignId)
    ensures Calm(db, Cancel(db, c))
  {
    if CancelResponse(db, c).Done? {
      var hit := (r: RowId) => r in db.rows && r.campaign == c && R.Waiting(db.rows[r].status);
      UpdateRowsCalm(db, hit, R.Cancelled);
      var db1 := UpdateRows(db, hit, R.Cancelled);
      var db2 := SetStatus(db1, c, C.Cancelled);
      assert Calm(db1, db2);
      CalmComposes(db, db1, db2);
      RefreshCalm(db2, c);
      CalmComposes(db, db2, Refresh(db2, c));
    }
  }

  lemma OptOutCalm(db: Db, customer: CustomerId)
    ensures Calm(db, OptOut(db, customer))
  {}

  lemma WebhookCalm(db: Db, message: MessageId, status: R.Status)
    requires Good(db)
    ensures Calm(db, StatusWebhook(db, message, status))
  {
    hide Calm, EvaluateAutoPause, Refresh;
    CalmSelf(db);
    if message in db.messages && db.messages[message].providerId.Some? && R.Attempted(status) {
      var c := db.messages[message].campaign;
      var hit := (r: RowId) => r in db.rows && r.campaign == c && db.rows[r].message == Some(message);
      forall r | r in db.rows && hit(r) ensures db.campaigns[r.campaign].startedAt.Some? {
        AttemptedStarted(db, r);
      }
      UpdateRowsCalm(db, hit, status);
      var db1 := UpdateRows(db, hit, status);
      AutoPauseCalm(db1, c);
      CalmSelf(db1);
      var db2 := if status.Failed? then EvaluateAutoPause(db1, c) else db1;
      CalmComposes(db, db1, db2);
      RefreshCalm(db2, c);
      CalmComposes(db, db2, Refresh(db2, c));
    }
  }

  lemma ClaimCalm(db: Db, r: RowId)
    requires Good(db)
    ensures Calm(db, ClaimRecipient(db, r))
  {
    CalmSelf(db);
    if ClaimRecipient(db, r) != db {
      var row := ClaimWriteOf(db.rows[r], db.campaigns[r.campaign].status).value.row;
      ClaimedRow(db, r);
      UpdateRowCalm(db, r, row);
      hide Calm, UpdateRow, ClaimWriteOf;
      SendingIsSeparate(db, UpdateRow(db, r, row), ClaimRecipient(db, r).sending);
    }
  }

  // The row that a claim writes was open, and its campaign has started unless the row is cancelled.
  lemma ClaimedRow(db: Db, r: RowId)
    requires Good(db) && r in db.rows && ClaimWriteOf(db.rows[r], db.campaigns[r.campaign].status).Some?
    ensures var row := ClaimWriteOf(db.rows[r], db.campaigns[r.campaign].status).value.row;
            && (R.Open(row.status) ==> R.Open(db.rows[r].status))
            && (db.campaigns[r.campaign].startedAt.Some?
                || (R.Waiting(db.rows[r].status) && row == db.rows[r].(status := R.Cancelled)))
  {
    assert CampaignOk(db, r.campaign);
  }

  lemma AfterFailureCalm(db: Db, c: CampaignId, category: Category)
    requires c in db.campaigns
    ensures Calm(db, AfterFailure(db, c, category))
  {
    PausePhoneCalm(db, db.campaigns[c].phone);
    PauseOneCalm(db, c);
    AutoPauseCalm(db, c);
    var db1 := if category.Authentication? || category.PermanentAccount? then PausePhone(db, db.campaigns[c].phone)
               else if category.PermanentTemplate? then PauseOne(db, c)
               else EvaluateAutoPause(db, c);
    RefreshCalm(db1, c);
    CalmComposes(db, db1, Refresh(db1, c));
  }

  lemma RecordCalm(db: Db, r: RowId, answer: Option<ProviderId>, message: MessageId, sending: map<RowId, nat>)
    requires r in db.rows && r.campaign in db.campaigns && db.campaigns[r.campaign].startedAt.Some?
    ensures Calm(db, RecordSent(db, r, answer, message).(sending := sending))
  {}

  /** What the catch block finds, and that the result is what it makes of it. */
  lemma CaughtResult(db: Db, r: RowId, result: SendResult) returns (caught: Db)
    requires ReachesCatch(db, result) && r in db.sending && r in db.rows && r.campaign in db.campaigns
    ensures caught.sending == db.sending && caught.env == db.env && caught.now == db.now && r in caught.rows
    ensures caught.campaigns == db.campaigns && caught.phones == db.phones && caught.settings == db.settings
    ensures FinishSend(db, r, result) == CatchError(caught, r, result.category, result.delayMs)
    ensures WillRetry(caught, r, result.category) == WillRetry(db, r, result.category)
  {
    caught := if result.Rejected? then db else RecordSent(db, r, result.answer, result.message);
    hide CatchError;
  }

  /** A result that is not tried again: the row is FAILED, and the consequences follow. */
  lemma FailedResult(db: Db, r: RowId, result: SendResult) returns (failed: Db)
    requires ReachesCatch(db, result) && r in db.sending && r in db.rows && r.campaign in db.campaigns
    requires !WillRetry(db, r, result.category)
    ensures failed.campaigns == db.campaigns && failed.phones == db.phones && failed.settings == db.settings
    ensures failed.sending == db.sending - {r} && r in failed.rows && failed.rows[r].status.Failed?
    ensures FinishSend(db, r, result) == AfterFailure(failed, r.campaign, result.category)
  {
    var caught := CaughtResult(db, r, result);
    failed := UpdateRow(caught.(sending := caught.sending - {r}), r, caught.rows[r].(status := R.Failed));
    hide FinishSend, AfterFailure, Keep;
  }

  lemma FinishCalm(db: Db, r: RowId, result: SendResult)
    requires Good(db)
    ensures Calm(db, FinishSend(db, r, result))
  {
    hide Refresh, AfterFailure, Calm;
    CalmSelf(db);
    var db' := FinishSend(db, r, result);
    if db' != db && r in db.sending {
      AttemptedStarted(db, r);
      var c := r.campaign;
      match result
      case Recorded(answer, message) =>
        var db1 := RecordSent(db, r, answer, message).(sending := db.sending - {r});
        RecordCalm(db, r, answer, message, db.sending - {r});
        RefreshCalm(db1, c);
        CalmComposes(db, db1, db');
      case RecordedThenThrew(answer, message, category, delayMs) =>
        CatchCalm(db, RecordSent(db, r, answer, message), r, category, delayMs);
      case Rejected(category, delayMs) =>
        CatchCalm(db, db, r, category, delayMs);
    }
  }

  lemma CatchCalm(db: Db, sent: Db, r: RowId, category: Category, delayMs: nat)
    requires r in db.rows && db.rows[r].status.Processing? && r.campaign in db.campaigns
    requires db.campaigns[r.campaign].startedAt.Some?
    requires sent == db.(rows := sent.rows, latest := sent.latest, messages := sent.messages)
    requires r in sent.rows && sent.rows == db.rows[r := sent.rows[r]]
    requires r in sent.sending
    ensures Calm(db, CatchError(sent, r, category, delayMs))
  {
    hide UpdateRow, AfterFailure, Calm;
    var row := sent.rows[r];
    var released := sent.(sending := sent.sending - {r});
    if WillRetry(sent, r, category) {
      CaughtRowCalm(db, released, r, row.(status := R.Queued, nextAttemptAt := Some(db.now + delayMs)));
    } else {
      var db1 := UpdateRow(released, r, row.(status := R.Failed));
      CaughtRowCalm(db, released, r, row.(status := R.Failed));
      assert db1.campaigns.Keys == db.campaigns.Keys by { CalmKeys(db, db1); }
      AfterFailureCalm(db1, r.campaign, category);
      CalmComposes(db, db1, AfterFailure(db1, r.campaign, category));
    }
  }

  lemma CalmKeys(db: Db, db': Db)
    requires Calm(db, db')
    ensures db'.campaigns.Keys == db.campaigns.Keys
  {}

  lemma CaughtRowCalm(db: Db, released: Db, r: RowId, row: Recipient)
    requires r in db.rows && db.rows[r].status.Processing? && r.campaign in db.campaigns
    requires db.campaigns[r.campaign].startedAt.Some?
    requires released
             == db.(rows := released.rows, latest := released.latest, messages := released.messages,
                    sending := released.sending)
    requires r in released.rows && released.rows == db.rows[r := released.rows[r]]
    ensures Calm(db, UpdateRow(released, r, row))
  {
    hide Keep;
  }

  // ---------------------------------------------------------------------------------------------
  // Rows, jobs and messages
  // ---------------------------------------------------------------------------------------------

  ghost predicate DeliveryOk(db: Db) {
    SendingOk(db) && MessagesOk(db)
  }

  lemma DeliveryFrame(db: Db, db': Db)
    requires DeliveryOk(db) && db'.rows == db.rows && db'.sending == db.sending && db'.messages == db.messages
    ensures DeliveryOk(db')
  {}

  lemma UpdateRowsDelivery(db: Db, hit: RowId -> bool, status: R.Status)
    requires DeliveryOk(db)
    requires forall r :: r in db.rows && hit(r) ==> !db.rows[r].status.Processing? || db.rows[r].providerId.Some?
    ensures DeliveryOk(UpdateRows(db, hit, status))
  {}

  // Only the campaign table changes.
  lemma RefreshFrame(db: Db, c: CampaignId)
    ensures Refresh(db, c) == db.(campaigns := Refresh(db, c).campaigns)
    ensures AfterPause(db, EvaluateAutoPause(db, c)) && AfterPause(db, PauseOne(db, c))
  {}

  predicate AfterPause(db: Db, db': Db) {
    db' == db.(campaigns := db'.campaigns)
  }

  lemma WebhookDelivery(db: Db, message: MessageId, status: R.Status)
    requires Good(db)
    ensures DeliveryOk(StatusWebhook(db, message, status))
  {
    hide Refresh, EvaluateAutoPause;
    if message in db.messages && db.messages[message].providerId.Some? && R.Attempted(status) {
      var c := db.messages[message].campaign;
      var hit := (r: RowId) => r in db.rows && r.campaign == c && db.rows[r].message == Some(message);
      UpdateRowsDelivery(db, hit, status);
      var db1 := UpdateRows(db, hit, status);
      RefreshFrame(db1, c);
      var db2 := if status.Failed? then EvaluateAutoPause(db1, c) else db1;
      RefreshFrame(db2, c);
      DeliveryFrame(db1, db2);
      DeliveryFrame(db2, Refresh(db2, c));
    }
  }

  lemma ClaimDelivery(db: Db, r: RowId)
    requires Good(db)
    ensures DeliveryOk(ClaimRecipient(db, r))
  {}

  lemma AfterFailureDelivery(db: Db, c: CampaignId, category: Category)
    requires DeliveryOk(db) && c in db.campaigns
    ensures DeliveryOk(AfterFailure(db, c, category))
  {
    hide Refresh, EvaluateAutoPause, PauseOne;
    RefreshFrame(db, c);
    var db1 := if category.Authentication? || category.PermanentAccount? then PausePhone(db, db.campaigns[c].phone)
               else if category.PermanentTemplate? then PauseOne(db, c)
               else EvaluateAutoPause(db, c);
    RefreshFrame(db1, c);
    DeliveryFrame(db, db1);
    DeliveryFrame(db1, Refresh(db1, c));
  }

  lemma CatchDelivery(db: Db, r: RowId, category: Category, delayMs: nat)
    requires MessagesOk(db) && r in db.sending && r in db.rows && r.campaign in db.campaigns
    requires SendingOk(db.(sending := db.sending - {r}))
    ensures DeliveryOk(CatchError(db, r, category, delayMs))
  {
    hide AfterFailure;
    var released := db.(sending := db.sending - {r});
    if !WillRetry(db, r, category) {
      var db1 := UpdateRow(released, r, db.rows[r].(status := R.Failed));
      assert DeliveryOk(db1);
      AfterFailureDelivery(db1, r.campaign, category);
    }
  }

  lemma FinishDelivery(db: Db, r: RowId, result: SendResult)
    requires Good(db)
    ensures DeliveryOk(FinishSend(db, r, result))
  {
    hide Refresh, AfterFailure, CatchError, RecordSent, CampaignsOk, OneOpenPerPhone, R.Open;
    if FinishSend(db, r, result) != db && r in db.sending {
      match result
      case Recorded(answer, message) =>
        RecordDelivery(db, r, answer, message);
        RecordTables(db, r, answer, message);
        var db1 := RecordSent(db, r, answer, message).(sending := db.sending - {r});
        RefreshFrame(db1, r.campaign);
        DeliveryFrame(db1, Refresh(db1, r.campaign));
      case RecordedThenThrew(answer, message, category, delayMs) =>
        RecordDelivery(db, r, answer, message);
        RecordTables(db, r, answer, message);
        CatchDelivery(RecordSent(db, r, answer, message), r, category, delayMs);
      case Rejected(category, delayMs) =>
        CatchDelivery(db, r, category, delayMs);
    }
  }

  lemma RecordTables(db: Db, r: RowId, answer: Option<ProviderId>, message: MessageId)
    requires r in db.rows
    ensures var sent := RecordSent(db, r, answer, message);
            r in sent.rows && sent.sending == db.sending && sent.campaigns == db.campaigns
  {}

  lemma RecordDelivery(db: Db, r: RowId, answer: Option<ProviderId>, message: MessageId)
    requires DeliveryOk(db) && r in db.rows && message !in db.messages
    ensures DeliveryOk(RecordSent(db, r, answer, message).(sending := db.sending - {r}))
  {}

  // ---------------------------------------------------------------------------------------------
  // Operations that start campaigns
  // ---------------------------------------------------------------------------------------------

  /** A dispatch moves rows of its campaign between PENDING and QUEUED and nothing else. */
  ghost predicate Requeues(db: Db, db': Db, c: CampaignId) {
    && db'.(rows := db.rows, latest := db.latest) == db
    && db'.rows.Keys == db.rows.Keys
    && forall r :: r in db.rows ==>
         db'.rows[r] == db.rows[r]
         || (r.campaign == c && R.Waiting(db.rows[r].status) && R.Waiting(db'.rows[r].status)
             && db'.rows[r] == db.rows[r].(status := db'.rows[r].status))
  }

  lemma {:induction false} QueueBatchRequeues(db: Db, c: CampaignId, batch: seq<RowId>, refused: set<RowId>)
    requires forall r :: r in batch ==> r.campaign == c
    ensures Requeues(db, QueueBatch(db, batch, refused), c)
    decreases |batch|
  {
    if batch != [] {
      var n := |batch| - 1;
      QueueBatchRequeues(db, c, batch[..n], refused);
      assert batch[n] in batch;
    }
  }

  /** How a campaign is launched: RUNNING, with a start time unless it has nothing open, and with no other open
      running campaign on its phone. Its rows may move between PENDING and QUEUED. */
  ghost predicate Launched(db: Db, db': Db, c: CampaignId, startedAt: Option<nat>)
    requires c in db.campaigns
  {
    && Requeues(SetCampaign(db, c, db.campaigns[c].(status := C.Running, startedAt := startedAt)), db', c)
    && (match db.campaigns[c].startedAt
        case Some(t) => startedAt == Some(t)
        case None => startedAt == Some(db.now) || (startedAt.None? && Quiet(db, c) && db'.rows == db.rows))
    && NoOpenRival(db, c)
  }

  ghost predicate NoOpenRival(db: Db, c: CampaignId)
    requires c in db.campaigns
  {
    forall d | d in db.campaigns && d != c && db.campaigns[d].phone == db.campaigns[c].phone
        && db.campaigns[d].status.Running? ::
      Quiet(db, d) || Quiet(db, c)
  }

  lemma LaunchQuiet(db: Db, db': Db, c: CampaignId, startedAt: Option<nat>)
    requires c in db.campaigns && Launched(db, db', c, startedAt)
    ensures forall d :: Quiet(db', d) <==> Quiet(db, d)
  {}

  lemma LaunchCampaignOk(db: Db, db': Db, c: CampaignId, startedAt: Option<nat>, d: CampaignId)
    requires Good(db) && c in db.campaigns && Launched(db, db', c, startedAt)
    requires !db.campaigns[c].status.Queued? && !db.campaigns[c].status.Preparing?
    requires d in db.campaigns && (Quiet(db', d) <==> Quiet(db, d))
    ensures d in db'.campaigns && CampaignOk(db', d)
  {}

  lemma LaunchKeeps(db: Db, db': Db, c: CampaignId, startedAt: Option<nat>)
    requires Good(db) && c in db.campaigns && Launched(db, db', c, startedAt)
    requires !db.campaigns[c].status.Queued? && !db.campaigns[c].status.Preparing?
    ensures Good(db')
  {
    hide Quiet;
    LaunchQuiet(db, db', c, startedAt);
    forall d | d in db'.campaigns ensures CampaignOk(db', d) {
      LaunchCampaignOk(db, db', c, startedAt, d);
    }
    LaunchDelivery(db, db', c, startedAt);
  }

  lemma LaunchDelivery(db: Db, db': Db, c: CampaignId, startedAt: Option<nat>)
    requires Good(db) && c in db.campaigns && Launched(db, db', c, startedAt)
    ensures DeliveryOk(db')
  {}

  // A started campaign is either the one that is dispatched or has nothing open: had it rows to send, it would
  // have competed.
  lemma DispatchHasNoRival(db: Db, c: CampaignId)
    requires Good(db) && MayDispatch(db, c)
    ensures NoOpenRival(db, c)
  {}

  lemma SelectedIsDue(db: Db, c: CampaignId)
    requires c in db.campaigns
    ensures forall r :: r in Selected(db, c) ==> r in db.order && Due(db, c, r)
  {
    var due := (r: RowId) => Due(db, c, r);
    forall r | r in Selected(db, c) ensures r in Keep(db.order, due) {
      var i :| 0 <= i < |Selected(db, c)| && Selected(db, c)[i] == r;
      assert Keep(db.order, due)[i] == r;
    }
  }

  lemma DispatchRequeues(db: Db, c: CampaignId, refused: set<RowId>)
    requires MayDispatch(db, c)
    ensures var startedAt := db.campaigns[c].startedAt;
            var launched := db.campaigns[c].(status := C.Running,
                                             startedAt := if startedAt.Some? then startedAt else Some(db.now));
            Requeues(SetCampaign(db, c, launched), Dispatch(db, c, refused), c)
  {
    SelectedIsDue(db, c);
    QueueBatchRequeues(db, c, Selected(db, c), refused);
    hide MayDispatch, Selected, QueueBatch;
  }

  lemma DispatchLaunches(db: Db, c: CampaignId, refused: set<RowId>)
    requires Good(db) && MayDispatch(db, c)
    ensures var startedAt := db.campaigns[c].startedAt;
            Launched(db, Dispatch(db, c, refused), c, if startedAt.Some? then startedAt else Some(db.now))
  {
    hide Quiet, Keep;
    DispatchHasNoRival(db, c);
    DispatchRequeues(db, c, refused);
    hide Good, Dispatch, Requeues, NoOpenRival;
  }

  lemma DispatchKeeps(db: Db, c: CampaignId, refused: set<RowId>)
    requires Good(db)
    ensures Good(Dispatch(db, c, refused))
  {
    hide Launched, Good, Dispatch;
    if MayDispatch(db, c) {
      DispatchLaunches(db, c, refused);
      var startedAt := db.campaigns[c].startedAt;
      LaunchKeeps(db, Dispatch(db, c, refused), c, if startedAt.Some? then startedAt else Some(db.now));
    } else {
      DispatchSkips(db, c, refused);
    }
  }

  lemma DispatchSkips(db: Db, c: CampaignId, refused: set<RowId>)
    requires !MayDispatch(db, c)
    ensures Dispatch(db, c, refused) == db
  {}

  lemma StartLaunches(db: Db, c: CampaignId, templateUsable: bool)
    requires Good(db) && StartResponse(db, c, templateUsable).Done?
    ensures EnsurePhone(db, db.campaigns[c].phone) == db
    ensures var startedAt := db.campaigns[c].startedAt;
            Launched(db, MarkStarted(db, c, startedAt), c, if startedAt.Some? then startedAt else Some(db.now))
  {}

  lemma StartKeeps(db: Db, c: CampaignId, templateUsable: bool, refused: set<RowId>)
    requires Good(db)
    ensures Good(Start(db, c, templateUsable, refused))
  {
    hide Launched, Dispatch;
    if StartResponse(db, c, templateUsable).Done? {
      var startedAt := db.campaigns[c].startedAt;
      StartLaunches(db, c, templateUsable);
      LaunchKeeps(db, MarkStarted(db, c, startedAt), c, if startedAt.Some? then startedAt else Some(db.now));
      DispatchKeeps(MarkStarted(db, c, startedAt), c, refused);
    }
  }

  // Nothing of a campaign that has not started is QUEUED.
  lemma ReopenKeepsTables(db: Db, c: CampaignId)
    requires Good(db) && c in db.campaigns && db.campaigns[c].startedAt.None?
    ensures var db1 := Reopen(db, c);
            db1 == db.(campaigns := db.campaigns[c := db.campaigns[c].(status := C.Running)], latest := db1.latest)
    ensures forall r :: r in db.rows ==> r in db.order
  {
    hide Keep;
    assert CampaignOk(db, c);
    var db1 := Reopen(db, c);
    assert EnsurePhone(db, db.campaigns[c].phone) == db;
    forall r | r in db.rows ensures db1.rows[r] == db.rows[r] {}
    assert db1.rows == db.rows;
  }

  /** A resumed campaign that never started and still has rows to send is dispatched in the same call. */
  lemma ReopenedIsDispatched(db: Db, c: CampaignId)
    requires Good(db) && c in db.campaigns && db.campaigns[c].status.Paused?
    requires !HasOtherActive(db, c) && db.campaigns[c].startedAt.None? && !Quiet(db, c)
    ensures MayDispatch(Reopen(db, c), c)
  {
    ReopenKeepsTables(db, c);
    assert CampaignOk(db, c);
    hide Reopen, Good;
    NobodyCompetes(db, Reopen(db, c), c);
    SomethingIsSelected(db, Reopen(db, c), c);
    hide CampaignOk, Unattempted, HasCompetitor, HasOtherActive, Selected;
    assert RowsWith(Reopen(db, c), c, R.InFlight) == {};
  }

  lemma NobodyCompetes(db: Db, db1: Db, c: CampaignId)
    requires c in db.campaigns && !HasOtherActive(db, c)
    requires db1.campaigns == db.campaigns[c := db.campaigns[c].(status := C.Running)]
    ensures !HasCompetitor(db1, c)
  {
    forall d | d in db1.campaigns ensures !Competes(db1, c, d) {}
  }

  lemma SomethingIsSelected(db: Db, db1: Db, c: CampaignId)
    requires !Quiet(db, c) && db1.rows == db.rows && db1.order == db.order && c in db1.campaigns
    requires db1.env.batchSize > 0 && db1.env.maxBatchSize > 0
    requires forall r :: r in db.rows ==> r in db.order
    requires forall r :: r in db.rows && r.campaign == c ==> Unattempted(db.rows[r])
    ensures Selected(db1, c) != []
  {
    var r :| r in db.rows && r.campaign == c && R.Open(db.rows[r].status);
    assert r in Keep(db1.order, (x: RowId) => Due(db1, c, x));
  }

  lemma ReopenLaunches(db: Db, c: CampaignId)
    requires Good(db) && c in db.campaigns && !HasOtherActive(db, c)
    requires db.campaigns[c].startedAt.Some? || Quiet(db, c)
    ensures Launched(db, Reopen(db, c), c, db.campaigns[c].startedAt)
  {
    hide Keep, Quiet;
    assert CampaignOk(db, c) && EnsurePhone(db, db.campaigns[c].phone) == db;
    if db.campaigns[c].startedAt.None? {
      ReopenKeepsTables(db, c);
    }
  }

  lemma ReopenedDispatchLaunches(db: Db, c: CampaignId, refused: set<RowId>)
    requires Good(db) && c in db.campaigns && db.campaigns[c].status.Paused?
    requires !HasOtherActive(db, c) && db.campaigns[c].startedAt.None? && !Quiet(db, c)
    ensures Launched(db, Dispatch(Reopen(db, c), c, refused), c, Some(db.now))
  {
    hide *;
    ReopenedIsDispatched(db, c);
    ReopenKeepsTables(db, c);
    DispatchRequeues(Reopen(db, c), c, refused);
    DispatchedAfterReopen(db, Reopen(db, c), Dispatch(Reopen(db, c), c, refused), c);
  }

  lemma DispatchedAfterReopen(db: Db, db1: Db, db': Db, c: CampaignId)
    requires c in db.campaigns && !HasOtherActive(db, c) && db.campaigns[c].startedAt.None?
    requires db1 == db.(campaigns := db.campaigns[c := db.campaigns[c].(status := C.Running)], latest := db1.latest)
    requires Requeues(SetCampaign(db1, c, db1.campaigns[c].(status := C.Running, startedAt := Some(db.now))), db', c)
    ensures Launched(db, db', c, Some(db.now))
  {
    hide Quiet;
    var running := db.campaigns[c].(status := C.Running, startedAt := Some(db.now));
    assert SetCampaign(db1, c, running) == SetCampaign(db, c, running).(latest := db1.latest);
  }

  lemma ResumeKeeps(db: Db, c: CampaignId, templateUsable: bool, refused: set<RowId>)
    requires Good(db)
    ensures Good(Resume(db, c, templateUsable, refused))
  {
    hide Launched, Dispatch, Reopen, Quiet, Good;
    if ResumeResponse(db, c, templateUsable).Done? {
      if db.campaigns[c].startedAt.Some? || Quiet(db, c) {
        ReopenLaunches(db, c);
        LaunchKeeps(db, Reopen(db, c), c, db.campaigns[c].startedAt);
        DispatchKeeps(Reopen(db, c), c, refused);
      } else {
        ReopenedDispatchLaunches(db, c, refused);
        LaunchKeeps(db, Dispatch(Reopen(db, c), c, refused), c, Some(db.now));
      }
    }
  }

  /** A campaign that has not started appears or gets its first rows; nothing else changes. */
  ghost predicate Grows(db: Db, db': Db, c: CampaignId) {
    && db'.env == db.env && db'.now == db.now && db'.sending == db.sending && db'.messages == db.messages
    && db.phones.Keys <= db'.phones.Keys
    && db'.campaigns.Keys == db.campaigns.Keys + {c}
    && (forall d :: d in db.campaigns && d != c ==> db'.campaigns[d] == db.campaigns[d])
    && db'.campaigns[c].startedAt.None? && !db'.campaigns[c].status.Running? && !db'.campaigns[c].status.Completed?
    && (forall r :: r in db.rows ==> r.campaign != c && r in db'.rows && db'.rows[r] == db.rows[r])
    && (forall r :: r in db'.rows && r !in db.rows ==>
          r.campaign == c && Unattempted(db'.rows[r]) && db'.rows[r].message.None?
          && !db'.campaigns[c].status.Queued? && !db'.campaigns[c].status.Preparing?)
  }

  lemma GrowQuiet(db: Db, db': Db, c: CampaignId, d: CampaignId)
    requires Grows(db, db', c) && d != c
    ensures Quiet(db', d) <==> Quiet(db, d)
  {
    hide Unattempted;
    if Quiet(db', d) {
      forall r | r in db.rows && r.campaign == d ensures !R.Open(db.rows[r].status) {
        assert !R.Open(db'.rows[r].status);
      }
    }
  }

  lemma GrowCampaignOk(db: Db, db': Db, c: CampaignId, d: CampaignId)
    requires d in db.campaigns && d != c && CampaignOk(db, d) && Grows(db, db', c)
    ensures d in db'.campaigns && CampaignOk(db', d)
  {
    GrowQuiet(db, db', c, d);
    hide Quiet, Unattempted;
  }

  lemma GrownCampaignOk(db: Db, db': Db, c: CampaignId)
    requires Grows(db, db', c)
    ensures CampaignOk(db', c)
  {
    hide Quiet;
  }

  lemma GrowOneOpen(db: Db, db': Db, c: CampaignId)
    requires OneOpenPerPhone(db) && Grows(db, db', c)
    ensures OneOpenPerPhone(db')
  {
    hide Quiet, Unattempted;
    forall d | d in db.campaigns && d != c ensures Quiet(db', d) <==> Quiet(db, d) {
      GrowQuiet(db, db', c, d);
    }
  }

  lemma GrowDelivery(db: Db, db': Db, c: CampaignId)
    requires DeliveryOk(db) && Grows(db, db', c)
    ensures DeliveryOk(db')
  {
    forall r | r in db'.rows
      ensures match db'.rows[r].message
              case Some(m) => m in db'.messages && db'.messages[m].providerId == db'.rows[r].providerId
              case None => db'.rows[r].providerId.None?
    {}
  }

  lemma GrowKeeps(db: Db, db': Db, c: CampaignId)
    requires Good(db) && Grows(db, db', c) && Tables(db')
    ensures Good(db')
  {
    hide CampaignOk, OneOpenPerPhone, SendingOk, MessagesOk, Tables, Quiet, Unattempted;
    forall d | d in db'.campaigns ensures CampaignOk(db', d) {
      if d == c {
        GrownCampaignOk(db, db', c);
      } else {
        GrowCampaignOk(db, db', c, d);
      }
    }
    GrowOneOpen(db, db', c);
    GrowDelivery(db, db', c);
  }

  lemma CreateKeeps(db: Db, c: CampaignId, p: PhoneId, rate: nat, batchSize: nat, batchDelay: nat)
    requires Good(db)
    ensures Good(CreateCampaign(db, c, p, rate, batchSize, batchDelay))
  {
    if c !in db.campaigns {
      CreateGrows(db, c, p, rate, batchSize, batchDelay);
      hide *;
      GrowKeeps(db, CreateCampaign(db, c, p, rate, batchSize, batchDelay), c);
    }
  }

  lemma CreateGrows(db: Db, c: CampaignId, p: PhoneId, rate: nat, batchSize: nat, batchDelay: nat)
    requires Tables(db) && c !in db.campaigns
    ensures var db' := CreateCampaign(db, c, p, rate, batchSize, batchDelay); Grows(db, db', c) && Tables(db')
  {
    CreateAdds(db, c, p, rate, batchSize, batchDelay);
    hide CreateCampaign, Unattempted;
  }

  lemma CreateAdds(db: Db, c: CampaignId, p: PhoneId, rate: nat, batchSize: nat, batchDelay: nat)
    requires c !in db.campaigns
    ensures var db' := CreateCampaign(db, c, p, rate, batchSize, batchDelay);
            && db' == db.(phones := db'.phones, campaigns := db.campaigns[c := db'.campaigns[c]])
            && db.phones.Keys + {p} <= db'.phones.Keys
            && db'.campaigns[c].phone == p && db'.campaigns[c].status.Queued? && db'.campaigns[c].startedAt.None?
  {}

  // ---------------------------------------------------------------------------------------------
  // Preparation
  // ---------------------------------------------------------------------------------------------

  lemma {:induction false} InsertedKeys(c: CampaignId, items: seq<P.Item>, r: RowId)
    ensures r in Inserted(c, items) <==> r.campaign == c && exists i :: 0 <= i < |items| && items[i].debt == r.debt
    decreases |items|
  {
    if items != [] {
      var n := |items| - 1;
      InsertedKeys(c, items[..n], r);
      InsertedKeys(c, items[..n], RowId(c, items[n].debt));
      if i :| 0 <= i < n && items[i].debt == r.debt {
        assert items[..n][i].debt == r.debt;
      }
    }
  }

  /** The keys come in the order in which the items bring them, each once. */
  lemma {:induction false} InsertedInOrder(c: CampaignId, items: seq<P.Item>, k: nat)
    requires k <= |items|
    ensures Inserted(c, items[..k]) <= Inserted(c, items)
    ensures forall i, j :: 0 <= i < j < |Inserted(c, items)| ==> Inserted(c, items)[i] != Inserted(c, items)[j]
    decreases |items|
  {
    if items != [] {
      var n := |items| - 1;
      InsertedInOrder(c, items[..n], if k <= n then k else n);
      if k <= n {
        assert items[..n][..k] == items[..k];
      } else {
        assert items[..k] == items;
      }
    }
  }

  lemma PreparedKeys(c: CampaignId, items: seq<P.Item>, r: RowId)
    ensures r in PreparedRecipients(c, P.PreparedRows(items)) <==> r in Inserted(c, items)
  {
    InsertedKeys(c, items, r);
    var entries := P.RowsOf(items, {});
    P.UpsertKeys(map[], entries, r.debt);
    assert forall i :: 0 <= i < |items| ==> entries[i].debt == items[i].debt;
  }

  lemma PrepareTables(db: Db, c: CampaignId, items: seq<P.Item>)
    requires Good(db) && MayPrepare(db, c)
    ensures Tables(Prepare(db, c, items))
  {
    hide CampaignsOk, OneOpenPerPhone, MessagesOk, SendingOk;
    var seenItems := OnPhone(items, PhoneOf(db, db.campaigns[c].phone));
    forall r ensures r in PreparedRecipients(c, P.PreparedRows(seenItems)) <==> r in Inserted(c, seenItems) {
      PreparedKeys(c, seenItems, r);
    }
    forall r | r in PreparedRecipients(c, P.PreparedRows(seenItems)) ensures r.campaign == c {
      InsertedKeys(c, seenItems, r);
    }
  }

  lemma PrepareRows(db: Db, c: CampaignId, items: seq<P.Item>)
    requires MayPrepare(db, c)
    ensures var db' := Prepare(db, c, items);
            && (forall r :: r in db.rows ==> r in db'.rows && db'.rows[r] == db.rows[r])
            && (forall r :: r in db'.rows && r !in db.rows ==>
                  r.campaign == c && Unattempted(db'.rows[r]) && db'.rows[r].message.None?)
  {}

  lemma PrepareKeeps(db: Db, c: CampaignId, items: seq<P.Item>)
    requires Good(db)
    ensures Good(Prepare(db, c, items))
  {
    if MayPrepare(db, c) {
      PrepareTables(db, c, items);
      PrepareGrows(db, c, items);
      hide *;
      GrowKeeps(db, Prepare(db, c, items), c);
    }
  }

  lemma PrepareGrows(db: Db, c: CampaignId, items: seq<P.Item>)
    requires Good(db) && MayPrepare(db, c)
    ensures Grows(db, Prepare(db, c, items), c)
  {
    assert CampaignOk(db, c);
    PrepareRows(db, c, items);
    PreparedStatus(db, c, items);
  }

  lemma PreparedStatus(db: Db, c: CampaignId, items: seq<P.Item>)
    requires MayPrepare(db, c)
    ensures var db' := Prepare(db, c, items);
            && db'.campaigns.Keys == db.campaigns.Keys
            && (forall d :: d in db.campaigns && d != c ==> db'.campaigns[d] == db.campaigns[d])
            && (db'.campaigns[c].status.Scheduled? || db'.campaigns[c].status.Failed?)
            && db'.campaigns[c].startedAt == db.campaigns[c].startedAt
            && db'.now == db.now && db'.sending == db.sending && db'.messages == db.messages
  {}

  // ---------------------------------------------------------------------------------------------
  // Every step, every run
  // ---------------------------------------------------------------------------------------------

  predicate StartsNothing(a: Action) {
    !(a.ACreate? || a.APrepare? || a.AStart? || a.AResume? || a.ADispatch?)
  }

  // What the other steps are.
  lemma StartingStep(db: Db, a: Action)
    requires !StartsNothing(a)
    ensures match a
            case ACreate(c, phone, rate, batchSize, batchDelay) =>
              Step(db, a) == CreateCampaign(db, c, phone, rate, batchSize, batchDelay)
            case APrepare(c, items) => Step(db, a) == Prepare(db, c, items)
            case AStart(c, templateUsable, refused) => Step(db, a) == Start(db, c, templateUsable, refused)
            case AResume(c, templateUsable, refused) => Step(db, a) == Resume(db, c, templateUsable, refused)
            case ADispatch(c, refused) => Step(db, a) == Dispatch(db, c, refused)
            case _ => true
  {
    hide CreateCampaign, Prepare, Start, Resume, Dispatch, Pause, Cancel, ClaimRecipient, FinishSend, StatusWebhook,
         OptOut, SetPhone, Refresh;
  }

  lemma CalmStep(db: Db, a: Action)
    requires Good(db) && StartsNothing(a)
    ensures Calm(db, Step(db, a))
  {
    hide Calm, Refresh, Cancel, OptOut, StatusWebhook, ClaimRecipient, FinishSend, PauseOne, PauseOnPhone;
    CalmSelf(db);
    match a
    case APause(c) => PauseOneCalm(db, c);
    case ACancel(c) => CancelCalm(db, c);
    case AClaim(r) => ClaimCalm(db, r);
    case AFinish(r, result) => FinishCalm(db, r, result);
    case ADie(r) => SendingIsSeparate(db, db, db.sending - {r});
    case AWebhook(message, status) => WebhookCalm(db, message, status);
    case AOptOut(customer) => OptOutCalm(db, customer);
    case ASetPhone(p, state) => SetPhoneCalm(db, p, state);
    case ASettings(settings) => SettingsCalm(db, settings, 0);
    case ARefresh(c) => RefreshCalm(db, c);
    case ATick(ms) => SettingsCalm(db, db.settings, ms);
  }

  lemma SetPhoneCalm(db: Db, p: PhoneId, state: PhoneState)
    ensures Calm(db, SetPhone(db, p, state))
  {}

  lemma SettingsCalm(db: Db, settings: Settings, ms: nat)
    ensures Calm(db, db.(settings := settings, now := db.now + ms))
  {}

  lemma CalmStepDelivery(db: Db, a: Action)
    requires Good(db) && StartsNothing(a)
    ensures DeliveryOk(Step(db, a))
  {
    hide Refresh, PauseOne, PauseOnPhone, SetPhone, StatusWebhook, FinishSend, ClaimRecipient, Cancel, OptOut,
         CampaignsOk, OneOpenPerPhone, Tables, SendingOk, MessagesOk;
    match a
    case APause(c) => RefreshFrame(db, c); DeliveryFrame(db, Step(db, a));
    case ACancel(c) => CancelDelivery(db, c);
    case AClaim(r) => ClaimDelivery(db, r);
    case AFinish(r, result) => FinishDelivery(db, r, result);
    case ADie(r) => DeathDelivery(db, r);
    case AWebhook(message, status) => WebhookDelivery(db, message, status);
    case AOptOut(customer) => OptOutDelivery(db, customer);
    case ASetPhone(p, state) => SetPhoneFrame(db, p, state); DeliveryFrame(db, Step(db, a));
    case ASettings(settings) => DeliveryFrame(db, Step(db, a));
    case ARefresh(c) => RefreshFrame(db, c); DeliveryFrame(db, Step(db, a));
    case ATick(ms) => DeliveryFrame(db, Step(db, a));
  }

  lemma DeathDelivery(db: Db, r: RowId)
    requires DeliveryOk(db)
    ensures DeliveryOk(db.(sending := db.sending - {r}))
  {}

  lemma OptOutDelivery(db: Db, customer: CustomerId)
    requires DeliveryOk(db)
    ensures DeliveryOk(OptOut(db, customer))
  {
    var hit := (r: RowId) => r in db.rows && db.rows[r].customer == customer && R.Waiting(db.rows[r].status);
    UpdateRowsDelivery(db, hit, R.Cancelled);
  }

  lemma SetPhoneFrame(db: Db, p: PhoneId, state: PhoneState)
    ensures var db' := SetPhone(db, p, state);
            db'.rows == db.rows && db'.sending == db.sending && db'.messages == db.messages
  {}

  lemma CancelDelivery(db: Db, c: CampaignId)
    requires DeliveryOk(db)
    ensures DeliveryOk(Cancel(db, c))
  {
    hide Refresh;
    if CancelResponse(db, c).Done? {
      var hit := (r: RowId) => r in db.rows && r.campaign == c && R.Waiting(db.rows[r].status);
      UpdateRowsDelivery(db, hit, R.Cancelled);
      var db2 := SetStatus(UpdateRows(db, hit, R.Cancelled), c, C.Cancelled);
      DeliveryFrame(UpdateRows(db, hit, R.Cancelled), db2);
      RefreshFrame(db2, c);
      DeliveryFrame(db2, Refresh(db2, c));
    }
  }

  lemma StepKeeps(db: Db, a: Action)
    requires Good(db)
    ensures Good(Step(db, a))
  {
    if StartsNothing(a) {
      hide Step, Calm;
      CalmStep(db, a);
      CalmKeeps(db, Step(db, a));
      CalmStepDelivery(db, a);
    } else {
      hide Good, CreateCampaign, Prepare, Start, Resume, Dispatch;
      match a
      case ACreate(c, phone, rate, batchSize, batchDelay) => CreateKeeps(db, c, phone, rate, batchSize, batchDelay);
      case APrepare(c, items) => PrepareKeeps(db, c, items);
      case AStart(c, templateUsable, refused) => StartKeeps(db, c, templateUsable, refused);
      case AResume(c, templateUsable, refused) => ResumeKeeps(db, c, templateUsable, refused);
      case ADispatch(c, refused) => DispatchKeeps(db, c, refused);
    }
  }

  lemma {:induction false} RunKeeps(db: Db, actions: seq<Action>)
    requires Good(db)
    ensures Good(Run(db, actions))
    decreases |actions|
  {
    if actions != [] {
      StepKeeps(db, actions[0]);
      RunKeeps(Step(db, actions[0]), actions[1..]);
    }
  }

  predicate Positive(env: Env) {
    env.attempts > 0 && env.batchSize > 0 && env.maxBatchSize > 0
  }

  lemma ReachableIsGood(env: Env, settings: Settings, actions: seq<Action>)
    requires Positive(env)
    ensures Good(Run(Empty(env, settings), actions))
  {
    RunKeeps(Empty(env, settings), actions);
  }

  /** Per-phone serialization: in every reachable state, of two running campaigns on one phone at most one has
      recipients that are PENDING, QUEUED or PROCESSING. */
  lemma OneOpenCampaignPerPhone(env: Env, settings: Settings, actions: seq<Action>, c: CampaignId, d: CampaignId)
    requires Positive(env)
    requires var db := Run(Empty(env, settings), actions);
             && c in db.campaigns && d in db.campaigns && c != d
             && db.campaigns[c].phone == db.campaigns[d].phone
             && db.campaigns[c].status.Running? && db.campaigns[d].status.Running?
    ensures var db := Run(Empty(env, settings), actions);
            Quiet(db, c) || Quiet(db, d)
  {
    ReachableIsGood(env, settings, actions);
  }
}
