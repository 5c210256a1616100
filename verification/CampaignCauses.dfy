// Why a campaign has its status: for every call, exactly when it gives a campaign each status, and what it stores of
// the start time and of the counts.

module CampaignCauses {
  import opened Options
  import opened CampaignErrors
  import opened PhoneSafety
  import opened CampaignService
  import opened CampaignInvariants
  import opened CampaignGuarantees
  import opened PhoneQuarantine
  import opened CampaignEffects
  import A = AutoPause
  import P = Preparation
  import R = RecipientStatus
  import C = CampaignStatus

  // ---------------------------------------------------------------------------------------------
  // Causes
  // ---------------------------------------------------------------------------------------------

  // The provider call of a job ends, and the end is taken up.
  predicate SendEnds(db: Db, a: Action) {
    && a.AFinish? && a.row in db.sending && a.row in db.rows && a.row.campaign in db.campaigns
    && (a.result.Rejected? || a.result.message !in db.messages)
  }

  // A send fails and is not tried again.
  predicate SendFails(db: Db, a: Action) {
    SendEnds(db, a) && !a.result.Recorded? && !WillRetry(db, a.row, a.result.category)
  }

  // The state in which the consequences of the failure are drawn.
  function AfterFailed(db: Db, r: RowId, result: SendResult): Db
    requires r in db.rows
  {
    var sent := if result.Rejected? then db else RecordSent(db, r, result.answer, result.message);
    UpdateRow(sent.(sending := db.sending - {r}), r, sent.rows[r].(status := R.Failed))
  }

  // A status notification with a known message and a result.
  predicate Notification(db: Db, a: Action) {
    a.AWebhook? && a.message in db.messages && db.messages[a.message].providerId.Some? && R.Attempted(a.delivery)
  }

  function AfterNotified(db: Db, message: MessageId, status: R.Status): Db
    requires message in db.messages
  {
    var c := db.messages[message].campaign;
    UpdateRows(db, (r: RowId) => r in db.rows && r.campaign == c && db.rows[r].message == Some(message), status)
  }

  // The account of the campaign's phone fails, or an administrator makes the phone unsafe.
  predicate StopsPhone(db: Db, a: Action, c: CampaignId)
    requires c in db.campaigns
  {
    || (SendFails(db, a) && AccountFailure(a.result.category)
        && db.campaigns[a.row.campaign].phone == db.campaigns[c].phone)
    || (a.ASetPhone? && a.phone == db.campaigns[c].phone && !Safe(a.state))
  }

  // The pause rule is asked about the campaign, and speaks.
  predicate RuleStops(db: Db, a: Action, c: CampaignId) {
    || (SendFails(db, a) && a.row.campaign == c
        && (Retryable(a.result.category) || a.result.category.PermanentRecipient?)
        && PauseReasonOf(AfterFailed(db, a.row, a.result), c).Some?)
    || (Notification(db, a) && a.delivery.Failed? && db.messages[a.message].campaign == c
        && PauseReasonOf(AfterNotified(db, a.message, a.delivery), c).Some?)
  }

  /** The call pauses the campaign: an administrator does, its phone is stopped, its template is refused, or it runs and
      the pause rule speaks. */
  predicate Stops(db: Db, a: Action, c: CampaignId)
    requires c in db.campaigns
  {
    var status := db.campaigns[c].status;
    || (C.Active(status) && a == APause(c))
    || (C.Active(status) && StopsPhone(db, a, c))
    || (C.Active(status) && SendFails(db, a) && a.row.campaign == c && a.result.category.PermanentTemplate?)
    || (status.Running? && RuleStops(db, a, c))
  }

  /** The call counts the campaign's recipients. */
  predicate Recounts(db: Db, a: Action, c: CampaignId) {
    || a == ARefresh(c)
    || (a == ACancel(c) && CancelResponse(db, c).Done?)
    || (SendEnds(db, a) && a.row.campaign == c && (a.result.Recorded? || SendFails(db, a)))
    || (Notification(db, a) && db.messages[a.message].campaign == c)
  }

  // The preparation of the campaign, and whether it leaves a recipient PENDING.
  predicate Prepares(db: Db, a: Action, c: CampaignId) {
    a.APrepare? && a.c == c && MayPrepare(db, c)
  }

  predicate AnyPending(db: Db, c: CampaignId) {
    exists r :: r in db.rows && r.campaign == c && db.rows[r].status.Pending?
  }

  // ---------------------------------------------------------------------------------------------
  // What is stored
  // ---------------------------------------------------------------------------------------------

  function CountFor(db: Db, c: CampaignId, status: R.Status): nat {
    |set r | r in db.rows && r.campaign == c && db.rows[r].status == status|
  }

  /** The stored counts are the numbers of recipients with these statuses. */
  predicate Counted(db: Db, c: CampaignId, counts: Counts) {
    && counts.pending == CountFor(db, c, R.Pending) && counts.queued == CountFor(db, c, R.Queued)
    && counts.sent == CountFor(db, c, R.Sent) && counts.delivered == CountFor(db, c, R.Delivered)
    && counts.read == CountFor(db, c, R.Read) && counts.failed == CountFor(db, c, R.Failed)
    && counts.skipped == CountFor(db, c, R.Skipped)
  }

  /** Exactly when a call gives a campaign a status that it did not have. The other statuses are never given. */
  ghost predicate StatusFollows(db: Db, a: Action, c: CampaignId, db': Db)
    requires c in db.campaigns && c in db'.campaigns
  {
    var before, after := db.campaigns[c].status, db'.campaigns[c].status;
    && (!before.Paused? ==> (after.Paused? <==> Stops(db, a, c)))
    && (!before.Completed? ==>
          (after.Completed?
           <==> C.Active(before) && Recounts(db, a, c) && !Stops(db, a, c) && !a.ACancel? && Quiet(db', c)))
    && (!before.Running? ==> (after.Running? <==> A.Launches(db, a) && a.c == c))
    && (!before.Cancelled? ==> (after.Cancelled? <==> a == ACancel(c) && CancelResponse(db, c).Done?))
    && (!before.Scheduled? ==> (after.Scheduled? <==> Prepares(db, a, c) && AnyPending(db', c)))
    && (!before.Failed? ==> (after.Failed? <==> Prepares(db, a, c) && !AnyPending(db', c)))
    && (after.Draft? || after.Preparing? || after.Ready? || after.Queued? || after.CompletedWithErrors? ==>
        after == before)
  }

  // The call gives the campaign its start time.
  predicate Begins(db: Db, a: Action, c: CampaignId) {
    && A.Launches(db, a) && a.c == c && db.campaigns[c].startedAt.None?
    && (a.AResume? ==> MayDispatch(Reopen(db, c), c))
  }

  /** What else a call changes of a campaign. */
  ghost predicate FieldsFollow(db: Db, a: Action, c: CampaignId, db': Db)
    requires c in db.campaigns && c in db'.campaigns
  {
    var before, after := db.campaigns[c], db'.campaigns[c];
    && after.phone == before.phone && after.ratePerMinute == before.ratePerMinute
    && after.batchSize == before.batchSize && after.batchDelayMs == before.batchDelayMs
    && (after.startedAt == if Begins(db, a, c) then Some(db.now) else before.startedAt)
    && (Recounts(db, a, c) ==> Counted(db', c, after.counts))
    && (!Recounts(db, a, c) ==> after.counts == before.counts)
    && (after.eligibleCount == if Prepares(db, a, c) then CountFor(db', c, R.Pending) else before.eligibleCount)
  }

  ghost predicate Follows(db: Db, a: Action, c: CampaignId) {
    && c in db.campaigns && c in Step(db, a).campaigns
    && StatusFollows(db, a, c, Step(db, a)) && FieldsFollow(db, a, c, Step(db, a))
  }

  // ---------------------------------------------------------------------------------------------
  // Count refreshes and pauses
  // ---------------------------------------------------------------------------------------------

  lemma CountIs(db: Db, c: CampaignId, status: R.Status)
    ensures CountOf(db, c, status) == CountFor(db, c, status)
  {
    assert RowsWith(db, c, (s: R.Status) => s == status)
        == set r | r in db.rows && r.campaign == c && db.rows[r].status == status;
  }

  lemma CountsAre(db: Db, c: CampaignId)
    ensures Counted(db, c, CountsOf(db, c))
  {
    hide CountOf, CountFor;
    CountIs(db, c, R.Pending);
    CountIs(db, c, R.Queued);
    CountIs(db, c, R.Sent);
    CountIs(db, c, R.Delivered);
    CountIs(db, c, R.Read);
    CountIs(db, c, R.Failed);
    CountIs(db, c, R.Skipped);
  }

  // The campaign after a count refresh of it: completed if it was active and nothing is open.
  ghost predicate Refreshed(db: Db, before: Campaign, after: Campaign, c: CampaignId) {
    && after == before.(status := after.status, counts := after.counts)
    && after.status == (if C.Active(before.status) && Quiet(db, c) then C.Completed else before.status)
    && Counted(db, c, after.counts)
  }

  lemma RefreshIs(db: Db, c: CampaignId)
    requires c in db.campaigns
    ensures var db' := Refresh(db, c);
            && db'.campaigns.Keys == db.campaigns.Keys && db'.rows == db.rows
            && Refreshed(db', db.campaigns[c], db'.campaigns[c], c)
            && (forall d :: d in db.campaigns && d != c ==> db'.campaigns[d] == db.campaigns[d])
  {
    hide CountOf, CountFor, Quiet, CountsOf;
    if !db.campaigns[c].status.Completed? {
      RefreshCompletesWhenQuiet(db, c);
    }
    CountsAre(db, c);
    RefreshFrame(db, c);
    SameRowsSameCounts(db, Refresh(db, c), c);
  }

  lemma SameRowsSameCounts(db: Db, db': Db, c: CampaignId)
    requires db'.rows == db.rows
    ensures Quiet(db', c) == Quiet(db, c) && forall counts :: Counted(db', c, counts) == Counted(db, c, counts)
  {}

  // ---------------------------------------------------------------------------------------------
  // Call by call
  // ---------------------------------------------------------------------------------------------

  // The pause that a final failure asks for.
  function Paused(db: Db, c: CampaignId, category: Category): Db
    requires c in db.campaigns
  {
    if AccountFailure(category) then PausePhone(db, db.campaigns[c].phone)
    else if category.PermanentTemplate? then PauseOne(db, c)
    else EvaluateAutoPause(db, c)
  }

  predicate PausedBy(db: Db, c: CampaignId, category: Category, d: CampaignId)
    requires c in db.campaigns && d in db.campaigns
  {
    && C.Active(db.campaigns[d].status)
    && ((AccountFailure(category) && db.campaigns[d].phone == db.campaigns[c].phone)
        || (d == c && category.PermanentTemplate?)
        || (d == c && (Retryable(category) || category.PermanentRecipient?)
            && db.campaigns[c].status.Running? && PauseReasonOf(db, c).Some?))
  }

  lemma PausedIs(db: Db, c: CampaignId, category: Category, d: CampaignId)
    requires c in db.campaigns && d in db.campaigns
    ensures var db' := Paused(db, c, category);
            && db'.campaigns.Keys == db.campaigns.Keys && db'.rows == db.rows
            && db'.campaigns[d] == if PausedBy(db, c, category, d) then db.campaigns[d].(status := C.Paused)
                                   else db.campaigns[d]
  {
    hide PauseReasonOf, PausePhone, PauseOne, EvaluateAutoPause;
    PhonePauseIs(db, db.campaigns[c].phone, d);
    OnePauseIs(db, c, d);
    EvaluatedIs(db, c, d);
  }

  lemma PhonePauseIs(db: Db, p: PhoneId, d: CampaignId)
    requires d in db.campaigns
    ensures var db' := PausePhone(db, p);
            && db'.campaigns.Keys == db.campaigns.Keys && db'.rows == db.rows
            && db'.campaigns[d] == if db.campaigns[d].phone == p && C.Active(db.campaigns[d].status)
                                   then db.campaigns[d].(status := C.Paused) else db.campaigns[d]
  {}

  lemma OnePauseIs(db: Db, c: CampaignId, d: CampaignId)
    requires c in db.campaigns && d in db.campaigns
    ensures var db' := PauseOne(db, c);
            && db'.campaigns.Keys == db.campaigns.Keys && db'.rows == db.rows
            && db'.campaigns[d] == if d == c && C.Active(db.campaigns[c].status)
                                   then db.campaigns[c].(status := C.Paused) else db.campaigns[d]
  {}

  // A campaign keeps its fields and its status, but may be paused, and is then counted if it is this one.
  ghost predicate PausedThenCounted(db': Db, before: Campaign, after: Campaign, pauses: bool, counts: bool,
                                    c: CampaignId) {
    var paused := if pauses then before.(status := C.Paused) else before;
    if counts then Refreshed(db', paused, after, c) else after == paused
  }

  lemma FailureIs(db: Db, c: CampaignId, category: Category, d: CampaignId)
    requires c in db.campaigns && d in db.campaigns
    ensures var db' := AfterFailure(db, c, category);
            && db'.campaigns.Keys == db.campaigns.Keys
            && PausedThenCounted(db', db.campaigns[d], db'.campaigns[d], PausedBy(db, c, category, d), d == c, d)
  {
    PausedIs(db, c, category, c);
    PausedIs(db, c, category, d);
    RefreshIs(Paused(db, c, category), c);
    assert AfterFailure(db, c, category) == Refresh(Paused(db, c, category), c);
    hide Paused, Refresh, AfterFailure, Refreshed, PausedBy;
  }

  lemma FailedSendIs(db: Db, r: RowId, result: SendResult)
    requires SendFails(db, AFinish(r, result))
    ensures var failed := AfterFailed(db, r, result);
            && FinishSend(db, r, result) == AfterFailure(failed, r.campaign, result.category)
            && failed.campaigns == db.campaigns && failed.phones == db.phones && failed.settings == db.settings
  {
    hide AfterFailure, Keep;
  }

  lemma RecordedSendIs(db: Db, r: RowId, result: SendResult)
    requires SendEnds(db, AFinish(r, result)) && result.Recorded?
    ensures var sent := RecordSent(db, r, result.answer, result.message).(sending := db.sending - {r});
            FinishSend(db, r, result) == Refresh(sent, r.campaign) && sent.campaigns == db.campaigns
  {
    hide Refresh, Keep;
  }

  lemma OtherSendsKeepCampaigns(db: Db, r: RowId, result: SendResult)
    requires !SendFails(db, AFinish(r, result)) && !(SendEnds(db, AFinish(r, result)) && result.Recorded?)
    ensures FinishSend(db, r, result).campaigns == db.campaigns
  {
    hide AfterFailure, Keep;
  }

  // What follows from a pause and a count.
  lemma PausedThenCountedFollows(db: Db, a: Action, c: CampaignId, db': Db)
    requires c in db.campaigns && c in db'.campaigns
    requires PausedThenCounted(db', db.campaigns[c], db'.campaigns[c], Stops(db, a, c), Recounts(db, a, c), c)
    requires !a.ACancel? && !A.Launches(db, a) && !a.APrepare?
    requires Stops(db, a, c) ==> C.Active(db.campaigns[c].status)
    ensures StatusFollows(db, a, c, db') && FieldsFollow(db, a, c, db')
  {
    hide Stops, Recounts, Quiet, Counted, AnyPending, A.Launches;
  }

  lemma StopsActive(db: Db, a: Action, c: CampaignId)
    requires c in db.campaigns && Stops(db, a, c)
    ensures C.Active(db.campaigns[c].status)
  {}

  // Only the ends of sends, notifications, pauses and phone changes stop a campaign.
  lemma StopsNothing(db: Db, a: Action, c: CampaignId)
    requires c in db.campaigns && !a.APause? && !a.ASetPhone? && !SendFails(db, a) && !Notification(db, a)
    ensures !Stops(db, a, c)
  {
    hide SendFails, Notification;
  }

  lemma RecountsNothing(db: Db, a: Action, c: CampaignId)
    requires !a.ARefresh? && !a.ACancel? && !a.AFinish? && !a.AWebhook?
    ensures !Recounts(db, a, c)
  {}

  // Calls that write no campaign, or only insert one.
  predicate LeavesCampaigns(a: Action) {
    a.ACreate? || a.AClaim? || a.ADie? || a.AOptOut? || a.ASettings? || a.ATick?
  }

  lemma LeftIs(db: Db, a: Action, c: CampaignId)
    requires LeavesCampaigns(a) && c in db.campaigns
    ensures c in Step(db, a).campaigns && Step(db, a).campaigns[c] == db.campaigns[c]
  {
    hide Keep, ClaimWriteOf;
  }

  lemma LeftLaunchesNone(db: Db, a: Action)
    requires !a.AStart? && !a.AResume? && !a.ADispatch?
    ensures !A.Launches(db, a)
  {}

  lemma LeftFollows(db: Db, a: Action, c: CampaignId)
    requires LeavesCampaigns(a) && c in db.campaigns
    ensures Follows(db, a, c)
  {
    hide Step, Stops, Recounts, Counted, Quiet, Refreshed, StatusFollows, FieldsFollow, A.Launches;
    LeftIs(db, a, c);
    StopsNothing(db, a, c);
    RecountsNothing(db, a, c);
    assert !A.Launches(db, a) by { LeftLaunchesNone(db, a); }
    PausedThenCountedFollows(db, a, c, Step(db, a));
  }

  lemma PauseIs(db: Db, d: CampaignId, c: CampaignId)
    requires c in db.campaigns
    ensures var db' := Step(db, APause(d));
            && c in db'.campaigns
            && db'.campaigns[c] == if Stops(db, APause(d), c) then db.campaigns[c].(status := C.Paused)
                                   else db.campaigns[c]
  {}

  lemma PauseFollows(db: Db, d: CampaignId, c: CampaignId)
    requires c in db.campaigns
    ensures Follows(db, APause(d), c)
  {
    hide Step, Stops, Recounts, Counted, Quiet, Refreshed, StatusFollows, FieldsFollow, A.Launches;
    PauseIs(db, d, c);
    RecountsNothing(db, APause(d), c);
    LeftLaunchesNone(db, APause(d));
    if Stops(db, APause(d), c) {
      StopsActive(db, APause(d), c);
    }
    PausedThenCountedFollows(db, APause(d), c, Step(db, APause(d)));
  }

  lemma PhoneIs(db: Db, p: PhoneId, state: PhoneState, c: CampaignId)
    requires c in db.campaigns
    ensures var db' := SetPhone(db, p, state);
            c in db'.campaigns
            && db'.campaigns[c] == if Stops(db, ASetPhone(p, state), c) then db.campaigns[c].(status := C.Paused)
                                   else db.campaigns[c]
  {}

  lemma PhoneFollows(db: Db, p: PhoneId, state: PhoneState, c: CampaignId)
    requires c in db.campaigns
    ensures Follows(db, ASetPhone(p, state), c)
  {
    PhoneIs(db, p, state, c);
    hide SetPhone, Stops, Counted, Quiet;
    PausedThenCountedFollows(db, ASetPhone(p, state), c, Step(db, ASetPhone(p, state))) by {
      if Stops(db, ASetPhone(p, state), c) { StopsActive(db, ASetPhone(p, state), c); }
    }
  }

  lemma RefreshStepIs(db: Db, d: CampaignId, c: CampaignId)
    requires c in db.campaigns
    ensures var db' := Step(db, ARefresh(d));
            && c in db'.campaigns
            && (if c == d then Refreshed(db', db.campaigns[c], db'.campaigns[c], c)
                else db'.campaigns[c] == db.campaigns[c])
  {
    hide Refreshed, Refresh;
    assert Step(db, ARefresh(d)) == Refresh(db, d);
    if d in db.campaigns {
      RefreshIs(db, d);
    } else {
      UnknownIsLeft(db, d);
    }
  }

  lemma RefreshFollows(db: Db, d: CampaignId, c: CampaignId)
    requires c in db.campaigns
    ensures Follows(db, ARefresh(d), c)
  {
    hide Step, Stops, Counted, Quiet, Refreshed, StatusFollows, FieldsFollow, A.Launches;
    RefreshStepIs(db, d, c);
    StopsNothing(db, ARefresh(d), c);
    LeftLaunchesNone(db, ARefresh(d));
    PausedThenCountedFollows(db, ARefresh(d), c, Step(db, ARefresh(d)));
  }

  lemma StopsIsPausedBy(db: Db, r: RowId, result: SendResult, c: CampaignId)
    requires SendFails(db, AFinish(r, result)) && c in db.campaigns
    requires AfterFailed(db, r, result).campaigns == db.campaigns
    ensures Stops(db, AFinish(r, result), c) == PausedBy(AfterFailed(db, r, result), r.campaign, result.category, c)
    ensures Recounts(db, AFinish(r, result), c) <==> c == r.campaign
  {
    hide AfterFailed, PauseReasonOf;
  }

  lemma FailedIs(db: Db, r: RowId, result: SendResult, c: CampaignId)
    requires c in db.campaigns && SendFails(db, AFinish(r, result))
    ensures FinishIs(db, r, result, c)
  {
    hide FinishSend, AfterFailure, AfterFailed, Stops, Recounts, PausedBy, PausedThenCounted, WillRetry;
    FailedSendIs(db, r, result);
    FailureIs(AfterFailed(db, r, result), r.campaign, result.category, c);
    StopsIsPausedBy(db, r, result, c);
  }

  lemma RecordedIs(db: Db, r: RowId, result: SendResult, c: CampaignId)
    requires c in db.campaigns && SendEnds(db, AFinish(r, result)) && result.Recorded?
    ensures FinishIs(db, r, result, c)
  {
    hide FinishSend, RecordSent, Refresh, Refreshed, Stops, WillRetry;
    RecordedSendIs(db, r, result);
    RefreshIs(RecordSent(db, r, result.answer, result.message).(sending := db.sending - {r}), r.campaign);
    NoFailureNoStop(db, r, result, c);
  }

  lemma OtherwiseIs(db: Db, r: RowId, result: SendResult, c: CampaignId)
    requires c in db.campaigns
    requires !SendFails(db, AFinish(r, result)) && !(SendEnds(db, AFinish(r, result)) && result.Recorded?)
    ensures FinishIs(db, r, result, c)
  {
    hide FinishSend, Refreshed, Stops, WillRetry;
    OtherSendsKeepCampaigns(db, r, result);
    NoFailureNoStop(db, r, result, c);
  }

  ghost predicate FinishIs(db: Db, r: RowId, result: SendResult, c: CampaignId)
    requires c in db.campaigns
  {
    var a, db' := AFinish(r, result), FinishSend(db, r, result);
    && c in db'.campaigns
    && PausedThenCounted(db', db.campaigns[c], db'.campaigns[c], Stops(db, a, c), Recounts(db, a, c), c)
  }

  lemma FinishFollows(db: Db, r: RowId, result: SendResult, c: CampaignId)
    requires c in db.campaigns
    ensures Follows(db, AFinish(r, result), c)
  {
    var a := AFinish(r, result);
    hide FinishSend, Stops, Recounts, PausedThenCounted, StatusFollows, FieldsFollow, A.Launches, WillRetry;
    if SendFails(db, a) {
      FailedIs(db, r, result, c);
    } else if SendEnds(db, a) && result.Recorded? {
      RecordedIs(db, r, result, c);
    } else {
      OtherwiseIs(db, r, result, c);
    }
    LeftLaunchesNone(db, a);
    if Stops(db, a, c) {
      StopsActive(db, a, c);
    }
    PausedThenCountedFollows(db, a, c, FinishSend(db, r, result));
  }

  lemma NoFailureNoStop(db: Db, r: RowId, result: SendResult, c: CampaignId)
    requires c in db.campaigns && !SendFails(db, AFinish(r, result))
    ensures !Stops(db, AFinish(r, result), c)
  {
    hide SendFails;
  }

  lemma WebhookFollows(db: Db, message: MessageId, status: R.Status, c: CampaignId)
    requires c in db.campaigns
    ensures Follows(db, AWebhook(message, status), c)
  {
    var a := AWebhook(message, status);
    assert Step(db, a) == StatusWebhook(db, message, status) by { hide StatusWebhook; }
    WebhookIs(db, message, status, c);
    hide StatusWebhook, Stops, Counted, Quiet;
    PausedThenCountedFollows(db, a, c, StatusWebhook(db, message, status)) by {
      if Stops(db, a, c) { StopsActive(db, a, c); }
    }
  }

  lemma WebhookStopsIs(db: Db, message: MessageId, status: R.Status, c: CampaignId)
    requires c in db.campaigns
    ensures var a := AWebhook(message, status);
            && (Stops(db, a, c) <==> Notification(db, a) && status.Failed? && db.messages[message].campaign == c
                                     && db.campaigns[c].status.Running?
                                     && PauseReasonOf(AfterNotified(db, message, status), c).Some?)
            && (Recounts(db, a, c) <==> Notification(db, a) && db.messages[message].campaign == c)
  {
    hide AfterNotified, PauseReasonOf;
  }

  lemma WebhookCampaigns(db: Db, message: MessageId, status: R.Status)
    ensures StatusWebhook(db, message, status)
         == if !Notification(db, AWebhook(message, status)) then db
            else
              var notified := AfterNotified(db, message, status);
              var d := db.messages[message].campaign;
              Refresh(if status.Failed? then EvaluateAutoPause(notified, d) else notified, d)
    ensures Notification(db, AWebhook(message, status)) ==> AfterNotified(db, message, status).campaigns == db.campaigns
  {
    hide Refresh, EvaluateAutoPause, Keep;
  }

  lemma UnknownIsLeft(db: Db, d: CampaignId)
    requires d !in db.campaigns
    ensures EvaluateAutoPause(db, d) == db && Refresh(db, d) == db
  {}

  lemma WebhookIs(db: Db, message: MessageId, status: R.Status, c: CampaignId)
    requires c in db.campaigns
    ensures var a, db' := AWebhook(message, status), StatusWebhook(db, message, status);
            && c in db'.campaigns
            && PausedThenCounted(db', db.campaigns[c], db'.campaigns[c], Stops(db, a, c), Recounts(db, a, c), c)
  {
    hide StatusWebhook, Stops, Recounts, Refresh, EvaluateAutoPause, AfterNotified, PauseReasonOf, Refreshed;
    WebhookStopsIs(db, message, status, c);
    WebhookCampaigns(db, message, status);
    if Notification(db, AWebhook(message, status)) {
      var d := db.messages[message].campaign;
      var notified := AfterNotified(db, message, status);
      if d in db.campaigns {
        EvaluatedIs(notified, d, c);
        EvaluatedIs(notified, d, d);
        RefreshIs(if status.Failed? then EvaluateAutoPause(notified, d) else notified, d);
      } else {
        UnknownIsLeft(notified, d);
      }
    }
  }

  lemma EvaluatedIs(db: Db, d: CampaignId, c: CampaignId)
    requires c in db.campaigns && d in db.campaigns
    ensures var db' := EvaluateAutoPause(db, d);
            && db'.campaigns.Keys == db.campaigns.Keys && db'.rows == db.rows
            && db'.campaigns[c] == if c == d && db.campaigns[c].status.Running? && PauseReasonOf(db, c).Some?
                                   then db.campaigns[c].(status := C.Paused) else db.campaigns[c]
  {
    hide PauseReasonOf;
  }

  lemma CancelIs(db: Db, d: CampaignId, c: CampaignId)
    requires c in db.campaigns
    ensures var db' := Cancel(db, d);
            && c in db'.campaigns
            && (if c == d && CancelResponse(db, c).Done?
                then db'.campaigns[c] == db.campaigns[c].(status := C.Cancelled, counts := db'.campaigns[c].counts)
                     && Counted(db', c, db'.campaigns[c].counts)
                else db'.campaigns[c] == db.campaigns[c])
  {
    hide Refresh, Counted, Quiet;
    if CancelResponse(db, d).Done? {
      var hit := (r: RowId) => r in db.rows && r.campaign == d && R.Waiting(db.rows[r].status);
      var cancelled := SetStatus(UpdateRows(db, hit, R.Cancelled), d, C.Cancelled);
      hide UpdateRows;
      assert UpdateRows(db, hit, R.Cancelled).campaigns == db.campaigns
             by { UpdateKeepsCampaigns(db, hit, R.Cancelled); }
      RefreshIs(cancelled, d);
    }
  }

  lemma UpdateKeepsCampaigns(db: Db, hit: RowId -> bool, status: R.Status)
    ensures UpdateRows(db, hit, status).campaigns == db.campaigns
  {}

  lemma CancelFollows(db: Db, d: CampaignId, c: CampaignId)
    requires c in db.campaigns
    ensures Follows(db, ACancel(d), c)
  {
    var a := ACancel(d);
    hide Cancel, CancelResponse, Counted, Quiet, Stops, AnyPending, A.Launches, CountFor;
    CancelIs(db, d, c);
    StopsNothing(db, a, c);
    LeftLaunchesNone(db, a);
  }

  lemma DispatchIs(db: Db, c: CampaignId, refused: set<RowId>)
    ensures var startedAt := if c in db.campaigns then db.campaigns[c].startedAt else None;
            Dispatch(db, c, refused).campaigns
            == if MayDispatch(db, c)
               then db.campaigns[c := db.campaigns[c].(status := C.Running,
                                                       startedAt := if startedAt.Some? then startedAt
                                                           else Some(db.now))]
               else db.campaigns
  {
    hide Selected, HasCompetitor, RowsWith, QueueBatch;
    if MayDispatch(db, c) {
      QueueKeepsCampaigns(db, Selected(db, c), refused);
    }
  }

  lemma LaunchIs(db: Db, a: Action, c: CampaignId)
    requires c in db.campaigns && (a.AStart? || a.AResume? || a.ADispatch?)
    ensures var db' := Step(db, a);
            && c in db'.campaigns
            && db'.campaigns[c] ==
                 if A.Launches(db, a) && a.c == c
                 then db.campaigns[c].(status := C.Running,
                                       startedAt := if Begins(db, a, c) then Some(db.now)
                                           else db.campaigns[c].startedAt)
                 else db.campaigns[c]
  {
    hide Dispatch, MayDispatch, StartRefusal, Keep;
    match a
    case AStart(d, templateUsable, refused) =>
      if StartResponse(db, d, templateUsable).Done? {
        DispatchIs(MarkStarted(EnsurePhone(db, db.campaigns[d].phone), d, db.campaigns[d].startedAt), d, refused);
      }
    case AResume(d, templateUsable, refused) =>
      if ResumeResponse(db, d, templateUsable).Done? {
        DispatchIs(Reopen(db, d), d, refused);
      }
    case ADispatch(d, refused) => DispatchIs(db, d, refused);
  }

  lemma BeginsNothing(db: Db, a: Action, c: CampaignId)
    requires c in db.campaigns && (!A.Launches(db, a) || a.c != c)
    ensures !Begins(db, a, c)
  {
    hide A.Launches;
  }

  lemma LaunchFollows(db: Db, a: Action, c: CampaignId)
    requires c in db.campaigns && (a.AStart? || a.AResume? || a.ADispatch?)
    ensures Follows(db, a, c)
  {
    hide Step, Stops, Recounts, Counted, CountFor, Quiet, AnyPending, A.Launches, Begins, CancelResponse;
    LaunchIs(db, a, c);
    StopsNothing(db, a, c);
    RecountsNothing(db, a, c);
    if !A.Launches(db, a) || a.c != c {
      BeginsNothing(db, a, c);
    }
  }

  lemma {:induction false} KeysSize(c: CampaignId, debts: set<P.DebtId>)
    ensures |set d | d in debts :: RowId(c, d)| == |debts|
  {
    var keys := set d | d in debts :: RowId(c, d);
    if debts != {} {
      var d :| d in debts;
      KeysSize(c, debts - {d});
      assert keys == (set e | e in debts - {d} :: RowId(c, e)) + {RowId(c, d)};
    } else {
      assert keys == {};
    }
  }

  lemma PreparedRow(db: Db, c: CampaignId, items: seq<P.Item>, r: RowId)
    requires MayPrepare(db, c) && r.campaign == c
    ensures var db' := Prepare(db, c, items);
            var prepared := P.PreparedRows(OnPhone(items, PhoneOf(db, db.campaigns[c].phone)));
            r in db'.rows && db'.rows[r].status.Pending? <==> r.debt in P.PendingRows(prepared)
  {
    hide OnPhone, P.PreparedRows, Inserted;
    assert r == RowId(c, r.debt);
  }

  lemma PreparedPending(db: Db, c: CampaignId, items: seq<P.Item>)
    requires MayPrepare(db, c)
    ensures var db' := Prepare(db, c, items);
            var prepared := P.PreparedRows(OnPhone(items, PhoneOf(db, db.campaigns[c].phone)));
            && CountFor(db', c, R.Pending) == |P.PendingRows(prepared)|
            && (AnyPending(db', c) <==> P.PendingRows(prepared) != {})
  {
    hide Prepare, OnPhone, P.PreparedRows, P.PendingRows;
    var db' := Prepare(db, c, items);
    var debts := P.PendingRows(P.PreparedRows(OnPhone(items, PhoneOf(db, db.campaigns[c].phone))));
    var pending := set r | r in db'.rows && r.campaign == c && db'.rows[r].status == R.Pending;
    var keys := set d | d in debts :: RowId(c, d);
    forall r: RowId | r.campaign == c ensures r in pending <==> r in keys {
      PreparedRow(db, c, items, r);
      assert r == RowId(c, r.debt);
    }
    assert pending == keys;
    KeysSize(c, debts);
    if debts != {} {
      var d :| d in debts;
      assert RowId(c, d) in pending;
    }
  }

  lemma PrepareIs(db: Db, d: CampaignId, items: seq<P.Item>, c: CampaignId)
    requires c in db.campaigns
    ensures var db' := Prepare(db, d, items);
            && c in db'.campaigns
            && db'.campaigns[c] ==
                 if c == d && MayPrepare(db, c)
                 then db.campaigns[c].(status := if AnyPending(db', c) then C.Scheduled else C.Failed,
                                       eligibleCount := CountFor(db', c, R.Pending))
                 else db.campaigns[c]
  {
    if MayPrepare(db, d) {
      PreparedPending(db, d, items);
    }
    hide OnPhone, P.PreparedRows, P.PendingRows, Inserted, PreparedRecipients, AnyPending, CountFor;
  }

  lemma PrepareFollows(db: Db, d: CampaignId, items: seq<P.Item>, c: CampaignId)
    requires c in db.campaigns
    ensures Follows(db, APrepare(d, items), c)
  {
    var a := APrepare(d, items);
    hide Prepare, MayPrepare, Stops, Recounts, AnyPending, CountFor, Counted, Quiet, A.Launches;
    PrepareIs(db, d, items, c);
    StopsNothing(db, a, c);
    RecountsNothing(db, a, c);
    LeftLaunchesNone(db, a);
  }

  lemma StepFollows(db: Db, a: Action, c: CampaignId)
    requires c in db.campaigns
    ensures Follows(db, a, c)
  {
    hide Step, Follows;
    match a
    case APause(d) => PauseFollows(db, d, c);
    case ARefresh(d) => RefreshFollows(db, d, c);
    case ASetPhone(p, state) => PhoneFollows(db, p, state, c);
    case AFinish(r, result) => FinishFollows(db, r, result, c);
    case AWebhook(message, status) => WebhookFollows(db, message, status, c);
    case ACancel(d) => CancelFollows(db, d, c);
    case APrepare(d, items) => PrepareFollows(db, d, items, c);
    case AStart(_, _, _) => LaunchFollows(db, a, c);
    case AResume(_, _, _) => LaunchFollows(db, a, c);
    case ADispatch(_, _) => LaunchFollows(db, a, c);
    case _ => LeftFollows(db, a, c);
  }

  // ---------------------------------------------------------------------------------------------
  // The main results
  // ---------------------------------------------------------------------------------------------

  lemma StatusChangesExactly(db: Db, a: Action, c: CampaignId)
    requires c in db.campaigns
    ensures c in Step(db, a).campaigns && StatusFollows(db, a, c, Step(db, a))
  {
    hide Step, StatusFollows, FieldsFollow;
    StepFollows(db, a, c);
  }

  lemma FieldsChangeExactly(db: Db, a: Action, c: CampaignId)
    requires c in db.campaigns
    ensures c in Step(db, a).campaigns && FieldsFollow(db, a, c, Step(db, a))
  {
    hide Step, StatusFollows, FieldsFollow;
    StepFollows(db, a, c);
  }

  /** A send that fails for good because of its template stops its campaign, whatever the pause rule says. */
  lemma TemplateFailureStops(db: Db, r: RowId, result: SendResult)
    requires SendFails(db, AFinish(r, result)) && result.category.PermanentTemplate?
    ensures var db' := FinishSend(db, r, result);
            r.campaign in db'.campaigns && !C.Active(db'.campaigns[r.campaign].status)
  {
    hide FinishSend, WillRetry, Quiet, Counted, Recounts;
    FailedIs(db, r, result, r.campaign);
    FailureRecounts(db, r, result, r.campaign);
  }

  lemma FailureRecounts(db: Db, r: RowId, result: SendResult, c: CampaignId)
    requires SendFails(db, AFinish(r, result))
    ensures Recounts(db, AFinish(r, result), c) <==> c == r.campaign
  {}

  /** One that fails for good because of its recipient, or after retries, changes the status of no campaign when the
      pause rule is silent about its own and that one has something open left. */
  lemma OtherFailuresKeep(db: Db, r: RowId, result: SendResult, c: CampaignId)
    requires c in db.campaigns && SendFails(db, AFinish(r, result))
    requires Retryable(result.category) || result.category.PermanentRecipient?
    requires PauseReasonOf(AfterFailed(db, r, result), r.campaign).None?
    ensures var db' := FinishSend(db, r, result);
            && c in db'.campaigns
            && (!Quiet(db', r.campaign) ==> db'.campaigns[c].status == db.campaigns[c].status)
  {
    hide FinishSend, WillRetry, Quiet, Counted, Stops, Recounts;
    FailedIs(db, r, result, c);
    FailureRecounts(db, r, result, c);
    SilentRuleStopsNothing(db, r, result, c);
  }

  lemma SilentRuleStopsNothing(db: Db, r: RowId, result: SendResult, c: CampaignId)
    requires c in db.campaigns && SendFails(db, AFinish(r, result))
    requires Retryable(result.category) || result.category.PermanentRecipient?
    requires PauseReasonOf(AfterFailed(db, r, result), r.campaign).None?
    ensures !Stops(db, AFinish(r, result), c)
  {
    hide PauseReasonOf, AfterFailed, WillRetry;
  }

  // ---------------------------------------------------------------------------------------------
  // Phones and the rest
  // ---------------------------------------------------------------------------------------------

  /** A known phone changes only by an account failure on it, which restricts and disables it, and by an
      administrator. */
  lemma PhoneChangesExactly(db: Db, a: Action, p: PhoneId)
    ensures PhoneOf(Step(db, a), p) ==
              if SendFails(db, a) && AccountFailure(a.result.category) && db.campaigns[a.row.campaign].phone == p
                 && p in db.phones
              then PhoneState(false, Restricted)
              else if a.ASetPhone? && a.phone == p then a.state
              else PhoneOf(db, p)
  {
    if a.AFinish? {
      FinishPhones(db, a.row, a.result, p);
      FinishIsStep(db, a);
    } else {
      OtherFrame(db, a);
    }
    hide Step, FinishSend;
  }

  lemma FinishIsStep(db: Db, a: Action)
    requires a.AFinish?
    ensures Step(db, a) == FinishSend(db, a.row, a.result)
  {
    hide FinishSend;
  }

  lemma RefreshKeepsPhones(db: Db, c: CampaignId)
    ensures Refresh(db, c).phones == db.phones && EvaluateAutoPause(db, c).phones == db.phones
    ensures PauseOne(db, c).phones == db.phones
  {
    hide CountOf, CountsOf, PauseReasonOf;
  }

  lemma FinishPhones(db: Db, r: RowId, result: SendResult, p: PhoneId)
    ensures var a := AFinish(r, result);
            PhoneOf(FinishSend(db, r, result), p) ==
              if SendFails(db, a) && AccountFailure(result.category) && db.campaigns[r.campaign].phone == p
                  && p in db.phones
              then PhoneState(false, Restricted) else PhoneOf(db, p)
  {
    hide Refresh, EvaluateAutoPause, PauseOne, Keep;
    if SendFails(db, AFinish(r, result)) {
      var failed := AfterFailed(db, r, result);
      FailedSendIs(db, r, result);
      RefreshKeepsPhones(failed, r.campaign);
      RefreshKeepsPhones(Paused(failed, r.campaign, result.category), r.campaign);
    } else if SendEnds(db, AFinish(r, result)) && result.Recorded? {
      RecordedSendIs(db, r, result);
      RefreshKeepsPhones(RecordSent(db, r, result.answer, result.message).(sending := db.sending - {r}), r.campaign);
    }
  }

  // The tables that a dispatch leaves alone.
  lemma DispatchFrame(db: Db, c: CampaignId, refused: set<RowId>)
    ensures var db' := Dispatch(db, c, refused);
            db' == db.(rows := db'.rows, latest := db'.latest, campaigns := db'.campaigns)
  {
    hide HasCompetitor, RowsWith, QueueBatch, Selected;
    if MayDispatch(db, c) {
      QueueKeepsCampaigns(db, Selected(db, c), refused);
    }
  }

  // The tables that a start, a resume and a dispatch leave alone.
  lemma LaunchFrame(db: Db, a: Action)
    requires a.AStart? || a.AResume? || a.ADispatch?
    ensures var db' := Step(db, a);
            db' == db.(rows := db'.rows, latest := db'.latest, campaigns := db'.campaigns, phones := db'.phones)
    ensures forall p :: PhoneOf(Step(db, a), p) == PhoneOf(db, p)
  {
    hide Dispatch, StartRefusal, Keep;
    match a
    case AStart(c, templateUsable, refused) =>
      if StartResponse(db, c, templateUsable).Done? {
        DispatchFrame(MarkStarted(EnsurePhone(db, db.campaigns[c].phone), c, db.campaigns[c].startedAt), c, refused);
      }
    case AResume(c, templateUsable, refused) =>
      if ResumeResponse(db, c, templateUsable).Done? {
        DispatchFrame(Reopen(db, c), c, refused);
      }
    case ADispatch(c, refused) => DispatchFrame(db, c, refused);
  }

  lemma PrepareFrame(db: Db, a: Action)
    requires a.APrepare?
    ensures var db' := Step(db, a);
            db' == db.(rows := db'.rows, order := db'.order, latest := db'.latest, campaigns := db'.campaigns)
  {
    hide Inserted, OnPhone, P.PreparedRows, P.PendingRows, PreparedRecipients;
  }

  // The tables that the other calls leave alone.
  lemma OtherFrame(db: Db, a: Action)
    requires !a.AFinish?
    ensures Step(db, a).messages == db.messages
    ensures !a.AClaim? && !a.ADie? ==> Step(db, a).sending == db.sending
    ensures forall p :: PhoneOf(Step(db, a), p) == if a.ASetPhone? && a.phone == p then a.state else PhoneOf(db, p)
  {
    if a.AStart? || a.AResume? || a.ADispatch? {
      LaunchFrame(db, a);
    } else if a.APrepare? {
      PrepareFrame(db, a);
    } else {
      SmallFrame(db, a);
    }
    hide Step;
  }

  lemma SmallFrame(db: Db, a: Action)
    requires !a.AFinish? && !a.AStart? && !a.AResume? && !a.ADispatch? && !a.APrepare?
    ensures Step(db, a).messages == db.messages
    ensures !a.AClaim? && !a.ADie? ==> Step(db, a).sending == db.sending
    ensures forall p :: PhoneOf(Step(db, a), p) == if a.ASetPhone? && a.phone == p then a.state else PhoneOf(db, p)
  {
    if a.APause? || a.ARefresh? || a.ACancel? || a.AWebhook? {
      CampaignsOnly(db, a);
      hide Step;
    } else {
      hide ClaimRecipient, CreateCampaign, SetPhone, OptOut;
      match a
      case AClaim(r) => ClaimFrame(db, r);
      case ACreate(c, phone, rate, batchSize, batchDelay) => CreateFrame(db, c, phone, rate, batchSize, batchDelay);
      case ASetPhone(p, state) => PhoneFrame(db, p, state);
      case AOptOut(customer) => OptOutEmpties(db, customer);
      case _ =>
    }
  }

  lemma ClaimFrame(db: Db, r: RowId)
    ensures ClaimRecipient(db, r).messages == db.messages && ClaimRecipient(db, r).phones == db.phones
  {
    hide ClaimWriteOf, Keep;
  }

  lemma CreateFrame(db: Db, c: CampaignId, p: PhoneId, rate: nat, batchSize: nat, batchDelay: nat)
    ensures var db' := CreateCampaign(db, c, p, rate, batchSize, batchDelay);
            && db'.messages == db.messages && db'.sending == db.sending
            && forall q :: PhoneOf(db', q) == PhoneOf(db, q)
  {}

  lemma PhoneFrame(db: Db, p: PhoneId, state: PhoneState)
    ensures var db' := SetPhone(db, p, state);
            && db'.messages == db.messages && db'.sending == db.sending
            && forall q :: PhoneOf(db', q) == if q == p then state else PhoneOf(db, q)
  {}

  // The tables that a pause, a count, a cancel and a notification leave alone.
  lemma CampaignsOnly(db: Db, a: Action)
    requires a.APause? || a.ARefresh? || a.ACancel? || a.AWebhook?
    ensures var db' := Step(db, a);
            db' == db.(rows := db'.rows, latest := db'.latest, campaigns := db'.campaigns)
  {
    hide Refresh, EvaluateAutoPause, PauseOne, Cancel, StatusWebhook;
    match a
    case APause(c) => RefreshFrame(db, c);
    case ARefresh(c) => RefreshFrame(db, c);
    case ACancel(c) => CancelFrame(db, c);
    case AWebhook(message, status) => WebhookFrame(db, message, status);
  }

  lemma CancelFrame(db: Db, c: CampaignId)
    ensures var db' := Cancel(db, c);
            db' == db.(rows := db'.rows, latest := db'.latest, campaigns := db'.campaigns)
  {
    hide Refresh, Keep;
    if CancelResponse(db, c).Done? {
      var hit := (r: RowId) => r in db.rows && r.campaign == c && R.Waiting(db.rows[r].status);
      RefreshFrame(SetStatus(UpdateRows(db, hit, R.Cancelled), c, C.Cancelled), c);
    }
  }

  lemma WebhookFrame(db: Db, message: MessageId, status: R.Status)
    ensures var db' := StatusWebhook(db, message, status);
            db' == db.(rows := db'.rows, latest := db'.latest, campaigns := db'.campaigns)
  {
    hide Refresh, EvaluateAutoPause, Keep;
    if Notification(db, AWebhook(message, status)) {
      var notified := AfterNotified(db, message, status);
      var d := db.messages[message].campaign;
      RefreshFrame(notified, d);
      RefreshFrame(if status.Failed? then EvaluateAutoPause(notified, d) else notified, d);
    }
  }

  // ---------------------------------------------------------------------------------------------
  // New campaigns and recipients
  // ---------------------------------------------------------------------------------------------

  /** A new campaign is QUEUED, with the phone and the limits that it was created with. */
  lemma CreatedIs(db: Db, c: CampaignId, p: PhoneId, rate: nat, batchSize: nat, batchDelay: nat)
    requires c !in db.campaigns
    ensures var db' := Step(db, ACreate(c, p, rate, batchSize, batchDelay));
            && c in db'.campaigns && p in db'.phones
            && var campaign := db'.campaigns[c];
            && campaign.status.Queued? && campaign.phone == p && campaign.startedAt.None? && campaign.eligibleCount == 0
            && campaign.ratePerMinute == Some(rate) && campaign.batchSize == Some(batchSize)
            && campaign.batchDelayMs == Some(batchDelay) && campaign.counts == Counts(0, 0, 0, 0, 0, 0, 0)
  {}

  /** A preparation adds a recipient for each prepared debt, with its customer, PENDING or SKIPPED as it was prepared on
      the stored state of the campaign's phone, and without attempts. */
  lemma PreparedAre(db: Db, c: CampaignId, items: seq<P.Item>, r: RowId)
    requires MayPrepare(db, c) && r.campaign == c
    ensures var db' := Step(db, APrepare(c, items));
            var prepared := P.PreparedRows(OnPhone(items, PhoneOf(db, db.campaigns[c].phone)));
            && (r in db'.rows <==> r.debt in prepared)
            && (r in db'.rows ==>
                  && db'.rows[r].customer == prepared[r.debt].customer
                  && db'.rows[r].status == (if prepared[r.debt].status.Pending? then R.Pending else R.Skipped)
                  && db'.rows[r].attemptCount == 0 && db'.rows[r].providerId.None? && db'.rows[r].message.None?
                  && db'.rows[r].nextAttemptAt.None?)
  {
    hide OnPhone, P.PreparedRows, Inserted;
    assert r == RowId(c, r.debt);
  }
}
