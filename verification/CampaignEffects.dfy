// What the campaign calls achieve, for every state: which rows and campaigns change, which do not, and what a halt
// means for everything that follows.

module CampaignEffects {
  import opened Options
  import opened CampaignErrors
  import opened PhoneSafety
  import opened CampaignService
  import opened CampaignInvariants
  import opened CampaignGuarantees
  import opened AutoPause
  import P = Preparation
  import R = RecipientStatus
  import C = CampaignStatus

  // ---------------------------------------------------------------------------------------------
  // Sending
  // ---------------------------------------------------------------------------------------------

  /** A job reaches the provider call exactly when its row is QUEUED and has no provider id and its campaign runs; the
      row is then PROCESSING with one attempt more. No other row changes. */
  lemma ClaimExactly(db: Db, r: RowId)
    requires r in db.rows && r.campaign in db.campaigns && r !in db.sending
    ensures var row, db' := db.rows[r], ClaimRecipient(db, r);
            && (r in db'.sending
                <==> row.status.Queued? && row.providerId.None? && db.campaigns[r.campaign].status.Running?)
            && (r in db'.sending ==> db'.rows[r].status.Processing? && db'.rows[r].attemptCount == row.attemptCount + 1)
            && (r in db'.sending ==> db'.sending[r] == row.attemptCount)
            && (r !in db'.sending ==> !db'.rows[r].status.Processing? || row.status.Processing?)
    ensures forall q :: q in db.rows && q != r ==>
            q in ClaimRecipient(db, r).rows && ClaimRecipient(db, r).rows[q] == db.rows[q]
  {
    hide Keep;
  }

  /** A row whose send ends in the catch block, rejected or after its commit, is QUEUED again, for later, exactly when
      the error may be retried and the attempts are not used up, and is FAILED otherwise. */
  lemma CaughtRow(db: Db, r: RowId, result: SendResult)
    requires r in db.sending && r in db.rows && r.campaign in db.campaigns && ReachesCatch(db, result)
    ensures var db' := FinishSend(db, r, result);
            && r !in db'.sending && r in db'.rows
            && (db'.rows[r].status.Queued? <==> Retryable(result.category) && db.sending[r] + 1 < db.env.attempts)
            && (db'.rows[r].status.Queued? ==> db'.rows[r].nextAttemptAt == Some(db.now + result.delayMs))
            && (db'.rows[r].status.Queued? || db'.rows[r].status.Failed?)
  {
    hide Keep, FinishSend, AfterFailure;
    if WillRetry(db, r, result.category) {
      var caught := CaughtResult(db, r, result);
    } else {
      var failed := FailedResult(db, r, result);
      AfterFailureKeepsRows(failed, r.campaign, result.category);
    }
  }

  lemma AfterFailureKeepsRows(db: Db, c: CampaignId, category: Category)
    requires c in db.campaigns
    ensures var db' := AfterFailure(db, c, category); db'.rows == db.rows && db'.sending == db.sending
  {
    hide Refresh, PauseOne, EvaluateAutoPause, PauseOnPhone;
    RefreshFrame(db, c);
    PauseOnPhoneKeepsRows(db, db.campaigns[c].phone);
    var paused := if category.Authentication? || category.PermanentAccount? then PausePhone(db, db.campaigns[c].phone)
                  else if category.PermanentTemplate? then PauseOne(db, c)
                  else EvaluateAutoPause(db, c);
    RefreshFrame(paused, c);
  }

  lemma PauseOnPhoneKeepsRows(db: Db, p: PhoneId)
    ensures PauseOnPhone(db, p).rows == db.rows && PauseOnPhone(db, p).sending == db.sending
  {}

  // ---------------------------------------------------------------------------------------------
  // Dispatching
  // ---------------------------------------------------------------------------------------------

  lemma {:induction false} QueueBatchExactly(db: Db, batch: seq<RowId>, refused: set<RowId>, r: RowId)
    requires r in db.rows && forall q :: q in batch ==> q in db.rows && db.rows[q].status.Pending?
    ensures var db' := QueueBatch(db, batch, refused);
            && db'.rows.Keys == db.rows.Keys
            && db'.rows[r] == if r in batch && r !in refused then db.rows[r].(status := R.Queued) else db.rows[r]
    decreases |batch|
  {
    hide Keep;
    if batch != [] {
      var n := |batch| - 1;
      assert batch == batch[..n] + [batch[n]];
      QueueBatchExactly(db, batch[..n], refused, r);
      if batch[n] != r {
        QueueBatchExactly(db, batch[..n], refused, batch[n]);
      }
    }
  }

  /** A dispatch that is not held back queues exactly the selected rows that the queue takes, sets the campaign RUNNING
      and gives it a start time unless it has one. It touches no other row and no other campaign. */
  lemma DispatchExactly(db: Db, c: CampaignId, refused: set<RowId>)
    requires MayDispatch(db, c)
    ensures var db' := Dispatch(db, c, refused);
            && c in db'.campaigns && db'.campaigns[c].status.Running? && db'.campaigns[c].startedAt.Some?
            && (db.campaigns[c].startedAt.Some? ==> db'.campaigns[c].startedAt == db.campaigns[c].startedAt)
            && (forall d :: d in db.campaigns && d != c ==> d in db'.campaigns && db'.campaigns[d] == db.campaigns[d])
    ensures forall r :: r in db.rows ==>
              r in Dispatch(db, c, refused).rows
              && Dispatch(db, c, refused).rows[r] ==
                   if r in Selected(db, c) && r !in refused then db.rows[r].(status := R.Queued) else db.rows[r]
  {
    hide QueueBatch, HasCompetitor, RowsWith, Keep;
    SelectedIsDue(db, c);
    var queued := QueueBatch(db, Selected(db, c), refused);
    QueueKeepsCampaigns(db, Selected(db, c), refused);
    hide Selected;
    forall r | r in db.rows
      ensures r in queued.rows
      ensures queued.rows[r] == if r in Selected(db, c) && r !in refused then db.rows[r].(status := R.Queued)
              else db.rows[r]
    {
      QueueBatchExactly(db, Selected(db, c), refused, r);
    }
  }

  /** A dispatch passes exactly for a SCHEDULED or RUNNING campaign without a running competitor that started no later,
      with nothing QUEUED or PROCESSING, something due, and a batch size above zero. */
  lemma DispatchAnswers(db: Db, c: CampaignId)
    requires c in db.campaigns && forall r :: r in db.rows ==> r in db.order
    ensures MayDispatch(db, c) <==>
              var campaign := db.campaigns[c];
              var start := if campaign.startedAt.Some? then campaign.startedAt.value else db.now;
              && (campaign.status.Scheduled? || campaign.status.Running?)
              && !(exists d, t :: d in db.campaigns && d != c && db.campaigns[d].phone == campaign.phone
                                  && db.campaigns[d].status.Running? && db.campaigns[d].startedAt == Some(t)
                                     && t <= start)
              && !(exists r :: r in db.rows && r.campaign == c
                               && (db.rows[r].status.Queued? || db.rows[r].status.Processing?))
              && (exists r :: IsDue(db, c, r)) && BatchSize(db, c) > 0
  {
    CompetitorIs(db, c);
    InFlightIs(db, c);
    SelectsSomething(db, c);
    hide HasCompetitor, RowsWith, Selected, BatchSize;
  }

  // PENDING, and not waiting for a retry.
  predicate IsDue(db: Db, c: CampaignId, r: RowId) {
    r in db.rows && r.campaign == c && db.rows[r].status == R.Pending
    && (match db.rows[r].nextAttemptAt case Some(t) => t <= db.now case None => true)
  }

  lemma CompetitorIs(db: Db, c: CampaignId)
    requires c in db.campaigns
    ensures var campaign := db.campaigns[c];
            var start := if campaign.startedAt.Some? then campaign.startedAt.value else db.now;
            HasCompetitor(db, c) <==>
              exists d, t :: d in db.campaigns && d != c && db.campaigns[d].phone == campaign.phone
                             && db.campaigns[d].status.Running? && db.campaigns[d].startedAt == Some(t) && t <= start
  {
    if d :| d in db.campaigns && Competes(db, c, d) {
      assert db.campaigns[d].startedAt == Some(db.campaigns[d].startedAt.value);
    }
  }

  lemma InFlightIs(db: Db, c: CampaignId)
    ensures RowsWith(db, c, R.InFlight) == {} <==>
              !(exists r :: r in db.rows && r.campaign == c
                            && (db.rows[r].status.Queued? || db.rows[r].status.Processing?))
  {
    if r :| r in db.rows && r.campaign == c && (db.rows[r].status.Queued? || db.rows[r].status.Processing?) {
      assert r in RowsWith(db, c, R.InFlight);
    }
  }

  lemma SelectsSomething(db: Db, c: CampaignId)
    requires c in db.campaigns && forall r :: r in db.rows ==> r in db.order
    ensures Selected(db, c) != [] <==> (exists r :: IsDue(db, c, r)) && BatchSize(db, c) > 0
  {
    var due := (r: RowId) => Due(db, c, r);
    if Selected(db, c) != [] {
      SelectedIsDue(db, c);
      assert Selected(db, c)[0] in Selected(db, c);
      assert IsDue(db, c, Selected(db, c)[0]);
    }
    if r :| IsDue(db, c, r) {
      assert r in Keep(db.order, due);
    }
  }

  /** If the due recipients fit into a batch, exactly they are selected. */
  lemma AllDueAreSelected(db: Db, c: CampaignId, r: RowId)
    requires c in db.campaigns && forall q :: q in db.rows ==> q in db.order
    requires |Keep(db.order, (q: RowId) => Due(db, c, q))| <= BatchSize(db, c)
    ensures r in Selected(db, c) <==> IsDue(db, c, r)
  {
    hide BatchSize;
  }

  /** The selection is the oldest due rows, as many as there are up to the batch size. */
  lemma SelectedAreOldest(db: Db, c: CampaignId, i: nat)
    requires c in db.campaigns && i < |db.order| && Due(db, c, db.order[i])
    ensures |Keep(db.order[..i], (r: RowId) => Due(db, c, r))| < BatchSize(db, c) ==> db.order[i] in Selected(db, c)
    ensures |Selected(db, c)| <= BatchSize(db, c)
  {
    var due := (r: RowId) => Due(db, c, r);
    Around(db.order, i);
    KeepAround(db.order[..i], db.order[i], db.order[i + 1..], due);
    hide Due, Keep;
    var all, before := Keep(db.order, due), Keep(db.order[..i], due);
    assert all[|before|] == db.order[i];
  }

  lemma OneKept(r: RowId, keep: RowId -> bool)
    requires keep(r)
    ensures Keep([r], keep) == [r]
  {}

  lemma KeepAround(front: seq<RowId>, r: RowId, back: seq<RowId>, keep: RowId -> bool)
    requires keep(r)
    ensures Keep(front + ([r] + back), keep) == Keep(front, keep) + ([r] + Keep(back, keep))
  {
    OneKept(r, keep);
    hide Keep;
    KeepAppend(front, [r] + back, keep);
    KeepAppend([r], back, keep);
  }

  lemma Around(list: seq<RowId>, i: nat)
    requires i < |list|
    ensures list == list[..i] + ([list[i]] + list[i + 1..])
  {}

  // ---------------------------------------------------------------------------------------------
  // Taking out
  // ---------------------------------------------------------------------------------------------

  /** A cancel leaves nothing of its campaign PENDING or QUEUED, and changes nothing else about any row. */
  lemma CancelEmpties(db: Db, c: CampaignId)
    requires CancelResponse(db, c).Done?
    ensures var db' := Cancel(db, c);
            c in db'.campaigns && db'.campaigns[c].status.Cancelled? && db'.rows.Keys == db.rows.Keys
    ensures forall r :: r in db.rows ==>
              Cancel(db, c).rows[r] ==
                if r.campaign == c && R.Waiting(db.rows[r].status) then db.rows[r].(status := R.Cancelled)
                    else db.rows[r]
  {
    hide Keep, CountOf, CountsOf;
  }

  /** An opt-out leaves nothing of its customer PENDING or QUEUED in any campaign, and changes nothing else. */
  lemma OptOutEmpties(db: Db, customer: CustomerId)
    ensures OptOut(db, customer) == db.(rows := OptOut(db, customer).rows, latest := OptOut(db, customer).latest)
    ensures OptOut(db, customer).rows.Keys == db.rows.Keys
    ensures forall r :: r in db.rows ==>
              OptOut(db, customer).rows[r] ==
                if db.rows[r].customer == customer && R.Waiting(db.rows[r].status)
                then db.rows[r].(status := R.Cancelled) else db.rows[r]
  {
    hide Keep;
  }

  /** What a start and a resume ask of the campaign, beyond its status. */
  ghost predicate MayLaunch(db: Db, c: CampaignId, templateUsable: bool)
    requires c in db.campaigns
  {
    var campaign := db.campaigns[c];
    && templateUsable && campaign.eligibleCount >= 1
    && !PhoneOrRivalForbids(db, c)
    && (campaign.ratePerMinute.Some? ==> campaign.ratePerMinute.value <= db.settings.maxPerMinute)
    && (campaign.batchSize.Some? ==> campaign.batchSize.value <= db.settings.maxBatchSize)
    && (if campaign.batchDelayMs.Some? then db.settings.minBatchDelayMs <= campaign.batchDelayMs.value
        else db.settings.minBatchDelayMs == 0)
  }

  // The phone is disabled, restricted, disabled by the provider or banned, or another campaign of it is active.
  ghost predicate PhoneOrRivalForbids(db: Db, c: CampaignId)
    requires c in db.campaigns
  {
    var phone := PhoneOf(db, db.campaigns[c].phone);
    || !phone.campaignsEnabled || phone.account.Restricted? || phone.account.Disabled? || phone.account.Banned?
    || exists d :: d in db.campaigns && d != c && db.campaigns[d].phone == db.campaigns[c].phone
                   && (db.campaigns[d].status.Scheduled? || db.campaigns[d].status.Running?)
  }

  // The answers to a start or a resume of a campaign with one of these statuses.
  ghost predicate AnswersAs(db: Db, c: CampaignId, statusFits: bool, templateUsable: bool, response: Response)
    requires c in db.campaigns
  {
    && (response.Done? <==> statusFits && MayLaunch(db, c, templateUsable))
    && (response.Conflict? <==> !statusFits || (templateUsable && db.campaigns[c].eligibleCount >= 1
                                                && PhoneOrRivalForbids(db, c)))
    && !response.NotFound?
  }

  /** A start is accepted exactly from DRAFT, READY and SCHEDULED, and a resume exactly from PAUSED, of a campaign with
      a usable template, an eligible recipient, a safe phone without another active campaign, and a rate, a batch size
      and a delay within the administrator's limits. The other answers tell apart what is wrong. */
  lemma StartAndResumeAnswers(db: Db, c: CampaignId, templateUsable: bool)
    ensures StartResponse(db, c, templateUsable).NotFound? <==> c !in db.campaigns
    ensures ResumeResponse(db, c, templateUsable).NotFound? <==> c !in db.campaigns
    ensures c in db.campaigns ==>
              var status := db.campaigns[c].status;
              && AnswersAs(db, c, status.Draft? || status.Ready? || status.Scheduled?, templateUsable,
                           StartResponse(db, c, templateUsable))
              && AnswersAs(db, c, status.Paused?, templateUsable, ResumeResponse(db, c, templateUsable))
  {}

  /** A cancel is accepted exactly of a campaign that is not COMPLETED, FAILED or CANCELLED. */
  lemma CancelAnswers(db: Db, c: CampaignId)
    ensures CancelResponse(db, c).Done? <==> c in db.campaigns && !Final(db.campaigns[c].status)
    ensures CancelResponse(db, c).NotFound? <==> c !in db.campaigns
    ensures !CancelResponse(db, c).BadRequest?
  {}

  /** A start that is not refused leaves the campaign RUNNING with a start time, on a safe phone without another active
      campaign. */
  lemma StartRuns(db: Db, c: CampaignId, templateUsable: bool, refused: set<RowId>)
    requires StartResponse(db, c, templateUsable).Done?
    ensures var db' := Start(db, c, templateUsable, refused);
            && c in db'.campaigns && db'.campaigns[c].status.Running? && db'.campaigns[c].startedAt.Some?
            && Safe(PhoneOf(db, db.campaigns[c].phone)) && templateUsable && db.campaigns[c].eligibleCount > 0
            && (forall d :: d in db.campaigns && d != c && db.campaigns[d].phone == db.campaigns[c].phone ==>
                  !C.Active(db.campaigns[d].status))
  {
    hide Dispatch;
    var marked := MarkStarted(EnsurePhone(db, db.campaigns[c].phone), c, db.campaigns[c].startedAt);
    if MayDispatch(marked, c) {
      DispatchExactly(marked, c, refused);
    } else {
      DispatchSkips(marked, c, refused);
    }
  }

  // ---------------------------------------------------------------------------------------------
  // Halted campaigns
  // ---------------------------------------------------------------------------------------------

  // PAUSED, COMPLETED, FAILED or CANCELLED.
  predicate Halted(status: C.Status) {
    !C.Active(status) && !BeforeStart(status)
  }

  ghost predicate StillHalted(db: Db, db': Db, c: CampaignId)
    requires c in db.campaigns
  {
    && c in db'.campaigns && Halted(db'.campaigns[c].status)
    && forall r: RowId :: r in db'.sending && r.campaign == c ==> r in db.sending
  }

  lemma DispatchKeepsSending(db: Db, d: CampaignId, refused: set<RowId>)
    ensures Dispatch(db, d, refused).sending == db.sending
  {
    hide QueueBatch, Selected, HasCompetitor;
    if MayDispatch(db, d) {
      QueueKeepsCampaigns(db, Selected(db, d), refused);
    }
  }

  lemma StartLeavesHalted(db: Db, d: CampaignId, templateUsable: bool, refused: set<RowId>, c: CampaignId)
    requires c in db.campaigns && Halted(db.campaigns[c].status)
    ensures StillHalted(db, Start(db, d, templateUsable, refused), c)
  {
    hide Dispatch, StartRefusal;
    if StartResponse(db, d, templateUsable).Done? {
      var marked := MarkStarted(EnsurePhone(db, db.campaigns[d].phone), d, db.campaigns[d].startedAt);
      DispatchLeavesInactive(marked, d, refused, c);
      DispatchKeepsSending(marked, d, refused);
    }
  }

  lemma ResumeLeavesHalted(db: Db, d: CampaignId, templateUsable: bool, refused: set<RowId>, c: CampaignId)
    requires c in db.campaigns && Halted(db.campaigns[c].status) && d != c
    ensures StillHalted(db, Resume(db, d, templateUsable, refused), c)
  {
    hide Dispatch, StartRefusal, Keep;
    if ResumeResponse(db, d, templateUsable).Done? {
      DispatchLeavesInactive(Reopen(db, d), d, refused, c);
      DispatchKeepsSending(Reopen(db, d), d, refused);
    }
  }

  lemma PrepareLeavesHalted(db: Db, d: CampaignId, items: seq<P.Item>, c: CampaignId)
    requires c in db.campaigns && Halted(db.campaigns[c].status)
    ensures StillHalted(db, Prepare(db, d, items), c)
  {
    hide OnPhone, Inserted, P.PreparedRows, P.PendingRows, PreparedRecipients;
  }

  lemma CalmLeavesHalted(db: Db, a: Action, c: CampaignId)
    requires Good(db) && StartsNothing(a) && c in db.campaigns && Halted(db.campaigns[c].status)
    ensures StillHalted(db, Step(db, a), c)
  {
    CalmStep(db, a);
    assert CampaignCalm(db, Step(db, a), c);
    CalmSending(db, a, c);
    hide Step, Good, Calm;
  }

  // Only a claim in a running campaign begins a call.
  lemma CalmSending(db: Db, a: Action, c: CampaignId)
    requires StartsNothing(a) && c in db.campaigns && !C.Active(db.campaigns[c].status)
    ensures forall r: RowId :: r in Step(db, a).sending && r.campaign == c ==> r in db.sending
  {
    hide Keep, CountOf, CountsOf, PauseReasonOf, AfterFailure;
    match a
    case AFinish(r, result) => FinishKeepsSending(db, r, result);
    case AWebhook(message, status) =>
    case _ =>
  }

  lemma FinishKeepsSending(db: Db, r: RowId, result: SendResult)
    ensures FinishSend(db, r, result).sending.Keys <= db.sending.Keys
  {
    hide Keep, Refresh, AfterFailure;
    if r in db.sending && r in db.rows && r.campaign in db.campaigns {
      match result
      case Recorded(answer, message) =>
        RefreshFrame(RecordSent(db, r, answer, message).(sending := db.sending - {r}), r.campaign);
      case RecordedThenThrew(answer, message, category, delayMs) =>
        CatchKeepsSending(RecordSent(db, r, answer, message), r, category, delayMs);
      case Rejected(category, delayMs) => CatchKeepsSending(db, r, category, delayMs);
    }
  }

  lemma CatchKeepsSending(db: Db, r: RowId, category: Category, delayMs: nat)
    requires r in db.sending && r in db.rows && r.campaign in db.campaigns
    ensures CatchError(db, r, category, delayMs).sending == db.sending - {r}
  {
    hide Keep, AfterFailure;
    if !WillRetry(db, r, category) {
      AfterFailureKeepsRows(UpdateRow(db.(sending := db.sending - {r}), r, db.rows[r].(status := R.Failed)), r.campaign,
                            category);
    }
  }

  lemma StepLeavesHalted(db: Db, a: Action, c: CampaignId)
    requires Good(db) && c in db.campaigns && Halted(db.campaigns[c].status) && (a.AResume? ==> a.c != c)
    ensures StillHalted(db, Step(db, a), c)
  {
    hide Good, Step, CreateCampaign, Prepare, Start, Resume, Dispatch;
    if StartsNothing(a) {
      CalmLeavesHalted(db, a, c);
    } else {
      StartingStep(db, a);
      match a
      case ACreate(d, phone, rate, batchSize, batchDelay) => CreateLeaves(db, d, phone, rate, batchSize, batchDelay, c);
      case APrepare(d, items) => PrepareLeavesHalted(db, d, items, c);
      case AStart(d, templateUsable, refused) => StartLeavesHalted(db, d, templateUsable, refused, c);
      case AResume(d, templateUsable, refused) => ResumeLeavesHalted(db, d, templateUsable, refused, c);
      case ADispatch(d, refused) =>
        DispatchLeavesInactive(db, d, refused, c);
        DispatchKeepsSending(db, d, refused);
    }
  }

  /** A campaign that is PAUSED, COMPLETED, FAILED or CANCELLED does not run again until it is resumed, whatever else
      happens, and no further provider call for one of its recipients begins. */
  lemma {:induction false} HaltHolds(db: Db, actions: seq<Action>, c: CampaignId)
    requires Good(db) && c in db.campaigns && Halted(db.campaigns[c].status)
    requires forall i :: 0 <= i < |actions| && actions[i].AResume? ==> actions[i].c != c
    ensures StillHalted(db, Run(db, actions), c)
    decreases |actions|
  {
    hide Good, Step;
    if actions != [] {
      StepKeeps(db, actions[0]);
      StepLeavesHalted(db, actions[0], c);
      HaltHolds(Step(db, actions[0]), actions[1..], c);
    }
  }

  lemma PauseHalts(db: Db, c: CampaignId)
    requires c in db.campaigns && C.Active(db.campaigns[c].status)
    ensures c in Pause(db, c).campaigns && Pause(db, c).campaigns[c].status.Paused?
    ensures Pause(db, c).rows == db.rows && Pause(db, c).sending == db.sending
    ensures forall d :: d in db.campaigns && d != c ==> Pause(db, c).campaigns[d] == db.campaigns[d]
  {}

  /** After a pause of an active campaign, in every continuation without a resume of it, the campaign does not run and
      no provider call for its recipients begins that was not under way at the pause. */
  lemma PauseHolds(db: Db, later: seq<Action>, c: CampaignId)
    requires Good(db) && c in db.campaigns && C.Active(db.campaigns[c].status)
    requires forall i :: 0 <= i < |later| && later[i].AResume? ==> later[i].c != c
    ensures var db' := Run(Pause(db, c), later);
            && c in db'.campaigns && Halted(db'.campaigns[c].status)
            && forall r: RowId :: r in db'.sending && r.campaign == c ==> r in db.sending
  {
    hide Run, Good, Pause;
    PauseHalts(db, c);
    StepKeeps(db, APause(c));
    HaltHolds(Step(db, APause(c)), later, c);
  }

  /** After a cancel, in every continuation, resumes included: the campaign is CANCELLED, the recipients it took out
      never open again, and no provider call for its recipients begins that was not under way at the cancel. */
  lemma CancelHolds(db: Db, later: seq<Action>, c: CampaignId, r: RowId)
    requires Good(db) && CancelResponse(db, c).Done?
    requires r in db.rows && r.campaign == c && R.Waiting(db.rows[r].status)
    ensures var db' := Run(Cancel(db, c), later);
            && c in db'.campaigns && db'.campaigns[c].status.Cancelled?
            && r in db'.rows && !R.Open(db'.rows[r].status)
            && forall q: RowId :: q in db'.sending && q.campaign == c ==> q in db.sending
  {
    hide Run, Good, Cancel;
    var db1 := Cancel(db, c);
    CancelEmpties(db, c);
    CancelKeepsSending(db, c);
    StepKeeps(db, ACancel(c));
    FinalIsFinal(db1, later, c);
    ClosedStaysClosed(db1, later, r);
    CancelledHolds(db1, later, c);
  }

  lemma CancelKeepsSending(db: Db, c: CampaignId)
    ensures Cancel(db, c).sending == db.sending && Step(db, ACancel(c)) == Cancel(db, c)
  {
    hide Keep, CountOf, CountsOf;
  }

  lemma ResumeSkips(db: Db, c: CampaignId, templateUsable: bool, refused: set<RowId>)
    requires c in db.campaigns && !db.campaigns[c].status.Paused?
    ensures Resume(db, c, templateUsable, refused) == db
  {}

  // A resume of a cancelled campaign is refused.
  lemma {:induction false} CancelledHolds(db: Db, actions: seq<Action>, c: CampaignId)
    requires Good(db) && c in db.campaigns && db.campaigns[c].status.Cancelled?
    ensures forall r: RowId :: r in Run(db, actions).sending && r.campaign == c ==> r in db.sending
    decreases |actions|
  {
    hide Good, Step, Resume;
    if actions != [] {
      var a := actions[0];
      var db1 := Step(db, a);
      StepKeeps(db, a);
      StepKeepsFinal(db, a, c);
      if a.AResume? && a.c == c {
        StartingStep(db, a);
        ResumeSkips(db, c, a.templateUsable, a.refused);
      } else {
        StepLeavesHalted(db, a, c);
      }
      CancelledHolds(db1, actions[1..], c);
    }
  }

  /** After an opt-out, in every continuation: a recipient that it took out never opens again and is never sent. */
  lemma OptOutHolds(db: Db, later: seq<Action>, customer: CustomerId, r: RowId)
    requires Good(db) && r in db.rows && db.rows[r].customer == customer && R.Waiting(db.rows[r].status)
    ensures var db' := Run(OptOut(db, customer), later);
            r in db'.rows && !R.Open(db'.rows[r].status) && r !in db'.sending
  {
    hide Run, OptOut;
    OptOutEmpties(db, customer);
    OptOutIsStep(db, customer);
    StepKeeps(db, AOptOut(customer));
    ClosedStaysClosed(OptOut(db, customer), later, r);
    RunKeeps(OptOut(db, customer), later);
  }

  lemma OptOutIsStep(db: Db, customer: CustomerId)
    ensures Step(db, AOptOut(customer)) == OptOut(db, customer)
  {}
}
