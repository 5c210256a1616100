// Why a recipient has its status: for every call, exactly when it gives a recipient each status, and what follows for
// whole runs.

module RecipientCauses {
  import opened Options
  import opened CampaignErrors
  import opened CampaignService
  import opened CampaignInvariants
  import opened CampaignGuarantees
  import opened CampaignEffects
  import K = CampaignCauses
  import P = Preparation
  import R = RecipientStatus
  import C = CampaignStatus

  // ---------------------------------------------------------------------------------------------
  // Causes
  // ---------------------------------------------------------------------------------------------

  // A cancel of its campaign that is not refused, or an opt-out of its customer, finds the recipient waiting.
  predicate TakesOut(db: Db, a: Action, r: RowId)
    requires r in db.rows
  {
    && R.Waiting(db.rows[r].status)
    && ((a.ACancel? && a.c == r.campaign && CancelResponse(db, a.c).Done?)
        || (a.AOptOut? && a.customer == db.rows[r].customer))
  }

  // A job of the recipient runs, up to the provider call.
  predicate JobRuns(db: Db, a: Action, r: RowId) {
    a == AClaim(r) && r in db.rows && r.campaign in db.campaigns && r !in db.sending
  }

  // The provider call ends.
  predicate Ends(db: Db, a: Action, r: RowId) {
    a.AFinish? && a.row == r && r in db.rows && r.campaign in db.campaigns && r in db.sending
  }

  // The call was accepted and is recorded, whatever happens afterwards.
  predicate Records(db: Db, a: Action, r: RowId) {
    Ends(db, a, r) && !a.result.Rejected? && a.result.message !in db.messages
  }

  predicate Catches(db: Db, a: Action, r: RowId) {
    Ends(db, a, r) && ReachesCatch(db, a.result)
  }

  // A status notification finds the recipient by its message.
  predicate Notifies(db: Db, a: Action, r: RowId) {
    && a.AWebhook? && a.message in db.messages && db.messages[a.message].providerId.Some? && R.Attempted(a.delivery)
    && r in db.rows && r.campaign == db.messages[a.message].campaign && db.rows[r].message == Some(a.message)
  }

  // A dispatch from this state selects the recipient, and the queue takes it.
  predicate Takes(db: Db, c: CampaignId, refused: set<RowId>, r: RowId) {
    MayDispatch(db, c) && r in Selected(db, c) && r !in refused
  }

  /** The state from which the call dispatches, if it does: a dispatch as it is, a start and a resume after their own
      writes. */
  function DispatchesFrom(db: Db, a: Action): Option<Db> {
    match a
    case ADispatch(c, _) => Some(db)
    case AStart(c, templateUsable, _) =>
      if StartResponse(db, c, templateUsable).Done?
      then Some(MarkStarted(EnsurePhone(db, db.campaigns[c].phone), c, db.campaigns[c].startedAt)) else None
    case AResume(c, templateUsable, _) =>
      if ResumeResponse(db, c, templateUsable).Done? then Some(Reopen(db, c)) else None
    case _ => None
  }

  predicate Queues(db: Db, a: Action, r: RowId) {
    (a.ADispatch? || a.AStart? || a.AResume?)
    && DispatchesFrom(db, a).Some? && Takes(DispatchesFrom(db, a).value, a.c, a.refused, r)
  }

  // A resume that is not refused finds the recipient QUEUED.
  predicate Reopens(db: Db, a: Action, r: RowId) {
    && a.AResume? && ResumeResponse(db, a.c, a.templateUsable).Done?
    && r in db.rows && r.campaign == a.c && db.rows[r].status.Queued?
  }

  // ---------------------------------------------------------------------------------------------
  // One call, one row
  // ---------------------------------------------------------------------------------------------

  lemma ClaimedRow(db: Db, r: RowId)
    requires r in db.rows && r.campaign in db.campaigns && r !in db.sending
    ensures var row, status := db.rows[r], db.campaigns[r.campaign].status;
            && r in ClaimRecipient(db, r).rows
            && ClaimRecipient(db, r).rows[r] ==
                 if R.Terminal(row.status) then row
                 else if status.Cancelled? then row.(status := R.Cancelled)
                 else if !row.status.Queued? then row
                 else if !C.Active(status) then row.(status := R.Pending)
                 else if row.providerId.Some? then row
                 else row.(status := if status.Running? then R.Processing else R.Pending,
                           attemptCount := row.attemptCount + 1)
  {
    hide Keep;
  }

  // What the recording transaction has made of the row by the time the call is over.
  function RecordedRow(db: Db, r: RowId, result: SendResult): Recipient
    requires r in db.rows
  {
    if result.Rejected? then db.rows[r]
    else db.rows[r].(status := R.Sent, providerId := result.answer, message := Some(result.message))
  }

  lemma FinishedRow(db: Db, r: RowId, result: SendResult, q: RowId)
    requires r in db.sending && r in db.rows && r.campaign in db.campaigns && q in db.rows
    requires result.Rejected? || result.message !in db.messages
    ensures q in FinishSend(db, r, result).rows
    ensures FinishSend(db, r, result).rows[q] ==
              if q != r then db.rows[q]
              else if result.Recorded? then RecordedRow(db, r, result)
              else if WillRetry(db, r, result.category)
              then RecordedRow(db, r, result).(status := R.Queued, nextAttemptAt := Some(db.now + result.delayMs))
              else RecordedRow(db, r, result).(status := R.Failed)
  {
    hide Keep, Refresh, AfterFailure;
    if result.Recorded? {
      RefreshFrame(RecordSent(db, r, result.answer, result.message).(sending := db.sending - {r}), r.campaign);
    } else {
      var sent := if result.Rejected? then db else RecordSent(db, r, result.answer, result.message);
      if !WillRetry(db, r, result.category) {
        AfterFailureKeepsRows(UpdateRow(sent.(sending := sent.sending - {r}), r, sent.rows[r].(status := R.Failed)),
                              r.campaign, result.category);
      }
    }
  }

  lemma FinishSkips(db: Db, r: RowId, result: SendResult)
    requires r !in db.sending || r !in db.rows || r.campaign !in db.campaigns
             || (!result.Rejected? && result.message in db.messages)
    ensures FinishSend(db, r, result) == db
  {}

  lemma NotifiedRow(db: Db, message: MessageId, status: R.Status, r: RowId)
    requires r in db.rows
    ensures r in StatusWebhook(db, message, status).rows
    ensures StatusWebhook(db, message, status).rows[r] ==
              if Notifies(db, AWebhook(message, status), r) then db.rows[r].(status := status) else db.rows[r]
  {
    hide Keep, Refresh, EvaluateAutoPause;
    if message in db.messages && db.messages[message].providerId.Some? && R.Attempted(status) {
      var c := db.messages[message].campaign;
      var hit := (q: RowId) => q in db.rows && q.campaign == c && db.rows[q].message == Some(message);
      var updated := UpdateRows(db, hit, status);
      RefreshFrame(updated, c);
      RefreshFrame(if status.Failed? then EvaluateAutoPause(updated, c) else updated, c);
    }
  }

  lemma CancelledRow(db: Db, c: CampaignId, r: RowId)
    requires r in db.rows
    ensures r in Cancel(db, c).rows
    ensures Cancel(db, c).rows[r] ==
              if TakesOut(db, ACancel(c), r) then db.rows[r].(status := R.Cancelled) else db.rows[r]
  {
    hide Cancel;
    if CancelResponse(db, c).Done? {
      CancelEmpties(db, c);
    } else {
      CancelSkips(db, c);
    }
  }

  lemma CancelSkips(db: Db, c: CampaignId)
    requires !CancelResponse(db, c).Done?
    ensures Cancel(db, c) == db
  {}

  lemma DispatchedRow(db: Db, c: CampaignId, refused: set<RowId>, r: RowId)
    requires r in db.rows
    ensures r in Dispatch(db, c, refused).rows
    ensures Dispatch(db, c, refused).rows[r] ==
              if Takes(db, c, refused, r) then db.rows[r].(status := R.Queued) else db.rows[r]
  {
    hide Dispatch, Selected;
    if MayDispatch(db, c) {
      DispatchExactly(db, c, refused);
    } else {
      DispatchSkips(db, c, refused);
    }
  }

  lemma ReopenedRow(db: Db, c: CampaignId, r: RowId)
    requires c in db.campaigns && r in db.rows
    ensures r in Reopen(db, c).rows
    ensures Reopen(db, c).rows[r] ==
              if r.campaign == c && db.rows[r].status.Queued? then db.rows[r].(status := R.Pending) else db.rows[r]
  {
    hide Keep;
  }

  lemma StartedRow(db: Db, a: Action, r: RowId)
    requires a.AStart? && r in db.rows
    ensures r in Step(db, a).rows
    ensures Step(db, a).rows[r] == if Queues(db, a, r) then db.rows[r].(status := R.Queued) else db.rows[r]
  {
    hide Dispatch, StartRefusal, Takes;
    if StartResponse(db, a.c, a.templateUsable).Done? {
      DispatchedRow(DispatchesFrom(db, a).value, a.c, a.refused, r);
    }
  }

  lemma ResumedRow(db: Db, a: Action, r: RowId)
    requires a.AResume? && r in db.rows
    ensures r in Step(db, a).rows
    ensures Step(db, a).rows[r] ==
              if Queues(db, a, r) then db.rows[r].(status := R.Queued)
              else if Reopens(db, a, r) then db.rows[r].(status := R.Pending)
              else db.rows[r]
  {
    hide Dispatch, StartRefusal, Takes, Reopen;
    if ResumeResponse(db, a.c, a.templateUsable).Done? {
      ReopenedRow(db, a.c, r);
      DispatchedRow(Reopen(db, a.c), a.c, a.refused, r);
    }
  }

  // Calls that write no recipient, or only insert new ones.
  predicate LeavesRows(a: Action) {
    a.ACreate? || a.APrepare? || a.APause? || a.ADie? || a.ASetPhone? || a.ASettings? || a.ARefresh? || a.ATick?
  }

  lemma LeftRow(db: Db, a: Action, r: RowId)
    requires LeavesRows(a) && r in db.rows
    ensures r in Step(db, a).rows && Step(db, a).rows[r] == db.rows[r]
  {
    hide Prepare, CreateCampaign, PauseOne, PauseOnPhone, Refresh;
    match a
    case ACreate(c, phone, rate, batchSize, batchDelay) => CreateKeepsRows(db, c, phone, rate, batchSize, batchDelay);
    case APrepare(c, items) => PrepareOpensNothing(db, c, items, r);
    case APause(c) => RefreshFrame(db, c);
    case ARefresh(c) => RefreshFrame(db, c);
    case ASetPhone(p, state) => PauseOnPhoneKeepsRows(db.(phones := db.phones[p := state]), p);
    case _ =>
  }

  lemma ClaimOther(db: Db, q: RowId, r: RowId)
    requires r in db.rows && !JobRuns(db, AClaim(q), r)
    ensures r in ClaimRecipient(db, q).rows && ClaimRecipient(db, q).rows[r] == db.rows[r]
  {
    hide Keep;
  }

  // ---------------------------------------------------------------------------------------------
  // The causes are exact
  // ---------------------------------------------------------------------------------------------

  // The job of a campaign that is neither active nor cancelled puts a QUEUED recipient back, and the job of a SCHEDULED
  // campaign undoes its claim.
  predicate PutsBack(db: Db, a: Action, r: RowId) {
    && JobRuns(db, a, r) && db.rows[r].status.Queued?
    && var status := db.campaigns[r.campaign].status;
       (!C.Active(status) && !status.Cancelled?) || (status.Scheduled? && db.rows[r].providerId.None?)
  }

  predicate Calls(db: Db, a: Action, r: RowId) {
    && JobRuns(db, a, r) && db.rows[r].status.Queued? && db.rows[r].providerId.None?
    && db.campaigns[r.campaign].status.Running?
  }

  // The job of a cancelled campaign finds the recipient open.
  predicate MarksCancelled(db: Db, a: Action, r: RowId) {
    JobRuns(db, a, r) && db.campaigns[r.campaign].status.Cancelled? && R.Open(db.rows[r].status)
  }

  /** Exactly when a call gives a recipient a status that it did not have. SKIPPED is given only by the preparation. */
  ghost predicate StatusFollows(db: Db, a: Action, r: RowId, after: R.Status)
    requires r in db.rows
  {
    var before := db.rows[r].status;
    && (!before.Cancelled? ==> (after.Cancelled? <==> TakesOut(db, a, r) || MarksCancelled(db, a, r)))
    && (!before.Processing? ==> (after.Processing? <==> Calls(db, a, r)))
    && (!before.Pending? ==> (after.Pending? <==> PutsBack(db, a, r) || (Reopens(db, a, r) && !Queues(db, a, r))))
    && (!before.Queued? ==>
          (after.Queued? <==> (Catches(db, a, r) && WillRetry(db, r, a.result.category)) || Queues(db, a, r)))
    && (!before.Failed? ==>
          (after.Failed? <==> (Catches(db, a, r) && !WillRetry(db, r, a.result.category))
                              || (Notifies(db, a, r) && a.delivery.Failed?)))
    && (!before.Sent? ==>
          (after.Sent? <==> (Records(db, a, r) && a.result.Recorded?) || (Notifies(db, a, r) && a.delivery.Sent?)))
    && (!before.Delivered? ==> (after.Delivered? <==> Notifies(db, a, r) && a.delivery.Delivered?))
    && (!before.Read? ==> (after.Read? <==> Notifies(db, a, r) && a.delivery.Read?))
    && (after.Skipped? ==> before.Skipped?)
  }

  /** What else a call changes of a recipient: an attempt is counted when a job passes the claim, also when the claim is
      undone; the waiting time is set by a retry; the provider id and the message are those of the recorded call. */
  ghost predicate FieldsFollow(db: Db, a: Action, r: RowId, after: Recipient)
    requires r in db.rows
  {
    var before := db.rows[r];
    && after.customer == before.customer
    && after.attemptCount == before.attemptCount + (if CountsAttempt(db, a, r) then 1 else 0)
    && after.nextAttemptAt == (if Catches(db, a, r) && WillRetry(db, r, a.result.category)
                               then Some(db.now + a.result.delayMs) else before.nextAttemptAt)
    && after.providerId == (if Records(db, a, r) then a.result.answer else before.providerId)
    && after.message == (if Records(db, a, r) then Some(a.result.message) else before.message)
  }

  predicate CountsAttempt(db: Db, a: Action, r: RowId) {
    && JobRuns(db, a, r) && db.rows[r].status.Queued? && db.rows[r].providerId.None?
    && C.Active(db.campaigns[r.campaign].status)
  }

  ghost predicate Follows(db: Db, a: Action, r: RowId) {
    && r in db.rows && r in Step(db, a).rows
    && StatusFollows(db, a, r, Step(db, a).rows[r].status) && FieldsFollow(db, a, r, Step(db, a).rows[r])
  }

  lemma ClaimFollows(db: Db, q: RowId, r: RowId)
    requires r in db.rows
    ensures Follows(db, AClaim(q), r)
  {
    if JobRuns(db, AClaim(q), r) {
      ClaimedRow(db, r);
    } else {
      ClaimOther(db, q, r);
    }
    hide ClaimRecipient, WillRetry, MayDispatch, Selected;
  }

  lemma FinishFollows(db: Db, q: RowId, result: SendResult, r: RowId)
    requires r in db.rows && (r in db.sending ==> db.rows[r].status.Processing?)
    ensures Follows(db, AFinish(q, result), r)
  {
    hide FinishSend, WillRetry, MayDispatch, Selected;
    if q !in db.sending || q !in db.rows || q.campaign !in db.campaigns
       || (!result.Rejected? && result.message in db.messages) {
      FinishSkips(db, q, result);
    } else {
      FinishedRow(db, q, result, r);
    }
  }

  lemma WebhookFollows(db: Db, message: MessageId, status: R.Status, r: RowId)
    requires r in db.rows
    ensures Follows(db, AWebhook(message, status), r)
  {
    hide StatusWebhook, WillRetry, MayDispatch, Selected;
    NotifiedRow(db, message, status, r);
  }

  lemma CancelFollows(db: Db, c: CampaignId, r: RowId)
    requires r in db.rows
    ensures Follows(db, ACancel(c), r)
  {
    hide Cancel, WillRetry, MayDispatch, Selected;
    CancelledRow(db, c, r);
  }

  lemma OptOutFollows(db: Db, customer: CustomerId, r: RowId)
    requires r in db.rows
    ensures Follows(db, AOptOut(customer), r)
  {
    hide OptOut, WillRetry, MayDispatch, Selected;
    OptOutEmpties(db, customer);
  }

  // Neither a job nor a notification, a cancel or an opt-out.
  lemma NoOtherCause(db: Db, a: Action, r: RowId)
    requires r in db.rows
    requires !a.AClaim? && !a.AFinish? && !a.AWebhook? && !a.ACancel? && !a.AOptOut?
    ensures !TakesOut(db, a, r) && !MarksCancelled(db, a, r) && !Calls(db, a, r) && !PutsBack(db, a, r)
    ensures !CountsAttempt(db, a, r) && !Catches(db, a, r) && !Records(db, a, r) && !Notifies(db, a, r)
  {}

  lemma DispatchFollows(db: Db, a: Action, r: RowId)
    requires r in db.rows && (a.ADispatch? || a.AStart? || a.AResume?)
    ensures Follows(db, a, r)
  {
    hide Step, TakesOut, MarksCancelled, Calls, PutsBack, CountsAttempt, Catches, Records, Notifies, Queues, WillRetry,
         ResumeResponse;
    LaunchedRow(db, a, r);
    NoOtherCause(db, a, r);
  }

  lemma LaunchedRow(db: Db, a: Action, r: RowId)
    requires r in db.rows && (a.ADispatch? || a.AStart? || a.AResume?)
    ensures r in Step(db, a).rows
    ensures Step(db, a).rows[r] ==
              if Queues(db, a, r) then db.rows[r].(status := R.Queued)
              else if Reopens(db, a, r) then db.rows[r].(status := R.Pending)
              else db.rows[r]
  {
    hide Dispatch, Start, Resume, Takes, StartResponse, ResumeResponse, Reopen;
    if a.AStart? {
      StartedRow(db, a, r);
    } else if a.AResume? {
      ResumedRow(db, a, r);
    } else {
      DispatchedRow(db, a.c, a.refused, r);
    }
  }

  lemma LeftFollows(db: Db, a: Action, r: RowId)
    requires r in db.rows && LeavesRows(a)
    ensures Follows(db, a, r)
  {
    hide Step, TakesOut, MarksCancelled, Calls, PutsBack, CountsAttempt, Catches, Records, Notifies, Queues, WillRetry;
    LeftRow(db, a, r);
    NoOtherCause(db, a, r);
    LeftQueuesNone(db, a, r);
  }

  lemma LeftQueuesNone(db: Db, a: Action, r: RowId)
    requires LeavesRows(a)
    ensures !Queues(db, a, r) && !Reopens(db, a, r)
  {}

  lemma SendingProcesses(db: Db, r: RowId)
    requires Good(db)
    ensures r in db.sending ==> r in db.rows && db.rows[r].status.Processing?
  {}

  lemma StepFollows(db: Db, a: Action, r: RowId)
    requires Good(db) && r in db.rows
    ensures Follows(db, a, r)
  {
    hide Step, Good, Follows;
    SendingProcesses(db, r);
    match a
    case AClaim(q) => ClaimFollows(db, q, r);
    case AFinish(q, result) => FinishFollows(db, q, result, r);
    case AWebhook(message, status) => WebhookFollows(db, message, status, r);
    case ACancel(c) => CancelFollows(db, c, r);
    case AOptOut(customer) => OptOutFollows(db, customer, r);
    case ADispatch(_, _) => DispatchFollows(db, a, r);
    case AStart(_, _, _) => DispatchFollows(db, a, r);
    case AResume(_, _, _) => DispatchFollows(db, a, r);
    case _ => LeftFollows(db, a, r);
  }

  lemma StatusChangesExactly(db: Db, a: Action, r: RowId)
    requires Good(db) && r in db.rows
    ensures r in Step(db, a).rows && StatusFollows(db, a, r, Step(db, a).rows[r].status)
  {
    hide Step, Good, StatusFollows, FieldsFollow;
    StepFollows(db, a, r);
  }

  lemma FieldsChangeExactly(db: Db, a: Action, r: RowId)
    requires Good(db) && r in db.rows
    ensures r in Step(db, a).rows && FieldsFollow(db, a, r, Step(db, a).rows[r])
  {
    hide Step, Good, StatusFollows, FieldsFollow;
    StepFollows(db, a, r);
  }

  // ---------------------------------------------------------------------------------------------
  // Whole runs
  // ---------------------------------------------------------------------------------------------

  // The run cancels this campaign, or this customer opts out in it.
  predicate Asked(actions: seq<Action>, campaign: CampaignId, customer: CustomerId) {
    exists i :: 0 <= i < |actions| && (actions[i] == ACancel(campaign) || actions[i] == AOptOut(customer))
  }

  predicate Stopped(db: Db, r: RowId) {
    || (r in db.rows && db.rows[r].status.Cancelled?)
    || (r.campaign in db.campaigns && db.campaigns[r.campaign].status.Cancelled?)
  }

  lemma StopsOnlyWhenAsked(db: Db, a: Action, r: RowId)
    requires Good(db) && !Stopped(db, r) && Stopped(Step(db, a), r)
    ensures a == ACancel(r.campaign) || (r in db.rows && a == AOptOut(db.rows[r].customer))
  {
    hide Good, Step, StatusFollows, FieldsFollow;
    NewcomersAreNotCancelled(db, a, r);
    if r.campaign in db.campaigns {
      CancelledOnlyByCancel(db, a, r.campaign);
    }
    if r in db.rows {
      TakenOnlyWhenAsked(db, a, r);
    }
  }

  lemma TakenOnlyWhenAsked(db: Db, a: Action, r: RowId)
    requires Good(db) && r in db.rows && !db.rows[r].status.Cancelled? && !Stopped(db, r)
    ensures r in Step(db, a).rows
    ensures Step(db, a).rows[r].status.Cancelled? ==> a == ACancel(r.campaign) || a == AOptOut(db.rows[r].customer)
  {
    hide Good, Step, StatusFollows;
    StatusChangesExactly(db, a, r);
    if Step(db, a).rows[r].status.Cancelled? {
      CancelledCause(db, a, r, Step(db, a).rows[r].status);
    }
  }

  lemma CancelledCause(db: Db, a: Action, r: RowId, after: R.Status)
    requires r in db.rows && !db.rows[r].status.Cancelled? && after.Cancelled? && StatusFollows(db, a, r, after)
    requires !Stopped(db, r)
    ensures a == ACancel(r.campaign) || a == AOptOut(db.rows[r].customer)
  {
    hide Calls, PutsBack, Catches, Records, Notifies, Queues, Reopens, WillRetry, CancelResponse;
  }

  lemma CancelledOnlyByCancel(db: Db, a: Action, c: CampaignId)
    requires c in db.campaigns && !db.campaigns[c].status.Cancelled?
    ensures c in Step(db, a).campaigns
    ensures Step(db, a).campaigns[c].status.Cancelled? ==> a == ACancel(c)
  {
    K.StatusChangesExactly(db, a, c);
    hide Step, K.Stops, K.Recounts, K.Prepares, K.AnyPending, K.A.Launches, Quiet;
  }

  lemma DispatchKeys(db: Db, c: CampaignId, refused: set<RowId>)
    ensures var db' := Dispatch(db, c, refused);
            db'.campaigns.Keys == db.campaigns.Keys && db'.rows.Keys == db.rows.Keys
  {
    hide HasCompetitor, RowsWith, QueueBatch, Selected;
    if MayDispatch(db, c) {
      SelectedIsDue(db, c);
      QueueBatchRequeues(db, c, Selected(db, c), refused);
    }
  }

  lemma LaunchKeys(db: Db, a: Action)
    requires a.AStart? || a.AResume? || a.ADispatch?
    ensures Step(db, a).campaigns.Keys == db.campaigns.Keys && Step(db, a).rows.Keys == db.rows.Keys
  {
    hide Dispatch, StartRefusal, Keep;
    if DispatchesFrom(db, a).Some? {
      DispatchKeys(DispatchesFrom(db, a).value, a.c, a.refused);
    }
  }

  lemma PrepareKeys(db: Db, c: CampaignId, items: seq<P.Item>)
    ensures Prepare(db, c, items).campaigns.Keys == db.campaigns.Keys
    ensures forall r :: r in Prepare(db, c, items).rows && r !in db.rows ==>
              !Prepare(db, c, items).rows[r].status.Cancelled?
  {
    hide Inserted, OnPhone, P.PreparedRows, P.PendingRows;
  }

  lemma CalmKeepsKeys(db: Db, db': Db)
    requires Calm(db, db')
    ensures db'.campaigns.Keys == db.campaigns.Keys && db'.rows.Keys == db.rows.Keys
  {}

  // Only a creation brings a campaign, and only a preparation recipients.
  lemma StepKeys(db: Db, a: Action)
    requires Good(db)
    ensures !a.ACreate? ==> Step(db, a).campaigns.Keys == db.campaigns.Keys
    ensures !a.APrepare? ==> Step(db, a).rows.Keys == db.rows.Keys
  {
    hide Step, Good, Calm, CreateCampaign, Prepare;
    if StartsNothing(a) {
      CalmStep(db, a);
      CalmKeepsKeys(db, Step(db, a));
    } else if a.ACreate? || a.APrepare? {
      StartingStep(db, a);
      if a.ACreate? {
        CreateKeepsRows(db, a.c, a.phone, a.rate, a.batchSize, a.batchDelay);
      } else {
        PrepareKeys(db, a.c, a.items);
      }
    } else {
      LaunchKeys(db, a);
    }
  }

  lemma NewcomersAreNotCancelled(db: Db, a: Action, r: RowId)
    requires Good(db)
    ensures r.campaign !in db.campaigns && r.campaign in Step(db, a).campaigns ==>
              !Step(db, a).campaigns[r.campaign].status.Cancelled?
    ensures r !in db.rows && r in Step(db, a).rows ==> !Step(db, a).rows[r].status.Cancelled?
  {
    StepKeys(db, a);
    hide Step, Good, Prepare;
    if a.ACreate? || a.APrepare? {
      StartingStep(db, a);
      if a.APrepare? {
        PrepareKeys(db, a.c, a.items);
      }
    }
  }

  lemma CustomerStays(db: Db, a: Action, r: RowId)
    requires Good(db) && r in db.rows
    ensures r in Step(db, a).rows && Step(db, a).rows[r].customer == db.rows[r].customer
  {
    FieldsChangeExactly(db, a, r);
    hide Good, Step, Catches, Records, WillRetry, CountsAttempt;
  }

  lemma {:induction false} RunStopsOnlyWhenAsked(db: Db, actions: seq<Action>, r: RowId)
    requires Good(db) && !Stopped(db, r) && r in Run(db, actions).rows && Run(db, actions).rows[r].status.Cancelled?
    ensures Asked(actions, r.campaign, Run(db, actions).rows[r].customer)
    decreases |actions|
  {
    hide Good, Step, Stopped;
    assert actions != [] by { NotStopped(db, r); }
    var a, rest := actions[0], actions[1..];
    StepKeeps(db, a);
    if Stopped(Step(db, a), r) {
      StopsOnlyWhenAsked(db, a, r);
      if r in db.rows {
        CustomerStays(db, a, r);
        CustomerOfRun(Step(db, a), rest, r);
      }
    } else {
      RunStopsOnlyWhenAsked(Step(db, a), rest, r);
      var i :| 0 <= i < |rest|
          && (rest[i] == ACancel(r.campaign) || rest[i] == AOptOut(Run(db, actions).rows[r].customer));
      assert actions[i + 1] == rest[i];
    }
  }

  lemma NotStopped(db: Db, r: RowId)
    requires !Stopped(db, r)
    ensures r in db.rows ==> !db.rows[r].status.Cancelled?
  {}

  lemma {:induction false} CustomerOfRun(db: Db, actions: seq<Action>, r: RowId)
    requires Good(db) && r in db.rows
    ensures r in Run(db, actions).rows && Run(db, actions).rows[r].customer == db.rows[r].customer
    decreases |actions|
  {
    hide Good, Step;
    if actions != [] {
      StepKeeps(db, actions[0]);
      CustomerStays(db, actions[0], r);
      CustomerOfRun(Step(db, actions[0]), actions[1..], r);
    }
  }

  /** In every run a recipient is CANCELLED only if its campaign was cancelled or its customer opted out in the run. */
  lemma CancelledWasAsked(env: Env, settings: Settings, actions: seq<Action>, r: RowId)
    requires Positive(env)
    requires r in Run(Empty(env, settings), actions).rows
    requires Run(Empty(env, settings), actions).rows[r].status.Cancelled?
    ensures Asked(actions, r.campaign, Run(Empty(env, settings), actions).rows[r].customer)
  {
    ReachableIsGood(env, settings, []);
    RunStopsOnlyWhenAsked(Empty(env, settings), actions, r);
  }

  /** SENT, DELIVERED and READ recipients have a message, every recipient's message is stored for its campaign, and no
      two recipients have the same. */
  ghost predicate ResultsRecorded(db: Db) {
    && (forall r :: r in db.rows && Result(db.rows[r].status) ==> db.rows[r].message.Some?)
    && (forall r :: r in db.rows && db.rows[r].message.Some? ==>
          db.rows[r].message.value in db.messages && db.messages[db.rows[r].message.value].campaign == r.campaign)
    && (forall q, r :: SameMessage(db, q, r) ==> q == r)
  }

  predicate SameMessage(db: Db, q: RowId, r: RowId) {
    q in db.rows && r in db.rows && db.rows[q].message.Some? && db.rows[q].message == db.rows[r].message
  }

  predicate Result(status: R.Status) {
    status.Sent? || status.Delivered? || status.Read?
  }

  lemma StepKeepsRecorded(db: Db, a: Action, r: RowId)
    requires Good(db) && ResultsRecorded(db)
    requires r in Step(db, a).rows && Result(Step(db, a).rows[r].status)
    ensures Step(db, a).rows[r].message.Some?
  {
    hide Good, Step, StatusFollows, FieldsFollow;
    if r in db.rows {
      StatusChangesExactly(db, a, r);
      FieldsChangeExactly(db, a, r);
      ResultCause(db, a, r, Step(db, a).rows[r]);
    } else {
      StepKeys(db, a);
      NewRowsWait(db, a, r);
    }
  }

  lemma ResultCause(db: Db, a: Action, r: RowId, after: Recipient)
    requires r in db.rows && Result(after.status) && StatusFollows(db, a, r, after.status)
             && FieldsFollow(db, a, r, after)
    requires Result(db.rows[r].status) ==> db.rows[r].message.Some?
    ensures after.message.Some?
  {
    hide Calls, PutsBack, TakesOut, MarksCancelled, Queues, Reopens, WillRetry, CountsAttempt, Catches, Records;
  }

  // A recipient's message is its old one, or the one that is being recorded for it and was not stored before.
  lemma MessageComesFrom(db: Db, a: Action, r: RowId)
    requires Good(db) && r in Step(db, a).rows && Step(db, a).rows[r].message.Some?
    ensures var m := Step(db, a).rows[r].message;
            || (r in db.rows && db.rows[r].message == m)
            || (Records(db, a, r) && m == Some(a.result.message))
  {
    if r in db.rows {
      FieldsChangeExactly(db, a, r);
      hide Good, Step, Catches, WillRetry, CountsAttempt;
    } else {
      StepKeys(db, a);
      NewRowsWait(db, a, r);
      hide Good, Step;
    }
  }

  /** Messages are only added, and only by a recording, for the recipient's campaign and with the provider's id. */
  lemma MessagesChangeExactly(db: Db, a: Action)
    ensures Step(db, a).messages ==
              if a.AFinish? && Records(db, a, a.row)
              then db.messages[a.result.message := Message(a.row.campaign, a.result.answer)] else db.messages
  {
    if a.AFinish? {
      FinishMessages(db, a.row, a.result);
      K.FinishIsStep(db, a);
    } else {
      K.OtherFrame(db, a);
    }
    hide Step, FinishSend;
  }

  lemma FinishMessages(db: Db, r: RowId, result: SendResult)
    ensures FinishSend(db, r, result).messages ==
              if Records(db, AFinish(r, result), r)
              then db.messages[result.message := Message(r.campaign, result.answer)] else db.messages
  {
    hide Keep, Refresh, AfterFailure;
    if r in db.sending && r in db.rows && r.campaign in db.campaigns {
      var sent := if result.Rejected? then db else RecordSent(db, r, result.answer, result.message);
      RefreshFrame(sent.(sending := db.sending - {r}), r.campaign);
      if !result.Recorded? && !WillRetry(db, r, result.category) {
        var failed := UpdateRow(sent.(sending := db.sending - {r}), r, sent.rows[r].(status := R.Failed));
        FailureKeepsMessages(failed, r.campaign, result.category);
      }
    }
  }

  lemma FailureKeepsMessages(db: Db, c: CampaignId, category: Category)
    requires c in db.campaigns
    ensures AfterFailure(db, c, category).messages == db.messages
  {
    hide Refresh, PauseOne, EvaluateAutoPause;
    RefreshFrame(db, c);
    RefreshFrame(K.Paused(db, c, category), c);
  }

  lemma NewRowsWait(db: Db, a: Action, r: RowId)
    requires a.APrepare? && r !in db.rows && r in Step(db, a).rows
    ensures !Result(Step(db, a).rows[r].status) && Step(db, a).rows[r].message.None?
  {
    hide Inserted, OnPhone, P.PreparedRows, P.PendingRows;
  }

  lemma StepKeepsAllRecorded(db: Db, a: Action)
    requires Good(db) && ResultsRecorded(db)
    ensures ResultsRecorded(Step(db, a))
  {
    hide Good, Step, Result, Records;
    var db' := Step(db, a);
    MessagesChangeExactly(db, a);
    forall r | r in db'.rows && Result(db'.rows[r].status) ensures db'.rows[r].message.Some? {
      StepKeepsRecorded(db, a, r);
    }
    forall r | r in db'.rows && db'.rows[r].message.Some?
      ensures db'.rows[r].message.value in db'.messages
              && db'.messages[db'.rows[r].message.value].campaign == r.campaign
    {
      MessageComesFrom(db, a, r);
      RecordedIsNew(db, a, r);
      if a.AFinish? {
        RecordedIsNew(db, a, a.row);
      }
    }
    forall q, r | SameMessage(db', q, r) ensures q == r {
      MessagesStayApart(db, a, q, r);
    }
  }

  lemma MessagesApart(db: Db, q: RowId, r: RowId)
    requires ResultsRecorded(db) && q in db.rows && r in db.rows && db.rows[q].message.Some?
    requires db.rows[q].message == db.rows[r].message
    ensures q == r
  {
    assert SameMessage(db, q, r);
    hide Result;
  }

  lemma OldIsStored(db: Db, r: RowId)
    requires ResultsRecorded(db) && r in db.rows && db.rows[r].message.Some?
    ensures db.rows[r].message.value in db.messages
  {
    hide Result, SameMessage;
  }

  lemma MessagesStayApart(db: Db, a: Action, q: RowId, r: RowId)
    requires Good(db) && ResultsRecorded(db) && SameMessage(Step(db, a), q, r)
    ensures q == r
  {
    hide Good, Step, ResultsRecorded, Records;
    MessageComesFrom(db, a, q);
    MessageComesFrom(db, a, r);
    RecordedIsNew(db, a, q);
    RecordedIsNew(db, a, r);
    var m := Step(db, a).rows[q].message;
    if q in db.rows && db.rows[q].message == m {
      OldIsStored(db, q);
      if r in db.rows && db.rows[r].message == m {
        MessagesApart(db, q, r);
      }
    } else if r in db.rows && db.rows[r].message == m {
      OldIsStored(db, r);
    }
  }

  lemma RecordedIsNew(db: Db, a: Action, r: RowId)
    ensures Records(db, a, r) ==> a.AFinish? && a.row == r && !a.result.Rejected? && a.result.message !in db.messages
  {}

  lemma {:induction false} RunKeepsRecorded(db: Db, actions: seq<Action>)
    requires Good(db) && ResultsRecorded(db)
    ensures ResultsRecorded(Run(db, actions))
    decreases |actions|
  {
    hide Good, Step, ResultsRecorded;
    if actions != [] {
      StepKeeps(db, actions[0]);
      StepKeepsAllRecorded(db, actions[0]);
      RunKeepsRecorded(Step(db, actions[0]), actions[1..]);
    }
  }

  /** In every run a recipient is SENT, DELIVERED or READ only with a message, which is stored for its campaign and is
      no other recipient's, so that a status notification finds at most one recipient. */
  lemma ResultsAreRecorded(env: Env, settings: Settings, actions: seq<Action>)
    requires Positive(env)
    ensures ResultsRecorded(Run(Empty(env, settings), actions))
  {
    ReachableIsGood(env, settings, []);
    RunKeepsRecorded(Empty(env, settings), actions);
  }

  // ---------------------------------------------------------------------------------------------
  // Calls under way
  // ---------------------------------------------------------------------------------------------

  /** A provider call is under way from the claim that reaches it, with the attempt count that the job read, until it
      ends or its worker dies. */
  lemma SendingChangesExactly(db: Db, a: Action, r: RowId)
    ensures r in Step(db, a).sending <==>
              Calls(db, a, r) || (r in db.sending && a != ADie(r) && !(SendOver(db, a) && a.row == r))
    ensures r in Step(db, a).sending && r !in db.sending ==> Step(db, a).sending[r] == db.rows[r].attemptCount
    ensures r in Step(db, a).sending && r in db.sending ==> Step(db, a).sending[r] == db.sending[r]
  {
    hide ClaimRecipient, FinishSend, Calls, SendOver;
    if a.AClaim? {
      ClaimSending(db, a.row, r);
      OnlyFinishesEnd(db, a, r);
    } else if a.AFinish? {
      FinishSending(db, a.row, a.result);
      OnlyClaimsCall(db, a, r);
    } else {
      OnlyFinishesEnd(db, a, r);
      OnlyClaimsCall(db, a, r);
      OtherSending(db, a);
      hide Step;
    }
  }

  lemma OnlyFinishesEnd(db: Db, a: Action, r: RowId)
    requires !a.AFinish?
    ensures !SendOver(db, a)
  {}

  lemma OnlyClaimsCall(db: Db, a: Action, r: RowId)
    requires !a.AClaim?
    ensures !Calls(db, a, r)
  {}

  lemma OtherSending(db: Db, a: Action)
    requires !a.AClaim? && !a.AFinish?
    ensures Step(db, a).sending == if a.ADie? then db.sending - {a.row} else db.sending
  {
    if !a.ADie? {
      K.OtherFrame(db, a);
      hide Step;
    }
  }

  // The end of a call is taken up.
  predicate SendOver(db: Db, a: Action) {
    K.SendEnds(db, a)
  }

  lemma ClaimSending(db: Db, q: RowId, r: RowId)
    ensures var db' := ClaimRecipient(db, q);
            && (r in db'.sending <==> Calls(db, AClaim(q), r) || r in db.sending)
            && (r in db'.sending ==> if r in db.sending then db'.sending[r] == db.sending[r]
                                     else r in db.rows && db'.sending[r] == db.rows[r].attemptCount)
  {
    hide Keep;
  }

  lemma FinishSending(db: Db, q: RowId, result: SendResult)
    ensures FinishSend(db, q, result).sending == if SendOver(db, AFinish(q, result)) then db.sending - {q}
            else db.sending
  {
    hide Keep, Refresh, AfterFailure;
    if q in db.sending && q in db.rows && q.campaign in db.campaigns
        && (result.Rejected? || result.message !in db.messages) {
      var sent := if result.Rejected? then db else RecordSent(db, q, result.answer, result.message);
      RefreshFrame(sent.(sending := db.sending - {q}), q.campaign);
      if !result.Recorded? {
        CatchKeepsSending(sent, q, result.category, result.delayMs);
      }
    }
  }
}
