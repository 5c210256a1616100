// Guarantees of the campaign services over whole runs: closed recipients stay closed, final statuses stay, completion
// means that nothing is open, and the counts add up.

module CampaignGuarantees {
  import opened Options
  import opened CampaignErrors
  import opened PhoneSafety
  import opened CampaignService
  import opened CampaignInvariants
  import P = Preparation
  import R = RecipientStatus
  import C = CampaignStatus

  // ---------------------------------------------------------------------------------------------
  // The open set never regains a member
  // ---------------------------------------------------------------------------------------------

  lemma {:induction false} QueueBatchOpens(db: Db, batch: seq<RowId>, refused: set<RowId>, r: RowId)
    requires r in db.rows
    ensures var db' := QueueBatch(db, batch, refused);
            r in db'.rows && (R.Open(db'.rows[r].status) ==> R.Open(db.rows[r].status))
    decreases |batch|
  {
    if batch != [] {
      QueueBatchOpens(db, batch[..|batch| - 1], refused, r);
    }
  }

  lemma DispatchOpens(db: Db, c: CampaignId, refused: set<RowId>, r: RowId)
    requires r in db.rows
    ensures var db' := Dispatch(db, c, refused);
            r in db'.rows && (R.Open(db'.rows[r].status) ==> R.Open(db.rows[r].status))
  {
    hide QueueBatch, Selected;
    if MayDispatch(db, c) {
      QueueBatchOpens(db, Selected(db, c), refused, r);
    }
  }

  lemma CalmOpensNothing(db: Db, a: Action, r: RowId)
    requires Good(db) && r in db.rows && StartsNothing(a)
    ensures var db' := Step(db, a);
            r in db'.rows && (R.Open(db'.rows[r].status) ==> R.Open(db.rows[r].status))
  {
    hide Step;
    CalmStep(db, a);
    assert RowCalm(db, Step(db, a), r);
  }

  lemma StepOpensNothing(db: Db, a: Action, r: RowId)
    requires Good(db) && r in db.rows
    ensures var db' := Step(db, a);
            r in db'.rows && (R.Open(db'.rows[r].status) ==> R.Open(db.rows[r].status))
  {
    hide Good, Step, CreateCampaign, Prepare, Start, Resume, Dispatch;
    if StartsNothing(a) {
      CalmOpensNothing(db, a, r);
    } else {
      StartingStep(db, a);
      match a
      case ACreate(c, phone, rate, batchSize, batchDelay) => CreateKeepsRows(db, c, phone, rate, batchSize, batchDelay);
      case APrepare(c, items) => PrepareOpensNothing(db, c, items, r);
      case AStart(c, templateUsable, refused) => StartOpens(db, c, templateUsable, refused, r);
      case AResume(c, templateUsable, refused) => ResumeOpens(db, c, templateUsable, refused, r);
      case ADispatch(c, refused) => DispatchOpens(db, c, refused, r);
    }
  }

  lemma CreateKeepsRows(db: Db, c: CampaignId, p: PhoneId, rate: nat, batchSize: nat, batchDelay: nat)
    ensures CreateCampaign(db, c, p, rate, batchSize, batchDelay).rows == db.rows
  {}

  lemma PrepareOpensNothing(db: Db, c: CampaignId, items: seq<P.Item>, r: RowId)
    requires r in db.rows
    ensures r in Prepare(db, c, items).rows && Prepare(db, c, items).rows[r] == db.rows[r]
  {}

  lemma StartOpens(db: Db, c: CampaignId, templateUsable: bool, refused: set<RowId>, r: RowId)
    requires r in db.rows
    ensures var db' := Start(db, c, templateUsable, refused);
            r in db'.rows && (R.Open(db'.rows[r].status) ==> R.Open(db.rows[r].status))
  {
    hide Dispatch, StartRefusal;
    if StartResponse(db, c, templateUsable).Done? {
      DispatchOpens(MarkStarted(EnsurePhone(db, db.campaigns[c].phone), c, db.campaigns[c].startedAt), c, refused, r);
    }
  }

  lemma ResumeOpens(db: Db, c: CampaignId, templateUsable: bool, refused: set<RowId>, r: RowId)
    requires r in db.rows
    ensures var db' := Resume(db, c, templateUsable, refused);
            r in db'.rows && (R.Open(db'.rows[r].status) ==> R.Open(db.rows[r].status))
  {
    hide Dispatch, StartRefusal, Keep;
    if ResumeResponse(db, c, templateUsable).Done? {
      DispatchOpens(Reopen(db, c), c, refused, r);
    }
  }

  /** A recipient that is not PENDING, QUEUED or PROCESSING never becomes so again, in any run. */
  lemma {:induction false} ClosedStaysClosed(db: Db, actions: seq<Action>, r: RowId)
    requires Good(db) && r in db.rows && !R.Open(db.rows[r].status)
    ensures var db' := Run(db, actions); r in db'.rows && !R.Open(db'.rows[r].status)
    decreases |actions|
  {
    if actions != [] {
      StepKeeps(db, actions[0]);
      StepOpensNothing(db, actions[0], r);
      ClosedStaysClosed(Step(db, actions[0]), actions[1..], r);
    }
  }

  // ---------------------------------------------------------------------------------------------
  // COMPLETED, FAILED and CANCELLED
  // ---------------------------------------------------------------------------------------------

  predicate Final(status: C.Status) {
    status.Completed? || status.Failed? || status.Cancelled?
  }

  lemma DispatchLeavesInactive(db: Db, d: CampaignId, refused: set<RowId>, c: CampaignId)
    requires c in db.campaigns && (c != d || !C.Active(db.campaigns[c].status))
    ensures var db' := Dispatch(db, d, refused); c in db'.campaigns && db'.campaigns[c] == db.campaigns[c]
  {
    hide QueueBatch, Selected;
    if MayDispatch(db, d) {
      QueueKeepsCampaigns(db, Selected(db, d), refused);
    }
  }

  lemma StepKeepsFinal(db: Db, a: Action, c: CampaignId)
    requires Good(db) && c in db.campaigns && Final(db.campaigns[c].status)
    ensures c in Step(db, a).campaigns && Step(db, a).campaigns[c].status == db.campaigns[c].status
  {
    hide Good, Step, CreateCampaign, Prepare, Start, Resume, Dispatch;
    if StartsNothing(a) {
      FinalSurvivesCalm(db, a, c);
    } else {
      StartingStep(db, a);
      match a
      case ACreate(d, phone, rate, batchSize, batchDelay) => CreateLeaves(db, d, phone, rate, batchSize, batchDelay, c);
      case APrepare(d, items) => PrepareLeavesFinal(db, d, items, c);
      case AStart(d, templateUsable, refused) => StartLeavesFinal(db, d, templateUsable, refused, c);
      case AResume(d, templateUsable, refused) => ResumeLeavesFinal(db, d, templateUsable, refused, c);
      case ADispatch(d, refused) => DispatchLeavesInactive(db, d, refused, c);
    }
  }

  lemma CreateLeaves(db: Db, d: CampaignId, p: PhoneId, rate: nat, batchSize: nat, batchDelay: nat, c: CampaignId)
    requires c in db.campaigns
    ensures var db' := CreateCampaign(db, d, p, rate, batchSize, batchDelay);
            c in db'.campaigns && db'.campaigns[c] == db.campaigns[c] && db'.sending == db.sending
  {}

  lemma PrepareLeavesFinal(db: Db, d: CampaignId, items: seq<P.Item>, c: CampaignId)
    requires c in db.campaigns && Final(db.campaigns[c].status)
    ensures c in Prepare(db, d, items).campaigns && Prepare(db, d, items).campaigns[c] == db.campaigns[c]
  {}

  lemma StartLeavesFinal(db: Db, d: CampaignId, templateUsable: bool, refused: set<RowId>, c: CampaignId)
    requires c in db.campaigns && Final(db.campaigns[c].status)
    ensures var db' := Start(db, d, templateUsable, refused); c in db'.campaigns && db'.campaigns[c] == db.campaigns[c]
  {
    hide Dispatch, StartRefusal;
    if StartResponse(db, d, templateUsable).Done? {
      DispatchLeavesInactive(MarkStarted(EnsurePhone(db, db.campaigns[d].phone), d, db.campaigns[d].startedAt), d,
                             refused, c);
    }
  }

  lemma ResumeLeavesFinal(db: Db, d: CampaignId, templateUsable: bool, refused: set<RowId>, c: CampaignId)
    requires c in db.campaigns && Final(db.campaigns[c].status)
    ensures var db' := Resume(db, d, templateUsable, refused); c in db'.campaigns && db'.campaigns[c] == db.campaigns[c]
  {
    hide Dispatch, StartRefusal, Keep;
    if ResumeResponse(db, d, templateUsable).Done? {
      DispatchLeavesInactive(Reopen(db, d), d, refused, c);
    }
  }

  ghost predicate StillFinal(db: Db, db': Db, c: CampaignId) {
    c in db.campaigns && Final(db.campaigns[c].status) ==>
        c in db'.campaigns && db'.campaigns[c].status == db.campaigns[c].status
  }

  lemma PausesKeepFinal(db: Db, d: CampaignId, p: PhoneId, c: CampaignId)
    ensures StillFinal(db, PauseOne(db, d), c) && StillFinal(db, EvaluateAutoPause(db, d), c)
    ensures StillFinal(db, PauseOnPhone(db, p), c) && StillFinal(db, PausePhone(db, p), c)
    ensures StillFinal(db, Refresh(db, d), c)
  {}

  lemma AfterFailureKeepsFinal(db: Db, d: CampaignId, category: Category, c: CampaignId)
    requires d in db.campaigns
    ensures StillFinal(db, AfterFailure(db, d, category), c)
  {
    hide PauseOne, EvaluateAutoPause, PausePhone, Refresh;
    PausesKeepFinal(db, d, db.campaigns[d].phone, c);
    var db1 := if category.Authentication? || category.PermanentAccount? then PausePhone(db, db.campaigns[d].phone)
               else if category.PermanentTemplate? then PauseOne(db, d)
               else EvaluateAutoPause(db, d);
    PausesKeepFinal(db1, d, 0, c);
  }

  lemma CatchKeepsFinal(db: Db, r: RowId, category: Category, delayMs: nat, c: CampaignId)
    requires r in db.sending && r in db.rows && r.campaign in db.campaigns
    ensures StillFinal(db, CatchError(db, r, category, delayMs), c)
  {
    hide AfterFailure;
    if !WillRetry(db, r, category) {
      AfterFailureKeepsFinal(UpdateRow(db.(sending := db.sending - {r}), r, db.rows[r].(status := R.Failed)),
                             r.campaign, category, c);
    }
  }

  lemma FinalSurvivesCancel(db: Db, d: CampaignId, c: CampaignId)
    ensures StillFinal(db, Cancel(db, d), c)
  {
    hide Refresh;
    if CancelResponse(db, d).Done? {
      var hit := (r: RowId) => r in db.rows && r.campaign == d && R.Waiting(db.rows[r].status);
      PausesKeepFinal(SetStatus(UpdateRows(db, hit, R.Cancelled), d, C.Cancelled), d, 0, c);
    }
  }

  lemma FinalSurvivesFinish(db: Db, r: RowId, result: SendResult, c: CampaignId)
    ensures StillFinal(db, FinishSend(db, r, result), c)
  {
    hide Refresh, CatchError;
    if r in db.sending && r in db.rows && r.campaign in db.campaigns {
      match result
      case Recorded(answer, message) =>
        PausesKeepFinal(RecordSent(db, r, answer, message).(sending := db.sending - {r}), r.campaign, 0, c);
      case RecordedThenThrew(answer, message, category, delayMs) =>
        CatchKeepsFinal(RecordSent(db, r, answer, message), r, category, delayMs, c);
      case Rejected(category, delayMs) =>
        CatchKeepsFinal(db, r, category, delayMs, c);
    }
  }

  lemma FinalSurvivesWebhook(db: Db, message: MessageId, status: R.Status, c: CampaignId)
    ensures StillFinal(db, StatusWebhook(db, message, status), c)
  {
    hide Refresh, EvaluateAutoPause;
    if message in db.messages && db.messages[message].providerId.Some? && R.Attempted(status) {
      var d := db.messages[message].campaign;
      var db1 := UpdateRows(db, (r: RowId) => r in db.rows && r.campaign == d && db.rows[r].message == Some(message),
                            status);
      PausesKeepFinal(db1, d, 0, c);
      PausesKeepFinal(if status.Failed? then EvaluateAutoPause(db1, d) else db1, d, 0, c);
    }
  }

  lemma FinalSurvivesCalm(db: Db, a: Action, c: CampaignId)
    requires StartsNothing(a)
    ensures StillFinal(db, Step(db, a), c)
  {
    hide PauseOne, PauseOnPhone, Refresh, Cancel, FinishSend, StatusWebhook, ClaimWriteOf;
    match a
    case APause(d) => PausesKeepFinal(db, d, 0, c);
    case ACancel(d) => FinalSurvivesCancel(db, d, c);
    case AFinish(r, result) => FinalSurvivesFinish(db, r, result, c);
    case AWebhook(message, status) => FinalSurvivesWebhook(db, message, status, c);
    case ASetPhone(p, state) => PausesKeepFinal(db.(phones := db.phones[p := state]), 0, p, c);
    case ARefresh(d) => PausesKeepFinal(db, d, 0, c);
    case _ =>
  }

  /** A campaign that is COMPLETED, FAILED or CANCELLED keeps that status in every continuation. */
  lemma {:induction false} FinalIsFinal(db: Db, actions: seq<Action>, c: CampaignId)
    requires Good(db) && c in db.campaigns && Final(db.campaigns[c].status)
    ensures c in Run(db, actions).campaigns && Run(db, actions).campaigns[c].status == db.campaigns[c].status
    decreases |actions|
  {
    hide Good, Step;
    if actions != [] {
      StepKeeps(db, actions[0]);
      StepKeepsFinal(db, actions[0], c);
      FinalIsFinal(Step(db, actions[0]), actions[1..], c);
    }
  }

  /** Completion is final: the campaign stays COMPLETED in every continuation, all its recipients are terminal,
      and no job for any of them claims a row or calls the provider. */
  lemma CompletedIsFinal(db: Db, actions: seq<Action>, c: CampaignId)
    requires Good(db) && c in db.campaigns && db.campaigns[c].status.Completed?
    ensures var db' := Run(db, actions);
            && c in db'.campaigns && db'.campaigns[c].status.Completed? && Quiet(db', c)
            && (forall r :: r in db'.rows && r.campaign == c ==> r !in db'.sending && ClaimRecipient(db', r) == db')
  {
    FinalIsFinal(db, actions, c);
    RunKeeps(db, actions);
    hide Run;
    assert CampaignOk(Run(db, actions), c);
  }

  /** A count refresh completes a campaign exactly when it is active and nothing of it is open. */
  lemma RefreshCompletesWhenQuiet(db: Db, c: CampaignId)
    requires c in db.campaigns && !db.campaigns[c].status.Completed?
    ensures Refresh(db, c).campaigns[c].status.Completed? <==> C.Active(db.campaigns[c].status) && Quiet(db, c)
  {
    if Quiet(db, c) {
      assert RowsWith(db, c, (s: R.Status) => s == R.Pending) == {};
      assert RowsWith(db, c, (s: R.Status) => s == R.Queued) == {};
      assert RowsWith(db, c, (s: R.Status) => s == R.Processing) == {};
    }
    if Refresh(db, c).campaigns[c].status.Completed? {
      NoneCounted(db, c, R.Pending);
      NoneCounted(db, c, R.Queued);
      NoneCounted(db, c, R.Processing);
    }
  }

  // ---------------------------------------------------------------------------------------------
  // Conservation
  // ---------------------------------------------------------------------------------------------

  lemma SplitRows(db: Db, c: CampaignId, wanted: R.Status -> bool, status: R.Status)
    requires wanted(status)
    ensures |RowsWith(db, c, wanted)|
            == CountOf(db, c, status) + |RowsWith(db, c, (s: R.Status) => wanted(s) && s != status)|
  {
    var part := RowsWith(db, c, (s: R.Status) => s == status);
    var rest := RowsWith(db, c, (s: R.Status) => wanted(s) && s != status);
    assert RowsWith(db, c, wanted) == part + rest;
    assert part !! rest;
  }

  lemma SameRows(db: Db, c: CampaignId, one: R.Status -> bool, other: R.Status -> bool)
    requires forall s :: one(s) == other(s)
    ensures |RowsWith(db, c, one)| == |RowsWith(db, c, other)|
  {
    assert RowsWith(db, c, one) == RowsWith(db, c, other);
  }

  function RowsOf(db: Db, c: CampaignId): set<RowId> {
    set r | r in db.rows && r.campaign == c
  }

  /** The nine status counts of a campaign add up to its recipients. */
  lemma CountsAddUp(db: Db, c: CampaignId)
    ensures CountOf(db, c, R.Pending) + CountOf(db, c, R.Queued) + CountOf(db, c, R.Processing)
            + CountOf(db, c, R.Sent) + CountOf(db, c, R.Delivered) + CountOf(db, c, R.Read)
            + CountOf(db, c, R.Failed) + CountOf(db, c, R.Skipped) + CountOf(db, c, R.Cancelled) == |RowsOf(db, c)|
  {
    hide CountOf, RowsWith;
    var all := (s: R.Status) => true;
    assert RowsOf(db, c) == RowsWith(db, c, all) by { AllRows(db, c); }
    SplitRows(db, c, all, R.Pending);
    var p1 := (s: R.Status) => all(s) && s != R.Pending;
    SplitRows(db, c, p1, R.Queued);
    var p2 := (s: R.Status) => p1(s) && s != R.Queued;
    SplitRows(db, c, p2, R.Processing);
    var p3 := (s: R.Status) => p2(s) && s != R.Processing;
    SplitRows(db, c, p3, R.Sent);
    var p4 := (s: R.Status) => p3(s) && s != R.Sent;
    SplitRows(db, c, p4, R.Delivered);
    var p5 := (s: R.Status) => p4(s) && s != R.Delivered;
    SplitRows(db, c, p5, R.Read);
    var p6 := (s: R.Status) => p5(s) && s != R.Read;
    SplitRows(db, c, p6, R.Failed);
    var p7 := (s: R.Status) => p6(s) && s != R.Failed;
    SplitRows(db, c, p7, R.Skipped);
    var p8 := (s: R.Status) => p7(s) && s != R.Skipped;
    SplitRows(db, c, p8, R.Cancelled);
    var p9 := (s: R.Status) => p8(s) && s != R.Cancelled;
    SameRows(db, c, p9, (s: R.Status) => false);
    NoRows(db, c);
  }

  lemma AllRows(db: Db, c: CampaignId)
    ensures RowsWith(db, c, (s: R.Status) => true) == RowsOf(db, c)
  {}

  lemma NoRows(db: Db, c: CampaignId)
    ensures RowsWith(db, c, (s: R.Status) => false) == {}
  {}

  /** After a refresh the stored counts are the true ones: with the rows in PROCESSING and CANCELLED, which are not
      stored, they make up the whole campaign. */
  lemma StoredCountsAreComplete(db: Db, c: CampaignId)
    requires c in db.campaigns
    ensures var stored := Refresh(db, c).campaigns[c].counts;
            stored.pending + stored.queued + stored.sent + stored.delivered + stored.read + stored.failed
                + stored.skipped
            + CountOf(db, c, R.Processing) + CountOf(db, c, R.Cancelled) == |RowsOf(db, c)|
  {
    hide CountOf, RowsOf;
    CountsAddUp(db, c);
  }
}
