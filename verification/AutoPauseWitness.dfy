// A run from the start that ends with a running campaign whose newest attempts all failed.

module AutoPauseWitness {
  import opened Options
  import opened CampaignErrors
  import opened PhoneSafety
  import opened CampaignService
  import opened CampaignInvariants
  import opened AutoPause
  import E = CampaignEligibility
  import P = Preparation
  import R = RecipientStatus
  import C = CampaignStatus

  const ONLY := RowId(0, 0)

  // A recipient whom no rule speaks against.
  const WILLING := E.Facts([], Some(11), false, true, false, false, true, false, NEW_PHONE, 0, 1, false, None, 0)

  /** One recipient, whose send is refused for good, and a resume of the campaign that was paused for it. */
  function RefusedThenResumed(settings: Settings): seq<Action> {
    [ACreate(0, 0, 0, 0, settings.minBatchDelayMs), APrepare(0, [P.Item(0, 0, WILLING)]), AStart(0, true, {}),
     AClaim(ONLY), AFinish(ONLY, Rejected(PermanentRecipient, 0)), AResume(0, true, {})]
  }

  predicate OneCampaign(campaign: Campaign, settings: Settings, status: C.Status) {
    && campaign.status == status && campaign.phone == 0 && campaign.eligibleCount == 1
    && campaign.ratePerMinute == Some(0) && campaign.batchSize == Some(0)
    && campaign.batchDelayMs == Some(settings.minBatchDelayMs)
  }

  // The campaign with its only recipient.
  predicate OneRow(db: Db, env: Env, settings: Settings, status: C.Status, row: R.Status) {
    && db.env == env && db.settings == settings && db.messages == map[] && db.phones == map[0 := NEW_PHONE]
    && db.campaigns.Keys == {0} && OneCampaign(db.campaigns[0], settings, status)
    && db.rows.Keys == {ONLY} && db.rows[ONLY].status == row && db.rows[ONLY].providerId.None?
    && db.rows[ONLY].nextAttemptAt.None? && db.order == [ONLY] && db.latest == [ONLY]
  }

  lemma KeepOnly(keep: RowId -> bool)
    ensures Keep([ONLY], keep) == if keep(ONLY) then [ONLY] else []
  {
    assert [ONLY][1..] == [];
  }

  // The row is written and stays the newest.
  lemma WriteOnly(db: Db, env: Env, settings: Settings, status: C.Status, before: R.Status, row: Recipient)
    requires OneRow(db, env, settings, status, before) && row.providerId.None? && row.nextAttemptAt.None?
    ensures OneRow(UpdateRow(db, ONLY, row), env, settings, status, row.status)
  {
    KeepOnly((x: RowId) => x != ONLY);
    hide Keep;
    assert [ONLY] + [] == [ONLY];
  }

  lemma Created(env: Env, settings: Settings)
    ensures var db := Step(Empty(env, settings), ACreate(0, 0, 0, 0, settings.minBatchDelayMs));
            && db == Empty(env, settings).(campaigns := db.campaigns, phones := map[0 := NEW_PHONE])
            && db.campaigns == map[0 := Campaign(C.Queued, 0, None, 0, NO_COUNTS, Some(0), Some(0),
                                                 Some(settings.minBatchDelayMs))]
  {}

  lemma OneIsPrepared()
    ensures OnPhone([P.Item(0, 0, WILLING)], NEW_PHONE) == [P.Item(0, 0, WILLING)]
    ensures P.PreparedRows([P.Item(0, 0, WILLING)]) == map[0 := P.Prepared(0, P.Pending)]
    ensures Inserted(0, [P.Item(0, 0, WILLING)]) == [ONLY]
  {
    var items := [P.Item(0, 0, WILLING)];
    assert E.Eligible(WILLING, false) && !P.Repeated(items, {}, 0);
    var entries := P.RowsOf(items, {});
    assert entries == [P.Entry(0, P.Prepared(0, P.Pending))] && entries[..0] == [];
    assert P.Upsert(map[], entries) == P.Upsert(map[], entries[..0])[0 := P.Prepared(0, P.Pending)];
    assert items[..0] == [];
  }

  lemma PreparedAlone(db: Db, env: Env, settings: Settings)
    requires db == Empty(env, settings).(campaigns := db.campaigns, phones := map[0 := NEW_PHONE])
    requires db.campaigns == map[0 := Campaign(C.Queued, 0, None, 0, NO_COUNTS, Some(0), Some(0),
                                               Some(settings.minBatchDelayMs))]
    ensures var db' := Step(db, APrepare(0, [P.Item(0, 0, WILLING)]));
            OneRow(db', env, settings, C.Scheduled, R.Pending) && db'.sending == map[]
  {
    OneIsPrepared();
    OneRecipient();
    hide OnPhone, P.PreparedRows, P.PendingRows, PreparedRecipients, Inserted;
    var db' := Step(db, APrepare(0, [P.Item(0, 0, WILLING)]));
    assert db'.rows == map[ONLY := Recipient(0, R.Pending, None, None, 0, None)];
    assert db'.order == [ONLY] && db'.latest == [ONLY];
  }

  lemma OneRecipient()
    ensures var prepared := map[0 := P.Prepared(0, P.Pending)];
            && |P.PendingRows(prepared)| == 1
            && PreparedRecipients(0, prepared) == map[ONLY := Recipient(0, R.Pending, None, None, 0, None)]
  {
    assert P.PendingRows(map[0 := P.Prepared(0, P.Pending)]) == {0};
  }

  lemma StartedAlone(db: Db, env: Env, settings: Settings)
    requires Positive(env) && OneRow(db, env, settings, C.Scheduled, R.Pending)
    ensures var db' := Step(db, AStart(0, true, {}));
            OneRow(db', env, settings, C.Running, R.Queued) && db'.sending == db.sending
  {
    hide Dispatch;
    var db1 := MarkStarted(db, 0, db.campaigns[0].startedAt);
    assert EnsurePhone(db, 0) == db && !HasOtherActive(db, 0);
    assert OneRow(db1, env, settings, C.Running, R.Pending);
    DispatchedAlone(db1, env, settings);
  }

  lemma DispatchedAlone(db: Db, env: Env, settings: Settings)
    requires Positive(env) && OneRow(db, env, settings, C.Running, R.Pending)
    ensures var db' := Dispatch(db, 0, {});
            OneRow(db', env, settings, C.Running, R.Queued) && db'.sending == db.sending
  {
    assert !HasCompetitor(db, 0) && RowsWith(db, 0, R.InFlight) == {};
    KeepOnly((r: RowId) => Due(db, 0, r));
    assert Selected(db, 0) == [ONLY];
    assert [ONLY][..0] == [] && QueueBatch(db, [ONLY], {}) == QueueOne(db, ONLY, {});
    WriteOnly(db, env, settings, C.Running, R.Pending, db.rows[ONLY].(status := R.Queued));
    hide UpdateRow, HasCompetitor, RowsWith, Selected, QueueBatch;
    QueueKeepsCampaigns(db, [ONLY], {});
  }

  lemma ClaimedAlone(db: Db, env: Env, settings: Settings)
    requires OneRow(db, env, settings, C.Running, R.Queued) && db.sending == map[]
    ensures var db' := Step(db, AClaim(ONLY));
            OneRow(db', env, settings, C.Running, R.Processing) && ONLY in db'.sending
  {
    var row := db.rows[ONLY].(status := R.Processing, attemptCount := db.rows[ONLY].attemptCount + 1);
    WriteOnly(db, env, settings, C.Running, R.Queued, row);
    hide UpdateRow;
  }

  lemma RefusedAlone(db: Db, env: Env, settings: Settings)
    requires OneRow(db, env, settings, C.Running, R.Processing) && ONLY in db.sending
    requires settings.consecutiveFailures == 1
    ensures var db' := Step(db, AFinish(ONLY, Rejected(PermanentRecipient, 0)));
            OneRow(db', env, settings, C.Paused, R.Failed)
  {
    hide Step, UpdateRow, AfterFailure, OnStreak;
    var row := db.rows[ONLY].(status := R.Failed);
    var released := db.(sending := db.sending - {ONLY});
    RefusedStep(db);
    WriteOnly(released, env, settings, C.Running, R.Processing, row);
    OneFailureIsStreak(UpdateRow(released, ONLY, row), env, settings, C.Running);
    JudgedAlone(UpdateRow(released, ONLY, row), env, settings);
  }

  lemma RefusedStep(db: Db)
    requires ONLY in db.sending && ONLY in db.rows && 0 in db.campaigns
    ensures var released := db.(sending := db.sending - {ONLY});
            Step(db, AFinish(ONLY, Rejected(PermanentRecipient, 0)))
            == AfterFailure(UpdateRow(released, ONLY, db.rows[ONLY].(status := R.Failed)), 0, PermanentRecipient)
  {
    hide AfterFailure, UpdateRow;
  }

  lemma JudgedAlone(db: Db, env: Env, settings: Settings)
    requires OneRow(db, env, settings, C.Running, R.Failed) && OnStreak(db, 0)
    ensures OneRow(AfterFailure(db, 0, PermanentRecipient), env, settings, C.Paused, R.Failed)
  {
    hide CountOf, CountsOf, RecentStatuses;
  }

  // With K = 1.
  lemma OneFailureIsStreak(db: Db, env: Env, settings: Settings, status: C.Status)
    requires OneRow(db, env, settings, status, R.Failed) && settings.consecutiveFailures == 1
    ensures OnStreak(db, 0)
  {
    KeepOnly((r: RowId) => r in db.rows && r.campaign == 0 && R.Attempted(db.rows[r].status));
    assert RecentRows(db, 0) == [ONLY];
  }

  lemma ResumeIsAccepted(db: Db, env: Env, settings: Settings)
    requires OneRow(db, env, settings, C.Paused, R.Failed)
    ensures ResumeResponse(db, 0, true).Done?
  {
    assert !HasOtherActive(db, 0);
  }

  /** With K = 1, in whatever environment: the resumed campaign runs, and its newest attempt failed. */
  lemma ResumedOnStreak(env: Env, settings: Settings)
    requires Positive(env) && settings.consecutiveFailures == 1
    ensures var db := Run(Empty(env, settings), RefusedThenResumed(settings));
            && 0 in db.campaigns && db.campaigns[0].status.Running? && OnStreak(db, 0)
            && !AlwaysNoStreak(Empty(env, settings), RefusedThenResumed(settings))
  {
    hide Step, OneRow, OnStreak;
    var db1 := Step(Empty(env, settings), ACreate(0, 0, 0, 0, settings.minBatchDelayMs));
    Created(env, settings);
    var db2 := Step(db1, APrepare(0, [P.Item(0, 0, WILLING)]));
    PreparedAlone(db1, env, settings);
    var db3 := Step(db2, AStart(0, true, {}));
    StartedAlone(db2, env, settings);
    var db4 := Step(db3, AClaim(ONLY));
    ClaimedAlone(db3, env, settings);
    var db5 := Step(db4, AFinish(ONLY, Rejected(PermanentRecipient, 0)));
    RefusedAlone(db4, env, settings);
    OneFailureIsStreak(db5, env, settings, C.Paused);
    ResumeIsAccepted(db5, env, settings);
    var db6 := Step(db5, AResume(0, true, {}));
    assert db6 == Resume(db5, 0, true, {}) by { ResumeStep(db5); }
    ResumeKeepsStreak(db5, 0, true, {});
    SixSteps(Empty(env, settings), RefusedThenResumed(settings));
    if AlwaysNoStreak(Empty(env, settings), RefusedThenResumed(settings)) {
      AlwaysAtTheEnd(Empty(env, settings), RefusedThenResumed(settings));
    }
  }

  lemma ResumeStep(db: Db)
    ensures Step(db, AResume(0, true, {})) == Resume(db, 0, true, {})
  {}

  lemma SixSteps(db: Db, actions: seq<Action>)
    requires |actions| == 6
    ensures Run(db, actions)
            == Step(Step(Step(Step(Step(Step(db, actions[0]), actions[1]), actions[2]), actions[3]), actions[4]),
                    actions[5])
  {
    hide Step;
    var db3 := Step(Step(Step(db, actions[0]), actions[1]), actions[2]);
    assert Run(db, actions) == Run(Step(db, actions[0]), actions[1..]);
    assert Run(Step(db, actions[0]), actions[1..]) == Run(Step(Step(db, actions[0]), actions[1]), actions[1..][1..]);
    assert actions[1..][1..] == actions[2..] && actions[2..][1..] == actions[3..] && actions[3..][1..] == actions[4..];
    assert actions[4..][1..] == actions[5..] && actions[5..][1..] == [];
    assert Run(db, actions) == Run(db3, actions[3..]);
    assert Run(db3, actions[3..]) == Run(Step(db3, actions[3]), actions[4..]);
    assert Run(Step(db3, actions[3]), actions[4..]) == Run(Step(Step(db3, actions[3]), actions[4]), actions[5..]);
  }
}
