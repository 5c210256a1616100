// Automatic pause: a running campaign never has its newest attempts all failed, through whichever door the failures
// came in, unless a call sets it running, or a new setting takes effect, while they have.

module AutoPause {
  import opened Options
  import opened CampaignErrors
  import opened CampaignService
  import opened CampaignInvariants
  import P = Preparation
  import R = RecipientStatus
  import C = CampaignStatus

  // ---------------------------------------------------------------------------------------------
  // The rule
  // ---------------------------------------------------------------------------------------------

  /** Without a streak the rule pauses exactly when enough recipients are sampled and failed * 100 is at least
      percent * sampled; an empty sample has the rate 0. */
  lemma RateTest(sampled: nat, failed: nat, recent: seq<R.Status>, settings: Settings)
    requires !NewestAllFailed(recent, settings.consecutiveFailures)
    ensures AutoPauseReason(sampled, failed, recent, settings).Some? <==>
              && sampled >= settings.minSample
              && (if sampled > 0 then failed as real * 100.0 >= settings.failureRatePercent * sampled as real
                  else settings.failureRatePercent <= 0.0)
  {
    if sampled > 0 {
      DivideAtLeast(failed as real * 100.0, sampled as real, settings.failureRatePercent);
    }
  }

  /** The pause rule in terms of the stored recipients: the K newest attempts all failed, or enough recipients are SENT,
      DELIVERED, READ, FAILED, SKIPPED or CANCELLED, and the share of the FAILED ones reaches the limit. */
  lemma RuleSpeaksExactly(db: Db, c: CampaignId)
    ensures var done := set r | r in db.rows && r.campaign == c
                            && db.rows[r].status in {R.Sent, R.Delivered, R.Read, R.Failed, R.Skipped, R.Cancelled};
            var failed := set r | r in db.rows && r.campaign == c && db.rows[r].status == R.Failed;
            PauseReasonOf(db, c).Some? <==>
              || OnStreak(db, c)
              || (|done| >= db.settings.minSample
                  && (if |done| > 0 then |failed| as real * 100.0 >= db.settings.failureRatePercent * |done| as real
                      else db.settings.failureRatePercent <= 0.0))
  {
    hide RecentStatuses;
    var done := set r | r in db.rows && r.campaign == c
                        && db.rows[r].status in {R.Sent, R.Delivered, R.Read, R.Failed, R.Skipped, R.Cancelled};
    var failed := set r | r in db.rows && r.campaign == c && db.rows[r].status == R.Failed;
    assert RowsWith(db, c, R.Terminal) == done;
    assert RowsWith(db, c, (s: R.Status) => s == R.Failed) == failed;
    if !OnStreak(db, c) {
      RateTest(|done|, |failed|, RecentStatuses(db, c), db.settings);
    }
  }

  // The recipients with a result, newest update first.
  function WithResult(db: Db, c: CampaignId): (results: seq<RowId>)
    ensures forall r :: r in results ==> r in db.rows
  {
    Keep(db.latest, (r: RowId) => r in db.rows && r.campaign == c
                                  && db.rows[r].status in {R.Sent, R.Delivered, R.Read, R.Failed})
  }

  lemma RecentIsWithResult(db: Db, c: CampaignId)
    ensures RecentRows(db, c) == WithResult(db, c)
  {
    var wanted := (r: RowId) => r in db.rows && r.campaign == c && R.Attempted(db.rows[r].status);
    var explicit := (r: RowId) => r in db.rows && r.campaign == c
                                  && db.rows[r].status in {R.Sent, R.Delivered, R.Read, R.Failed};
    KeepSame(db.latest, wanted, explicit);
  }

  /** A campaign is on a streak exactly if at least K of its recipients have a result and the newest K FAILED. */
  lemma StreakIs(db: Db, c: CampaignId)
    ensures var results := WithResult(db, c);
            OnStreak(db, c) <==>
              && |results| >= db.settings.consecutiveFailures
              && forall i :: 0 <= i < db.settings.consecutiveFailures ==>
                   results[i] in results && db.rows[results[i]].status == R.Failed
  {
    RecentIsWithResult(db, c);
    hide RecentRows, WithResult;
    var k, results := db.settings.consecutiveFailures, WithResult(db, c);
    var newest := Take(results, k);
    assert forall r :: r in newest ==> r in results;
    assert RecentStatuses(db, c) == StatusesOf(db, newest);
    forall i | 0 <= i < |newest|
      ensures results[i] in results && RecentStatuses(db, c)[i] == db.rows[results[i]].status
    {
      assert newest[i] == results[i] && newest[i] in newest;
    }
  }

  lemma DivideAtLeast(x: real, y: real, z: real)
    requires y > 0.0
    ensures x / y >= z <==> x >= z * y
  {}

  /** The newest K attempted recipients of the campaign all failed. */
  predicate OnStreak(db: Db, c: CampaignId) {
    NewestAllFailed(RecentStatuses(db, c), db.settings.consecutiveFailures)
  }

  ghost predicate NoRunningStreak(db: Db) {
    forall c :: c in db.campaigns && db.campaigns[c].status.Running? ==> !OnStreak(db, c)
  }

  // ---------------------------------------------------------------------------------------------
  // The list of newest attempts
  // ---------------------------------------------------------------------------------------------

  lemma {:induction false} KeepAppend(a: seq<RowId>, b: seq<RowId>, keep: RowId -> bool)
    ensures Keep(a + b, keep) == Keep(a, keep) + Keep(b, keep)
  {
    if a == [] {
      assert a + b == b;
    } else {
      assert (a + b)[1..] == a[1..] + b;
      KeepAppend(a[1..], b, keep);
    }
  }

  // Filtering twice, when the first filter passes everything the second one wants.
  lemma {:induction false} KeepOfKeep(list: seq<RowId>, first: RowId -> bool, second: RowId -> bool)
    requires forall r :: r in list && second(r) ==> first(r)
    ensures Keep(Keep(list, first), second) == Keep(list, second)
  {
    if list != [] {
      KeepOfKeep(list[1..], first, second);
      KeepAppend(if first(list[0]) then [list[0]] else [], Keep(list[1..], first), second);
      assert Keep([list[0]], second) == if second(list[0]) then [list[0]] else [];
    }
  }

  lemma {:induction false} KeepSame(list: seq<RowId>, one: RowId -> bool, other: RowId -> bool)
    requires forall r :: r in list ==> one(r) == other(r)
    ensures Keep(list, one) == Keep(list, other)
  {
    if list != [] {
      KeepSame(list[1..], one, other);
    }
  }

  lemma {:induction false} KeepNone(list: seq<RowId>, keep: RowId -> bool)
    requires forall r :: r in list ==> !keep(r)
    ensures Keep(list, keep) == []
  {
    if list != [] {
      KeepNone(list[1..], keep);
    }
  }

  /** The campaign's newest attempts, with their results, are the same in both states. */
  ghost predicate SameRecent(db: Db, db': Db, c: CampaignId) {
    && RecentRows(db', c) == RecentRows(db, c)
    && forall r :: r in RecentRows(db, c) ==> r in db'.rows && db'.rows[r].status == db.rows[r].status
  }

  lemma SameRecentSameStreak(db: Db, db': Db, c: CampaignId)
    requires SameRecent(db, db', c) && db'.settings == db.settings
    ensures RecentStatuses(db', c) == RecentStatuses(db, c)
    ensures OnStreak(db', c) == OnStreak(db, c)
  {}

  /** The campaign's newest attempt did not fail. */
  ghost predicate FrontOk(db: Db, c: CampaignId) {
    var recent := RecentRows(db, c);
    recent != [] && recent[0] in db.rows && !db.rows[recent[0]].status.Failed?
  }

  lemma FrontOkBreaksStreak(db: Db, c: CampaignId)
    requires FrontOk(db, c) && db.settings.consecutiveFailures > 0
    ensures !OnStreak(db, c)
  {
    hide RecentRows;
    var newest := Take(RecentRows(db, c), db.settings.consecutiveFailures);
    assert newest[0] == RecentRows(db, c)[0];
    assert newest[0] in RecentRows(db, c);
    assert RecentStatuses(db, c)[0] == db.rows[newest[0]].status;
  }

  lemma NoAttemptsNoStreak(db: Db, c: CampaignId)
    requires db.settings.consecutiveFailures > 0
    requires forall r :: r in db.rows && r.campaign == c ==> !R.Attempted(db.rows[r].status)
    ensures !OnStreak(db, c)
  {
    KeepNone(db.latest, (r: RowId) => r in db.rows && r.campaign == c && R.Attempted(db.rows[r].status));
    assert RecentRows(db, c) == [];
    assert RecentStatuses(db, c) == [];
  }

  // ---------------------------------------------------------------------------------------------
  // Row writes
  // ---------------------------------------------------------------------------------------------

  /** Updates of rows whose results are not known, before or after, leave every list alone. */
  lemma UpdateRowsRecent(db: Db, hit: RowId -> bool, status: R.Status, c: CampaignId)
    requires !R.Attempted(status)
    requires forall r :: r in db.rows && hit(r) ==> !R.Attempted(db.rows[r].status)
    ensures SameRecent(db, UpdateRows(db, hit, status), c)
  {
    var db' := UpdateRows(db, hit, status);
    var wanted := (r: RowId) => r in db'.rows && r.campaign == c && R.Attempted(db'.rows[r].status);
    var before := (r: RowId) => r in db.rows && r.campaign == c && R.Attempted(db.rows[r].status);
    var others := (r: RowId) => !hit(r);
    KeepAppend(Keep(db.latest, hit), Keep(db.latest, others), wanted);
    KeepNone(Keep(db.latest, hit), wanted);
    KeepOfKeep(db.latest, others, wanted);
    KeepSame(db.latest, wanted, before);
  }

  lemma UpdateRowRecent(db: Db, r: RowId, row: Recipient, c: CampaignId)
    requires r in db.rows
    requires r.campaign == c ==> !R.Attempted(db.rows[r].status) && !R.Attempted(row.status)
    ensures SameRecent(db, UpdateRow(db, r, row), c)
  {
    var db' := UpdateRow(db, r, row);
    var wanted := (x: RowId) => x in db'.rows && x.campaign == c && R.Attempted(db'.rows[x].status);
    var before := (x: RowId) => x in db.rows && x.campaign == c && R.Attempted(db.rows[x].status);
    var others := (x: RowId) => x != r;
    KeepAppend([r], Keep(db.latest, others), wanted);
    KeepNone([r], wanted);
    KeepSame(db.latest, wanted, before);
    KeepOfKeep(db.latest, others, wanted);
  }

  lemma UpdateRowFront(db: Db, r: RowId, row: Recipient)
    requires R.Attempted(row.status) && !row.status.Failed?
    ensures FrontOk(UpdateRow(db, r, row), r.campaign)
  {}

  // A status notification that finds no listed row of the campaign.
  lemma NotifiedElsewhere(db: Db, hit: RowId -> bool, status: R.Status, c: CampaignId)
    requires forall r :: r in db.latest && hit(r) ==> r.campaign != c
    ensures SameRecent(db, UpdateRows(db, hit, status), c)
  {
    var db' := UpdateRows(db, hit, status);
    var wanted := (r: RowId) => r in db'.rows && r.campaign == c && R.Attempted(db'.rows[r].status);
    var before := (r: RowId) => r in db.rows && r.campaign == c && R.Attempted(db.rows[r].status);
    var others := (r: RowId) => !hit(r);
    KeepAppend(Keep(db.latest, hit), Keep(db.latest, others), wanted);
    KeepNone(Keep(db.latest, hit), wanted);
    KeepSame(db.latest, wanted, before);
    KeepOfKeep(db.latest, others, wanted);
  }

  // A status notification puts the rows that it finds in front.
  lemma NotifiedInFront(db: Db, hit: RowId -> bool, status: R.Status, c: CampaignId, r: RowId)
    requires R.Attempted(status) && !status.Failed?
    requires r in db.latest && hit(r) && r.campaign == c && r in db.rows
    ensures FrontOk(UpdateRows(db, hit, status), c)
  {
    var db' := UpdateRows(db, hit, status);
    var wanted := (x: RowId) => x in db'.rows && x.campaign == c && R.Attempted(db'.rows[x].status);
    var front := Keep(db.latest, hit);
    KeepAppend(front, Keep(db.latest, (x: RowId) => !hit(x)), wanted);
    assert r in Keep(front, wanted);
    var first := Keep(front, wanted)[0];
    assert first in Keep(front, wanted);
    assert RecentRows(db', c)[0] == first;
  }

  // ---------------------------------------------------------------------------------------------
  // Steps
  // ---------------------------------------------------------------------------------------------

  /** What a step may do to the newest attempts of a campaign that runs afterwards. */
  ghost predicate Tame(db: Db, db': Db, c: CampaignId) {
    c in db'.campaigns && db'.campaigns[c].status.Running? ==>
      !OnStreak(db', c) || (c in db.campaigns && db.campaigns[c].status.Running? && OnStreak(db', c) == OnStreak(db, c))
  }

  lemma TameKeeps(db: Db, db': Db)
    requires NoRunningStreak(db) && forall c :: Tame(db, db', c)
    ensures NoRunningStreak(db')
  {
    hide OnStreak;
    forall c | c in db'.campaigns && db'.campaigns[c].status.Running? ensures !OnStreak(db', c) {
      assert Tame(db, db', c);
    }
  }

  lemma TameComposes(db: Db, db1: Db, db2: Db, c: CampaignId)
    requires Tame(db, db1, c) && Tame(db1, db2, c)
    ensures Tame(db, db2, c)
  {}

  ghost predicate NoNewRunning(db: Db, db': Db) {
    forall c :: c in db'.campaigns && db'.campaigns[c].status.Running? ==>
        c in db.campaigns && db.campaigns[c].status.Running?
  }

  lemma SameRecentIsTame(db: Db, db': Db, c: CampaignId)
    requires SameRecent(db, db', c) && db'.settings == db.settings && NoNewRunning(db, db')
    ensures Tame(db, db', c)
  {
    hide OnStreak;
    SameRecentSameStreak(db, db', c);
  }

  // Campaigns, phones, jobs, messages and the clock play no part in the list.
  lemma OtherTablesAreTame(db: Db, db': Db, c: CampaignId)
    requires Pauses(db, db')
    ensures Tame(db, db', c)
  {}

  lemma PausesAreTame(db: Db, d: CampaignId, p: PhoneId, c: CampaignId)
    ensures Tame(db, PauseOne(db, d), c) && Tame(db, Refresh(db, d), c) && Tame(db, PausePhone(db, p), c)
    ensures Tame(db, EvaluateAutoPause(db, d), c) && Tame(db, PauseOnPhone(db, p), c)
  {
    hide *;
    StartNoneCampaigns(db, d, p);
    OtherTablesAreTame(db, PauseOne(db, d), c);
    OtherTablesAreTame(db, Refresh(db, d), c);
    OtherTablesAreTame(db, PausePhone(db, p), c);
    OtherTablesAreTame(db, EvaluateAutoPause(db, d), c);
    OtherTablesAreTame(db, PauseOnPhone(db, p), c);
  }

  /** The rows, their times and the settings are the same, and no campaign came to run. */
  ghost predicate Pauses(db: Db, db': Db) {
    db'.rows == db.rows && db'.latest == db.latest && db'.settings == db.settings && NoNewRunning(db, db')
  }

  lemma StartNoneCampaigns(db: Db, d: CampaignId, p: PhoneId)
    ensures Pauses(db, PauseOne(db, d)) && Pauses(db, Refresh(db, d)) && Pauses(db, PausePhone(db, p))
    ensures Pauses(db, EvaluateAutoPause(db, d)) && Pauses(db, PauseOnPhone(db, p))
  {
    PauseOnePauses(db, d);
    RefreshPauses(db, d);
    PauseOnPhonePauses(db, p);
    hide PauseOne, PauseOnPhone, Refresh, PauseReasonOf;
  }

  lemma PauseOnePauses(db: Db, d: CampaignId)
    ensures Pauses(db, PauseOne(db, d))
  {}

  lemma RefreshPauses(db: Db, d: CampaignId)
    ensures Pauses(db, Refresh(db, d))
  {}

  lemma PauseOnPhonePauses(db: Db, p: PhoneId)
    ensures Pauses(db, PauseOnPhone(db, p))
  {}

  lemma UpdateRowTame(db: Db, r: RowId, row: Recipient, c: CampaignId)
    requires r in db.rows
    requires r.campaign == c ==> !R.Attempted(db.rows[r].status) && !R.Attempted(row.status)
    ensures Tame(db, UpdateRow(db, r, row), c)
  {
    hide OnStreak;
    UpdateRowRecent(db, r, row, c);
    SameRecentIsTame(db, UpdateRow(db, r, row), c);
  }

  lemma UpdateRowsTame(db: Db, hit: RowId -> bool, status: R.Status, c: CampaignId)
    requires !R.Attempted(status)
    requires forall r :: r in db.rows && hit(r) ==> !R.Attempted(db.rows[r].status)
    ensures Tame(db, UpdateRows(db, hit, status), c)
  {
    hide OnStreak;
    UpdateRowsRecent(db, hit, status, c);
    SameRecentIsTame(db, UpdateRows(db, hit, status), c);
  }

  /** The campaign does not run, or the pause rule is silent about it. */
  ghost predicate Judged(db: Db, c: CampaignId) {
    c in db.campaigns && db.campaigns[c].status.Running? ==> PauseReasonOf(db, c).None?
  }

  lemma JudgedIsTame(db: Db, db': Db, c: CampaignId)
    requires Judged(db', c)
    ensures Tame(db, db', c)
  {}

  lemma RefreshKeepsJudged(db: Db, c: CampaignId)
    requires Judged(db, c)
    ensures Judged(Refresh(db, c), c)
  {}

  lemma EvaluationJudges(db: Db, c: CampaignId)
    ensures Judged(EvaluateAutoPause(db, c), c)
  {}

  /** After a final failure its campaign does not run, or the pause rule is silent about it. */
  lemma AfterFailureJudges(db: Db, c: CampaignId, category: Category)
    requires c in db.campaigns
    ensures Judged(AfterFailure(db, c, category), c)
  {
    hide Refresh, PauseReasonOf;
    var db1 := if category.Authentication? || category.PermanentAccount? then PausePhone(db, db.campaigns[c].phone)
               else if category.PermanentTemplate? then PauseOne(db, c)
               else EvaluateAutoPause(db, c);
    EvaluationJudges(db, c);
    assert Judged(db1, c);
    RefreshKeepsJudged(db1, c);
  }

  lemma AfterFailureTame(db: Db, d: CampaignId, category: Category, c: CampaignId)
    requires d in db.campaigns
    ensures Tame(db, AfterFailure(db, d, category), c)
  {
    hide Tame, Refresh, PausePhone, PauseOne, EvaluateAutoPause;
    PausesAreTame(db, d, db.campaigns[d].phone, c);
    var db1 := if category.Authentication? || category.PermanentAccount? then PausePhone(db, db.campaigns[d].phone)
               else if category.PermanentTemplate? then PauseOne(db, d)
               else EvaluateAutoPause(db, d);
    PausesAreTame(db1, d, 0, c);
    TameComposes(db, db1, Refresh(db1, d), c);
  }

  lemma KeepOthersTwice(list: seq<RowId>, r: RowId)
    ensures var others := (x: RowId) => x != r;
            Keep([r] + Keep(list, others), others) == Keep(list, others)
  {
    var others := (x: RowId) => x != r;
    KeepAppend([r], Keep(list, others), others);
    KeepNone([r], others);
    KeepOfKeep(list, others, others);
    assert [] + Keep(list, others) == Keep(list, others);
  }

  // Writing a row twice is writing it once, as far as the lists go.
  lemma UpdateTwice(db: Db, r: RowId, first: Recipient, second: Recipient)
    ensures UpdateRow(UpdateRow(db, r, first), r, second) == UpdateRow(db, r, second)
  {
    KeepOthersTwice(db.latest, r);
    hide Keep;
  }

  // At most the row was written since, with its message.
  ghost predicate MaybeRecorded(db: Db, sent: Db, r: RowId) {
    sent == db || exists row :: sent == UpdateRow(db, r, row).(messages := sent.messages)
  }

  lemma SentHasRow(db: Db, sent: Db, r: RowId)
    requires r in db.rows && MaybeRecorded(db, sent, r)
    ensures r in sent.rows && sent.campaigns == db.campaigns
  {}

  lemma CaughtRowIsWritten(db: Db, sent: Db, r: RowId, target: Recipient)
    requires MaybeRecorded(db, sent, r)
    ensures var after := UpdateRow(sent.(sending := sent.sending - {r}), r, target);
            after == UpdateRow(db, r, target).(messages := after.messages, sending := after.sending)
  {
    hide Keep;
    if sent != db {
      var row :| sent == UpdateRow(db, r, row).(messages := sent.messages);
      UpdateTwice(db, r, row, target);
    }
  }

  lemma CaughtRowTame(db: Db, sent: Db, r: RowId, target: Recipient, c: CampaignId)
    requires r in db.rows && MaybeRecorded(db, sent, r)
    requires r.campaign == c ==> !R.Attempted(db.rows[r].status) && !R.Attempted(target.status)
    ensures Tame(db, UpdateRow(sent.(sending := sent.sending - {r}), r, target), c)
  {
    var written := UpdateRow(db, r, target);
    var after := UpdateRow(sent.(sending := sent.sending - {r}), r, target);
    CaughtRowIsWritten(db, sent, r, target);
    hide Tame, UpdateRow;
    OtherTablesAreTame(written, after, c);
    UpdateRowTame(db, r, target, c);
    TameComposes(db, written, after, c);
  }

  lemma UpdateRowKeepsCampaigns(db: Db, r: RowId, row: Recipient)
    ensures UpdateRow(db, r, row).campaigns == db.campaigns
  {}

  lemma FailedTame(db: Db, failed: Db, d: CampaignId, category: Category, c: CampaignId)
    requires d in failed.campaigns && (c == d || Tame(db, failed, c))
    ensures Tame(db, AfterFailure(failed, d, category), c)
  {
    hide Tame, AfterFailure;
    if c == d {
      AfterFailureJudges(failed, c, category);
      JudgedIsTame(db, AfterFailure(failed, c, category), c);
    } else {
      AfterFailureTame(failed, d, category, c);
      TameComposes(db, failed, AfterFailure(failed, d, category), c);
    }
  }

  /** The catch block, reached from a row in PROCESSING whose send was perhaps recorded in between. */
  lemma CatchTame(db: Db, sent: Db, r: RowId, category: Category, delayMs: nat, c: CampaignId)
    requires r in db.rows && !R.Attempted(db.rows[r].status) && r.campaign in db.campaigns
    requires MaybeRecorded(db, sent, r)
    requires r in sent.sending
    ensures Tame(db, CatchError(sent, r, category, delayMs), c)
  {
    SentHasRow(db, sent, r);
    hide Tame, AfterFailure, UpdateRow, MaybeRecorded;
    if WillRetry(sent, r, category) {
      CaughtRowTame(db, sent, r, sent.rows[r].(status := R.Queued, nextAttemptAt := Some(sent.now + delayMs)), c);
    } else {
      var target := sent.rows[r].(status := R.Failed);
      if c != r.campaign {
        CaughtRowTame(db, sent, r, target, c);
      }
      assert r.campaign in UpdateRow(sent.(sending := sent.sending - {r}), r, target).campaigns by {
        UpdateRowKeepsCampaigns(sent.(sending := sent.sending - {r}), r, target);
      }
      FailedTame(db, UpdateRow(sent.(sending := sent.sending - {r}), r, target), r.campaign, category, c);
    }
  }

  lemma FinishTame(db: Db, r: RowId, result: SendResult, c: CampaignId)
    requires Good(db) && db.settings.consecutiveFailures > 0
    ensures Tame(db, FinishSend(db, r, result), c)
  {
    hide Tame, Refresh, CatchError, UpdateRow;
    OtherTablesAreTame(db, db, c);
    if r in db.sending && FinishSend(db, r, result) != db {
      match result
      case Recorded(answer, message) =>
        RecordedTame(db, r, answer, message, c);
        var db1 := RecordSent(db, r, answer, message).(sending := db.sending - {r});
        PausesAreTame(db1, r.campaign, 0, c);
        TameComposes(db, db1, Refresh(db1, r.campaign), c);
      case RecordedThenThrew(answer, message, category, delayMs) =>
        CatchTame(db, RecordSent(db, r, answer, message), r, category, delayMs, c) by {
          RecordIsUpdate(db, r, answer, message);
        }
      case Rejected(category, delayMs) => CatchTame(db, db, r, category, delayMs, c);
    }
  }

  lemma RecordIsUpdate(db: Db, r: RowId, answer: Option<ProviderId>, message: MessageId)
    requires r in db.rows
    ensures var sent := RecordSent(db, r, answer, message);
            sent.sending == db.sending && exists row :: sent == UpdateRow(db, r, row).(messages := sent.messages)
  {}

  lemma RecordedTame(db: Db, r: RowId, answer: Option<ProviderId>, message: MessageId, c: CampaignId)
    requires r in db.rows && db.settings.consecutiveFailures > 0
    ensures Tame(db, RecordSent(db, r, answer, message).(sending := db.sending - {r}), c)
  {
    hide Tame, OnStreak;
    var row := db.rows[r].(status := R.Sent, providerId := answer, message := Some(message));
    var written := UpdateRow(db, r, row);
    var db1 := RecordSent(db, r, answer, message).(sending := db.sending - {r});
    OtherTablesAreTame(written, db1, c);
    if c == r.campaign {
      UpdateRowFront(db, r, row);
      FrontOkBreaksStreak(written, c);
      BrokenIsTame(db, written, c);
    } else {
      UpdateRowTame(db, r, row, c);
    }
    TameComposes(db, written, db1, c);
  }

  lemma BrokenIsTame(db: Db, db': Db, c: CampaignId)
    requires !OnStreak(db', c)
    ensures Tame(db, db', c)
  {}

  lemma WebhookTame(db: Db, message: MessageId, status: R.Status, c: CampaignId)
    requires db.settings.consecutiveFailures > 0
    ensures Tame(db, StatusWebhook(db, message, status), c)
  {
    hide Tame, Refresh, EvaluateAutoPause, OnStreak;
    OtherTablesAreTame(db, db, c);
    if message in db.messages && db.messages[message].providerId.Some? && R.Attempted(status) {
      var d := db.messages[message].campaign;
      var hit := (r: RowId) => r in db.rows && r.campaign == d && db.rows[r].message == Some(message);
      var db1 := UpdateRows(db, hit, status);
      var db2 := if status.Failed? then EvaluateAutoPause(db1, d) else db1;
      if status.Failed? && c == d {
        EvaluationJudges(db1, d);
        JudgedIsTame(db, db2, c);
      } else {
        NotifiedTame(db, hit, status, c, d);
        PausesAreTame(db1, d, 0, c);
        OtherTablesAreTame(db1, db1, c);
        TameComposes(db, db1, db2, c);
      }
      PausesAreTame(db2, d, 0, c);
      TameComposes(db, db2, Refresh(db2, d), c);
    }
  }

  lemma NotifiedTame(db: Db, hit: RowId -> bool, status: R.Status, c: CampaignId, d: CampaignId)
    requires db.settings.consecutiveFailures > 0 && R.Attempted(status) && (status.Failed? ==> c != d)
    requires forall r :: hit(r) ==> r in db.rows && r.campaign == d
    ensures Tame(db, UpdateRows(db, hit, status), c)
  {
    hide Tame, OnStreak;
    var db1 := UpdateRows(db, hit, status);
    if r :| r in db.latest && hit(r) && r.campaign == c {
      NotifiedInFront(db, hit, status, c, r);
      FrontOkBreaksStreak(db1, c);
      BrokenIsTame(db, db1, c);
    } else {
      NotifiedElsewhere(db, hit, status, c);
      SameRecentIsTame(db, db1, c);
    }
  }

  // ---------------------------------------------------------------------------------------------
  // Starting campaigns
  // ---------------------------------------------------------------------------------------------

  lemma {:induction false} QueueBatchTame(db: Db, batch: seq<RowId>, refused: set<RowId>, c: CampaignId)
    ensures Tame(db, QueueBatch(db, batch, refused), c)
    decreases |batch|
  {
    hide Tame;
    OtherTablesAreTame(db, db, c);
    if batch != [] {
      var n := |batch| - 1;
      var before := QueueBatch(db, batch[..n], refused);
      QueueBatchTame(db, batch[..n], refused, c);
      OtherTablesAreTame(before, before, c);
      if batch[n] in before.rows && before.rows[batch[n]].status.Pending? {
        UpdateRowTame(before, batch[n], before.rows[batch[n]].(status := R.Queued), c);
      }
      TameComposes(db, before, QueueOne(before, batch[n], refused), c);
    }
  }

  // A campaign that has not started has no attempts.
  lemma UnstartedHasNoStreak(db: Db, c: CampaignId)
    requires Good(db) && c in db.campaigns && db.campaigns[c].startedAt.None? && db.settings.consecutiveFailures > 0
    ensures !OnStreak(db, c)
  {
    assert CampaignOk(db, c);
    NoAttemptsNoStreak(db, c);
  }

  lemma MarkStartedTame(db: Db, c: CampaignId, startedAt: Option<nat>, d: CampaignId)
    requires c in db.campaigns && (db.campaigns[c].status.Running? || !OnStreak(db, c))
    ensures Tame(db, MarkStarted(db, c, startedAt), d)
  {}

  lemma QueueBatchStreak(db: Db, batch: seq<RowId>, refused: set<RowId>, c: CampaignId)
    requires c in db.campaigns && !OnStreak(db, c)
    ensures !OnStreak(QueueBatch(db, batch, refused), c)
  {
    QueueBatchSame(db, batch, refused, c);
    SameRecentSameStreak(db, QueueBatch(db, batch, refused), c) by { QueueKeepsCampaigns(db, batch, refused); }
  }

  lemma {:induction false} QueueBatchSame(db: Db, batch: seq<RowId>, refused: set<RowId>, c: CampaignId)
    ensures SameRecent(db, QueueBatch(db, batch, refused), c)
    decreases |batch|
  {
    if batch != [] {
      var n := |batch| - 1;
      var before := QueueBatch(db, batch[..n], refused);
      QueueBatchSame(db, batch[..n], refused, c);
      if batch[n] in before.rows && before.rows[batch[n]].status.Pending? {
        UpdateRowRecent(before, batch[n], before.rows[batch[n]].(status := R.Queued), c);
      }
    }
  }

  lemma DispatchTame(db: Db, c: CampaignId, refused: set<RowId>, d: CampaignId)
    requires c in db.campaigns && (db.campaigns[c].status.Running? || !OnStreak(db, c))
    ensures Tame(db, Dispatch(db, c, refused), d)
  {
    hide Tame, OnStreak, QueueBatch, Selected, HasCompetitor, SameRecent;
    OtherTablesAreTame(db, db, d);
    if MayDispatch(db, c) {
      var batch := Selected(db, c);
      var queued := QueueBatch(db, batch, refused);
      QueueBatchTame(db, batch, refused, d);
      QueueKeepsCampaigns(db, batch, refused);
      if !db.campaigns[c].status.Running? {
        QueueBatchStreak(db, batch, refused, c);
      }
      MarkStartedTame(queued, c, db.campaigns[c].startedAt, d);
      TameComposes(db, queued, Dispatch(db, c, refused), d);
    }
  }

  lemma StartTame(db: Db, c: CampaignId, templateUsable: bool, refused: set<RowId>, d: CampaignId)
    requires Good(db) && db.settings.consecutiveFailures > 0
    ensures Tame(db, Start(db, c, templateUsable, refused), d)
  {
    hide Tame, OnStreak, Dispatch;
    OtherTablesAreTame(db, db, d);
    if StartResponse(db, c, templateUsable).Done? {
      assert CampaignOk(db, c);
      assert EnsurePhone(db, db.campaigns[c].phone) == db;
      UnstartedHasNoStreak(db, c);
      var db1 := MarkStarted(db, c, db.campaigns[c].startedAt);
      MarkStartedTame(db, c, db.campaigns[c].startedAt, d);
      DispatchTame(db1, c, refused, d);
      TameComposes(db, db1, Dispatch(db1, c, refused), d);
    }
  }

  lemma PrepareTame(db: Db, c: CampaignId, items: seq<P.Item>, d: CampaignId)
    requires Good(db)
    ensures Tame(db, Prepare(db, c, items), d)
  {
    hide *;
    OtherTablesAreTame(db, db, d);
    if MayPrepare(db, c) {
      PreparedStatus(db, c, items);
      if d == c {
        InactiveIsTame(db, Prepare(db, c, items), d);
      } else {
        PrepareSameRecent(db, c, items, d);
        PrepareStartsNone(db, c, items);
        SameRecentIsTame(db, Prepare(db, c, items), d);
      }
    } else {
      PrepareSkips(db, c, items);
    }
  }

  lemma PrepareSkips(db: Db, c: CampaignId, items: seq<P.Item>)
    requires !MayPrepare(db, c)
    ensures Prepare(db, c, items) == db
  {}

  lemma PrepareStartsNone(db: Db, c: CampaignId, items: seq<P.Item>)
    requires MayPrepare(db, c)
    ensures Prepare(db, c, items).settings == db.settings && NoNewRunning(db, Prepare(db, c, items))
  {}

  lemma PrepareSameRecent(db: Db, c: CampaignId, items: seq<P.Item>, d: CampaignId)
    requires MayPrepare(db, c) && d != c
    ensures SameRecent(db, Prepare(db, c, items), d)
  {
    hide OnPhone, P.PreparedRows, P.PendingRows, PreparedRecipients, Inserted;
    var db' := Prepare(db, c, items);
    var keys := Inserted(c, OnPhone(items, PhoneOf(db, db.campaigns[c].phone)));
    var wanted := (r: RowId) => r in db'.rows && r.campaign == d && R.Attempted(db'.rows[r].status);
    var before := (r: RowId) => r in db.rows && r.campaign == d && R.Attempted(db.rows[r].status);
    forall r | r in keys ensures r.campaign == c {
      InsertedKeys(c, OnPhone(items, PhoneOf(db, db.campaigns[c].phone)), r);
    }
    PrepareRows(db, c, items);
    assert db'.latest == keys + db.latest;
    KeepAppend(keys, db.latest, wanted);
    KeepNone(keys, wanted);
    KeepSame(db.latest, wanted, before);
  }

  lemma InactiveIsTame(db: Db, db': Db, c: CampaignId)
    requires c in db'.campaigns ==> !db'.campaigns[c].status.Running?
    ensures Tame(db, db', c)
  {}

  // ---------------------------------------------------------------------------------------------
  // The main results
  // ---------------------------------------------------------------------------------------------

  lemma CalmStepTame(db: Db, a: Action, c: CampaignId)
    requires Good(db) && db.settings.consecutiveFailures > 0 && StartsNothing(a) && !a.ASettings?
    ensures Tame(db, Step(db, a), c)
  {
    hide Tame, Refresh, PauseOne, PauseOnPhone, FinishSend, StatusWebhook, UpdateRow, UpdateRows;
    OtherTablesAreTame(db, db, c);
    match a
    case APause(d) => PausesAreTame(db, d, 0, c);
    case ACancel(d) => CancelTame(db, d, c);
    case AClaim(r) => ClaimTame(db, r, c);
    case AFinish(r, result) => FinishTame(db, r, result, c);
    case ADie(r) => OtherTablesAreTame(db, Step(db, a), c);
    case AWebhook(message, status) => WebhookTame(db, message, status, c);
    case AOptOut(customer) =>
      UpdateRowsTame(db, (r: RowId) => r in db.rows && db.rows[r].customer == customer && R.Waiting(db.rows[r].status),
                     R.Cancelled, c);
    case ASetPhone(p, state) =>
      var db1 := db.(phones := db.phones[p := state]);
      OtherTablesAreTame(db, db1, c);
      PausesAreTame(db1, 0, p, c);
      TameComposes(db, db1, PauseOnPhone(db1, p), c);
    case ARefresh(d) => PausesAreTame(db, d, 0, c);
    case ATick(ms) => OtherTablesAreTame(db, Step(db, a), c);
  }

  lemma CancelTame(db: Db, d: CampaignId, c: CampaignId)
    ensures Tame(db, Cancel(db, d), c)
  {
    hide Tame, Refresh, Keep;
    OtherTablesAreTame(db, db, c);
    if CancelResponse(db, d).Done? {
      var hit := (r: RowId) => r in db.rows && r.campaign == d && R.Waiting(db.rows[r].status);
      var db1 := UpdateRows(db, hit, R.Cancelled);
      var db2 := SetStatus(db1, d, C.Cancelled);
      UpdateRowsTame(db, hit, R.Cancelled, c);
      OtherTablesAreTame(db1, db2, c);
      TameComposes(db, db1, db2, c);
      PausesAreTame(db2, d, 0, c);
      TameComposes(db, db2, Refresh(db2, d), c);
    }
  }

  lemma ClaimTame(db: Db, r: RowId, c: CampaignId)
    ensures Tame(db, ClaimRecipient(db, r), c)
  {
    hide Tame, UpdateRow;
    OtherTablesAreTame(db, db, c);
    if r in db.rows && r.campaign in db.campaigns && r !in db.sending {
      var write := ClaimWriteOf(db.rows[r], db.campaigns[r.campaign].status);
      if write.Some? {
        var db1 := UpdateRow(db, r, write.value.row);
        UpdateRowTame(db, r, write.value.row, c);
        OtherTablesAreTame(db1, ClaimRecipient(db, r), c);
        TameComposes(db, db1, ClaimRecipient(db, r), c);
      }
    }
  }

  lemma StartingStepTame(db: Db, a: Action, c: CampaignId)
    requires Good(db) && NoRunningStreak(db) && db.settings.consecutiveFailures > 0 && !a.AResume? && !StartsNothing(a)
    ensures Tame(db, Step(db, a), c)
  {
    hide Tame, Prepare, Start, Dispatch, OnStreak, Good, NoRunningStreak;
    match a
    case ACreate(d, phone, rate, batchSize, batchDelay) => OtherTablesAreTame(db, Step(db, a), c);
    case APrepare(d, items) => PrepareTame(db, d, items, c);
    case AStart(d, templateUsable, refused) => StartTame(db, d, templateUsable, refused, c);
    case ADispatch(d, refused) =>
      DispatchStepTame(db, d, refused, c);
  }

  lemma DispatchStepTame(db: Db, d: CampaignId, refused: set<RowId>, c: CampaignId)
    requires Good(db) && NoRunningStreak(db) && db.settings.consecutiveFailures > 0
    ensures Tame(db, Dispatch(db, d, refused), c)
  {
    hide Tame, Dispatch, OnStreak;
    OtherTablesAreTame(db, db, c);
    if d in db.campaigns && C.Active(db.campaigns[d].status) {
      assert CampaignOk(db, d);
      if db.campaigns[d].status.Scheduled? {
        UnstartedHasNoStreak(db, d);
      }
      DispatchTame(db, d, refused, c);
    } else {
      DispatchSkips(db, d, refused);
    }
  }

  lemma StepKeepsThreshold(db: Db, a: Action)
    requires NoResume(a, db.settings.consecutiveFailures)
    ensures Step(db, a).settings.consecutiveFailures == db.settings.consecutiveFailures
  {
    hide Prepare, Start, Dispatch, FinishSend, StatusWebhook, UpdateRows, Keep, CountOf, CountsOf;
    match a
    case APrepare(c, items) =>
      if MayPrepare(db, c) {
        PrepareStartsNone(db, c, items);
      } else {
        PrepareSkips(db, c, items);
      }
    case AStart(c, templateUsable, refused) => StartKeepsSettings(db, c, templateUsable, refused);
    case ACancel(c) => CancelKeepsSettings(db, c);
    case ADispatch(c, refused) => DispatchKeepsSettings(db, c, refused);
    case AFinish(r, result) => FinishKeepsSettings(db, r, result);
    case AWebhook(message, status) => WebhookKeepsSettings(db, message, status);
    case AOptOut(customer) => OptOutKeepsSettings(db, customer);
    case _ =>
  }

  lemma StartKeepsSettings(db: Db, c: CampaignId, templateUsable: bool, refused: set<RowId>)
    ensures Start(db, c, templateUsable, refused).settings == db.settings
  {
    hide Dispatch;
    if StartResponse(db, c, templateUsable).Done? {
      DispatchKeepsSettings(MarkStarted(EnsurePhone(db, db.campaigns[c].phone), c, db.campaigns[c].startedAt), c,
                            refused);
    }
  }

  lemma CancelKeepsSettings(db: Db, c: CampaignId)
    ensures Cancel(db, c).settings == db.settings
  {}

  lemma OptOutKeepsSettings(db: Db, customer: CustomerId)
    ensures OptOut(db, customer).settings == db.settings
  {}

  lemma FinishKeepsSettings(db: Db, r: RowId, result: SendResult)
    ensures FinishSend(db, r, result).settings == db.settings
  {
    hide Keep, WillRetry, AfterFailure, Refresh;
    if r in db.sending && r in db.rows && r.campaign in db.campaigns {
      match result
      case Recorded(answer, message) =>
        RefreshFrame(RecordSent(db, r, answer, message).(sending := db.sending - {r}), r.campaign);
      case RecordedThenThrew(answer, message, category, delayMs) =>
        CatchKeepsSettings(RecordSent(db, r, answer, message), r, category, delayMs);
      case Rejected(category, delayMs) => CatchKeepsSettings(db, r, category, delayMs);
    }
  }

  lemma CatchKeepsSettings(db: Db, r: RowId, category: Category, delayMs: nat)
    requires r in db.sending && r in db.rows && r.campaign in db.campaigns
    ensures CatchError(db, r, category, delayMs).settings == db.settings
  {
    hide Keep, WillRetry, PauseReasonOf, CountOf, CountsOf;
  }

  lemma WebhookKeepsSettings(db: Db, message: MessageId, status: R.Status)
    ensures StatusWebhook(db, message, status).settings == db.settings
  {
    hide Keep, PauseReasonOf, CountOf, CountsOf;
  }

  lemma DispatchKeepsSettings(db: Db, c: CampaignId, refused: set<RowId>)
    ensures Dispatch(db, c, refused).settings == db.settings
  {
    hide HasCompetitor, Selected, QueueBatch;
    if MayDispatch(db, c) {
      QueueKeepsCampaigns(db, Selected(db, c), refused);
    }
  }

  // Rows, times and settings decide about a streak.
  lemma SameRowsSameStreak(db: Db, db': Db, c: CampaignId)
    requires db'.rows == db.rows && db'.latest == db.latest && db'.settings == db.settings
    ensures OnStreak(db', c) == OnStreak(db, c)
  {}

  lemma DispatchKeepsStreak(db: Db, c: CampaignId, refused: set<RowId>)
    ensures OnStreak(Dispatch(db, c, refused), c) == OnStreak(db, c)
  {
    hide OnStreak, QueueBatch, Selected, HasCompetitor, SameRecent;
    if MayDispatch(db, c) {
      var queued := QueueBatch(db, Selected(db, c), refused);
      QueueBatchSame(db, Selected(db, c), refused, c);
      QueueKeepsCampaigns(db, Selected(db, c), refused);
      SameRecentSameStreak(db, queued, c);
      SameRowsSameStreak(queued, Dispatch(db, c, refused), c);
    }
  }

  lemma ReopenSame(db: Db, c: CampaignId, d: CampaignId)
    requires c in db.campaigns
    ensures SameRecent(db, Reopen(db, c), d) && Reopen(db, c).settings == db.settings
    ensures Reopen(db, c).campaigns == db.campaigns[c := db.campaigns[c].(status := C.Running)]
  {
    hide Keep;
    var ensured := EnsurePhone(db, db.campaigns[c].phone);
    var hit := (r: RowId) => r in ensured.rows && r.campaign == c && ensured.rows[r].status.Queued?;
    UpdateRowsRecent(ensured, hit, R.Pending, d);
  }

  /** A resumed campaign runs on a streak exactly when it was paused on one. */
  lemma ResumeKeepsStreak(db: Db, c: CampaignId, templateUsable: bool, refused: set<RowId>)
    requires ResumeResponse(db, c, templateUsable).Done?
    ensures var db' := Resume(db, c, templateUsable, refused);
            c in db'.campaigns && db'.campaigns[c].status.Running? && OnStreak(db', c) == OnStreak(db, c)
  {
    hide OnStreak, Dispatch, SameRecent, Reopen;
    ReopenSame(db, c, c);
    SameRecentSameStreak(db, Reopen(db, c), c);
    DispatchKeepsStreak(Reopen(db, c), c, refused);
    DispatchedRuns(Reopen(db, c), c, refused);
  }

  lemma DispatchedRuns(db: Db, c: CampaignId, refused: set<RowId>)
    requires c in db.campaigns && db.campaigns[c].status.Running?
    ensures var db' := Dispatch(db, c, refused); c in db'.campaigns && db'.campaigns[c].status.Running?
  {}

  lemma StartKeepsStreak(db: Db, c: CampaignId, templateUsable: bool, refused: set<RowId>)
    requires StartResponse(db, c, templateUsable).Done?
    ensures var db' := Start(db, c, templateUsable, refused);
            c in db'.campaigns && db'.campaigns[c].status.Running? && OnStreak(db', c) == OnStreak(db, c)
  {
    hide OnStreak, Dispatch;
    var db1 := MarkStarted(EnsurePhone(db, db.campaigns[c].phone), c, db.campaigns[c].startedAt);
    SameRowsSameStreak(db, db1, c);
    DispatchKeepsStreak(db1, c, refused);
    DispatchedRuns(db1, c, refused);
  }

  // ---------------------------------------------------------------------------------------------
  // Exactly when a campaign runs on a streak
  // ---------------------------------------------------------------------------------------------

  // The call sets a campaign to RUNNING: a start or a resume that is not refused, or a dispatch that passes its checks.
  predicate Launches(db: Db, a: Action) {
    || (a.AStart? && StartResponse(db, a.c, a.templateUsable).Done?)
    || (a.AResume? && ResumeResponse(db, a.c, a.templateUsable).Done?)
    || (a.ADispatch? && MayDispatch(db, a.c))
  }

  /** The guard that the service lacks: a campaign is launched while it is on a streak, or a new setting makes the
      newest failures of a running campaign a streak. */
  predicate LaunchesOnStreak(db: Db, a: Action) {
    || (Launches(db, a) && OnStreak(db, a.c))
    || (a.ASettings?
        && exists c :: c in db.campaigns && db.campaigns[c].status.Running? && OnStreak(db.(settings := a.settings), c))
  }

  predicate NeverOnStreak(db: Db, actions: seq<Action>)
    decreases |actions|
  {
    actions == [] || (!LaunchesOnStreak(db, actions[0]) && NeverOnStreak(Step(db, actions[0]), actions[1..]))
  }

  /** At every moment of the run. */
  ghost predicate AlwaysNoStreak(db: Db, actions: seq<Action>)
    decreases |actions|
  {
    NoRunningStreak(db) && (actions == [] || AlwaysNoStreak(Step(db, actions[0]), actions[1..]))
  }

  // With K = 0 every campaign is on a streak, so none runs.
  lemma NoneRuns(db: Db, a: Action)
    requires Good(db) && NoRunningStreak(db) && db.settings.consecutiveFailures == 0 && !LaunchesOnStreak(db, a)
    ensures NoRunningStreak(Step(db, a))
  {
    forall c | c in db.campaigns ensures OnStreak(db, c) && !db.campaigns[c].status.Running? {}
    hide OnStreak;
    assert NoNewRunning(db, Step(db, a)) by { LaunchesNone(db, a); }
    hide Step;
  }

  lemma LaunchesNone(db: Db, a: Action)
    requires Good(db) && !Launches(db, a)
    ensures NoNewRunning(db, Step(db, a))
  {
    hide MayDispatch, StartResponse, ResumeResponse, Prepare, Good, Dispatch;
    if StartsNothing(a) {
      hide Step;
      CalmStep(db, a);
    } else {
      match a
      case APrepare(c, items) =>
        if MayPrepare(db, c) {
          PrepareStartsNone(db, c, items);
        } else {
          PrepareSkips(db, c, items);
        }
      case ADispatch(c, refused) => DispatchSkips(db, c, refused);
      case _ =>
    }
  }

  lemma ResumeTame(db: Db, c: CampaignId, templateUsable: bool, refused: set<RowId>, d: CampaignId)
    requires !(ResumeResponse(db, c, templateUsable).Done? && OnStreak(db, c))
    ensures Tame(db, Resume(db, c, templateUsable, refused), d)
  {
    hide OnStreak, Dispatch, SameRecent, Reopen, ResumeResponse;
    OtherTablesAreTame(db, db, d);
    if ResumeResponse(db, c, templateUsable).Done? {
      assert c in db.campaigns by { AcceptedIsKnown(db, c, templateUsable); }
      var db1 := Reopen(db, c);
      ReopenSame(db, c, d);
      SameRecentSameStreak(db, db1, d);
      DispatchTame(db1, c, refused, d);
      TameComposes(db, db1, Dispatch(db1, c, refused), d);
    }
  }

  lemma AcceptedIsKnown(db: Db, c: CampaignId, templateUsable: bool)
    requires ResumeResponse(db, c, templateUsable).Done?
    ensures c in db.campaigns
  {}

  lemma SettingsStreak(db: Db, settings: Settings)
    ensures NoRunningStreak(db.(settings := settings)) <==> !LaunchesOnStreak(db, ASettings(settings))
  {
    hide OnStreak;
  }

  lemma QuietStepKeepsNoStreak(db: Db, a: Action)
    requires Good(db) && NoRunningStreak(db) && db.settings.consecutiveFailures > 0 && !LaunchesOnStreak(db, a)
    ensures NoRunningStreak(Step(db, a))
  {
    if a.ASettings? {
      SettingsStreak(db, a.settings);
    } else {
      hide OnStreak, MayDispatch, StartResponse;
      forall c ensures Tame(db, Step(db, a), c) {
        if a.AResume? {
          ResumeTame(db, a.c, a.templateUsable, a.refused, c);
        } else if StartsNothing(a) {
          CalmStepTame(db, a, c);
        } else {
          StartingStepTame(db, a, c);
        }
      }
      hide Tame, Step;
      TameKeeps(db, Step(db, a));
    }
  }

  lemma LaunchOnStreak(db: Db, a: Action)
    requires LaunchesOnStreak(db, a)
    ensures !NoRunningStreak(Step(db, a))
  {
    hide OnStreak, Start, Resume, Dispatch, StartResponse, ResumeResponse, MayDispatch;
    match a
    case AStart(c, templateUsable, refused) => StartKeepsStreak(db, c, templateUsable, refused);
    case AResume(c, templateUsable, refused) => ResumeKeepsStreak(db, c, templateUsable, refused);
    case ADispatch(c, refused) =>
      DispatchKeepsStreak(db, c, refused);
      DispatchRuns(db, c, refused);
    case ASettings(settings) => SettingsStreak(db, settings);
  }

  lemma DispatchRuns(db: Db, c: CampaignId, refused: set<RowId>)
    requires MayDispatch(db, c)
    ensures var db' := Dispatch(db, c, refused); c in db'.campaigns && db'.campaigns[c].status.Running?
  {}

  lemma {:induction false} RunStaysOffStreaks(db: Db, actions: seq<Action>)
    requires Good(db)
    ensures AlwaysNoStreak(db, actions) <==> NoRunningStreak(db) && NeverOnStreak(db, actions)
    decreases |actions|
  {
    hide NoRunningStreak, Good, Step, LaunchesOnStreak;
    if actions != [] && NoRunningStreak(db) {
      var a := actions[0];
      if LaunchesOnStreak(db, a) {
        LaunchOnStreak(db, a);
      } else if db.settings.consecutiveFailures == 0 {
        NoneRuns(db, a);
      } else {
        QuietStepKeepsNoStreak(db, a);
      }
      StepKeeps(db, a);
      RunStaysOffStreaks(Step(db, a), actions[1..]);
    }
  }

  lemma EmptyIsGood(env: Env, settings: Settings)
    requires Positive(env)
    ensures Good(Empty(env, settings)) && NoRunningStreak(Empty(env, settings))
  {}

  /** At every moment of a run no running campaign has its K newest attempted recipients all FAILED, for the K of that
      moment, if and only if no call of the run launches a campaign that is on a streak, and no new setting makes the
      newest failures of a running campaign a streak. */
  lemma NoStreakExactly(env: Env, settings: Settings, actions: seq<Action>)
    requires Positive(env)
    ensures AlwaysNoStreak(Empty(env, settings), actions) <==> NeverOnStreak(Empty(env, settings), actions)
  {
    hide AlwaysNoStreak, NeverOnStreak;
    EmptyIsGood(env, settings);
    RunStaysOffStreaks(Empty(env, settings), actions);
  }

  /** The step is not a resume, and leaves the number of failures that makes a streak at K. */
  predicate NoResume(a: Action, k: nat) {
    !a.AResume? && (a.ASettings? ==> a.settings.consecutiveFailures == k)
  }

  // A start and a dispatch never find a streak that is not there already: what has not started has no attempts.
  lemma NoResumeNoStreak(db: Db, a: Action)
    requires Good(db) && NoRunningStreak(db) && db.settings.consecutiveFailures > 0
    requires NoResume(a, db.settings.consecutiveFailures)
    ensures !LaunchesOnStreak(db, a)
  {
    hide OnStreak;
    if a.ASettings? {
      forall c ensures OnStreak(db.(settings := a.settings), c) == OnStreak(db, c) {
        SameFailuresSameStreak(db, a.settings, c);
      }
    } else if Launches(db, a) {
      assert CampaignOk(db, a.c);
      if !db.campaigns[a.c].status.Running? {
        UnstartedHasNoStreak(db, a.c);
      }
    }
  }

  lemma SameFailuresSameStreak(db: Db, settings: Settings, c: CampaignId)
    requires settings.consecutiveFailures == db.settings.consecutiveFailures
    ensures OnStreak(db.(settings := settings), c) == OnStreak(db, c)
  {}

  lemma {:induction false} NoResumesNoStreak(db: Db, actions: seq<Action>, k: nat)
    requires Good(db) && NoRunningStreak(db) && db.settings.consecutiveFailures == k > 0
    requires forall i :: 0 <= i < |actions| ==> NoResume(actions[i], k)
    ensures NeverOnStreak(db, actions)
    decreases |actions|
  {
    hide NoRunningStreak, Good, Step, LaunchesOnStreak;
    if actions != [] {
      NoResumeNoStreak(db, actions[0]);
      QuietStepKeepsNoStreak(db, actions[0]);
      StepKeeps(db, actions[0]);
      StepKeepsThreshold(db, actions[0]);
      NoResumesNoStreak(Step(db, actions[0]), actions[1..], k);
    }
  }

  lemma {:induction false} AlwaysAtTheEnd(db: Db, actions: seq<Action>)
    requires AlwaysNoStreak(db, actions)
    ensures NoRunningStreak(Run(db, actions))
    decreases |actions|
  {
    hide NoRunningStreak, Step;
    if actions != [] {
      AlwaysAtTheEnd(Step(db, actions[0]), actions[1..]);
    }
  }

  /** In particular, in every run without resumes that keeps a positive K. */
  lemma NoRunningCampaignOnStreak(env: Env, settings: Settings, actions: seq<Action>, c: CampaignId)
    requires Positive(env) && settings.consecutiveFailures > 0
    requires forall i :: 0 <= i < |actions| ==> NoResume(actions[i], settings.consecutiveFailures)
    requires c in Run(Empty(env, settings), actions).campaigns
             && Run(Empty(env, settings), actions).campaigns[c].status.Running?
    ensures !OnStreak(Run(Empty(env, settings), actions), c)
  {
    hide OnStreak, AlwaysNoStreak, NeverOnStreak;
    var db := Empty(env, settings);
    EmptyIsGood(env, settings);
    NoResumesNoStreak(db, actions, settings.consecutiveFailures);
    NoStreakExactly(env, settings, actions);
    AlwaysAtTheEnd(db, actions);
  }

  // ---------------------------------------------------------------------------------------------
  // What the pause rule leaves behind
  // ---------------------------------------------------------------------------------------------

  /** A send that failed for good, before or after its commit: its campaign does not run, or the pause rule is silent
      about the new state. */
  lemma FailedSendIsJudged(db: Db, r: RowId, result: SendResult)
    requires Good(db) && r in db.sending && ReachesCatch(db, result) && !WillRetry(db, r, result.category)
    ensures Judged(FinishSend(db, r, result), r.campaign)
  {
    assert r in db.rows && r.campaign in db.campaigns;
    hide FinishSend, AfterFailure, Judged, Good;
    var failed := FailedResult(db, r, result);
    AfterFailureJudges(failed, r.campaign, result.category);
  }

  /** The same for a failure that a status notification reports. */
  lemma FailedNotificationIsJudged(db: Db, message: MessageId)
    requires message in db.messages && db.messages[message].providerId.Some?
    ensures Judged(StatusWebhook(db, message, R.Failed), db.messages[message].campaign)
  {
    hide Refresh, EvaluateAutoPause, Judged;
    var c := db.messages[message].campaign;
    var db1 := UpdateRows(db, (r: RowId) => r in db.rows && r.campaign == c && db.rows[r].message == Some(message),
                          R.Failed);
    EvaluationJudges(db1, c);
    RefreshKeepsJudged(EvaluateAutoPause(db1, c), c);
  }
}
