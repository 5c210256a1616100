// Quarantine: after the provider refused the account of a phone, nothing is sent from it until an administrator
// re-enables it.

module PhoneQuarantine {
  import opened Options
  import opened CampaignErrors
  import opened PhoneSafety
  import opened CampaignService
  import opened CampaignInvariants
  import P = Preparation
  import R = RecipientStatus
  import C = CampaignStatus

  /** Campaigns are active only on safe phones. */
  ghost predicate ActiveIsSafe(db: Db) {
    forall c :: c in db.campaigns && C.Active(db.campaigns[c].status) ==> Safe(PhoneOf(db, db.campaigns[c].phone))
  }

  /** A known phone that is not safe stays so. */
  ghost predicate BlockedKept(db: Db, db': Db) {
    forall p :: p in db.phones && !Safe(db.phones[p]) ==> p in db'.phones && !Safe(db'.phones[p])
  }

  // ---------------------------------------------------------------------------------------------
  // Steps
  // ---------------------------------------------------------------------------------------------

  // No campaign becomes active and no phone becomes unsafe under an active campaign.
  ghost predicate Lowers(db: Db, db': Db) {
    && db'.campaigns.Keys == db.campaigns.Keys
    && (forall c :: c in db.campaigns ==>
          db'.campaigns[c].phone == db.campaigns[c].phone
          && (C.Active(db'.campaigns[c].status) ==>
                C.Active(db.campaigns[c].status)
                    && PhoneOf(db', db.campaigns[c].phone) == PhoneOf(db, db.campaigns[c].phone)))
    && BlockedKept(db, db')
  }

  lemma LowersComposes(db: Db, db1: Db, db2: Db)
    requires Lowers(db, db1) && Lowers(db1, db2)
    ensures Lowers(db, db2)
  {}

  lemma LowersKeeps(db: Db, db': Db)
    requires ActiveIsSafe(db) && Lowers(db, db')
    ensures ActiveIsSafe(db')
  {}

  lemma RefreshLowers(db: Db, c: CampaignId)
    ensures Lowers(db, Refresh(db, c))
  {}

  lemma PauseOneLowers(db: Db, c: CampaignId)
    ensures Lowers(db, PauseOne(db, c)) && Lowers(db, EvaluateAutoPause(db, c))
  {}

  lemma PausePhoneLowers(db: Db, p: PhoneId)
    requires p in db.phones
    ensures Lowers(db, PausePhone(db, p))
  {}

  lemma AfterFailureLowers(db: Db, c: CampaignId, category: Category)
    requires c in db.campaigns && db.campaigns[c].phone in db.phones
    ensures Lowers(db, AfterFailure(db, c, category))
  {
    hide Lowers, Refresh, EvaluateAutoPause;
    PauseOneLowers(db, c);
    PausePhoneLowers(db, db.campaigns[c].phone);
    var db1 := if category.Authentication? || category.PermanentAccount? then PausePhone(db, db.campaigns[c].phone)
               else if category.PermanentTemplate? then PauseOne(db, c)
               else EvaluateAutoPause(db, c);
    RefreshLowers(db1, c);
    LowersComposes(db, db1, Refresh(db1, c));
  }

  lemma SameCampaignsLower(db: Db, db': Db)
    requires db'.campaigns == db.campaigns && db'.phones == db.phones
    ensures Lowers(db, db')
  {}

  lemma CatchLowers(db: Db, r: RowId, category: Category, delayMs: nat)
    requires Tables(db) && r in db.sending && r in db.rows && r.campaign in db.campaigns
    ensures Lowers(db, CatchError(db, r, category, delayMs))
  {
    hide Lowers, AfterFailure;
    SameCampaignsLower(db, CatchError(db, r, category, delayMs).(campaigns := db.campaigns, phones := db.phones));
    if WillRetry(db, r, category) {
      SameCampaignsLower(db, CatchError(db, r, category, delayMs));
    } else {
      var db1 := UpdateRow(db.(sending := db.sending - {r}), r, db.rows[r].(status := R.Failed));
      SameCampaignsLower(db, db1);
      AfterFailureLowers(db1, r.campaign, category);
      LowersComposes(db, db1, AfterFailure(db1, r.campaign, category));
    }
  }

  lemma FinishLowers(db: Db, r: RowId, result: SendResult)
    requires Good(db)
    ensures Lowers(db, FinishSend(db, r, result))
  {
    hide Lowers, CatchError, Refresh;
    SameCampaignsLower(db, db);
    if r in db.sending && r in db.rows && r.campaign in db.campaigns && FinishSend(db, r, result) != db {
      match result
      case Recorded(answer, message) =>
        var db1 := RecordSent(db, r, answer, message).(sending := db.sending - {r});
        SameCampaignsLower(db, db1);
        RefreshLowers(db1, r.campaign);
        LowersComposes(db, db1, Refresh(db1, r.campaign));
      case RecordedThenThrew(answer, message, category, delayMs) =>
        var db1 := RecordSent(db, r, answer, message);
        SameCampaignsLower(db, db1);
        CatchLowers(db1, r, category, delayMs);
        LowersComposes(db, db1, CatchError(db1, r, category, delayMs));
      case Rejected(category, delayMs) => CatchLowers(db, r, category, delayMs);
    }
  }

  lemma WebhookLowers(db: Db, message: MessageId, status: R.Status)
    requires Good(db)
    ensures Lowers(db, StatusWebhook(db, message, status))
  {
    hide Lowers, Refresh, EvaluateAutoPause;
    SameCampaignsLower(db, db);
    if message in db.messages && db.messages[message].providerId.Some? && R.Attempted(status) {
      var c := db.messages[message].campaign;
      var db1 := UpdateRows(db, (r: RowId) => r in db.rows && r.campaign == c && db.rows[r].message == Some(message),
                            status);
      SameCampaignsLower(db, db1);
      PauseOneLowers(db1, c);
      SameCampaignsLower(db1, db1);
      var db2 := if status.Failed? then EvaluateAutoPause(db1, c) else db1;
      RefreshLowers(db2, c);
      LowersComposes(db, db1, db2);
      LowersComposes(db, db2, Refresh(db2, c));
    }
  }

  lemma CancelLowers(db: Db, c: CampaignId)
    ensures Lowers(db, Cancel(db, c))
  {
    hide Lowers, Refresh;
    SameCampaignsLower(db, db);
    if CancelResponse(db, c).Done? {
      var hit := (r: RowId) => r in db.rows && r.campaign == c && R.Waiting(db.rows[r].status);
      var db1 := UpdateRows(db, hit, R.Cancelled);
      SameCampaignsLower(db, db1);
      var db2 := SetStatus(db1, c, C.Cancelled);
      SetInactiveLowers(db1, c, C.Cancelled);
      LowersComposes(db, db1, db2);
      RefreshLowers(db2, c);
      LowersComposes(db, db2, Refresh(db2, c));
    }
  }

  lemma SetInactiveLowers(db: Db, c: CampaignId, status: C.Status)
    requires c in db.campaigns && !C.Active(status)
    ensures Lowers(db, SetStatus(db, c, status))
  {}

  lemma DispatchIsSafe(db: Db, c: CampaignId, refused: set<RowId>)
    requires ActiveIsSafe(db)
    ensures ActiveIsSafe(Dispatch(db, c, refused)) && Dispatch(db, c, refused).phones == db.phones
  {
    hide Quiet, Keep, Selected, QueueBatch, HasCompetitor;
    if MayDispatch(db, c) {
      QueueKeepsCampaigns(db, Selected(db, c), refused);
      assert Safe(PhoneOf(db, db.campaigns[c].phone));
    }
  }

  lemma StartIsSafe(db: Db, c: CampaignId, templateUsable: bool, refused: set<RowId>)
    requires Good(db) && ActiveIsSafe(db)
    ensures ActiveIsSafe(Start(db, c, templateUsable, refused))
            && Start(db, c, templateUsable, refused).phones == db.phones
  {
    hide Dispatch, Quiet;
    if StartResponse(db, c, templateUsable).Done? {
      var db1 := MarkStarted(EnsurePhone(db, db.campaigns[c].phone), c, db.campaigns[c].startedAt);
      assert db1.phones == db.phones;
      assert ActiveIsSafe(db1);
      DispatchIsSafe(db1, c, refused);
    }
  }

  lemma ResumeIsSafe(db: Db, c: CampaignId, templateUsable: bool, refused: set<RowId>)
    requires Good(db) && ActiveIsSafe(db)
    ensures ActiveIsSafe(Resume(db, c, templateUsable, refused))
            && Resume(db, c, templateUsable, refused).phones == db.phones
  {
    hide Dispatch, Quiet;
    if ResumeResponse(db, c, templateUsable).Done? {
      var db1 := Reopen(db, c);
      assert db1.phones == db.phones;
      assert ActiveIsSafe(db1);
      DispatchIsSafe(db1, c, refused);
    }
  }

  /** A campaign prepared on an unsafe phone ends FAILED. */
  lemma PrepareOnBlockedPhoneFails(db: Db, c: CampaignId, items: seq<P.Item>)
    requires MayPrepare(db, c) && !Safe(PhoneOf(db, db.campaigns[c].phone))
    ensures var db' := Prepare(db, c, items);
            c in db'.campaigns && db'.campaigns[c].status.Failed? && db'.campaigns[c].eligibleCount == 0
  {
    hide Inserted;
    P.BlockedPhoneLeavesNothingPending(OnPhone(items, PhoneOf(db, db.campaigns[c].phone)));
  }

  lemma PrepareIsSafe(db: Db, c: CampaignId, items: seq<P.Item>)
    requires ActiveIsSafe(db)
    ensures ActiveIsSafe(Prepare(db, c, items)) && Prepare(db, c, items).phones == db.phones
  {
    if MayPrepare(db, c) {
      PreparedStatus(db, c, items);
      if !Safe(PhoneOf(db, db.campaigns[c].phone)) {
        PrepareOnBlockedPhoneFails(db, c, items);
      }
      assert Prepare(db, c, items).phones == db.phones;
      PreparedPhone(db, c, items);
    }
  }

  lemma PreparedPhone(db: Db, c: CampaignId, items: seq<P.Item>)
    requires MayPrepare(db, c)
    ensures Prepare(db, c, items).campaigns[c].phone == db.campaigns[c].phone
  {}

  /** The step is not an administrator making the phone safe again. */
  predicate KeepsBlocked(a: Action, p: PhoneId) {
    a.ASetPhone? && a.phone == p ==> !Safe(a.state)
  }

  lemma LoweringStep(db: Db, a: Action)
    requires Good(db) && StartsNothing(a) && !a.ASetPhone?
    ensures Lowers(db, Step(db, a))
  {
    hide Lowers, Refresh, Cancel, OptOut, StatusWebhook, FinishSend, PauseOne;
    match a
    case APause(c) => PauseOneLowers(db, c);
    case ACancel(c) => CancelLowers(db, c);
    case AClaim(r) => SameCampaignsLower(db, Step(db, a));
    case AFinish(r, result) => FinishLowers(db, r, result);
    case ADie(r) => SameCampaignsLower(db, Step(db, a));
    case AWebhook(message, status) => WebhookLowers(db, message, status);
    case AOptOut(customer) => OptOutLowers(db, customer);
    case ASettings(settings) => SameCampaignsLower(db, Step(db, a));
    case ARefresh(c) => RefreshLowers(db, c);
    case ATick(ms) => SameCampaignsLower(db, Step(db, a));
  }

  lemma OptOutLowers(db: Db, customer: CustomerId)
    ensures Lowers(db, OptOut(db, customer))
  {}

  lemma SetPhoneIsSafe(db: Db, p: PhoneId, state: PhoneState)
    requires ActiveIsSafe(db)
    ensures ActiveIsSafe(SetPhone(db, p, state))
  {}

  lemma StepKeepsSafe(db: Db, a: Action)
    requires Good(db) && ActiveIsSafe(db)
    ensures ActiveIsSafe(Step(db, a))
  {
    if StartsNothing(a) && !a.ASetPhone? {
      LoweringStep(db, a);
      LowersKeeps(db, Step(db, a));
    } else {
      hide Good, ActiveIsSafe, CreateCampaign, Prepare, Start, Resume, Dispatch, SetPhone;
      match a
      case ACreate(c, phone, rate, batchSize, batchDelay) => CreateIsSafe(db, c, phone, rate, batchSize, batchDelay);
      case APrepare(c, items) => PrepareIsSafe(db, c, items);
      case AStart(c, templateUsable, refused) => StartIsSafe(db, c, templateUsable, refused);
      case AResume(c, templateUsable, refused) => ResumeIsSafe(db, c, templateUsable, refused);
      case ADispatch(c, refused) => DispatchIsSafe(db, c, refused);
      case ASetPhone(p, state) => SetPhoneIsSafe(db, p, state);
    }
  }

  lemma CreateIsSafe(db: Db, c: CampaignId, p: PhoneId, rate: nat, batchSize: nat, batchDelay: nat)
    requires Good(db) && ActiveIsSafe(db)
    ensures ActiveIsSafe(CreateCampaign(db, c, p, rate, batchSize, batchDelay))
  {}

  lemma StepKeepsBlocked(db: Db, a: Action, p: PhoneId)
    requires Good(db) && ActiveIsSafe(db) && KeepsBlocked(a, p)
    requires p in db.phones && !Safe(db.phones[p])
    ensures p in Step(db, a).phones && !Safe(Step(db, a).phones[p])
  {
    if StartsNothing(a) && !a.ASetPhone? {
      hide Step;
      LoweringStep(db, a);
    } else {
      hide Good, ActiveIsSafe, Prepare, Start, Resume, Dispatch, CreateCampaign, Safe;
      match a
      case ACreate(c, phone, rate, batchSize, batchDelay) =>
        CreateKeepsPhones(db, c, phone, rate, batchSize, batchDelay);
      case APrepare(c, items) => PrepareIsSafe(db, c, items);
      case AStart(c, templateUsable, refused) => StartIsSafe(db, c, templateUsable, refused);
      case AResume(c, templateUsable, refused) => ResumeIsSafe(db, c, templateUsable, refused);
      case ADispatch(c, refused) => DispatchIsSafe(db, c, refused);
      case ASetPhone(q, state) =>
    }
  }

  lemma CreateKeepsPhones(db: Db, c: CampaignId, phone: PhoneId, rate: nat, batchSize: nat, batchDelay: nat)
    ensures var db' := CreateCampaign(db, c, phone, rate, batchSize, batchDelay);
            forall p :: p in db.phones ==> p in db'.phones && db'.phones[p] == db.phones[p]
  {}

  // ---------------------------------------------------------------------------------------------
  // The main result
  // ---------------------------------------------------------------------------------------------

  predicate PreparationFails(db: Db, c: CampaignId, items: seq<P.Item>) {
    var db' := Prepare(db, c, items);
    MayPrepare(db, c) ==> c in db'.campaigns && db'.campaigns[c].status.Failed? && db'.campaigns[c].eligibleCount == 0
  }

  /** Nothing of the phone runs or can be started, and no job of its recipients reaches the provider call. */
  ghost predicate Quarantined(db: Db, p: PhoneId) {
    forall c | c in db.campaigns && db.campaigns[c].phone == p ::
      && !C.Active(db.campaigns[c].status)
      && (forall templateUsable ::
            !StartResponse(db, c, templateUsable).Done? && !ResumeResponse(db, c, templateUsable).Done?)
      && (forall r: RowId :: r.campaign == c ==> ClaimRecipient(db, r).sending == db.sending)
      && (forall items :: PreparationFails(db, c, items))
  }

  lemma BlockedIsQuarantined(db: Db, p: PhoneId)
    requires ActiveIsSafe(db) && p in db.phones && !Safe(db.phones[p])
    ensures Quarantined(db, p)
  {
    hide Prepare, Keep;
    forall c | c in db.campaigns && db.campaigns[c].phone == p
      ensures !C.Active(db.campaigns[c].status)
      ensures forall templateUsable ::
                !StartResponse(db, c, templateUsable).Done? && !ResumeResponse(db, c, templateUsable).Done?
      ensures forall r: RowId :: r.campaign == c ==> ClaimRecipient(db, r).sending == db.sending
      ensures forall items :: PreparationFails(db, c, items)
    {
      forall items ensures PreparationFails(db, c, items) {
        if MayPrepare(db, c) {
          PrepareOnBlockedPhoneFails(db, c, items);
        }
      }
    }
  }

  lemma {:induction false} BlockedRunIsQuarantined(db: Db, actions: seq<Action>, p: PhoneId)
    requires Good(db) && ActiveIsSafe(db) && p in db.phones && !Safe(db.phones[p])
    requires forall i :: 0 <= i < |actions| ==> KeepsBlocked(actions[i], p)
    ensures Quarantined(Run(db, actions), p)
    decreases |actions|
  {
    if actions == [] {
      BlockedIsQuarantined(db, p);
    } else {
      assert KeepsBlocked(actions[0], p);
      StepKeeps(db, actions[0]);
      StepKeepsSafe(db, actions[0]);
      StepKeepsBlocked(db, actions[0], p);
      BlockedRunIsQuarantined(Step(db, actions[0]), actions[1..], p);
    }
  }

  lemma {:induction false} RunKeepsSafe(db: Db, actions: seq<Action>)
    requires Good(db) && ActiveIsSafe(db)
    ensures Good(Run(db, actions)) && ActiveIsSafe(Run(db, actions))
    decreases |actions|
  {
    if actions != [] {
      StepKeeps(db, actions[0]);
      StepKeepsSafe(db, actions[0]);
      RunKeepsSafe(Step(db, actions[0]), actions[1..]);
    }
  }

  lemma EmptyIsSafe(env: Env, settings: Settings)
    requires Positive(env)
    ensures Good(Empty(env, settings)) && ActiveIsSafe(Empty(env, settings))
  {}

  predicate AccountFailure(category: Category) {
    category.Authentication? || category.PermanentAccount?
  }

  lemma FailureBlocks(db: Db, c: CampaignId, category: Category)
    requires c in db.campaigns && db.campaigns[c].phone in db.phones && AccountFailure(category)
    ensures var p := db.campaigns[c].phone;
            var db' := AfterFailure(db, c, category);
            p in db'.phones && !Safe(db'.phones[p])
  {
    hide Refresh;
    RefreshFrame(PausePhone(db, db.campaigns[c].phone), c);
  }

  /** Whichever way the error came into the catch block, it leaves the phone of the campaign blocked. */
  lemma RefusalBlocks(db: Db, r: RowId, result: SendResult)
    requires Good(db) && r in db.sending && ReachesCatch(db, result) && AccountFailure(result.category)
    ensures var p := db.campaigns[r.campaign].phone;
            var db' := FinishSend(db, r, result);
            p in db'.phones && !Safe(db'.phones[p])
  {
    assert r in db.rows && r.campaign in db.campaigns && db.campaigns[r.campaign].phone in db.phones;
    hide FinishSend, AfterFailure, Good;
    var failed := FailedResult(db, r, result);
    FailureBlocks(failed, r.campaign, result.category);
  }

  /** In any run, let a send end in the catch block with an authentication or permanent account error, before or after
      its commit. Until an administrator makes the phone safe again, whatever else happens, no campaign on that phone is
      SCHEDULED or RUNNING, none can be started or resumed, newly prepared ones end FAILED, and no job passes on to the
      provider call. */
  lemma QuarantineHolds(env: Env, settings: Settings, before: seq<Action>, r: RowId, result: SendResult,
                        later: seq<Action>)
    requires Positive(env)
    requires r in Run(Empty(env, settings), before).sending
    requires r.campaign in Run(Empty(env, settings), before).campaigns
    requires ReachesCatch(Run(Empty(env, settings), before), result) && AccountFailure(result.category)
    requires var p := Run(Empty(env, settings), before).campaigns[r.campaign].phone;
             forall i :: 0 <= i < |later| ==> KeepsBlocked(later[i], p)
    ensures var db := Run(Empty(env, settings), before);
            Quarantined(Run(FinishSend(db, r, result), later), db.campaigns[r.campaign].phone)
  {
    hide Run, FinishSend, Good, ActiveIsSafe, Quarantined;
    var db := Run(Empty(env, settings), before);
    EmptyIsSafe(env, settings);
    RunKeepsSafe(Empty(env, settings), before);
    var a := AFinish(r, result);
    StepKeeps(db, a);
    StepKeepsSafe(db, a);
    RefusalBlocks(db, r, result);
    BlockedRunIsQuarantined(Step(db, a), later, db.campaigns[r.campaign].phone);
  }
}
