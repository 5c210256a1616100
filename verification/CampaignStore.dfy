// The campaign services in the source's own form: calls that update tables in place. Each call is proved to do what
// its function in CampaignService.dfy says, so that the results about those functions are results about the calls.

module CampaignStore {
  import opened Options
  import opened CampaignErrors
  import opened PhoneSafety
  import opened CampaignService
  import opened AutoPause
  import opened CampaignInvariants
  import R = RecipientStatus
  import C = CampaignStatus

  class Store {
    const env: Env
    var settings: Settings
    var now: nat
    var campaigns: map<CampaignId, Campaign>
    var rows: map<RowId, Recipient>
    var order: seq<RowId>
    var latest: seq<RowId>
    var phones: map<PhoneId, PhoneState>
    var messages: map<MessageId, Message>
    var sending: map<RowId, nat>

    function Snapshot(): Db
      reads this
    {
      Db(env, settings, now, campaigns, rows, order, latest, phones, messages, sending)
    }

    constructor (env: Env, settings: Settings)
      ensures Snapshot() == Empty(env, settings)
    {
      this.env, this.settings, now := env, settings, 0;
      campaigns, rows, order, latest := map[], map[], [], [];
      phones, messages, sending := map[], map[], map[];
    }

    // -------------------------------------------------------------------------------------------
    // Statements
    // -------------------------------------------------------------------------------------------

    method UpdateRecipient(r: RowId, row: Recipient)
      modifies this
      ensures Snapshot() == UpdateRow(old(Snapshot()), r, row)
    {
      rows := rows[r := row];
      latest := [r] + Keep(latest, (x: RowId) => x != r);
    }

    method UpdateRecipients(hit: RowId -> bool, status: R.Status)
      modifies this
      ensures Snapshot() == UpdateRows(old(Snapshot()), hit, status)
    {
      rows := map r | r in rows :: if hit(r) then rows[r].(status := status) else rows[r];
      latest := Keep(latest, hit) + Keep(latest, (r: RowId) => !hit(r));
    }

    method PauseCampaignsOnPhone(p: PhoneId)
      modifies this
      ensures Snapshot() == PauseOnPhone(old(Snapshot()), p)
    {
      campaigns := map c | c in campaigns :: PauseActive(campaigns[c], p);
    }

    // -------------------------------------------------------------------------------------------
    // campaign-send.service.js
    // -------------------------------------------------------------------------------------------

    method RefreshCampaignRecipientCounts(c: CampaignId)
      modifies this
      ensures Snapshot() == Refresh(old(Snapshot()), c)
    {
      hide CountOf;
      var db := Snapshot();
      if c !in campaigns {
        return;
      }
      var campaign := campaigns[c];
      var pending, queued, processing := CountOf(db, c, R.Pending), CountOf(db, c, R.Queued),
          CountOf(db, c, R.Processing);
      var complete := pending + queued + processing == 0;
      var status := if complete && (campaign.status.Running? || campaign.status.Scheduled?) then C.Completed
          else campaign.status;
      var counts := Counts(pending, queued, CountOf(db, c, R.Sent), CountOf(db, c, R.Delivered), CountOf(db, c, R.Read),
                           CountOf(db, c, R.Failed), CountOf(db, c, R.Skipped));
      campaigns := campaigns[c := campaign.(status := status, counts := counts)];
    }

    method PauseCampaignAutomatically(c: CampaignId)
      modifies this
      ensures Snapshot() == PauseOne(old(Snapshot()), c)
    {
      if c !in campaigns || !(campaigns[c].status.Running? || campaigns[c].status.Scheduled?) {
        return;
      }
      campaigns := campaigns[c := campaigns[c].(status := C.Paused)];
    }

    method PausePhoneCampaigns(p: PhoneId)
      modifies this
      ensures Snapshot() == PausePhone(old(Snapshot()), p)
    {
      PauseCampaignsOnPhone(p);
      if p in phones {
        phones := phones[p := PhoneState(false, Restricted)];
      }
    }

    method EvaluatePause(c: CampaignId)
      modifies this
      ensures Snapshot() == EvaluateAutoPause(old(Snapshot()), c)
    {
      hide CountOf, RowsWith, RecentStatuses, AutoPauseReason;
      if c !in campaigns || !campaigns[c].status.Running? {
        return;
      }
      var db := Snapshot();
      var sampled := |RowsWith(db, c, R.Terminal)|;
      var failed := CountOf(db, c, R.Failed);
      var recent := RecentStatuses(db, c);
      var reason := AutoPauseReason(sampled, failed, recent, settings);
      if reason.Some? {
        PauseCampaignAutomatically(c);
      }
    }

    /** `processCampaignRecipient` up to the provider call. The row is written when it is claimed, and written again
        when the fresh look at the campaign finds that it does not run. */
    method ProcessUntilCall(r: RowId) returns (calls: bool)
      requires r !in sending
      modifies this
      ensures Snapshot() == ClaimRecipient(old(Snapshot()), r)
      ensures calls <==> r in sending
    {
      hide Keep;
      if r !in rows || r.campaign !in campaigns {
        return false;
      }
      var recipient, status := rows[r], campaigns[r.campaign].status;
      if R.Terminal(recipient.status) {
        return false;
      }
      if !(status.Scheduled? || status.Running?) {
        if status.Cancelled? {
          UpdateRecipient(r, recipient.(status := R.Cancelled));
        } else if recipient.status.Queued? {
          UpdateRecipient(r, recipient.(status := R.Pending));
        }
        return false;
      }
      if !recipient.status.Queued? || recipient.providerId.Some? {
        return false;
      }
      var claimed := recipient.(status := R.Processing, attemptCount := recipient.attemptCount + 1);
      UpdateRecipient(r, claimed);
      var found := campaigns[r.campaign].status;
      if !found.Running? {
        UpdateTwice(old(Snapshot()), r, claimed, claimed.(status := R.Pending));
        UpdateRecipient(r, claimed.(status := if found.Cancelled? then R.Cancelled else R.Pending));
        return false;
      }
      sending := sending[r := recipient.attemptCount];
      calls := true;
    }

    method RecordSending(r: RowId, answer: Option<ProviderId>, message: MessageId)
      requires r in rows
      modifies this
      ensures Snapshot() == RecordSent(old(Snapshot()), r, answer, message)
    {
      messages := messages[message := Message(r.campaign, answer)];
      UpdateRecipient(r, rows[r].(status := R.Sent, providerId := answer, message := Some(message)));
    }

    /** The catch block: another attempt, or the failure and what follows from it. */
    method HandleFailure(r: RowId, category: Category, delayMs: nat) returns (retries: bool)
      requires r in sending && r in rows && r.campaign in campaigns
      modifies this
      ensures Snapshot() == CatchError(old(Snapshot()), r, category, delayMs)
      ensures retries == WillRetry(old(Snapshot()), r, category)
    {
      hide Keep, Refresh, PausePhone, PauseOne, EvaluateAutoPause;
      var attempt := sending[r] + 1;
      sending := sending - {r};
      retries := Retryable(category) && attempt < env.attempts;
      if retries {
        UpdateRecipient(r, rows[r].(status := R.Queued, nextAttemptAt := Some(now + delayMs)));
        return;
      }
      UpdateRecipient(r, rows[r].(status := R.Failed));
      if category.Authentication? || category.PermanentAccount? {
        PausePhoneCampaigns(campaigns[r.campaign].phone);
      } else if category.PermanentTemplate? {
        PauseCampaignAutomatically(r.campaign);
      } else {
        EvaluatePause(r.campaign);
      }
      RefreshCampaignRecipientCounts(r.campaign);
    }

    /** `processCampaignRecipient` from the provider's answer on. */
    method ProcessAnswer(r: RowId, result: SendResult)
      requires r in sending && r in rows && r.campaign in campaigns
      requires !result.Rejected? ==> result.message !in messages
      modifies this
      ensures Snapshot() == FinishSend(old(Snapshot()), r, result)
    {
      hide CatchError, Refresh, UpdateRow;
      match result
      case Recorded(answer, message) =>
        RecordSending(r, answer, message);
        RecordKeeps(old(Snapshot()), r, answer, message);
        sending := sending - {r};
        RefreshCampaignRecipientCounts(r.campaign);
      case RecordedThenThrew(answer, message, category, delayMs) =>
        RecordSending(r, answer, message);
        RecordKeeps(old(Snapshot()), r, answer, message);
        var retries := HandleFailure(r, category, delayMs);
      case Rejected(category, delayMs) =>
        var retries := HandleFailure(r, category, delayMs);
    }

    // -------------------------------------------------------------------------------------------
    // campaign-dispatcher.service.js
    // -------------------------------------------------------------------------------------------

    /** `dispatchCampaign`; the queue refuses the recipients in `refused`. */
    method DispatchCampaign(c: CampaignId, refused: set<RowId>) returns (queued: nat)
      modifies this
      ensures Snapshot() == Dispatch(old(Snapshot()), c, refused)
    {
      hide HasCompetitor, RowsWith, Selected, Keep, UpdateRow;
      queued := 0;
      if c !in campaigns || !(campaigns[c].status.Scheduled? || campaigns[c].status.Running?) {
        return;
      }
      var campaign := campaigns[c];
      if HasCompetitor(Snapshot(), c) {
        return;
      }
      var inFlight := RowsWith(Snapshot(), c, R.InFlight);
      if inFlight != {} {
        return;
      }
      var recipients := Selected(Snapshot(), c);
      if |recipients| == 0 {
        return;
      }
      QueueRecipients(recipients, refused);
      QueueKeepsCampaigns(old(Snapshot()), recipients, refused);
      campaigns := campaigns[c := campaign.(status := C.Running,
                                            startedAt := if campaign.startedAt.Some? then campaign.startedAt
                                                         else Some(now))];
      queued := |recipients|;
    }

    // The loop over the batch.
    method QueueRecipients(recipients: seq<RowId>, refused: set<RowId>)
      modifies this
      ensures Snapshot() == QueueBatch(old(Snapshot()), recipients, refused)
    {
      hide UpdateRow;
      for index := 0 to |recipients|
        invariant Snapshot() == QueueBatch(old(Snapshot()), recipients[..index], refused)
      {
        assert recipients[..index + 1][..index] == recipients[..index];
        var r := recipients[index];
        if r !in refused {
          if r in rows && rows[r].status.Pending? {
            UpdateRecipient(r, rows[r].(status := R.Queued));
          }
        }
      }
      assert recipients[..|recipients|] == recipients;
    }

    /** `dispatchActiveCampaigns` over its ordered list of campaigns with their phones */
    method DispatchActiveCampaigns(queue: seq<(CampaignId, PhoneId)>, refused: set<RowId>)
      modifies this
      ensures Snapshot() == DispatchEach(old(Snapshot()), FirstPerPhone(queue), refused)
    {
      hide Dispatch, DispatchEach, FirstPerPhone;
      NothingPicked(Snapshot(), refused);
      assert queue[..0] == [];
      var selectedPhones: set<PhoneId> := {};
      for i := 0 to |queue|
        invariant Snapshot() == DispatchEach(old(Snapshot()), FirstPerPhone(queue[..i]), refused)
        invariant forall p :: p in selectedPhones <==> exists k :: 0 <= k < i && queue[k].1 == p
      {
        PickedNext(queue, i);
        if queue[i].1 in selectedPhones {
          continue;
        }
        selectedPhones := selectedPhones + {queue[i].1};
        DispatchNext(old(Snapshot()), FirstPerPhone(queue[..i]), queue[i].0, refused);
        var queued := DispatchCampaign(queue[i].0, refused);
      }
      assert queue[..|queue|] == queue;
    }

    // -------------------------------------------------------------------------------------------
    // campaign-control.service.js
    // -------------------------------------------------------------------------------------------

    // `assertStartable`, which creates the phone's row on its way.
    method AssertStartable(c: CampaignId, templateUsable: bool) returns (refusal: Option<Response>)
      requires c in campaigns
      modifies this
      ensures refusal == StartRefusal(old(Snapshot()), c, templateUsable)
      ensures refusal.Some? ==> !refusal.value.Done?
      ensures refusal.None? ==> Snapshot() == EnsurePhone(old(Snapshot()), old(campaigns[c].phone))
      ensures refusal.Some? ==>
              Snapshot() == old(Snapshot()) || Snapshot() == EnsurePhone(old(Snapshot()), old(campaigns[c].phone))
      ensures campaigns == old(campaigns)
    {
      hide HasOtherActive;
      var campaign := campaigns[c];
      if !templateUsable {
        return Some(BadRequest);
      }
      if campaign.eligibleCount < 1 {
        return Some(BadRequest);
      }
      ghost var before := Snapshot();
      if campaign.phone !in phones {
        phones := phones[campaign.phone := NEW_PHONE];
      }
      if !Safe(phones[campaign.phone]) {
        return Some(Conflict);
      }
      SameOtherActive(before, Snapshot(), c);
      if HasOtherActive(Snapshot(), c) {
        return Some(Conflict);
      }
      if ValueOr(campaign.ratePerMinute, 0) > settings.maxPerMinute {
        return Some(BadRequest);
      }
      if ValueOr(campaign.batchSize, 0) > settings.maxBatchSize {
        return Some(BadRequest);
      }
      if ValueOr(campaign.batchDelayMs, 0) < settings.minBatchDelayMs {
        return Some(BadRequest);
      }
      refusal := None;
    }

    method StartCampaign(c: CampaignId, templateUsable: bool, refused: set<RowId>) returns (response: Response)
      modifies this
      ensures response == StartResponse(old(Snapshot()), c, templateUsable)
      ensures Snapshot() == Start(old(Snapshot()), c, templateUsable, refused)
              || OnlyPhone(old(Snapshot()), Snapshot(), c, response)
    {
      hide StartRefusal, Dispatch;
      if c !in campaigns {
        return NotFound;
      }
      var campaign := campaigns[c];
      if !(campaign.status.Ready? || campaign.status.Scheduled? || campaign.status.Draft?) {
        return Conflict;
      }
      var refusal := AssertStartable(c, templateUsable);
      if refusal.Some? {
        return refusal.value;
      }
      campaigns := campaigns[c := campaign.(status := C.Running,
                                            startedAt := if campaign.startedAt.Some? then campaign.startedAt
                                                         else Some(now))];
      var queued := DispatchCampaign(c, refused);
      response := Done;
    }

    method PauseCampaign(c: CampaignId) returns (response: Response)
      modifies this
      ensures Snapshot() == Pause(old(Snapshot()), c)
      ensures response == if c !in old(campaigns) then NotFound else if C.Active(old(campaigns[c].status)) then Done
              else Conflict
    {
      if c !in campaigns {
        return NotFound;
      }
      if !(campaigns[c].status.Scheduled? || campaigns[c].status.Running?) {
        return Conflict;
      }
      campaigns := campaigns[c := campaigns[c].(status := C.Paused)];
      response := Done;
    }

    method ResumeCampaign(c: CampaignId, templateUsable: bool, refused: set<RowId>) returns (response: Response)
      modifies this
      ensures response == ResumeResponse(old(Snapshot()), c, templateUsable)
      ensures Snapshot() == Resume(old(Snapshot()), c, templateUsable, refused)
              || OnlyPhone(old(Snapshot()), Snapshot(), c, response)
    {
      hide StartRefusal, Dispatch, UpdateRows;
      if c !in campaigns {
        return NotFound;
      }
      if !campaigns[c].status.Paused? {
        return Conflict;
      }
      var refusal := AssertStartable(c, templateUsable);
      if refusal.Some? {
        return refusal.value;
      }
      var db := Snapshot();
      UpdateRecipients((r: RowId) => r in db.rows && r.campaign == c && db.rows[r].status.Queued?, R.Pending);
      UpdateRowsKeepsCampaigns(db, (r: RowId) => r in db.rows && r.campaign == c && db.rows[r].status.Queued?,
                               R.Pending);
      campaigns := campaigns[c := campaigns[c].(status := C.Running)];
      ReopenIs(old(Snapshot()), c);
      assert Snapshot() == Reopen(old(Snapshot()), c);
      var queued := DispatchCampaign(c, refused);
      response := Done;
    }

    method CancelCampaign(c: CampaignId) returns (response: Response)
      modifies this
      ensures response == CancelResponse(old(Snapshot()), c)
      ensures Snapshot() == Cancel(old(Snapshot()), c)
    {
      hide Refresh, UpdateRows;
      if c !in campaigns {
        return NotFound;
      }
      var status := campaigns[c].status;
      if status.Completed? || status.Failed? || status.Cancelled? {
        return Conflict;
      }
      var db := Snapshot();
      UpdateRecipients((r: RowId) => r in db.rows && r.campaign == c && R.Waiting(db.rows[r].status), R.Cancelled);
      UpdateRowsKeepsCampaigns(db, (r: RowId) => r in db.rows && r.campaign == c && R.Waiting(db.rows[r].status),
                               R.Cancelled);
      campaigns := campaigns[c := campaigns[c].(status := C.Cancelled)];
      RefreshCampaignRecipientCounts(c);
      response := Done;
    }

    // -------------------------------------------------------------------------------------------
    // Customers, webhooks, administrators
    // -------------------------------------------------------------------------------------------

    method ApplyOptOut(customer: CustomerId)
      modifies this
      ensures Snapshot() == OptOut(old(Snapshot()), customer)
    {
      var db := Snapshot();
      UpdateRecipients((r: RowId) => r in db.rows && db.rows[r].customer == customer && R.Waiting(db.rows[r].status),
                       R.Cancelled);
    }

    /** The recipient part of `processStatus` */
    method ProcessStatus(message: MessageId, status: R.Status)
      modifies this
      ensures Snapshot() == StatusWebhook(old(Snapshot()), message, status)
    {
      hide Refresh, EvaluateAutoPause, UpdateRows;
      if message !in messages || messages[message].providerId.None? {
        return;
      }
      if !(status.Sent? || status.Delivered? || status.Read? || status.Failed?) {
        return;
      }
      var db := Snapshot();
      var c := messages[message].campaign;
      UpdateRecipients((r: RowId) => r in db.rows && r.campaign == c && db.rows[r].message == Some(message), status);
      if status.Failed? {
        EvaluatePause(c);
      }
      RefreshCampaignRecipientCounts(c);
    }

    /** The phone part of `updateCampaignSafety`: the named fields change, the others stay. */
    method UpdatePhoneSafety(p: PhoneId, campaignsEnabled: Option<bool>, account: Option<AccountStatus>)
      modifies this
      ensures var before := PhoneOf(old(Snapshot()), p);
              Snapshot() == SetPhone(old(Snapshot()), p, PhoneState(
                if campaignsEnabled.Some? then campaignsEnabled.value else before.campaignsEnabled,
                if account.Some? then account.value else before.account))
    {
      hide PauseOnPhone;
      if p !in phones {
        phones := phones[p := NEW_PHONE];
      }
      var phone := phones[p];
      if campaignsEnabled.Some? {
        phone := phone.(campaignsEnabled := campaignsEnabled.value);
      }
      if account.Some? {
        phone := phone.(account := account.value);
      }
      phones := phones[p := phone];
      assert Snapshot() == old(Snapshot()).(phones := old(phones)[p := phone]);
      if !phone.campaignsEnabled || phone.account.Disabled? || phone.account.Banned? || phone.account.Restricted? {
        PauseCampaignsOnPhone(p);
      }
    }
  }

  /** A refused call, which at most created the row of a phone that was not known. */
  predicate OnlyPhone(db: Db, db': Db, c: CampaignId, response: Response) {
    !response.Done? && c in db.campaigns && db.campaigns[c].phone !in db.phones
        && db' == EnsurePhone(db, db.campaigns[c].phone)
  }

  // ---------------------------------------------------------------------------------------------
  // Lemmas
  // ---------------------------------------------------------------------------------------------

  lemma RecordKeeps(db: Db, r: RowId, answer: Option<ProviderId>, message: MessageId)
    requires r in db.rows
    ensures var sent := RecordSent(db, r, answer, message);
            sent.campaigns == db.campaigns && sent.sending == db.sending && r in sent.rows
  {}

  lemma UpdateRowsKeepsCampaigns(db: Db, hit: RowId -> bool, status: R.Status)
    ensures UpdateRows(db, hit, status).campaigns == db.campaigns
  {}

  lemma SameOtherActive(db: Db, db': Db, c: CampaignId)
    requires c in db.campaigns && db'.campaigns == db.campaigns
    ensures HasOtherActive(db', c) == HasOtherActive(db, c)
  {}

  lemma ReopenIs(db: Db, c: CampaignId)
    requires c in db.campaigns
    ensures var ensured := EnsurePhone(db, db.campaigns[c].phone);
            ensured.rows == db.rows && ensured.campaigns == db.campaigns
  {}

  lemma NothingPicked(db: Db, refused: set<RowId>)
    ensures FirstPerPhone([]) == [] && DispatchEach(db, [], refused) == db
  {}

  lemma DispatchNext(db: Db, chosen: seq<CampaignId>, c: CampaignId, refused: set<RowId>)
    ensures DispatchEach(db, chosen + [c], refused) == Dispatch(DispatchEach(db, chosen, refused), c, refused)
  {}

  lemma PickedNext(queue: seq<(CampaignId, PhoneId)>, i: nat)
    requires i < |queue|
    ensures FirstPerPhone(queue[..i + 1]) ==
              if exists k :: 0 <= k < i && queue[k].1 == queue[i].1 then FirstPerPhone(queue[..i])
              else FirstPerPhone(queue[..i]) + [queue[i].0]
  {
    var longer := queue[..i + 1];
    assert longer[..i] == queue[..i];
    assert forall k :: 0 <= k < i ==> longer[k] == queue[k];
  }

  // The first campaign of its phone in the list.
  predicate FirstOfPhone(queue: seq<(CampaignId, PhoneId)>, i: nat)
    requires i < |queue|
  {
    forall k :: 0 <= k < i ==> queue[k].1 != queue[i].1
  }

  function PhonesOf(queue: seq<(CampaignId, PhoneId)>): set<PhoneId> {
    set i | 0 <= i < |queue| :: queue[i].1
  }

  predicate HasFirst(queue: seq<(CampaignId, PhoneId)>, c: CampaignId) {
    exists i :: 0 <= i < |queue| && queue[i].0 == c && FirstOfPhone(queue, i)
  }

  lemma LastPhone(queue: seq<(CampaignId, PhoneId)>)
    requires queue != []
    ensures PhonesOf(queue) == PhonesOf(queue[..|queue| - 1]) + {queue[|queue| - 1].1}
  {}

  lemma LastIsFirst(queue: seq<(CampaignId, PhoneId)>)
    requires queue != []
    ensures FirstOfPhone(queue, |queue| - 1) <==> queue[|queue| - 1].1 !in PhonesOf(queue[..|queue| - 1])
  {}

  lemma LastPicked(queue: seq<(CampaignId, PhoneId)>)
    requires queue != []
    ensures var n := |queue| - 1;
            FirstPerPhone(queue) == FirstPerPhone(queue[..n]) + if FirstOfPhone(queue, n) then [queue[n].0] else []
  {}

  lemma FirstsGrow(queue: seq<(CampaignId, PhoneId)>, c: CampaignId)
    requires queue != []
    ensures var n := |queue| - 1;
            HasFirst(queue, c) <==> HasFirst(queue[..n], c) || (queue[n].0 == c && FirstOfPhone(queue, n))
  {}

  /** One pass dispatches exactly one campaign for each phone of its list, the first one. */
  lemma {:induction false} OneCampaignPerPhone(queue: seq<(CampaignId, PhoneId)>)
    ensures |FirstPerPhone(queue)| == |PhonesOf(queue)|
    ensures forall c :: c in FirstPerPhone(queue) <==> HasFirst(queue, c)
  {
    if queue != [] {
      OneCampaignPerPhone(queue[..|queue| - 1]);
      LastPhone(queue);
      LastIsFirst(queue);
      LastPicked(queue);
      if queue[|queue| - 1].1 in PhonesOf(queue[..|queue| - 1]) {
        assert PhonesOf(queue) == PhonesOf(queue[..|queue| - 1]);
      }
      hide FirstOfPhone, PhonesOf, FirstPerPhone, HasFirst;
      forall c ensures c in FirstPerPhone(queue) <==> HasFirst(queue, c) {
        FirstsGrow(queue, c);
      }
    }
  }

  /** The picks come in the order of the list: those of a part of it are the first ones of the whole. */
  lemma {:induction false} PicksFollowTheList(queue: seq<(CampaignId, PhoneId)>, n: nat)
    requires n <= |queue|
    ensures FirstPerPhone(queue[..n]) <= FirstPerPhone(queue)
    decreases |queue|
  {
    var last := |queue| - 1;
    if n <= last {
      PicksFollowTheList(queue[..last], n);
      LastPicked(queue);
      hide FirstPerPhone;
      assert queue[..last][..n] == queue[..n];
    } else {
      assert queue[..n] == queue;
    }
  }

  /** A whole pass keeps the invariant, so that at most one open campaign runs per phone after it, too. */
  lemma {:induction false} PassKeepsGood(db: Db, chosen: seq<CampaignId>, refused: set<RowId>)
    requires Good(db)
    ensures Good(DispatchEach(db, chosen, refused))
    decreases |chosen|
  {
    hide Good, Dispatch;
    if chosen != [] {
      var n := |chosen| - 1;
      PassKeepsGood(db, chosen[..n], refused);
      DispatchKeeps(DispatchEach(db, chosen[..n], refused), chosen[n], refused);
    }
  }
}
