// The campaign services at the level of whole calls: start, pause, resume, cancel, dispatch, the two halves of a
// send (up to the provider call, and after it), status webhooks, opt-out and phone safety, as functions from one
// database state to the next. CampaignStore.dfy has the same operations in the source's own imperative form.

module CampaignService {
  import opened BatchLimits
  import opened Options
  import opened CampaignErrors
  import opened PhoneSafety
  import P = Preparation
  import R = RecipientStatus
  import C = CampaignStatus

  type CampaignId = nat
  type CustomerId = nat
  type PhoneId = nat
  type MessageId = nat
  type ProviderId = nat

  // The unique key of a recipient row.
  datatype RowId = RowId(campaign: CampaignId, debt: P.DebtId)

  datatype Counts = Counts(pending: nat, queued: nat, sent: nat, delivered: nat, read: nat, failed: nat, skipped: nat)

  const NO_COUNTS := Counts(0, 0, 0, 0, 0, 0, 0)

  datatype Campaign = Campaign(
    status: C.Status,
    phone: PhoneId,
    startedAt: Option<nat>,
    eligibleCount: nat,
    counts: Counts,
    ratePerMinute: Option<nat>, batchSize: Option<nat>, batchDelayMs: Option<nat>)

  datatype Recipient = Recipient(
    customer: CustomerId,
    status: R.Status,
    providerId: Option<ProviderId>,
    message: Option<MessageId>,
    attemptCount: nat,
    nextAttemptAt: Option<nat>)

  datatype Message = Message(campaign: CampaignId, providerId: Option<ProviderId>)

  /** Settings that an administrator can change, and environment values that are fixed and positive. */
  datatype Settings = Settings(
    consecutiveFailures: nat, minSample: nat, failureRatePercent: real,
    maxPerMinute: nat, maxBatchSize: nat, minBatchDelayMs: nat)

  datatype Env = Env(attempts: nat, batchSize: nat, maxBatchSize: nat)

  /** `order` lists the rows by creation time, `latest` by the time of their last update, newest first.
      `sending` holds the rows whose job awaits the provider, with the attempt count that the job read. */
  datatype Db = Db(
    env: Env,
    settings: Settings,
    now: nat,
    campaigns: map<CampaignId, Campaign>,
    rows: map<RowId, Recipient>,
    order: seq<RowId>,
    latest: seq<RowId>,
    phones: map<PhoneId, PhoneState>,
    messages: map<MessageId, Message>,
    sending: map<RowId, nat>)

  datatype Response = Done | NotFound | Conflict | BadRequest

  // ---------------------------------------------------------------------------------------------
  // Queries
  // ---------------------------------------------------------------------------------------------

  function Keep(list: seq<RowId>, keep: RowId -> bool): (kept: seq<RowId>)
    ensures forall r :: r in kept <==> r in list && keep(r)
  {
    if list == [] then []
    else (if keep(list[0]) then [list[0]] else []) + Keep(list[1..], keep)
  }

  function RowsWith(db: Db, c: CampaignId, wanted: R.Status -> bool): set<RowId> {
    set r | r in db.rows && r.campaign == c && wanted(db.rows[r].status)
  }

  function CountOf(db: Db, c: CampaignId, status: R.Status): nat {
    |RowsWith(db, c, (s: R.Status) => s == status)|
  }

  /** The campaign has no recipient left that is PENDING, QUEUED or PROCESSING. */
  predicate Quiet(db: Db, c: CampaignId) {
    forall r :: r in db.rows && r.campaign == c ==> !R.Open(db.rows[r].status)
  }

  function PhoneOf(db: Db, p: PhoneId): PhoneState {
    if p in db.phones then db.phones[p] else NEW_PHONE
  }

  function RecentRows(db: Db, c: CampaignId): seq<RowId> {
    Keep(db.latest, (r: RowId) => r in db.rows && r.campaign == c && R.Attempted(db.rows[r].status))
  }

  function Take<T>(s: seq<T>, n: nat): (t: seq<T>)
    ensures |t| == (if |s| <= n then |s| else n) && t <= s
  {
    if |s| <= n then s else s[..n]
  }

  function StatusesOf(db: Db, ids: seq<RowId>): seq<R.Status>
    requires forall r :: r in ids ==> r in db.rows
  {
    seq(|ids|, i requires 0 <= i < |ids| => db.rows[ids[i]].status)
  }

  function RecentStatuses(db: Db, c: CampaignId): seq<R.Status> {
    var newest := Take(RecentRows(db, c), db.settings.consecutiveFailures);
    assert forall r :: r in newest ==> r in RecentRows(db, c);
    StatusesOf(db, newest)
  }

  // ---------------------------------------------------------------------------------------------
  // Writes
  // ---------------------------------------------------------------------------------------------

  function UpdateRow(db: Db, r: RowId, row: Recipient): Db {
    db.(rows := db.rows[r := row], latest := [r] + Keep(db.latest, (x: RowId) => x != r))
  }

  // `updateMany` on recipients.
  function UpdateRows(db: Db, hit: RowId -> bool, status: R.Status): Db {
    db.(rows := map r | r in db.rows :: if hit(r) then db.rows[r].(status := status) else db.rows[r],
        latest := Keep(db.latest, hit) + Keep(db.latest, (r: RowId) => !hit(r)))
  }

  function SetCampaign(db: Db, c: CampaignId, campaign: Campaign): Db {
    db.(campaigns := db.campaigns[c := campaign])
  }

  function SetStatus(db: Db, c: CampaignId, status: C.Status): Db
    requires c in db.campaigns
  {
    SetCampaign(db, c, db.campaigns[c].(status := status))
  }

  function PauseActive(campaign: Campaign, p: PhoneId): Campaign {
    if campaign.phone == p && C.Active(campaign.status) then campaign.(status := C.Paused) else campaign
  }

  // `campaign.updateMany` where the phone matches and the status is SCHEDULED or RUNNING.
  function PauseOnPhone(db: Db, p: PhoneId): Db {
    db.(campaigns := map c | c in db.campaigns :: PauseActive(db.campaigns[c], p))
  }

  // ---------------------------------------------------------------------------------------------
  // campaign-send.service.js
  // ---------------------------------------------------------------------------------------------

  function RefreshedStatus(status: C.Status, complete: bool): C.Status {
    if complete && C.Active(status) then C.Completed else status
  }

  function CountsOf(db: Db, c: CampaignId): Counts {
    Counts(CountOf(db, c, R.Pending), CountOf(db, c, R.Queued), CountOf(db, c, R.Sent), CountOf(db, c, R.Delivered),
           CountOf(db, c, R.Read), CountOf(db, c, R.Failed), CountOf(db, c, R.Skipped))
  }

  /** `refreshCampaignRecipientCounts` */
  function Refresh(db: Db, c: CampaignId): Db {
    if c !in db.campaigns then db
    else
      var complete := CountOf(db, c, R.Pending) + CountOf(db, c, R.Queued) + CountOf(db, c, R.Processing) == 0;
      SetCampaign(db, c, db.campaigns[c].(status := RefreshedStatus(db.campaigns[c].status, complete),
                                          counts := CountsOf(db, c)))
  }

  /** The automatic `pauseCampaign` */
  function PauseOne(db: Db, c: CampaignId): Db {
    if c in db.campaigns && C.Active(db.campaigns[c].status) then SetStatus(db, c, C.Paused) else db
  }

  /** `pausePhoneCampaigns` */
  function PausePhone(db: Db, p: PhoneId): Db {
    var paused := PauseOnPhone(db, p);
    if p in db.phones then paused.(phones := db.phones[p := PhoneState(false, Restricted)]) else paused
  }

  datatype PauseReason = ConsecutiveFailures | FailureRate

  predicate NewestAllFailed(recent: seq<R.Status>, k: nat) {
    |recent| >= k && forall i :: 0 <= i < k ==> recent[i].Failed?
  }

  /** `autoPauseReason` */
  function AutoPauseReason(sampled: nat, failed: nat, recent: seq<R.Status>, settings: Settings): Option<PauseReason> {
    var rate := if sampled > 0 then failed as real * 100.0 / sampled as real else 0.0;
    if NewestAllFailed(recent, settings.consecutiveFailures) then Some(ConsecutiveFailures)
    else if sampled >= settings.minSample && rate >= settings.failureRatePercent then Some(FailureRate)
    else None
  }

  function PauseReasonOf(db: Db, c: CampaignId): Option<PauseReason> {
    AutoPauseReason(|RowsWith(db, c, R.Terminal)|, CountOf(db, c, R.Failed), RecentStatuses(db, c), db.settings)
  }

  /** `evaluateAutoPause` */
  function EvaluateAutoPause(db: Db, c: CampaignId): Db {
    if c in db.campaigns && db.campaigns[c].status.Running? && PauseReasonOf(db, c).Some? then PauseOne(db, c) else db
  }

  /** What the statements before the provider call write to a row, and whether the call is then made. */
  datatype ClaimWrite = ClaimWrite(row: Recipient, calls: bool)

  function ClaimWriteOf(row: Recipient, status: C.Status): Option<ClaimWrite> {
    if R.Terminal(row.status) then None
    else if !C.Active(status) then
      if status.Cancelled? then Some(ClaimWrite(row.(status := R.Cancelled), false))
      else if row.status.Queued? then Some(ClaimWrite(row.(status := R.Pending), false))
      else None
    else if !row.status.Queued? || row.providerId.Some? then None
    else if !status.Running? then
      Some(ClaimWrite(row.(status := R.Pending, attemptCount := row.attemptCount + 1), false))
    else
      Some(ClaimWrite(row.(status := R.Processing, attemptCount := row.attemptCount + 1), true))
  }

  /** `processCampaignRecipient` up to the provider call: the row ends in `sending` exactly when the call is made. */
  function ClaimRecipient(db: Db, r: RowId): Db {
    if r !in db.rows || r.campaign !in db.campaigns || r in db.sending then db
    else
      match ClaimWriteOf(db.rows[r], db.campaigns[r.campaign].status)
      case None => db
      case Some(write) =>
        UpdateRow(db, r, write.row)
        .(sending := if write.calls then db.sending[r := db.rows[r].attemptCount] else db.sending)
  }

  // The consequences of a recipient's final failure (lines 186 to 193).
  function AfterFailure(db: Db, c: CampaignId, category: Category): Db
    requires c in db.campaigns
  {
    Refresh(if category.Authentication? || category.PermanentAccount? then PausePhone(db, db.campaigns[c].phone)
            else if category.PermanentTemplate? then PauseOne(db, c)
            else EvaluateAutoPause(db, c), c)
  }

  predicate WillRetry(db: Db, r: RowId, category: Category)
    requires r in db.sending
  {
    Retryable(category) && db.sending[r] + 1 < db.env.attempts
  }

  /** The catch block of `processCampaignRecipient`. */
  function CatchError(db: Db, r: RowId, category: Category, delayMs: nat): Db
    requires r in db.sending && r in db.rows && r.campaign in db.campaigns
  {
    var row := db.rows[r];
    var released := db.(sending := db.sending - {r});
    if WillRetry(db, r, category)
    then UpdateRow(released, r, row.(status := R.Queued, nextAttemptAt := Some(db.now + delayMs)))
    else AfterFailure(UpdateRow(released, r, row.(status := R.Failed)), r.campaign, category)
  }

  // The recording transaction.
  function RecordSent(db: Db, r: RowId, answer: Option<ProviderId>, message: MessageId): Db
    requires r in db.rows
  {
    UpdateRow(db, r, db.rows[r].(status := R.Sent, providerId := answer, message := Some(message)))
    .(messages := db.messages[message := Message(r.campaign, answer)])
  }

  /** How the provider call ended: accepted and recorded, possibly with a failing count refresh afterwards, or
      rejected (an aborted recording transaction is handled like a rejected call). */
  datatype SendResult =
    | Recorded(answer: Option<ProviderId>, message: MessageId)
    | RecordedThenThrew(answer: Option<ProviderId>, message: MessageId, category: Category, delayMs: nat)
    | Rejected(category: Category, delayMs: nat)

  /** The result enters the catch block: a rejected call, or a commit whose count refresh throws afterwards. */
  predicate ReachesCatch(db: Db, result: SendResult) {
    result.Rejected? || (result.RecordedThenThrew? && result.message !in db.messages)
  }

  /** `processCampaignRecipient` after the provider call. */
  function FinishSend(db: Db, r: RowId, result: SendResult): Db {
    if r !in db.sending || r !in db.rows || r.campaign !in db.campaigns then db
    else if !result.Rejected? && result.message in db.messages then db
    else
      match result
      case Recorded(answer, message) =>
        Refresh(RecordSent(db, r, answer, message).(sending := db.sending - {r}), r.campaign)
      case RecordedThenThrew(answer, message, category, delayMs) =>
        CatchError(RecordSent(db, r, answer, message), r, category, delayMs)
      case Rejected(category, delayMs) =>
        CatchError(db, r, category, delayMs)
  }

  // ---------------------------------------------------------------------------------------------
  // campaign-dispatcher.service.js
  // ---------------------------------------------------------------------------------------------

  // The cutoff is the campaign's own start, or now if it has not started.
  predicate Competes(db: Db, c: CampaignId, d: CampaignId)
    requires c in db.campaigns && d in db.campaigns
  {
    && d != c
    && db.campaigns[d].phone == db.campaigns[c].phone
    && db.campaigns[d].status.Running?
    && db.campaigns[d].startedAt.Some?
    && db.campaigns[d].startedAt.value <= (if db.campaigns[c].startedAt.Some? then db.campaigns[c].startedAt.value
                                           else db.now)
  }

  predicate HasCompetitor(db: Db, c: CampaignId)
    requires c in db.campaigns
  {
    exists d :: d in db.campaigns && Competes(db, c, d)
  }

  function BatchSize(db: Db, c: CampaignId): nat
    requires c in db.campaigns
  {
    EffectiveBatchSize(db.campaigns[c].batchSize, db.env.batchSize, db.env.maxBatchSize)
  }

  predicate Due(db: Db, c: CampaignId, r: RowId) {
    && r in db.rows && r.campaign == c && db.rows[r].status.Pending?
    && (db.rows[r].nextAttemptAt.Some? ==> db.rows[r].nextAttemptAt.value <= db.now)
  }

  function Selected(db: Db, c: CampaignId): seq<RowId>
    requires c in db.campaigns
  {
    Take(Keep(db.order, (r: RowId) => Due(db, c, r)), BatchSize(db, c))
  }

  // One iteration of the dispatch loop; a row whose enqueue fails stays PENDING.
  function QueueOne(db: Db, r: RowId, refused: set<RowId>): Db {
    if r in db.rows && r !in refused && db.rows[r].status.Pending?
    then UpdateRow(db, r, db.rows[r].(status := R.Queued))
    else db
  }

  function QueueBatch(db: Db, batch: seq<RowId>, refused: set<RowId>): Db {
    if batch == [] then db
    else QueueOne(QueueBatch(db, batch[..|batch| - 1], refused), batch[|batch| - 1], refused)
  }

  function MarkStarted(db: Db, c: CampaignId, startedAt: Option<nat>): Db
    requires c in db.campaigns
  {
    SetCampaign(db, c, db.campaigns[c].(status := C.Running,
                                        startedAt := if startedAt.Some? then startedAt else Some(db.now)))
  }

  predicate MayDispatch(db: Db, c: CampaignId) {
    && c in db.campaigns && C.Active(db.campaigns[c].status)
    && !HasCompetitor(db, c)
    && RowsWith(db, c, R.InFlight) == {}
    && Selected(db, c) != []
  }

  /** `dispatchCampaign` */
  function Dispatch(db: Db, c: CampaignId, refused: set<RowId>): Db {
    if !MayDispatch(db, c) then db
    else
      var queued := QueueBatch(db, Selected(db, c), refused);
      QueueKeepsCampaigns(db, Selected(db, c), refused);
      MarkStarted(queued, c, db.campaigns[c].startedAt)
  }

  lemma {:induction false} QueueKeepsCampaigns(db: Db, batch: seq<RowId>, refused: set<RowId>)
    ensures var queued := QueueBatch(db, batch, refused);
            queued.(rows := db.rows, latest := db.latest) == db
    decreases |batch|
  {
    if batch != [] {
      QueueKeepsCampaigns(db, batch[..|batch| - 1], refused);
    }
  }

  /** The campaigns that one `dispatchActiveCampaigns` pass picks from its ordered list: the first of each phone. */
  function FirstPerPhone(queue: seq<(CampaignId, PhoneId)>): seq<CampaignId> {
    if queue == [] then []
    else
      var n := |queue| - 1;
      FirstPerPhone(queue[..n])
      + (if exists i :: 0 <= i < n && queue[i].1 == queue[n].1 then [] else [queue[n].0])
  }

  function DispatchEach(db: Db, chosen: seq<CampaignId>, refused: set<RowId>): Db {
    if chosen == [] then db
    else Dispatch(DispatchEach(db, chosen[..|chosen| - 1], refused), chosen[|chosen| - 1], refused)
  }

  // ---------------------------------------------------------------------------------------------
  // campaign-control.service.js
  // ---------------------------------------------------------------------------------------------

  predicate HasOtherActive(db: Db, c: CampaignId)
    requires c in db.campaigns
  {
    exists d :: d in db.campaigns && d != c && db.campaigns[d].phone == db.campaigns[c].phone
        && C.Active(db.campaigns[d].status)
  }

  function ValueOr(own: Option<nat>, fallback: nat): nat {
    if own.Some? then own.value else fallback
  }

  /** `assertStartable`: the error that refuses a start or a resume, or None. */
  function StartRefusal(db: Db, c: CampaignId, templateUsable: bool): Option<Response>
    requires c in db.campaigns
  {
    var campaign := db.campaigns[c];
    if !templateUsable || campaign.eligibleCount < 1 then Some(BadRequest)
    else if !Safe(PhoneOf(db, campaign.phone)) then Some(Conflict)
    else if HasOtherActive(db, c) then Some(Conflict)
    else if ValueOr(campaign.ratePerMinute, 0) > db.settings.maxPerMinute
            || ValueOr(campaign.batchSize, 0) > db.settings.maxBatchSize
            || ValueOr(campaign.batchDelayMs, 0) < db.settings.minBatchDelayMs then Some(BadRequest)
    else None
  }

  // `getPhoneSafety` creates the row of a phone that is not known yet.
  function EnsurePhone(db: Db, p: PhoneId): Db {
    if p in db.phones then db else db.(phones := db.phones[p := NEW_PHONE])
  }

  function Startable(status: C.Status): bool {
    status.Ready? || status.Scheduled? || status.Draft?
  }

  function StartResponse(db: Db, c: CampaignId, templateUsable: bool): Response {
    if c !in db.campaigns then NotFound
    else if !Startable(db.campaigns[c].status) then Conflict
    else if StartRefusal(db, c, templateUsable).Some? then StartRefusal(db, c, templateUsable).value
    else Done
  }

  /** `startCampaign` */
  function Start(db: Db, c: CampaignId, templateUsable: bool, refused: set<RowId>): Db {
    if !StartResponse(db, c, templateUsable).Done? then db
    else Dispatch(MarkStarted(EnsurePhone(db, db.campaigns[c].phone), c, db.campaigns[c].startedAt), c, refused)
  }

  /** The administrator's `pauseCampaign` */
  function Pause(db: Db, c: CampaignId): Db {
    PauseOne(db, c)
  }

  function ResumeResponse(db: Db, c: CampaignId, templateUsable: bool): Response {
    if c !in db.campaigns then NotFound
    else if !db.campaigns[c].status.Paused? then Conflict
    else if StartRefusal(db, c, templateUsable).Some? then StartRefusal(db, c, templateUsable).value
    else Done
  }

  // The recipient and campaign writes of a resume, before it dispatches.
  function Reopen(db: Db, c: CampaignId): Db
    requires c in db.campaigns
  {
    SetStatus(UpdateRows(EnsurePhone(db, db.campaigns[c].phone),
                         (r: RowId) => r in db.rows && r.campaign == c && db.rows[r].status.Queued?, R.Pending),
              c, C.Running)
  }

  /** `resumeCampaign`, which does not touch `startedAt` */
  function Resume(db: Db, c: CampaignId, templateUsable: bool, refused: set<RowId>): Db {
    if !ResumeResponse(db, c, templateUsable).Done? then db
    else Dispatch(Reopen(db, c), c, refused)
  }

  function CancelResponse(db: Db, c: CampaignId): Response {
    if c !in db.campaigns then NotFound
    else if db.campaigns[c].status.Completed? || db.campaigns[c].status.Failed? || db.campaigns[c].status.Cancelled?
        then Conflict
    else Done
  }

  /** `cancelCampaign` */
  function Cancel(db: Db, c: CampaignId): Db {
    if !CancelResponse(db, c).Done? then db
    else
      Refresh(SetStatus(UpdateRows(db, (r: RowId) => r in db.rows && r.campaign == c && R.Waiting(db.rows[r].status),
                                   R.Cancelled),
                        c, C.Cancelled), c)
  }

  // ---------------------------------------------------------------------------------------------
  // Customers, webhooks, administrators, preparation
  // ---------------------------------------------------------------------------------------------

  /** `applyInboundOptOut` and the opt-out branch of `updatePreferences` */
  function OptOut(db: Db, customer: CustomerId): Db {
    UpdateRows(db, (r: RowId) => r in db.rows && db.rows[r].customer == customer && R.Waiting(db.rows[r].status),
               R.Cancelled)
  }

  /** The recipient part of `processStatus`, for a message found by its provider id. */
  function StatusWebhook(db: Db, message: MessageId, status: R.Status): Db {
    if message !in db.messages || db.messages[message].providerId.None? || !R.Attempted(status) then db
    else
      var c := db.messages[message].campaign;
      var hit := (r: RowId) => r in db.rows && r.campaign == c && db.rows[r].message == Some(message);
      var updated := UpdateRows(db, hit, status);
      Refresh(if status.Failed? then EvaluateAutoPause(updated, c) else updated, c)
  }

  /** The phone part of `updateCampaignSafety` */
  function SetPhone(db: Db, p: PhoneId, state: PhoneState): Db {
    var updated := db.(phones := db.phones[p := state]);
    if Safe(state) then updated else PauseOnPhone(updated, p)
  }

  /** The campaign row that `sendBulkTemplate` inserts. */
  function CreateCampaign(db: Db, c: CampaignId, p: PhoneId, rate: nat, batchSize: nat, batchDelay: nat): Db {
    if c in db.campaigns then db
    else SetCampaign(EnsurePhone(db, p), c,
                     Campaign(C.Queued, p, None, 0, NO_COUNTS, Some(rate), Some(batchSize), Some(batchDelay)))
  }

  // The items as the eligibility check sees them: with the stored state of the campaign's phone.
  function OnPhone(items: seq<P.Item>, phone: PhoneState): seq<P.Item> {
    seq(|items|, i requires 0 <= i < |items| => items[i].(facts := items[i].facts.(phone := phone)))
  }

  function RecipientOf(row: P.Prepared): Recipient {
    Recipient(row.customer, if row.status.Pending? then R.Pending else R.Skipped, None, None, 0, None)
  }

  function PreparedRecipients(c: CampaignId, rows: map<P.DebtId, P.Prepared>): map<RowId, Recipient> {
    map d | d in rows :: RowId(c, d) := RecipientOf(rows[d])
  }

  // The keys of the inserted rows, each once, in the order of insertion.
  function Inserted(c: CampaignId, items: seq<P.Item>): seq<RowId> {
    if items == [] then []
    else
      var n := |items| - 1;
      var before := Inserted(c, items[..n]);
      if RowId(c, items[n].debt) in before then before else before + [RowId(c, items[n].debt)]
  }

  predicate MayPrepare(db: Db, c: CampaignId) {
    && c in db.campaigns && (db.campaigns[c].status.Queued? || db.campaigns[c].status.Preparing?)
    && forall r :: r in db.rows ==> r.campaign != c
  }

  /** One completed `processCampaignPreparation` of a campaign that has no rows yet. */
  function Prepare(db: Db, c: CampaignId, items: seq<P.Item>): Db {
    if !MayPrepare(db, c) then db
    else
      var seenItems := OnPhone(items, PhoneOf(db, db.campaigns[c].phone));
      var prepared := P.PreparedRows(seenItems);
      var pending := |P.PendingRows(prepared)|;
      var keys := Inserted(c, seenItems);
      SetCampaign(db.(rows := db.rows + PreparedRecipients(c, prepared), order := db.order + keys,
                      latest := keys + db.latest),
                  c,
                  db.campaigns[c].(status := if pending > 0 then C.Scheduled else C.Failed, eligibleCount := pending))
  }

  // ---------------------------------------------------------------------------------------------
  // Runs
  // ---------------------------------------------------------------------------------------------

  datatype Action =
    | ACreate(c: CampaignId, phone: PhoneId, rate: nat, batchSize: nat, batchDelay: nat)
    | APrepare(c: CampaignId, items: seq<P.Item>)
    | AStart(c: CampaignId, templateUsable: bool, refused: set<RowId>)
    | APause(c: CampaignId)
    | AResume(c: CampaignId, templateUsable: bool, refused: set<RowId>)
    | ACancel(c: CampaignId)
    | ADispatch(c: CampaignId, refused: set<RowId>)
    | AClaim(row: RowId)
    | AFinish(row: RowId, result: SendResult)
    | ADie(row: RowId)                       // the worker dies during the provider call
    | AWebhook(message: MessageId, delivery: R.Status)
    | AOptOut(customer: CustomerId)
    | ASetPhone(phone: PhoneId, state: PhoneState)
    | ASettings(settings: Settings)
    | ARefresh(c: CampaignId)
    | ATick(ms: nat)

  function Step(db: Db, a: Action): Db {
    match a
    case ACreate(c, phone, rate, batchSize, batchDelay) => CreateCampaign(db, c, phone, rate, batchSize, batchDelay)
    case APrepare(c, items) => Prepare(db, c, items)
    case AStart(c, templateUsable, refused) => Start(db, c, templateUsable, refused)
    case APause(c) => Pause(db, c)
    case AResume(c, templateUsable, refused) => Resume(db, c, templateUsable, refused)
    case ACancel(c) => Cancel(db, c)
    case ADispatch(c, refused) => Dispatch(db, c, refused)
    case AClaim(r) => ClaimRecipient(db, r)
    case AFinish(r, result) => FinishSend(db, r, result)
    case ADie(r) => db.(sending := db.sending - {r})
    case AWebhook(message, status) => StatusWebhook(db, message, status)
    case AOptOut(customer) => OptOut(db, customer)
    case ASetPhone(p, state) => SetPhone(db, p, state)
    case ASettings(settings) => db.(settings := settings)
    case ARefresh(c) => Refresh(db, c)
    case ATick(ms) => db.(now := db.now + ms)
  }

  function Run(db: Db, actions: seq<Action>): Db
    decreases |actions|
  {
    if actions == [] then db else Run(Step(db, actions[0]), actions[1..])
  }

  function Empty(env: Env, settings: Settings): Db {
    Db(env, settings, 0, map[], map[], [], [], map[], map[], map[])
  }
}
