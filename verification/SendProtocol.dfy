// The campaign delivery protocol, one action per database statement or transaction.
//
// A worker runs `processCampaignRecipient` for one recipient row. Between any two of its statements every
// other actor may act: other workers on the same row (a redelivered job), dispatchers that still hold an
// old list of recipient ids, admins, customers opting out, status webhooks, and crashes. A run is any
// sequence of actions; an action whose guard does not hold changes nothing.
//
// `Tally` is history: it counts what happened to a row and no action reads it.

module SendProtocol {
  import opened Options
  import opened CampaignErrors
  import R = RecipientStatus
  import C = CampaignStatus

  type CampaignId = nat
  type RowId = nat
  type CustomerId = nat
  type WorkerId = nat
  type MessageId = nat
  type ProviderId = nat  // an id that the provider gives to an accepted message

  /** History of one row: calls made to the provider, calls it accepted, and accepted calls whose provider id
      was lost, either because the recording transaction aborted or because the recorded id was null and the
      row was then put back by the catch block. */
  datatype Tally = Tally(calls: nat, accepts: nat, lost: nat)

  const NO_HISTORY := Tally(0, 0, 0)

  datatype Row = Row(
    campaign: CampaignId,
    customer: CustomerId,
    status: R.Status,
    providerId: Option<ProviderId>,
    message: Option<MessageId>,
    attemptCount: nat,
    tally: Tally)

  datatype Message = Message(campaign: CampaignId, providerId: Option<ProviderId>)

  /** Where a worker stands: the statement it is about to execute. */
  datatype Stage =
    | MarkCancelled                          // the unguarded CANCELLED write
    | Unqueue                                // the guarded QUEUED to PENDING write
    | Claiming                               // the guarded claim
    | Claimed                                // the fresh campaign read
    | Releasing(target: R.Status)            // the unguarded release of the claim
    | Calling                                // the provider call
    | Accepted(answer: Option<ProviderId>)   // the recording transaction
    | Recorded                               // the count refresh after the commit
    | Failing(category: Category)            // the catch block's write
    | Crashed(claimed: bool)                 // the process died

  datatype Worker = Worker(campaign: CampaignId, row: RowId, attemptsSeen: nat, stage: Stage)

  datatype State = State(
    attempts: nat,                           // CAMPAIGN_SEND_ATTEMPTS
    campaigns: map<CampaignId, C.Status>,
    everCancelled: set<CampaignId>,          // history: campaigns that a cancel transaction has hit
    rows: map<RowId, Row>,
    messages: map<MessageId, Message>,
    workers: map<WorkerId, Worker>)

  datatype Action =
    // one send worker
    | Begin(worker: WorkerId, campaign: CampaignId, row: RowId)
    | WriteCancelled(worker: WorkerId)
    | WriteUnqueued(worker: WorkerId)
    | Claim(worker: WorkerId)
    | CheckFresh(worker: WorkerId)
    | Release(worker: WorkerId)
    | CallAccepted(worker: WorkerId, answer: Option<ProviderId>)
    | CallRejected(worker: WorkerId, category: Category)
    | Record(worker: WorkerId, message: MessageId)
    | RecordAborted(worker: WorkerId, category: Category)
    | RefreshDone(worker: WorkerId)
    | RefreshThrew(worker: WorkerId, category: Category)
    | Catch(worker: WorkerId)
    | Crash(worker: WorkerId)
    // everybody else
    | QueueRow(row: RowId)
    | UnqueueAll(campaign: CampaignId)
    | Cancel(campaign: CampaignId)
    | OptOut(customer: CustomerId)
    | StatusWebhook(message: MessageId, delivery: R.Status)
    | WriteCampaign(campaign: CampaignId, status: C.Status)
    | Prepare(campaign: CampaignId, rows: map<RowId, Row>)

  // ---------------------------------------------------------------------------------------------
  // One worker
  // ---------------------------------------------------------------------------------------------

  /** What a worker's statement leaves behind: the row, and the worker's next stage, or None when the job
      has returned. */
  datatype Outcome = Outcome(row: Row, stage: Option<Stage>)

  // The branches after `findUnique` (lines 115 to 121): the first write that the job will attempt.
  function FirstStage(row: Row, campaign: CampaignId, status: C.Status): Option<Stage> {
    if row.campaign != campaign || R.Terminal(row.status) then None
    else if C.Active(status) then Some(Claiming)
    else if status.Cancelled? then Some(MarkCancelled)
    else Some(Unqueue)
  }

  function ClaimOutcome(row: Row): Outcome {
    if row.status.Queued? && row.providerId.None?
    then Outcome(row.(status := R.Processing, attemptCount := row.attemptCount + 1), Some(Claimed))
    else Outcome(row, None)
  }

  function FreshStage(status: C.Status): Stage {
    if status.Running? then Calling
    else if status.Cancelled? then Releasing(R.Cancelled)
    else Releasing(R.Pending)
  }

  function RecordOutcome(row: Row, answer: Option<ProviderId>, message: MessageId): Outcome {
    Outcome(row.(status := R.Sent, providerId := answer, message := Some(message)), Some(Recorded))
  }

  // The count refresh after the commit threw, so control reaches the catch block with the row already sent.
  function RefreshThrewOutcome(row: Row, category: Category): Outcome {
    Outcome(if row.providerId.None? then Lose(row) else row, Some(Failing(category)))
  }

  function CatchOutcome(row: Row, attemptsSeen: nat, attempts: nat, category: Category): Outcome {
    if Retryable(category) && attemptsSeen + 1 < attempts
    then Outcome(row.(status := R.Queued), None)
    else Outcome(row.(status := R.Failed), None)
  }

  function Called(row: Row): Row {
    row.(tally := row.tally.(calls := row.tally.calls + 1))
  }

  function CalledAndAccepted(row: Row): Row {
    row.(tally := row.tally.(calls := row.tally.calls + 1, accepts := row.tally.accepts + 1))
  }

  function Lose(row: Row): Row {
    row.(tally := row.tally.(lost := row.tally.lost + 1))
  }

  /** A worker has claimed its row: it may still write to it, or died before doing so. */
  predicate Holds(stage: Stage) {
    stage.Claimed? || stage.Releasing? || stage.Calling? || stage.Accepted? || stage.Recorded? || stage.Failing?
    || (stage.Crashed? && stage.claimed)
  }

  predicate Live(stage: Stage) {
    !stage.Crashed?
  }

  /** The local effect of one statement of a worker on its own row. */
  function Local(s: State, w: WorkerId, a: Action): (o: Outcome)
    requires w in s.workers && s.workers[w].row in s.rows
  {
    var me := s.workers[w];
    var row := s.rows[me.row];
    var stay := Outcome(row, Some(me.stage));
    match a
    case WriteCancelled(_) =>
      if me.stage.MarkCancelled? then Outcome(row.(status := R.Cancelled), None) else stay
    case WriteUnqueued(_) =>
      if me.stage.Unqueue?
      then Outcome(if row.status.Queued? then row.(status := R.Pending) else row, None)
      else stay
    case Claim(_) =>
      if me.stage.Claiming? then ClaimOutcome(row) else stay
    case CheckFresh(_) =>
      if me.stage.Claimed? && me.campaign in s.campaigns
      then Outcome(row, Some(FreshStage(s.campaigns[me.campaign])))
      else stay
    case Release(_) =>
      if me.stage.Releasing? then Outcome(row.(status := me.stage.target), None) else stay
    case CallAccepted(_, answer) =>
      if me.stage.Calling? then Outcome(CalledAndAccepted(row), Some(Accepted(answer))) else stay
    case CallRejected(_, category) =>
      if me.stage.Calling? then Outcome(Called(row), Some(Failing(category))) else stay
    case Record(_, message) =>
      if me.stage.Accepted? && message !in s.messages then RecordOutcome(row, me.stage.answer, message)
      else stay
    case RecordAborted(_, category) =>
      if me.stage.Accepted? then Outcome(Lose(row), Some(Failing(category))) else stay
    case RefreshDone(_) =>
      if me.stage.Recorded? then Outcome(row, None) else stay
    case RefreshThrew(_, category) =>
      if me.stage.Recorded? then RefreshThrewOutcome(row, category) else stay
    case Catch(_) =>
      if me.stage.Failing? then CatchOutcome(row, me.attemptsSeen, s.attempts, me.stage.category) else stay
    case Crash(_) =>
      if Live(me.stage) then Outcome(row, Some(Crashed(Holds(me.stage)))) else stay
    case _ => stay
  }

  function Put(s: State, w: WorkerId, o: Outcome): State
    requires w in s.workers
  {
    var me := s.workers[w];
    s.(rows := s.rows[me.row := o.row],
       workers := match o.stage
                  case Some(stage) => s.workers[w := me.(stage := stage)]
                  case None => s.workers - {w})
  }

  predicate IsWorkerAction(a: Action) {
    a.WriteCancelled? || a.WriteUnqueued? || a.Claim? || a.CheckFresh? || a.Release? || a.CallAccepted?
    || a.CallRejected? || a.Record? || a.RecordAborted? || a.RefreshDone? || a.RefreshThrew? || a.Catch? || a.Crash?
  }

  function WorkerStep(s: State, a: Action): State
    requires IsWorkerAction(a)
  {
    var w := a.worker;
    if w !in s.workers || s.workers[w].row !in s.rows then s
    else
      var s' := Put(s, w, Local(s, w, a));
      if a.Record? && s.workers[w].stage.Accepted? && a.message !in s.messages
      then s'.(messages := s.messages[a.message := Message(s.workers[w].campaign, s.workers[w].stage.answer)])
      else s'
  }

  function BeginStep(s: State, w: WorkerId, campaign: CampaignId, id: RowId): State {
    if w in s.workers || id !in s.rows || campaign !in s.campaigns then s
    else
      match FirstStage(s.rows[id], campaign, s.campaigns[campaign])
      case None => s
      case Some(stage) => s.(workers := s.workers[w := Worker(campaign, id, s.rows[id].attemptCount, stage)])
  }

  // ---------------------------------------------------------------------------------------------
  // The other actors
  // ---------------------------------------------------------------------------------------------

  /** `updateMany`: every row that matches gets the new status. */
  function SetWhere(rows: map<RowId, Row>, matches: Row -> bool, status: R.Status): map<RowId, Row> {
    map r | r in rows :: if matches(rows[r]) then rows[r].(status := status) else rows[r]
  }

  function CancelStep(s: State, campaign: CampaignId): State {
    if campaign !in s.campaigns then s
    else s.(campaigns := s.campaigns[campaign := C.Cancelled],
            everCancelled := s.everCancelled + {campaign},
            rows := SetWhere(s.rows, (row: Row) => row.campaign == campaign && R.Waiting(row.status), R.Cancelled))
  }

  function OptOutStep(s: State, customer: CustomerId): State {
    s.(rows := SetWhere(s.rows, (row: Row) => row.customer == customer && R.Waiting(row.status), R.Cancelled))
  }

  function UnqueueStep(s: State, campaign: CampaignId): State {
    s.(rows := SetWhere(s.rows, (row: Row) => row.campaign == campaign && row.status.Queued?, R.Pending))
  }

  function QueueStep(s: State, id: RowId): State {
    if id in s.rows && s.rows[id].status.Pending?
    then s.(rows := s.rows[id := s.rows[id].(status := R.Queued)])
    else s
  }

  // A status notification is looked up by provider id, so it never reaches a message stored without one.
  function WebhookStep(s: State, message: MessageId, status: R.Status): State {
    if message in s.messages && s.messages[message].providerId.Some? && R.Attempted(status)
    then s.(rows := SetWhere(s.rows,
                             (row: Row) => row.campaign == s.messages[message].campaign && row.message == Some(message),
                             status))
    else s
  }

  // Any other write of a campaign's status: start, pause, resume, automatic pause, dispatch and count refresh,
  // several of which write back a value derived from an earlier read. CANCELLED is only ever written back.
  function CampaignStep(s: State, campaign: CampaignId, status: C.Status): State {
    if campaign in s.campaigns && (status.Cancelled? ==> campaign in s.everCancelled)
    then s.(campaigns := s.campaigns[campaign := status])
    else s
  }

  predicate Fresh(row: Row) {
    (row.status.Pending? || row.status.Skipped?)
    && row.providerId.None? && row.message.None? && row.attemptCount == 0 && row.tally == NO_HISTORY
  }

  // One completed preparation run of a new campaign.
  function PrepareStep(s: State, campaign: CampaignId, rows: map<RowId, Row>): State {
    if campaign !in s.campaigns && campaign !in s.everCancelled && rows.Keys !! s.rows.Keys
       && (forall r | r in rows :: rows[r].campaign == campaign && Fresh(rows[r]))
    then s.(campaigns := s.campaigns[campaign := C.Scheduled], rows := s.rows + rows)
    else s
  }

  function Step(s: State, a: Action): State {
    match a
    case Begin(w, campaign, row) => BeginStep(s, w, campaign, row)
    case QueueRow(row) => QueueStep(s, row)
    case UnqueueAll(campaign) => UnqueueStep(s, campaign)
    case Cancel(campaign) => CancelStep(s, campaign)
    case OptOut(customer) => OptOutStep(s, customer)
    case StatusWebhook(message, status) => WebhookStep(s, message, status)
    case WriteCampaign(campaign, status) => CampaignStep(s, campaign, status)
    case Prepare(campaign, rows) => PrepareStep(s, campaign, rows)
    case _ => WorkerStep(s, a)
  }

  function Run(s: State, actions: seq<Action>): State
    decreases |actions|
  {
    if actions == [] then s else Run(Step(s, actions[0]), actions[1..])
  }

  function Empty(attempts: nat): State {
    State(attempts, map[], {}, map[], map[], map[])
  }

  lemma {:induction false} RunAppend(s: State, before: seq<Action>, after: seq<Action>)
    ensures Run(s, before + after) == Run(Run(s, before), after)
    decreases |before|
  {
    if before == [] {
      assert before + after == after;
    } else {
      assert (before + after)[1..] == before[1..] + after;
      RunAppend(Step(s, before[0]), before[1..], after);
    }
  }
}
