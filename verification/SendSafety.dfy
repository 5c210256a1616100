// At most one accepted send per recipient, over every interleaving of the protocol's actions.

module SendSafety {
  import opened Options
  import opened SendProtocol
  import R = RecipientStatus
  import C = CampaignStatus

  // ---------------------------------------------------------------------------------------------
  // The invariant
  // ---------------------------------------------------------------------------------------------

  // Between the claim and the recording write.
  predicate BeforeRecording(stage: Stage) {
    stage.Claimed? || stage.Releasing? || stage.Calling? || stage.Accepted?
  }

  predicate HeldBy(s: State, w: WorkerId, r: RowId) {
    w in s.workers && s.workers[w].row == r && Holds(s.workers[w].stage)
  }

  predicate RowOk(row: Row) {
    && row.tally.accepts <= row.tally.lost + 1
    && row.tally.accepts <= row.tally.calls
    && (R.Waiting(row.status) && row.providerId.None? ==> row.tally.accepts <= row.tally.lost)
  }

  predicate HolderOk(stage: Stage, row: Row) {
    && (Holds(stage) ==> !R.Waiting(row.status))
    && (BeforeRecording(stage) ==> (row.status.Processing? || row.status.Cancelled?) && row.providerId.None?)
    && (stage.Claimed? || stage.Releasing? || stage.Calling? ==> row.tally.accepts <= row.tally.lost)
    && (stage.Failing? && row.providerId.None? ==> row.tally.accepts <= row.tally.lost)
    && (stage.Recorded? ==> !row.status.Processing?)
    && (stage.Releasing? ==> stage.target.Pending? || stage.target.Cancelled?)
  }

  ghost predicate Known(s: State) {
    && (forall w :: w in s.workers ==>
          && s.workers[w].row in s.rows
          && s.rows[s.workers[w].row].campaign == s.workers[w].campaign)
    && (forall r :: r in s.rows ==> s.rows[r].campaign in s.campaigns)
  }

  ghost predicate RowsOk(s: State) {
    forall r :: r in s.rows ==> RowOk(s.rows[r])
  }

  ghost predicate HoldersOk(s: State)
    requires Known(s)
  {
    forall w :: w in s.workers ==> HolderOk(s.workers[w].stage, s.rows[s.workers[w].row])
  }

  ghost predicate OneHolder(s: State) {
    forall v, w, r :: HeldBy(s, v, r) && HeldBy(s, w, r) ==> v == w
  }

  ghost predicate ProcessingHeld(s: State) {
    forall r :: r in s.rows && s.rows[r].status.Processing? ==> exists w :: HeldBy(s, w, r)
  }

  // The provider id and the message id of a row were written together, with the message row itself.
  ghost predicate MessagesOk(s: State) {
    forall r :: r in s.rows ==>
      match s.rows[r].message
      case Some(m) =>
        m in s.messages && s.messages[m].providerId == s.rows[r].providerId
      case None => s.rows[r].providerId.None?
  }

  ghost predicate Inv(s: State) {
    && Known(s)
    && RowsOk(s)
    && HoldersOk(s)
    && OneHolder(s)
    && ProcessingHeld(s)
    && MessagesOk(s)
  }

  // ---------------------------------------------------------------------------------------------
  // Worker statements
  // ---------------------------------------------------------------------------------------------

  /** What a statement of worker `w` may do to its row without disturbing other workers on the same row. */
  predicate PutOk(me: Worker, row: Row, o: Outcome) {
    && o.row.campaign == row.campaign
    && RowOk(o.row)
    && (Holds(me.stage) || row.status.Queued? || o.row == row || o.row == row.(status := R.Cancelled))
    && (match o.stage
        case Some(stage) =>
          && HolderOk(stage, o.row)
          && (Holds(stage) ==> Holds(me.stage) || row.status.Queued?)
          && (Holds(me.stage) ==> Holds(stage))
        case None => true)
    && (o.row.status.Processing? ==>
          (o.stage.Some? && Holds(o.stage.value)) || (row.status.Processing? && !Holds(me.stage)))
  }

  // A worker's statement writes its own row and moves on; the tables of the others stay.
  lemma WorkerWrites(s: State, a: Action)
    requires Known(s) && IsWorkerAction(a) && a.worker in s.workers
    ensures var me := s.workers[a.worker];
            var o := Local(s, a.worker, a);
            && Step(s, a) == WorkerStep(s, a)
            && WorkerStep(s, a).rows == s.rows[me.row := o.row]
            && WorkerStep(s, a).workers == Put(s, a.worker, o).workers
            && WorkerStep(s, a).workers == (match o.stage
                                            case Some(stage) => s.workers[a.worker := me.(stage := stage)]
                                            case None => s.workers - {a.worker})
            && WorkerStep(s, a).campaigns == s.campaigns && WorkerStep(s, a).everCancelled == s.everCancelled
            && WorkerStep(s, a).attempts == s.attempts
  {
    hide Local;
  }

  lemma LocalKeepsIdentity(s: State, w: WorkerId, a: Action)
    requires w in s.workers && s.workers[w].row in s.rows && IsWorkerAction(a)
    ensures var row, row' := s.rows[s.workers[w].row], Local(s, w, a).row;
            row'.campaign == row.campaign && row'.customer == row.customer
  {}

  lemma LocalIsPutOk(s: State, w: WorkerId, a: Action)
    requires Inv(s) && w in s.workers && IsWorkerAction(a)
    ensures PutOk(s.workers[w], s.rows[s.workers[w].row], Local(s, w, a))
  {
    var me := s.workers[w];
    var row := s.rows[me.row];
    assert RowOk(row);
    assert HolderOk(me.stage, row);
    if !Holds(me.stage) && row.status.Processing? {
      var v :| HeldBy(s, v, me.row);
    }
  }

  lemma PutKeepsWorkers(s: State, w: WorkerId, o: Outcome)
    requires Inv(s) && w in s.workers && PutOk(s.workers[w], s.rows[s.workers[w].row], o)
    ensures var s' := Put(s, w, o);
            Known(s') && RowsOk(s') && HoldersOk(s') && OneHolder(s')
  {
    var s' := Put(s, w, o);
    var me := s.workers[w];
    var row := s.rows[me.row];
    assert RowOk(row);
    assert Known(s');
    assert Holds(me.stage) ==> HeldBy(s, w, me.row);
    forall v | HeldBy(s, v, me.row) ensures !R.Waiting(row.status) {
      assert HolderOk(s.workers[v].stage, row);
    }
    forall v, x, r | HeldBy(s', v, r) && HeldBy(s', x, r)
      ensures v == x
    {
      assert v != w ==> HeldBy(s, v, r);
      assert x != w ==> HeldBy(s, x, r);
    }
    forall v | v in s'.workers
      ensures HolderOk(s'.workers[v].stage, s'.rows[s'.workers[v].row])
    {
      if v != w {
        assert HolderOk(s.workers[v].stage, s.rows[s.workers[v].row]);
        if s.workers[v].row == me.row && Holds(s.workers[v].stage) {
          assert HeldBy(s, v, me.row) && !HeldBy(s, w, me.row);
        }
      }
    }
  }

  lemma PutKeepsProcessing(s: State, w: WorkerId, o: Outcome)
    requires Inv(s) && w in s.workers && PutOk(s.workers[w], s.rows[s.workers[w].row], o)
    ensures ProcessingHeld(Put(s, w, o))
  {
    var s' := Put(s, w, o);
    var me := s.workers[w];
    forall r | r in s'.rows && s'.rows[r].status.Processing?
      ensures exists v :: HeldBy(s', v, r)
    {
      if r == me.row && o.stage.Some? && Holds(o.stage.value) {
        assert HeldBy(s', w, r);
      } else {
        var v :| HeldBy(s, v, r);
        assert HeldBy(s', v, r);
      }
    }
  }

  lemma MessagesKept(s: State, a: Action)
    requires Inv(s) && IsWorkerAction(a)
    ensures MessagesOk(WorkerStep(s, a))
  {
    var s' := WorkerStep(s, a);
    if a.worker in s.workers {
      var me := s.workers[a.worker];
      forall r | r in s'.rows
        ensures match s'.rows[r].message
                case Some(m) => m in s'.messages && s'.messages[m].providerId == s'.rows[r].providerId
                case None => s'.rows[r].providerId.None?
      {
        if r == me.row && a.Record? && me.stage.Accepted? && a.message !in s.messages {
        } else {
          assert s'.rows[r].message == s.rows[r].message && s'.rows[r].providerId == s.rows[r].providerId;
        }
      }
    }
  }

  lemma MessageTableIsSeparate(s: State, messages: map<MessageId, Message>)
    requires Known(s) && RowsOk(s) && HoldersOk(s) && OneHolder(s) && ProcessingHeld(s)
    ensures var s' := s.(messages := messages);
            Known(s') && RowsOk(s') && HoldersOk(s') && OneHolder(s') && ProcessingHeld(s')
  {
    var s' := s.(messages := messages);
    forall w, r ensures HeldBy(s', w, r) == HeldBy(s, w, r) {}
    forall r | r in s'.rows && s'.rows[r].status.Processing?
      ensures exists w :: HeldBy(s', w, r)
    {
      var w :| HeldBy(s, w, r);
      assert HeldBy(s', w, r);
    }
  }

  lemma WorkerStepKeeps(s: State, a: Action)
    requires Inv(s) && IsWorkerAction(a)
    ensures Inv(WorkerStep(s, a))
  {
    var w := a.worker;
    if w in s.workers {
      var o := Local(s, w, a);
      LocalIsPutOk(s, w, a);
      PutKeepsWorkers(s, w, o);
      PutKeepsProcessing(s, w, o);
      MessagesKept(s, a);
      MessageTableIsSeparate(Put(s, w, o), WorkerStep(s, a).messages);
      assert WorkerStep(s, a) == Put(s, w, o).(messages := WorkerStep(s, a).messages);
    }
  }

  // ---------------------------------------------------------------------------------------------
  // Everybody else
  // ---------------------------------------------------------------------------------------------

  /** What an actor that is not a worker may do to one row: move it out of PENDING or QUEUED, move it between
      the two, or overwrite a row that the provider has already accepted with a known id. */
  predicate OutsideChange(before: Row, after: Row) {
    || after == before
    || (R.Waiting(before.status) && after == before.(status := R.Cancelled))
    || (before.status.Pending? && after == before.(status := R.Queued))
    || (before.status.Queued? && after == before.(status := R.Pending))
    || (before.providerId.Some? && R.Attempted(after.status) && after == before.(status := after.status))
  }

  predicate IsOutside(a: Action) {
    a.QueueRow? || a.UnqueueAll? || a.Cancel? || a.OptOut? || a.StatusWebhook? || a.WriteCampaign?
  }

  ghost predicate Outside(s: State, s': State) {
    && s'.workers == s.workers && s'.messages == s.messages && s'.attempts == s.attempts
    && s'.rows.Keys == s.rows.Keys
    && s'.campaigns.Keys == s.campaigns.Keys
    && forall r :: r in s.rows ==> OutsideChange(s.rows[r], s'.rows[r])
  }

  lemma OutsideFootprint(s: State, a: Action)
    requires MessagesOk(s) && IsOutside(a)
    ensures Outside(s, Step(s, a))
  {
    hide MessagesOk, Outside, QueueStep, UnqueueStep, CancelStep, OptOutStep, WebhookStep, CampaignStep;
    match a
    case QueueRow(row) => QueueFootprint(s, row);
    case UnqueueAll(campaign) => UnqueueFootprint(s, campaign);
    case Cancel(campaign) => CancelFootprint(s, campaign);
    case OptOut(customer) => OptOutFootprint(s, customer);
    case StatusWebhook(message, status) => WebhookFootprint(s, message, status);
    case WriteCampaign(campaign, status) => CampaignFootprint(s, campaign, status);
  }

  lemma QueueFootprint(s: State, r: RowId)
    ensures Outside(s, QueueStep(s, r))
  {}

  lemma UnqueueFootprint(s: State, campaign: CampaignId)
    ensures Outside(s, UnqueueStep(s, campaign))
  {}

  lemma CancelFootprint(s: State, campaign: CampaignId)
    ensures Outside(s, CancelStep(s, campaign))
  {}

  lemma OptOutFootprint(s: State, customer: CustomerId)
    ensures Outside(s, OptOutStep(s, customer))
  {}

  lemma WebhookFootprint(s: State, message: MessageId, status: R.Status)
    requires MessagesOk(s)
    ensures Outside(s, WebhookStep(s, message, status))
  {}

  lemma CampaignFootprint(s: State, campaign: CampaignId, status: C.Status)
    ensures Outside(s, CampaignStep(s, campaign, status))
  {}

  lemma WorkerAddsNothing(s: State, a: Action)
    requires Known(s) && IsWorkerAction(a)
    ensures WorkerStep(s, a).rows.Keys == s.rows.Keys
  {}

  /** No step takes a row away or gives it to another campaign or customer. */
  lemma StepKeepsIdentity(s: State, a: Action, r: RowId)
    requires Inv(s) && r in s.rows
    ensures r in Step(s, a).rows
    ensures Step(s, a).rows[r].campaign == s.rows[r].campaign && Step(s, a).rows[r].customer == s.rows[r].customer
  {
    hide Step, Local, HoldersOk, RowsOk, OneHolder, ProcessingHeld, MessagesOk;
    if IsWorkerAction(a) {
      WorkerKeepsIdentity(s, a, r);
    } else if IsOutside(a) {
      OutsideFootprint(s, a);
      assert OutsideChange(s.rows[r], Step(s, a).rows[r]);
    } else {
      NewcomersKeepIdentity(s, a, r);
    }
  }

  lemma WorkerKeepsIdentity(s: State, a: Action, r: RowId)
    requires Known(s) && r in s.rows && IsWorkerAction(a)
    ensures r in Step(s, a).rows
    ensures Step(s, a).rows[r].campaign == s.rows[r].campaign && Step(s, a).rows[r].customer == s.rows[r].customer
  {
    if a.worker in s.workers {
      WorkerWrites(s, a);
      LocalKeepsIdentity(s, a.worker, a);
      hide Local, WorkerStep, Step;
    }
  }

  lemma NewcomersKeepIdentity(s: State, a: Action, r: RowId)
    requires r in s.rows && (a.Begin? || a.Prepare?)
    ensures r in Step(s, a).rows && Step(s, a).rows[r] == s.rows[r]
  {}

  lemma OutsideKeeps(s: State, s': State)
    requires Inv(s) && Outside(s, s')
    ensures Inv(s')
  {
    OutsideKeepsRows(s, s');
    OutsideKeepsProcessing(s, s');
    OutsideKeepsMessages(s, s');
    hide Known, Outside, RowsOk, HoldersOk, OneHolder, ProcessingHeld, MessagesOk;
  }

  lemma OutsideKeepsRows(s: State, s': State)
    requires Known(s) && RowsOk(s) && HoldersOk(s) && Outside(s, s')
    ensures Known(s') && RowsOk(s') && HoldersOk(s')
  {
    forall r | r in s'.rows ensures RowOk(s'.rows[r]) && s'.rows[r].campaign in s'.campaigns {
      assert RowOk(s.rows[r]) && OutsideChange(s.rows[r], s'.rows[r]);
    }
    forall w | w in s'.workers
      ensures s'.workers[w].row in s'.rows && s'.rows[s'.workers[w].row].campaign == s'.workers[w].campaign
      ensures HolderOk(s'.workers[w].stage, s'.rows[s'.workers[w].row])
    {
      assert HolderOk(s.workers[w].stage, s.rows[s.workers[w].row]);
      assert OutsideChange(s.rows[s.workers[w].row], s'.rows[s.workers[w].row]);
    }
  }

  lemma OutsideKeepsProcessing(s: State, s': State)
    requires OneHolder(s) && ProcessingHeld(s) && Outside(s, s')
    ensures OneHolder(s') && ProcessingHeld(s')
  {
    forall r | r in s'.rows && s'.rows[r].status.Processing? ensures s.rows[r].status.Processing? {
      assert OutsideChange(s.rows[r], s'.rows[r]);
    }
    MoreRowsKeepHolders(s, s');
  }

  lemma OutsideKeepsMessages(s: State, s': State)
    requires MessagesOk(s) && Outside(s, s')
    ensures MessagesOk(s')
  {
    forall r | r in s'.rows
      ensures s'.rows[r].message == s.rows[r].message && s'.rows[r].providerId == s.rows[r].providerId
    {
      assert OutsideChange(s.rows[r], s'.rows[r]);
    }
  }

  lemma BeginKeeps(s: State, w: WorkerId, campaign: CampaignId, r: RowId)
    requires Inv(s)
    ensures Inv(BeginStep(s, w, campaign, r))
  {
    var s' := BeginStep(s, w, campaign, r);
    if s' != s {
      forall v, x ensures HeldBy(s', v, x) == HeldBy(s, v, x) {}
      assert ProcessingHeld(s') by {
        forall x | x in s'.rows && s'.rows[x].status.Processing?
          ensures exists v :: HeldBy(s', v, x)
        {
          var v :| HeldBy(s, v, x);
          assert HeldBy(s', v, x);
        }
      }
    }
  }

  lemma PrepareKeeps(s: State, campaign: CampaignId, rows: map<RowId, Row>)
    requires Inv(s)
    ensures Inv(PrepareStep(s, campaign, rows))
  {
    var s' := PrepareStep(s, campaign, rows);
    if s' != s {
      PrepareAdds(s, campaign, rows);
      hide PrepareStep, HeldBy, Fresh, HolderOk;
      assert Known(s');
      MoreRowsKeepHolders(s, s');
    }
  }

  lemma PrepareAdds(s: State, campaign: CampaignId, rows: map<RowId, Row>)
    requires PrepareStep(s, campaign, rows) != s
    ensures var s' := PrepareStep(s, campaign, rows);
            && s'.workers == s.workers && s'.messages == s.messages && s.campaigns.Keys <= s'.campaigns.Keys
            && (forall r :: r in s.rows ==> r in s'.rows && s'.rows[r] == s.rows[r])
            && (forall r :: r in s'.rows && r !in s.rows ==>
                  && s'.rows[r].campaign in s'.campaigns && RowOk(s'.rows[r]) && !s'.rows[r].status.Processing?
                  && s'.rows[r].message.None? && s'.rows[r].providerId.None?)
  {}

  lemma MoreRowsKeepHolders(s: State, s': State)
    requires OneHolder(s) && ProcessingHeld(s) && s'.workers == s.workers
    requires forall r :: r in s'.rows && s'.rows[r].status.Processing? ==> r in s.rows && s.rows[r].status.Processing?
    ensures OneHolder(s') && ProcessingHeld(s')
  {
    forall v, x ensures HeldBy(s', v, x) == HeldBy(s, v, x) {}
    forall r | r in s'.rows && s'.rows[r].status.Processing?
      ensures exists v :: HeldBy(s', v, r)
    {
      var v :| HeldBy(s, v, r);
      assert HeldBy(s', v, r);
    }
  }

  lemma StepKeeps(s: State, a: Action)
    requires Inv(s)
    ensures Inv(Step(s, a))
  {
    if IsWorkerAction(a) {
      WorkerStepKeeps(s, a);
    } else if IsOutside(a) {
      OutsideFootprint(s, a);
      OutsideKeeps(s, Step(s, a));
    } else if a.Begin? {
      BeginKeeps(s, a.worker, a.campaign, a.row);
    } else {
      PrepareKeeps(s, a.campaign, a.rows);
    }
  }

  lemma {:induction false} RunKeeps(s: State, actions: seq<Action>)
    requires Inv(s)
    ensures Inv(Run(s, actions))
    decreases |actions|
  {
    if actions != [] {
      StepKeeps(s, actions[0]);
      RunKeeps(Step(s, actions[0]), actions[1..]);
    }
  }

  lemma ReachableIsSafe(attempts: nat, actions: seq<Action>)
    ensures Inv(Run(Empty(attempts), actions))
  {
    RunKeeps(Empty(attempts), actions);
  }

  // ---------------------------------------------------------------------------------------------
  // The main results
  // ---------------------------------------------------------------------------------------------

  /** In every run, the provider accepts a recipient at most once more than it had its accepted id lost. */
  lemma AcceptsBoundedByLosses(attempts: nat, actions: seq<Action>, r: RowId)
    requires r in Run(Empty(attempts), actions).rows
    ensures var t := Run(Empty(attempts), actions).rows[r].tally;
            t.accepts <= 1 + t.lost
  {
    ReachableIsSafe(attempts, actions);
    assert RowOk(Run(Empty(attempts), actions).rows[r]);
  }

  /** Every accepted call is recorded with an id, or its worker dies first. The count refresh after the commit
      may still throw. */
  predicate Recording(a: Action) {
    !a.RecordAborted? && (a.CallAccepted? ==> a.answer.Some?)
  }

  ghost predicate AllRecording(actions: seq<Action>) {
    forall i :: 0 <= i < |actions| ==> Recording(actions[i])
  }

  lemma AllRecordingAppend(before: seq<Action>, a: Action, after: seq<Action>)
    requires AllRecording(before) && Recording(a) && AllRecording(after)
    ensures AllRecording(before + [a] + after)
  {}

  ghost predicate NothingLost(s: State) {
    && (forall r :: r in s.rows ==> s.rows[r].tally.lost == 0)
    && (forall w :: w in s.workers ==>
          && (s.workers[w].stage.Accepted? ==> s.workers[w].stage.answer.Some?)
          && (s.workers[w].stage.Recorded? && s.workers[w].row in s.rows ==>
                s.rows[s.workers[w].row].providerId.Some?))
  }

  lemma LocalLosesNothing(s: State, u: WorkerId, a: Action)
    requires Recording(a) && IsWorkerAction(a) && u in s.workers && s.workers[u].row in s.rows
    requires KeepsIds(s.workers[u].stage, s.rows[s.workers[u].row])
    ensures var me := s.workers[u];
            var o := Local(s, u, a);
            && o.row.tally.lost == 0
            && (o.stage.Some? && o.stage.value.Accepted? ==> o.stage.value.answer.Some?)
            && (o.stage.Some? && o.stage.value.Recorded? ==> o.row.providerId.Some?)
            && (o.row.providerId == s.rows[me.row].providerId || Holds(me.stage))
  {}

  predicate KeepsIds(stage: Stage, row: Row) {
    row.tally.lost == 0 && (stage.Accepted? ==> stage.answer.Some?) && (stage.Recorded? ==> row.providerId.Some?)
  }

  lemma RecordingWorkerLosesNothing(s: State, a: Action)
    requires Inv(s) && NothingLost(s) && Recording(a) && IsWorkerAction(a)
    ensures NothingLost(WorkerStep(s, a))
  {
    var u := a.worker;
    if u in s.workers {
      assert KeepsIds(s.workers[u].stage, s.rows[s.workers[u].row]);
      LocalLosesNothing(s, u, a);
      WorkerWrites(s, a);
      hide Local, WorkerStep, Step, Inv, NothingLost;
      PutLosesNothing(s, u, Local(s, u, a), WorkerStep(s, a));
    }
  }

  lemma PutLosesNothing(s: State, u: WorkerId, o: Outcome, s': State)
    requires Inv(s) && NothingLost(s) && u in s.workers
    requires s'.rows == s.rows[s.workers[u].row := o.row] && s'.workers == Put(s, u, o).workers
    requires o.row.tally.lost == 0
    requires o.stage.Some? && o.stage.value.Accepted? ==> o.stage.value.answer.Some?
    requires o.stage.Some? && o.stage.value.Recorded? ==> o.row.providerId.Some?
    requires o.row.providerId == s.rows[s.workers[u].row].providerId || Holds(s.workers[u].stage)
    ensures NothingLost(s')
  {
    hide RowsOk, HoldersOk, ProcessingHeld, MessagesOk;
    var me := s.workers[u];
    forall w | w in s'.workers
      ensures s'.workers[w].stage.Accepted? ==> s'.workers[w].stage.answer.Some?
      ensures s'.workers[w].stage.Recorded? ==> s'.rows[s'.workers[w].row].providerId.Some?
    {
      if w != u && me.row == s.workers[w].row && Holds(me.stage) {
        assert HeldBy(s, u, me.row);
        assert !HeldBy(s, w, me.row);
      }
    }
  }

  lemma RecordingStepLosesNothing(s: State, a: Action)
    requires Inv(s) && NothingLost(s) && Recording(a)
    ensures NothingLost(Step(s, a))
  {
    if IsWorkerAction(a) {
      RecordingWorkerLosesNothing(s, a);
    } else if IsOutside(a) {
      OutsideFootprint(s, a);
      OutsideLosesNothing(s, Step(s, a));
    } else {
      NewcomersLoseNothing(s, a);
    }
    hide Inv, NothingLost;
  }

  lemma OutsideLosesNothing(s: State, s': State)
    requires NothingLost(s) && Outside(s, s')
    ensures NothingLost(s')
  {
    forall r | r in s'.rows
      ensures s'.rows[r].tally == s.rows[r].tally && s'.rows[r].providerId == s.rows[r].providerId
    {
      assert OutsideChange(s.rows[r], s'.rows[r]);
    }
  }

  lemma NewcomersLoseNothing(s: State, a: Action)
    requires Known(s) && NothingLost(s) && (a.Begin? || a.Prepare?)
    ensures NothingLost(Step(s, a))
  {}

  lemma {:induction false} RecordingRunLosesNothing(s: State, actions: seq<Action>)
    requires Inv(s) && NothingLost(s)
    requires AllRecording(actions)
    ensures NothingLost(Run(s, actions))
    decreases |actions|
  {
    if actions != [] {
      assert Recording(actions[0]);
      StepKeeps(s, actions[0]);
      RecordingStepLosesNothing(s, actions[0]);
      RecordingRunLosesNothing(Step(s, actions[0]), actions[1..]);
    }
  }

  /** At most once: no interleaving of workers, dispatchers, admins, opt-outs, webhooks and crashes sends a
      recipient twice, as long as every accepted id that is not lost to a crash is recorded. */
  lemma AtMostOnce(attempts: nat, actions: seq<Action>, r: RowId)
    requires AllRecording(actions)
    requires r in Run(Empty(attempts), actions).rows
    ensures Run(Empty(attempts), actions).rows[r].tally.accepts <= 1
  {
    RecordingRunLosesNothing(Empty(attempts), actions);
    AcceptsBoundedByLosses(attempts, actions, r);
  }

  /** Mutual exclusion: from its claim to its recording write a worker is alone on its row, and the row stays
      PROCESSING unless somebody marked it CANCELLED. */
  lemma ClaimIsExclusive(attempts: nat, actions: seq<Action>, w: WorkerId)
    requires var s := Run(Empty(attempts), actions); w in s.workers && BeforeRecording(s.workers[w].stage)
    ensures var s := Run(Empty(attempts), actions);
            var r := s.workers[w].row;
            && r in s.rows
            && (s.rows[r].status.Processing? || s.rows[r].status.Cancelled?)
            && (forall v :: v in s.workers && v != w && s.workers[v].row == r ==> !Holds(s.workers[v].stage))
  {
    var s := Run(Empty(attempts), actions);
    ReachableIsSafe(attempts, actions);
    var r := s.workers[w].row;
    assert HolderOk(s.workers[w].stage, s.rows[r]);
    assert HeldBy(s, w, r);
    assert forall v :: v in s.workers && v != w && s.workers[v].row == r ==>
           HeldBy(s, v, r) == Holds(s.workers[v].stage);
  }
}
