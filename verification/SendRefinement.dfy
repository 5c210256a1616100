// The two models of campaign delivery agree: a job whose statements nobody interrupts does to its row what the service
// call does, and so do the other actors.

module SendRefinement {
  import opened Options
  import opened CampaignErrors
  import opened SendProtocol
  import S = CampaignService
  import E = CampaignEffects
  import I = CampaignInvariants
  import Causes = RecipientCauses
  import R = RecipientStatus
  import C = CampaignStatus

  /** The statement level has the same row under this id, and the campaign with the same status. */
  ghost predicate SameRow(db: S.Db, r: S.RowId, s: State, id: RowId) {
    && r in db.rows && r.campaign in db.campaigns && id in s.rows && r.campaign in s.campaigns
    && s.campaigns[r.campaign] == db.campaigns[r.campaign].status && s.attempts == db.env.attempts
    && SameFields(db.rows[r], r.campaign, s.rows[id])
  }

  predicate SameFields(recipient: S.Recipient, campaign: CampaignId, row: Row) {
    && row.campaign == campaign && row.customer == recipient.customer && row.status == recipient.status
    && row.providerId == recipient.providerId && row.message == recipient.message
    && row.attemptCount == recipient.attemptCount
  }

  // ---------------------------------------------------------------------------------------------
  // Up to the provider call
  // ---------------------------------------------------------------------------------------------

  /** The statements that a job may execute before the provider call; those that do not apply change nothing. */
  function UpToCall(w: WorkerId, campaign: CampaignId, id: RowId): seq<Action> {
    [Begin(w, campaign, id), WriteCancelled(w), WriteUnqueued(w), Claim(w), CheckFresh(w), Release(w)]
  }

  lemma SixSteps(s: State, actions: seq<Action>)
    requires |actions| == 6
    ensures var s3 := Step(Step(Step(s, actions[0]), actions[1]), actions[2]);
            Run(s, actions) == Step(Step(Step(s3, actions[3]), actions[4]), actions[5])
  {
    hide Step;
    var s1 := Step(s, actions[0]);
    var s2 := Step(s1, actions[1]);
    var s3 := Step(s2, actions[2]);
    var s4 := Step(s3, actions[3]);
    var s5 := Step(s4, actions[4]);
    assert actions[1..][1..] == actions[2..] && actions[2..][1..] == actions[3..] && actions[3..][1..] == actions[4..];
    assert actions[4..][1..] == actions[5..] && actions[5..][1..] == [];
    assert Run(s5, actions[5..]) == Run(Step(s5, actions[5]), []);
    assert Run(s4, actions[4..]) == Run(s5, actions[5..]) && Run(s3, actions[3..]) == Run(s4, actions[4..]);
    assert Run(s2, actions[2..]) == Run(s3, actions[3..]) && Run(s1, actions[1..]) == Run(s2, actions[2..]);
  }

  lemma WorkerAlone(s: State, w: WorkerId, a: Action)
    requires IsWorkerAction(a) && a.worker == w
    ensures w in s.workers && s.workers[w].row in s.rows ==>
              var o := Local(s, w, a);
              var id := s.workers[w].row;
              && Step(s, a).rows == s.rows[id := o.row]
              && Step(s, a).workers == (match o.stage
                                        case Some(stage) => s.workers[w := s.workers[w].(stage := stage)]
                                        case None => s.workers - {w})
              && Step(s, a).campaigns == s.campaigns && Step(s, a).attempts == s.attempts
    ensures w !in s.workers ==> Step(s, a) == s
    ensures !a.Record? ==> Step(s, a).messages == s.messages
  {
    hide Local;
  }

  /** An uninterrupted job up to the provider call is the service level's claim: the same row, and it stands before the
      call exactly if the claim reaches it. */
  lemma ClaimAgrees(db: S.Db, r: S.RowId, s: State, id: RowId, w: WorkerId)
    requires SameRow(db, r, s, id) && r !in db.sending && w !in s.workers
    ensures var s', db' := Run(s, UpToCall(w, r.campaign, id)), S.ClaimRecipient(db, r);
            && id in s'.rows && r in db'.rows && SameFields(db'.rows[r], r.campaign, s'.rows[id])
            && (r in db'.sending <==> w in s'.workers && s'.workers[w].stage.Calling?)
            && (r in db'.sending ==> s'.workers[w].attemptsSeen == db'.sending[r])
  {
    Causes.ClaimedRow(db, r);
    E.ClaimExactly(db, r);
    ClaimStatements(s, id, w, r.campaign);
    hide Run, Step, S.ClaimRecipient;
  }

  lemma Begun(s: State, w: WorkerId, c: CampaignId, id: RowId)
    requires id in s.rows && c in s.campaigns && s.rows[id].campaign == c && w !in s.workers
    ensures Step(s, Begin(w, c, id))
         == match FirstStage(s.rows[id], c, s.campaigns[c])
            case None => s
            case Some(stage) => s.(workers := s.workers[w := Worker(c, id, s.rows[id].attemptCount, stage)])
  {}

  // A statement that does not apply to the worker, or finds it gone, changes nothing.
  lemma Passes(s: State, w: WorkerId, a: Action)
    requires a == WriteCancelled(w) || a == WriteUnqueued(w) || a == Claim(w) || a == CheckFresh(w) || a == Release(w)
    requires w in s.workers ==>
               && s.workers[w].row in s.rows
               && (a.WriteCancelled? ==> !s.workers[w].stage.MarkCancelled?)
               && (a.WriteUnqueued? ==> !s.workers[w].stage.Unqueue?)
               && (a.Claim? ==> !s.workers[w].stage.Claiming?)
               && (a.CheckFresh? ==> !s.workers[w].stage.Claimed?)
               && (a.Release? ==> !s.workers[w].stage.Releasing?)
    ensures Step(s, a).rows == s.rows && Step(s, a).workers == s.workers && Step(s, a).campaigns == s.campaigns
  {
    WorkerAlone(s, w, a);
    hide Step;
  }

  // The job writes at most once, and never claims.
  lemma WithoutClaim(s: State, w: WorkerId, id: RowId, s': State)
    requires id in s.rows && (w in s.workers ==> s.workers[w].row == id)
    requires w in s.workers ==> s.workers[w].stage.MarkCancelled? || s.workers[w].stage.Unqueue?
    requires s'
             == Step(Step(Step(Step(Step(s, WriteCancelled(w)), WriteUnqueued(w)), Claim(w)), CheckFresh(w)),
                     Release(w))
    ensures w !in s'.workers && id in s'.rows
    ensures s'.rows[id] ==
              if w !in s.workers then s.rows[id]
              else if s.workers[w].stage.MarkCancelled? then s.rows[id].(status := R.Cancelled)
              else if s.rows[id].status.Queued? then s.rows[id].(status := R.Pending)
              else s.rows[id]
  {
    var s1 := Step(s, WriteCancelled(w));
    var s2 := Step(s1, WriteUnqueued(w));
    var s3 := Step(s2, Claim(w));
    var s4 := Step(s3, CheckFresh(w));
    WorkerAlone(s, w, WriteCancelled(w));
    WorkerAlone(s1, w, WriteUnqueued(w));
    hide Step;
    Passes(s2, w, Claim(w));
    Passes(s3, w, CheckFresh(w));
    Passes(s4, w, Release(w));
  }

  // The job claims.
  lemma WithClaim(s: State, w: WorkerId, id: RowId, s': State)
    requires w in s.workers && s.workers[w].row == id && id in s.rows && s.workers[w].stage.Claiming?
    requires s.workers[w].campaign in s.campaigns
    requires s'
             == Step(Step(Step(Step(Step(s, WriteCancelled(w)), WriteUnqueued(w)), Claim(w)), CheckFresh(w)),
                     Release(w))
    ensures var row, status := s.rows[id], s.campaigns[s.workers[w].campaign];
            && id in s'.rows
            && (if !row.status.Queued? || row.providerId.Some? then w !in s'.workers && s'.rows[id] == row
                else
                  && s'.rows[id] == row.(status := if status.Running? then R.Processing
                                                   else if status.Cancelled? then R.Cancelled else R.Pending,
                                         attemptCount := row.attemptCount + 1)
                  && (w in s'.workers <==> status.Running?)
                  && (w in s'.workers ==> s'.workers[w] == s.workers[w].(stage := Calling)))
  {
    var s1 := Step(s, WriteCancelled(w));
    var s2 := Step(s1, WriteUnqueued(w));
    var s3 := Step(s2, Claim(w));
    var s4 := Step(s3, CheckFresh(w));
    Passes(s, w, WriteCancelled(w));
    Passes(s1, w, WriteUnqueued(w));
    WorkerAlone(s2, w, Claim(w));
    WorkerAlone(s3, w, CheckFresh(w));
    WorkerAlone(s4, w, Release(w));
    hide Step;
  }

  // What the six statements amount to.
  lemma ClaimStatements(s: State, id: RowId, w: WorkerId, c: CampaignId)
    requires id in s.rows && c in s.campaigns && s.rows[id].campaign == c && w !in s.workers
    ensures var s' := Run(s, UpToCall(w, c, id));
            var row, status := s.rows[id], s.campaigns[c];
            && id in s'.rows
            && s'.rows[id] ==
                 (if R.Terminal(row.status) then row
                  else if status.Cancelled? then row.(status := R.Cancelled)
                  else if !row.status.Queued? then row
                  else if !C.Active(status) then row.(status := R.Pending)
                  else if row.providerId.Some? then row
                  else row.(status := if status.Running? then R.Processing else R.Pending,
                            attemptCount := row.attemptCount + 1))
            && ((w in s'.workers && s'.workers[w].stage.Calling?)
                <==> row.status.Queued? && row.providerId.None? && status.Running?)
            && (w in s'.workers ==> s'.workers[w].attemptsSeen == row.attemptCount)
  {
    hide Step, Run;
    SixSteps(s, UpToCall(w, c, id));
    Begun(s, w, c, id);
    var s1 := Step(s, Begin(w, c, id));
    if w in s1.workers && s1.workers[w].stage.Claiming? {
      WithClaim(s1, w, id, Run(s, UpToCall(w, c, id)));
    } else {
      WithoutClaim(s1, w, id, Run(s, UpToCall(w, c, id)));
    }
  }

  // ---------------------------------------------------------------------------------------------
  // From the provider call on
  // ---------------------------------------------------------------------------------------------

  /** The statements of a job from the provider call on, for each way in which it may end. */
  function FromCall(w: WorkerId, result: S.SendResult): seq<Action> {
    match result
    case Recorded(answer, message) => [CallAccepted(w, answer), Record(w, message), RefreshDone(w)]
    case RecordedThenThrew(answer, message, category, _) =>
      [CallAccepted(w, answer), Record(w, message), RefreshThrew(w, category), Catch(w)]
    case Rejected(category, _) => [CallRejected(w, category), Catch(w)]
  }

  lemma TwoSteps(s: State, a: Action, b: Action)
    ensures Run(s, [a, b]) == Step(Step(s, a), b)
  {
    hide Step;
    assert [a, b][1..] == [b] && [b][1..] == [];
    assert Run(s, [a, b]) == Run(Step(s, a), [b]) && Run(Step(s, a), [b]) == Run(Step(Step(s, a), b), []);
  }

  lemma ThreeSteps(s: State, a: Action, b: Action, c: Action)
    ensures Run(s, [a, b, c]) == Step(Step(Step(s, a), b), c)
  {
    hide Step;
    TwoSteps(Step(s, a), b, c);
    assert [a, b, c][1..] == [b, c] && Run(s, [a, b, c]) == Run(Step(s, a), [b, c]);
  }

  lemma FourSteps(s: State, a: Action, b: Action, c: Action, d: Action)
    ensures Run(s, [a, b, c, d]) == Step(Step(Step(Step(s, a), b), c), d)
  {
    hide Step;
    ThreeSteps(Step(s, a), b, c, d);
    assert [a, b, c, d][1..] == [b, c, d] && Run(s, [a, b, c, d]) == Run(Step(s, a), [b, c, d]);
  }

  // The row's fields but its history.
  predicate SameBut(row: Row, row': Row) {
    row' == row.(tally := row'.tally)
  }

  // The worker stands at a stage of a job on the row.
  predicate At(s: State, w: WorkerId, id: RowId, stage: Stage) {
    w in s.workers && s.workers[w].row == id && id in s.rows && s.workers[w].stage == stage
  }

  lemma Accepts(s: State, w: WorkerId, id: RowId, answer: Option<ProviderId>, message: MessageId)
    requires At(s, w, id, Calling) && message !in s.messages
    ensures var s2 := Step(Step(s, CallAccepted(w, answer)), Record(w, message));
            && At(s2, w, id, Recorded) && s2.attempts == s.attempts
            && s2.workers[w].attemptsSeen == s.workers[w].attemptsSeen
            && SameBut(s.rows[id].(status := R.Sent, providerId := answer, message := Some(message)), s2.rows[id])
  {
    WorkerAlone(s, w, CallAccepted(w, answer));
    WorkerAlone(Step(s, CallAccepted(w, answer)), w, Record(w, message));
    hide Step;
  }

  lemma Throws(s: State, w: WorkerId, id: RowId, category: Category)
    requires At(s, w, id, Recorded)
    ensures var s' := Step(s, RefreshThrew(w, category));
            && At(s', w, id, Failing(category)) && s'.attempts == s.attempts
            && s'.workers[w].attemptsSeen == s.workers[w].attemptsSeen && SameBut(s.rows[id], s'.rows[id])
  {
    WorkerAlone(s, w, RefreshThrew(w, category));
    hide Step;
  }

  lemma Refuses(s: State, w: WorkerId, id: RowId, category: Category)
    requires At(s, w, id, Calling)
    ensures var s' := Step(s, CallRejected(w, category));
            && At(s', w, id, Failing(category)) && s'.attempts == s.attempts
            && s'.workers[w].attemptsSeen == s.workers[w].attemptsSeen && SameBut(s.rows[id], s'.rows[id])
  {
    WorkerAlone(s, w, CallRejected(w, category));
    hide Step;
  }

  lemma CatchIs(s: State, w: WorkerId, id: RowId, category: Category)
    requires At(s, w, id, Failing(category))
    ensures var s' := Step(s, Catch(w));
            && w !in s'.workers && id in s'.rows
            && s'.rows[id] == if Retryable(category) && s.workers[w].attemptsSeen + 1 < s.attempts
                              then s.rows[id].(status := R.Queued) else s.rows[id].(status := R.Failed)
  {
    WorkerAlone(s, w, Catch(w));
    hide Step;
  }

  lemma Returns(s: State, w: WorkerId, id: RowId)
    requires At(s, w, id, Recorded)
    ensures var s' := Step(s, RefreshDone(w)); w !in s'.workers && id in s'.rows && s'.rows[id] == s.rows[id]
  {
    WorkerAlone(s, w, RefreshDone(w));
    hide Step;
  }

  lemma CallStatements(s: State, id: RowId, w: WorkerId, result: S.SendResult)
    requires At(s, w, id, Calling) && (result.Rejected? || result.message !in s.messages)
    ensures var s', row := Run(s, FromCall(w, result)), s.rows[id];
            var sent := if result.Rejected? then row
                        else row.(status := R.Sent, providerId := result.answer, message := Some(result.message));
            && id in s'.rows && w !in s'.workers
            && SameBut(if result.Recorded? then sent
                       else if Retryable(result.category) && s.workers[w].attemptsSeen + 1 < s.attempts
                       then sent.(status := R.Queued) else sent.(status := R.Failed), s'.rows[id])
  {
    hide Run, Step;
    match result
    case Recorded(answer, message) =>
      ThreeSteps(s, CallAccepted(w, answer), Record(w, message), RefreshDone(w));
      Accepts(s, w, id, answer, message);
      Returns(Step(Step(s, CallAccepted(w, answer)), Record(w, message)), w, id);
    case RecordedThenThrew(answer, message, category, _) =>
      FourSteps(s, CallAccepted(w, answer), Record(w, message), RefreshThrew(w, category), Catch(w));
      Accepts(s, w, id, answer, message);
      var s2 := Step(Step(s, CallAccepted(w, answer)), Record(w, message));
      Throws(s2, w, id, category);
      CatchIs(Step(s2, RefreshThrew(w, category)), w, id, category);
    case Rejected(category, _) =>
      TwoSteps(s, CallRejected(w, category), Catch(w));
      Refuses(s, w, id, category);
      CatchIs(Step(s, CallRejected(w, category)), w, id, category);
  }

  /** An uninterrupted job from the provider call on is the service level's end of a send, whichever way it ends. */
  lemma FinishAgrees(db: S.Db, r: S.RowId, s: State, id: RowId, w: WorkerId, result: S.SendResult)
    requires SameRow(db, r, s, id) && r in db.sending && (result.Rejected? || result.message !in db.messages)
    requires w in s.workers && s.workers[w].row == id && s.workers[w].stage.Calling?
    requires s.workers[w].attemptsSeen == db.sending[r] && s.messages.Keys == db.messages.Keys
    ensures var s', db' := Run(s, FromCall(w, result)), S.FinishSend(db, r, result);
            id in s'.rows && r in db'.rows && SameFields(db'.rows[r], r.campaign, s'.rows[id])
  {
    Causes.FinishedRow(db, r, result, r);
    CallStatements(s, id, w, result);
    hide Run, S.FinishSend, FromCall;
  }

  // ---------------------------------------------------------------------------------------------
  // The other actors
  // ---------------------------------------------------------------------------------------------

  /** A cancel, an opt-out, a notification and the recipient writes of a resume do the same to a row on both levels. */
  lemma OthersAgree(db: S.Db, r: S.RowId, s: State, id: RowId)
    requires SameRow(db, r, s, id)
    ensures forall c :: S.CancelResponse(db, c).Done? && c in s.campaigns ==>
              r in S.Cancel(db, c).rows && id in Step(s, Cancel(c)).rows
              && SameFields(S.Cancel(db, c).rows[r], r.campaign, Step(s, Cancel(c)).rows[id])
    ensures forall customer ::
              r in S.OptOut(db, customer).rows && id in Step(s, OptOut(customer)).rows
              && SameFields(S.OptOut(db, customer).rows[r], r.campaign, Step(s, OptOut(customer)).rows[id])
    ensures forall c :: c in db.campaigns ==>
              r in S.Reopen(db, c).rows && id in Step(s, UnqueueAll(c)).rows
              && SameFields(S.Reopen(db, c).rows[r], r.campaign, Step(s, UnqueueAll(c)).rows[id])
  {
    forall c | S.CancelResponse(db, c).Done? && c in s.campaigns
      ensures r in S.Cancel(db, c).rows && id in Step(s, Cancel(c)).rows
              && SameFields(S.Cancel(db, c).rows[r], r.campaign, Step(s, Cancel(c)).rows[id])
    {
      CancelAgrees(db, r, s, id, c);
    }
    forall customer
      ensures r in S.OptOut(db, customer).rows && id in Step(s, OptOut(customer)).rows
              && SameFields(S.OptOut(db, customer).rows[r], r.campaign, Step(s, OptOut(customer)).rows[id])
    {
      OptOutAgrees(db, r, s, id, customer);
    }
    forall c | c in db.campaigns
      ensures r in S.Reopen(db, c).rows && id in Step(s, UnqueueAll(c)).rows
              && SameFields(S.Reopen(db, c).rows[r], r.campaign, Step(s, UnqueueAll(c)).rows[id])
    {
      ReopenAgrees(db, r, s, id, c);
    }
  }

  lemma CancelStepIs(s: State, c: CampaignId, id: RowId)
    requires c in s.campaigns && id in s.rows
    ensures id in Step(s, Cancel(c)).rows
    ensures Step(s, Cancel(c)).rows[id] ==
              if s.rows[id].campaign == c && R.Waiting(s.rows[id].status) then s.rows[id].(status := R.Cancelled)
              else s.rows[id]
  {}

  lemma WebhookStepIs(s: State, message: MessageId, status: R.Status, id: RowId)
    requires message in s.messages && id in s.rows
    ensures id in Step(s, StatusWebhook(message, status)).rows
    ensures Step(s, StatusWebhook(message, status)).rows[id] ==
              if s.messages[message].providerId.Some? && R.Attempted(status)
                 && s.rows[id].campaign == s.messages[message].campaign && s.rows[id].message == Some(message)
              then s.rows[id].(status := status) else s.rows[id]
  {}

  lemma CancelAgrees(db: S.Db, r: S.RowId, s: State, id: RowId, c: CampaignId)
    requires SameRow(db, r, s, id) && S.CancelResponse(db, c).Done? && c in s.campaigns
    ensures r in S.Cancel(db, c).rows && id in Step(s, Cancel(c)).rows
    ensures SameFields(S.Cancel(db, c).rows[r], r.campaign, Step(s, Cancel(c)).rows[id])
  {
    hide S.Cancel, S.CancelResponse, Step;
    Causes.CancelledRow(db, c, r);
    CancelStepIs(s, c, id);
  }

  lemma OptOutAgrees(db: S.Db, r: S.RowId, s: State, id: RowId, customer: CustomerId)
    requires SameRow(db, r, s, id)
    ensures r in S.OptOut(db, customer).rows && id in Step(s, OptOut(customer)).rows
    ensures SameFields(S.OptOut(db, customer).rows[r], r.campaign, Step(s, OptOut(customer)).rows[id])
  {
    E.OptOutEmpties(db, customer);
    hide S.OptOut;
  }

  lemma ReopenAgrees(db: S.Db, r: S.RowId, s: State, id: RowId, c: CampaignId)
    requires SameRow(db, r, s, id) && c in db.campaigns
    ensures r in S.Reopen(db, c).rows && id in Step(s, UnqueueAll(c)).rows
    ensures SameFields(S.Reopen(db, c).rows[r], r.campaign, Step(s, UnqueueAll(c)).rows[id])
  {
    Causes.ReopenedRow(db, c, r);
    hide S.Reopen;
  }

  /** So does a notification about a message that both levels have stored alike. */
  lemma NotificationAgrees(db: S.Db, r: S.RowId, s: State, id: RowId, message: MessageId, status: R.Status)
    requires SameRow(db, r, s, id) && message in db.messages && message in s.messages
    requires s.messages[message].campaign == db.messages[message].campaign
    requires s.messages[message].providerId == db.messages[message].providerId
    ensures r in S.StatusWebhook(db, message, status).rows && id in Step(s, StatusWebhook(message, status)).rows
    ensures SameFields(S.StatusWebhook(db, message, status).rows[r], r.campaign,
                       Step(s, StatusWebhook(message, status)).rows[id])
  {
    hide S.StatusWebhook, Step;
    Causes.NotifiedRow(db, message, status, r);
    WebhookStepIs(s, message, status, id);
  }

  /** And a dispatch: on a row that it selects and the queue takes, the loop's write, and nothing on any other. */
  lemma DispatchAgrees(db: S.Db, r: S.RowId, s: State, id: RowId, c: CampaignId, refused: set<S.RowId>)
    requires SameRow(db, r, s, id)
    ensures var db' := S.Dispatch(db, c, refused);
            var s' := if Causes.Takes(db, c, refused, r) then Step(s, QueueRow(id)) else s;
            r in db'.rows && id in s'.rows && SameFields(db'.rows[r], r.campaign, s'.rows[id])
  {
    Causes.DispatchedRow(db, c, refused, r);
    if Causes.Takes(db, c, refused, r) {
      TakenIsPending(db, c, refused, r);
    }
    hide S.Dispatch, Causes.Takes;
  }

  lemma TakenIsPending(db: S.Db, c: CampaignId, refused: set<S.RowId>, r: S.RowId)
    requires Causes.Takes(db, c, refused, r) && r in db.rows
    ensures db.rows[r].status.Pending?
  {
    I.SelectedIsDue(db, c);
    hide S.Selected;
  }
}
