// The retry bound. With one live job per recipient (the queue's unique job id), a row is offered to the provider
// at most CAMPAIGN_SEND_ATTEMPTS times, however often pauses make workers release their claims in between.

module SendRetries {
  import opened Options
  import opened CampaignErrors
  import opened SendProtocol
  import opened SendSafety
  import R = RecipientStatus

  predicate NoLiveJob(s: State, r: RowId) {
    forall w :: w in s.workers && s.workers[w].row == r ==> !Live(s.workers[w].stage)
  }

  /** A job starts on a row only when no live job works on it. */
  predicate OneJob(s: State, a: Action) {
    a.Begin? ==> NoLiveJob(s, a.row)
  }

  ghost predicate OneJobRun(s: State, actions: seq<Action>)
    decreases |actions|
  {
    actions == [] || (OneJob(s, actions[0]) && OneJobRun(Step(s, actions[0]), actions[1..]))
  }

  // ---------------------------------------------------------------------------------------------
  // The invariant
  // ---------------------------------------------------------------------------------------------

  predicate BeforeClaim(stage: Stage) {
    stage.MarkCancelled? || stage.Unqueue? || stage.Claiming?
  }

  predicate BeforeCall(stage: Stage) {
    stage.Claimed? || stage.Releasing? || stage.Calling?
  }

  predicate RowWithin(row: Row, attempts: nat) {
    && row.tally.calls <= attempts
    && row.tally.calls <= row.attemptCount
    && (R.Waiting(row.status) && row.providerId.None? ==> row.tally.calls < attempts)
  }

  predicate JobWithin(job: Worker, row: Row, attempts: nat) {
    && (BeforeClaim(job.stage) ==> job.attemptsSeen == row.attemptCount)
    && (Live(job.stage) && !BeforeClaim(job.stage) ==> job.attemptsSeen + 1 == row.attemptCount)
    && (BeforeCall(job.stage) ==> row.tally.calls < attempts && row.tally.calls <= job.attemptsSeen)
    && (BeforeRecording(job.stage) ==> row.status.Processing?)
  }

  ghost predicate LiveOnce(s: State) {
    forall v, w :: v in s.workers && w in s.workers && v != w
                   && Live(s.workers[v].stage) && Live(s.workers[w].stage) ==>
                     s.workers[v].row != s.workers[w].row
  }

  ghost predicate Within(s: State)
    requires Known(s)
  {
    && s.attempts > 0
    && LiveOnce(s)
    && (forall r :: r in s.rows ==> RowWithin(s.rows[r], s.attempts))
    && (forall w :: w in s.workers ==> JobWithin(s.workers[w], s.rows[s.workers[w].row], s.attempts))
  }

  lemma LocalIsWithin(s: State, u: WorkerId, a: Action)
    requires IsWorkerAction(a) && u in s.workers && s.workers[u].row in s.rows
    requires var me, row := s.workers[u], s.rows[s.workers[u].row];
             HolderOk(me.stage, row) && JobWithin(me, row, s.attempts) && RowOk(row) && RowWithin(row, s.attempts)
    ensures var o := Local(s, u, a);
            && RowWithin(o.row, s.attempts)
            && (o.stage.Some? ==> JobWithin(s.workers[u].(stage := o.stage.value), o.row, s.attempts))
            && (o.stage.Some? && Live(o.stage.value) ==> Live(s.workers[u].stage))
            && (!Live(s.workers[u].stage) ==> o.row == s.rows[s.workers[u].row])
  {}

  lemma DeadIsWithin(job: Worker, row: Row, attempts: nat)
    requires !Live(job.stage)
    ensures JobWithin(job, row, attempts)
  {}

  lemma PutKeepsWithin(s: State, u: WorkerId, o: Outcome)
    requires Known(s) && Within(s) && u in s.workers && Known(Put(s, u, o))
    requires RowWithin(o.row, s.attempts)
    requires o.stage.Some? ==> JobWithin(s.workers[u].(stage := o.stage.value), o.row, s.attempts)
    requires o.stage.Some? && Live(o.stage.value) ==> Live(s.workers[u].stage)
    requires !Live(s.workers[u].stage) ==> o.row == s.rows[s.workers[u].row]
    ensures Within(Put(s, u, o))
  {
    var s' := Put(s, u, o);
    var me := s.workers[u];
    hide RowWithin, JobWithin;
    forall w | w in s'.workers ensures JobWithin(s'.workers[w], s'.rows[s'.workers[w].row], s.attempts) {
      if w != u && s.workers[w].row == me.row && Live(me.stage) {
        DeadIsWithin(s.workers[w], o.row, s.attempts);
      }
    }
  }

  lemma WorkerKeepsWithin(s: State, a: Action)
    requires Inv(s) && Within(s) && IsWorkerAction(a)
    ensures Known(WorkerStep(s, a)) && Within(WorkerStep(s, a))
  {
    WorkerStepKeeps(s, a);
    var u := a.worker;
    if u in s.workers {
      var o := Local(s, u, a);
      WorkerWrites(s, a);
      hide Local;
      assert Known(Put(s, u, o));
      assert HolderOk(s.workers[u].stage, s.rows[s.workers[u].row]);
      LocalIsWithin(s, u, a);
      PutKeepsWithin(s, u, o);
    }
  }

  lemma OutsideKeepsWithin(s: State, s': State)
    requires Known(s) && HoldersOk(s) && Within(s) && Outside(s, s') && Known(s')
    ensures Within(s')
  {
    forall r | r in s'.rows ensures RowWithin(s'.rows[r], s'.attempts) {
      assert RowWithin(s.rows[r], s.attempts) && OutsideChange(s.rows[r], s'.rows[r]);
    }
    forall w | w in s'.workers ensures JobWithin(s'.workers[w], s'.rows[s'.workers[w].row], s'.attempts) {
      var r := s.workers[w].row;
      assert JobWithin(s.workers[w], s.rows[r], s.attempts) && OutsideChange(s.rows[r], s'.rows[r]);
      assert HolderOk(s.workers[w].stage, s.rows[r]);
    }
  }

  lemma BeginKeepsWithin(s: State, a: Action)
    requires Known(s) && Within(s) && OneJob(s, a) && a.Begin? && Known(Step(s, a))
    ensures Within(Step(s, a))
  {
    hide RowWithin;
  }

  lemma PrepareKeepsWithin(s: State, a: Action)
    requires Inv(s) && Within(s) && a.Prepare? && Known(Step(s, a))
    ensures Within(Step(s, a))
  {
    var s' := Step(s, a);
    NewRowsAreWithin(s, a.campaign, a.rows);
    hide Step, PrepareStep, Inv, RowWithin, JobWithin;
    forall w | w in s'.workers ensures JobWithin(s'.workers[w], s'.rows[s'.workers[w].row], s'.attempts) {
      assert s.workers[w].row in s.rows;
    }
  }

  lemma NewRowsAreWithin(s: State, campaign: CampaignId, rows: map<RowId, Row>)
    requires s.attempts > 0
    ensures var s' := PrepareStep(s, campaign, rows);
            && s'.attempts == s.attempts && s'.workers == s.workers
            && (forall r :: r in s.rows ==> r in s'.rows && s'.rows[r] == s.rows[r])
            && (forall r :: r in s'.rows && r !in s.rows ==> RowWithin(s'.rows[r], s.attempts))
  {}

  lemma StepKeepsWithin(s: State, a: Action)
    requires Inv(s) && Within(s) && OneJob(s, a)
    ensures Inv(Step(s, a)) && Within(Step(s, a))
  {
    StepKeeps(s, a);
    hide Within;
    if IsWorkerAction(a) {
      WorkerKeepsWithin(s, a);
    } else if IsOutside(a) {
      OutsideFootprint(s, a);
      OutsideKeepsWithin(s, Step(s, a));
    } else if a.Begin? {
      BeginKeepsWithin(s, a);
    } else {
      PrepareKeepsWithin(s, a);
    }
  }

  lemma {:induction false} RunKeepsWithin(s: State, actions: seq<Action>)
    requires Inv(s) && Within(s) && OneJobRun(s, actions)
    ensures Inv(Run(s, actions)) && Within(Run(s, actions))
    decreases |actions|
  {
    if actions != [] {
      StepKeepsWithin(s, actions[0]);
      RunKeepsWithin(Step(s, actions[0]), actions[1..]);
    }
  }

  // ---------------------------------------------------------------------------------------------
  // The main results
  // ---------------------------------------------------------------------------------------------

  /** At most `attempts` provider calls per recipient, and never more than its recorded attempt count. */
  lemma CallsBoundedByAttempts(attempts: nat, actions: seq<Action>, r: RowId)
    requires attempts > 0 && OneJobRun(Empty(attempts), actions)
    requires r in Run(Empty(attempts), actions).rows
    ensures var row := Run(Empty(attempts), actions).rows[r];
            row.tally.calls <= attempts && row.tally.calls <= row.attemptCount
  {
    RunKeepsWithin(Empty(attempts), actions);
    RunKeepsAttempts(Empty(attempts), actions);
    assert RowWithin(Run(Empty(attempts), actions).rows[r], attempts);
  }

  lemma {:induction false} RunKeepsAttempts(s: State, actions: seq<Action>)
    ensures Run(s, actions).attempts == s.attempts
    decreases |actions|
  {
    if actions != [] {
      RunKeepsAttempts(Step(s, actions[0]), actions[1..]);
    }
  }

  /** The row failed for good: nobody is working on it and the provider never gave it a recorded id. */
  ghost predicate GivenUp(s: State, r: RowId) {
    r in s.rows && s.rows[r].status.Failed? && s.rows[r].providerId.None? && NoLiveJob(s, r)
  }

  lemma WorkerKeepsGivenUp(s: State, a: Action, r: RowId)
    requires Inv(s) && GivenUp(s, r) && IsWorkerAction(a) && a.worker in s.workers
    ensures GivenUp(Step(s, a), r) && Step(s, a).rows[r] == s.rows[r]
  {
    assert Known(s);
    hide *;
    WorkerWrites(s, a);
    var me := s.workers[a.worker];
    if !Live(me.stage) {
      CrashedDoesNothing(s, a.worker, a);
    }
    NoLiveJobIs(s, r);
    assert me.row == r ==> !Live(me.stage);
    forall w | w in Step(s, a).workers && Step(s, a).workers[w].row == r ensures !Live(Step(s, a).workers[w].stage) {
      assert w in s.workers && s.workers[w].row == r;
    }
    StillGivenUp(s, Step(s, a), r);
  }

  lemma NoLiveJobIs(s: State, r: RowId)
    requires GivenUp(s, r)
    ensures r in s.rows && forall w :: w in s.workers && s.workers[w].row == r ==> !Live(s.workers[w].stage)
  {}

  lemma StillGivenUp(s: State, s': State, r: RowId)
    requires GivenUp(s, r) && r in s'.rows && s'.rows[r] == s.rows[r]
    requires forall w :: w in s'.workers && s'.workers[w].row == r ==> !Live(s'.workers[w].stage)
    ensures GivenUp(s', r)
  {}

  lemma CrashedDoesNothing(s: State, w: WorkerId, a: Action)
    requires w in s.workers && s.workers[w].row in s.rows && !Live(s.workers[w].stage) && IsWorkerAction(a)
    ensures Local(s, w, a) == Outcome(s.rows[s.workers[w].row], Some(s.workers[w].stage))
  {}

  lemma StepKeepsGivenUp(s: State, a: Action, r: RowId)
    requires Inv(s) && GivenUp(s, r)
    ensures GivenUp(Step(s, a), r) && Step(s, a).rows[r] == s.rows[r]
  {
    hide Step, HoldersOk, RowsOk, OneHolder, ProcessingHeld, MessagesOk, GivenUp;
    if IsOutside(a) {
      OutsideFootprint(s, a);
      OutsideKeepsGivenUp(s, Step(s, a), r);
    } else if IsWorkerAction(a) {
      if a.worker in s.workers {
        WorkerKeepsGivenUp(s, a, r);
      } else {
        StrangerDoesNothing(s, a);
      }
    } else {
      NewcomersKeepGivenUp(s, a, r);
    }
  }

  lemma OutsideKeepsGivenUp(s: State, s': State, r: RowId)
    requires GivenUp(s, r) && Outside(s, s')
    ensures GivenUp(s', r) && s'.rows[r] == s.rows[r]
  {
    assert OutsideChange(s.rows[r], s'.rows[r]);
  }

  lemma StrangerDoesNothing(s: State, a: Action)
    requires IsWorkerAction(a) && a.worker !in s.workers
    ensures Step(s, a) == s
  {}

  lemma NewcomersKeepGivenUp(s: State, a: Action, r: RowId)
    requires GivenUp(s, r) && (a.Begin? || a.Prepare?)
    ensures GivenUp(Step(s, a), r) && Step(s, a).rows[r] == s.rows[r]
  {}

  lemma {:induction false} GivenUpIsForever(s: State, actions: seq<Action>, r: RowId)
    requires Inv(s) && GivenUp(s, r)
    ensures GivenUp(Run(s, actions), r) && Run(s, actions).rows[r] == s.rows[r]
    decreases |actions|
  {
    if actions != [] {
      StepKeeps(s, actions[0]);
      StepKeepsGivenUp(s, actions[0], r);
      GivenUpIsForever(Step(s, actions[0]), actions[1..], r);
    }
  }

  /** A failure that is permanent, or that uses up the attempts, of a row without a recorded id is final: the row
      is FAILED in every continuation and is never offered to the provider again. */
  lemma LastFailureIsFinal(attempts: nat, before: seq<Action>, w: WorkerId, later: seq<Action>)
    requires attempts > 0 && OneJobRun(Empty(attempts), before)
    requires var s := Run(Empty(attempts), before);
             && w in s.workers && s.workers[w].stage.Failing? && s.workers[w].row in s.rows
             && s.rows[s.workers[w].row].providerId.None?
             && (!Retryable(s.workers[w].stage.category) || s.rows[s.workers[w].row].attemptCount >= attempts)
    ensures var s := Run(Empty(attempts), before);
            var r := s.workers[w].row;
            var s2 := Run(Step(s, Catch(w)), later);
            r in s2.rows && s2.rows[r] == s.rows[r].(status := R.Failed)
  {
    var s := Run(Empty(attempts), before);
    RunKeepsWithin(Empty(attempts), before);
    RunKeepsAttempts(Empty(attempts), before);
    var r := s.workers[w].row;
    assert JobWithin(s.workers[w], s.rows[r], attempts);
    var s1 := Step(s, Catch(w));
    StepKeeps(s, Catch(w));
    assert s1.rows == s.rows[r := s.rows[r].(status := R.Failed)];
    assert NoLiveJob(s1, r);
    GivenUpIsForever(s1, later, r);
  }
}
