// What cancel and opt-out guarantee: a row that they took out of the queue is never sent afterwards, and a
// campaign's cancellation lets through only what a worker was already sending.

module SendFinality {
  import opened Options
  import opened CampaignErrors
  import opened SendProtocol
  import opened SendSafety
  import R = RecipientStatus

  /** The catch block will requeue a retryable failure of this job. */
  predicate AttemptsLeft(job: Worker, attempts: nat) {
    job.attemptsSeen + 1 < attempts
  }

  /** Some future of this worker sends the row, or puts it back among the waiting ones with no provider id. A release to
      CANCELLED, a permanent failure and used-up attempts do neither. */
  predicate Sender(job: Worker, row: Row, attempts: nat) {
    || job.stage.Claimed? || job.stage.Calling?
    || (job.stage.Releasing? && job.stage.target.Pending?)
    || (job.stage.Accepted? && AttemptsLeft(job, attempts))
    || (job.stage.Recorded? && row.providerId.None? && AttemptsLeft(job, attempts))
    || (job.stage.Failing? && Retryable(job.stage.category) && row.providerId.None? && AttemptsLeft(job, attempts))
  }

  ghost predicate BeingSent(s: State, r: RowId) {
    r in s.rows && exists w :: HeldBy(s, w, r) && Sender(s.workers[w], s.rows[r], s.attempts)
  }

  /** The row can no longer be sent: it is not waiting, or the guard of the claim rejects it, and no worker that
      holds it would send it. */
  ghost predicate CannotSend(s: State, r: RowId) {
    && r in s.rows
    && (R.Waiting(s.rows[r].status) ==> s.rows[r].providerId.Some?)
    && !BeingSent(s, r)
  }

  lemma LocalCannotSend(s: State, u: WorkerId, a: Action)
    requires IsWorkerAction(a) && u in s.workers && s.workers[u].row in s.rows
    requires var me := s.workers[u];
             var row := s.rows[me.row];
             HolderOk(me.stage, row) && (R.Waiting(row.status) ==> row.providerId.Some?)
                 && (Holds(me.stage) ==> !Sender(me, row, s.attempts))
    ensures var me := s.workers[u];
            var row := s.rows[me.row];
            var o := Local(s, u, a);
            && (row.providerId.Some? ==> o.row.providerId.Some?)
            && (R.Waiting(o.row.status) ==> o.row.providerId.Some?)
            && o.row.tally.accepts == row.tally.accepts
            && (o.stage.Some? && Holds(o.stage.value) ==> !Sender(me.(stage := o.stage.value), o.row, s.attempts))
  {}

  lemma WorkerKeepsCannotSend(s: State, a: Action, r: RowId)
    requires Inv(s) && CannotSend(s, r) && IsWorkerAction(a)
    ensures var s' := WorkerStep(s, a);
            CannotSend(s', r) && s'.rows[r].tally.accepts == s.rows[r].tally.accepts
  {
    var s' := WorkerStep(s, a);
    var u := a.worker;
    if u in s.workers {
      var me := s.workers[u];
      WorkerWrites(s, a);
      if me.row == r {
        assert Holds(me.stage) ==> HeldBy(s, u, r);
        assert HolderOk(me.stage, s.rows[r]);
        LocalCannotSend(s, u, a);
      }
      hide Local, WorkerStep, Inv, Sender;
      forall w | HeldBy(s', w, r) ensures !Sender(s'.workers[w], s'.rows[r], s'.attempts) {
        if w != u {
          assert HeldBy(s, w, r);
        }
      }
    }
  }

  lemma StepKeepsCannotSend(s: State, a: Action, r: RowId)
    requires Inv(s) && CannotSend(s, r)
    ensures var s' := Step(s, a);
            CannotSend(s', r) && s'.rows[r].tally.accepts == s.rows[r].tally.accepts
  {
    if IsWorkerAction(a) {
      WorkerKeepsCannotSend(s, a, r);
    } else if IsOutside(a) {
      OutsideFootprint(s, a);
      hide Step, Inv;
      OutsideKeepsCannotSend(s, Step(s, a), r);
    } else {
      NewcomersHoldNothing(s, a, r);
      StillCannotSend(s, Step(s, a), r);
    }
    hide Inv, CannotSend, HeldBy;
  }

  lemma OutsideKeepsCannotSend(s: State, s': State, r: RowId)
    requires CannotSend(s, r) && Outside(s, s')
    ensures CannotSend(s', r) && s'.rows[r].tally.accepts == s.rows[r].tally.accepts
  {
    assert OutsideChange(s.rows[r], s'.rows[r]);
    StillCannotSend(s, s', r);
  }

  lemma StillCannotSend(s: State, s': State, r: RowId)
    requires CannotSend(s, r) && s'.attempts == s.attempts && r in s'.rows
    requires s'.rows[r].providerId == s.rows[r].providerId
    requires R.Waiting(s'.rows[r].status) ==> R.Waiting(s.rows[r].status) || s.rows[r].providerId.Some?
    requires forall w :: HeldBy(s', w, r) ==> HeldBy(s, w, r) && s'.workers[w] == s.workers[w]
    ensures CannotSend(s', r)
  {
    forall w | HeldBy(s', w, r) ensures !Sender(s'.workers[w], s'.rows[r], s'.attempts) {
      assert HeldBy(s, w, r);
    }
  }

  lemma NewcomersHoldNothing(s: State, a: Action, r: RowId)
    requires r in s.rows && (a.Begin? || a.Prepare?)
    ensures var s' := Step(s, a);
            && s'.attempts == s.attempts && r in s'.rows && s'.rows[r] == s.rows[r]
            && forall w :: HeldBy(s', w, r) ==> HeldBy(s, w, r) && s'.workers[w] == s.workers[w]
  {}

  /** Once a row cannot be sent, no continuation sends it. */
  lemma {:induction false} CannotSendIsForever(s: State, actions: seq<Action>, r: RowId)
    requires Inv(s) && CannotSend(s, r)
    ensures var s' := Run(s, actions);
            CannotSend(s', r) && s'.rows[r].tally.accepts == s.rows[r].tally.accepts
    decreases |actions|
  {
    if actions != [] {
      StepKeeps(s, actions[0]);
      StepKeepsCannotSend(s, actions[0], r);
      CannotSendIsForever(Step(s, actions[0]), actions[1..], r);
    }
  }

  // ---------------------------------------------------------------------------------------------
  // Rows that cancel or opt-out moved
  // ---------------------------------------------------------------------------------------------

  /** Nothing can move the row again: it is CANCELLED, nobody holds it and no notification can find it. */
  ghost predicate Settled(s: State, r: RowId) {
    && r in s.rows && s.rows[r].status.Cancelled? && s.rows[r].providerId.None?
    && forall w :: !HeldBy(s, w, r)
  }

  lemma WorkerKeepsSettled(s: State, a: Action, r: RowId)
    requires Inv(s) && Settled(s, r) && IsWorkerAction(a)
    ensures Settled(WorkerStep(s, a), r)
  {
    var u := a.worker;
    if u in s.workers {
      var me := s.workers[u];
      assert me.row == r && Holds(me.stage) ==> HeldBy(s, u, r);
      LocalIsPutOk(s, u, a);
      WorkerWrites(s, a);
      hide Local, WorkerStep, Step, Inv, Settled, HolderOk, RowOk;
      SettledRow(s, r);
      PutKeepsSettled(s, u, Local(s, u, a), WorkerStep(s, a), r);
    }
  }

  lemma SettledRow(s: State, r: RowId)
    requires Settled(s, r)
    ensures r in s.rows && s.rows[r].status.Cancelled? && forall w :: !HeldBy(s, w, r)
  {}

  lemma PutKeepsSettled(s: State, u: WorkerId, o: Outcome, s': State, r: RowId)
    requires Settled(s, r) && u in s.workers && s.workers[u].row in s.rows
    requires s'.rows == s.rows[s.workers[u].row := o.row] && s'.workers == Put(s, u, o).workers
    requires s.workers[u].row == r ==> o.row == s.rows[r] && (o.stage.Some? ==> !Holds(o.stage.value))
    ensures Settled(s', r)
  {
    forall w ensures !HeldBy(s', w, r) {
      assert !HeldBy(s, w, r);
    }
  }

  lemma StepKeepsSettled(s: State, a: Action, r: RowId)
    requires Inv(s) && Settled(s, r)
    ensures Settled(Step(s, a), r)
  {
    var s' := Step(s, a);
    if IsWorkerAction(a) {
      WorkerKeepsSettled(s, a, r);
    } else {
      if IsOutside(a) {
        OutsideFootprint(s, a);
        assert OutsideChange(s.rows[r], s'.rows[r]);
      } else {
        NewcomersHoldNothing(s, a, r);
      }
      hide Inv, Step;
      forall w ensures !HeldBy(s', w, r) {
        assert !HeldBy(s, w, r);
      }
    }
  }

  lemma {:induction false} SettledIsForever(s: State, actions: seq<Action>, r: RowId)
    requires Inv(s) && Settled(s, r)
    ensures Settled(Run(s, actions), r)
    decreases |actions|
  {
    if actions != [] {
      StepKeeps(s, actions[0]);
      StepKeepsSettled(s, actions[0], r);
      SettledIsForever(Step(s, actions[0]), actions[1..], r);
    }
  }

  lemma WaitingIsFree(s: State, r: RowId)
    requires Inv(s) && r in s.rows && R.Waiting(s.rows[r].status)
    ensures forall w :: !HeldBy(s, w, r)
  {}

  lemma {:induction false} RowsPersist(s: State, actions: seq<Action>, r: RowId)
    requires Inv(s) && r in s.rows
    ensures r in Run(s, actions).rows
    decreases |actions|
  {
    if actions != [] {
      StepKeeps(s, actions[0]);
      RowsPersist(Step(s, actions[0]), actions[1..], r);
    }
  }

  /** A row that an actor took from PENDING or QUEUED to CANCELLED in a reachable state is never sent in any
      continuation; if the provider never had it before, it also stays CANCELLED. */
  lemma TakenOutIsFinal(s: State, s1: State, r: RowId, later: seq<Action>)
    requires Inv(s) && Outside(s, s1)
    requires r in s.rows && R.Waiting(s.rows[r].status) && s1.rows[r].status.Cancelled?
    ensures var s2 := Run(s1, later);
            && r in s2.rows
            && s2.rows[r].tally.accepts == s.rows[r].tally.accepts
            && (s.rows[r].providerId.None? ==> s2.rows[r].status.Cancelled?)
  {
    OutsideKeeps(s, s1);
    WaitingIsFree(s, r);
    assert OutsideChange(s.rows[r], s1.rows[r]);
    forall w ensures !HeldBy(s1, w, r) {
      assert !HeldBy(s, w, r);
    }
    CannotSendIsForever(s1, later, r);
    if s.rows[r].providerId.None? {
      SettledIsForever(s1, later, r);
    }
  }

  /** A campaign cancel is final for every row it moved, whatever stale workers and dispatchers do later. */
  lemma CancelIsFinal(attempts: nat, before: seq<Action>, campaign: CampaignId, later: seq<Action>, r: RowId)
    requires var s := Run(Empty(attempts), before);
             && campaign in s.campaigns
             && r in s.rows && s.rows[r].campaign == campaign && R.Waiting(s.rows[r].status)
    ensures var s := Run(Empty(attempts), before);
            var s2 := Run(Empty(attempts), before + [Cancel(campaign)] + later);
            && r in s2.rows
            && s2.rows[r].tally.accepts == s.rows[r].tally.accepts
            && (s.rows[r].providerId.None? ==> s2.rows[r].status.Cancelled?)
  {
    var s := Run(Empty(attempts), before);
    var s1 := CancelStep(s, campaign);
    ReachableIsSafe(attempts, before);
    OutsideFootprint(s, Cancel(campaign));
    TakenOutIsFinal(s, s1, r, later);
    RunThrough(Empty(attempts), before, Cancel(campaign), later);
  }

  /** An opt-out is final for every row it moved, in every campaign. */
  lemma OptOutIsFinal(attempts: nat, before: seq<Action>, customer: CustomerId, later: seq<Action>, r: RowId)
    requires var s := Run(Empty(attempts), before);
             r in s.rows && s.rows[r].customer == customer && R.Waiting(s.rows[r].status)
    ensures var s := Run(Empty(attempts), before);
            var s2 := Run(Empty(attempts), before + [OptOut(customer)] + later);
            && r in s2.rows
            && s2.rows[r].tally.accepts == s.rows[r].tally.accepts
            && (s.rows[r].providerId.None? ==> s2.rows[r].status.Cancelled?)
  {
    var s := Run(Empty(attempts), before);
    var s1 := OptOutStep(s, customer);
    ReachableIsSafe(attempts, before);
    OutsideFootprint(s, OptOut(customer));
    TakenOutIsFinal(s, s1, r, later);
    RunThrough(Empty(attempts), before, OptOut(customer), later);
  }

  lemma RunThrough(s: State, before: seq<Action>, a: Action, later: seq<Action>)
    ensures Run(s, before + [a] + later) == Run(Step(Run(s, before), a), later)
  {
    RunAppend(s, before + [a], later);
    RunAppend(s, before, [a]);
    assert Run(Run(s, before), [a]) == Step(Run(s, before), a);
  }

  // ---------------------------------------------------------------------------------------------
  // What a cancel still lets through
  // ---------------------------------------------------------------------------------------------

  /** Every row that is sent after its campaign's cancel was being sent by a worker at that instant. */
  lemma OnlyInFlightSurvivesCancel(attempts: nat, before: seq<Action>, campaign: CampaignId,
                                   later: seq<Action>, r: RowId)
    requires var s := Run(Empty(attempts), before);
             campaign in s.campaigns && r in s.rows && s.rows[r].campaign == campaign
    ensures var s := Run(Empty(attempts), before);
            var s2 := Run(Empty(attempts), before + [Cancel(campaign)] + later);
            r in s2.rows && (s2.rows[r].tally.accepts == s.rows[r].tally.accepts || BeingSent(s, r))
  {
    var s := Run(Empty(attempts), before);
    var s1 := CancelStep(s, campaign);
    ReachableIsSafe(attempts, before);
    StepKeeps(s, Cancel(campaign));
    RunThrough(Empty(attempts), before, Cancel(campaign), later);
    RowsPersist(s1, later, r);
    if !BeingSent(s, r) {
      forall w | HeldBy(s1, w, r) ensures !Sender(s1.workers[w], s1.rows[r], s1.attempts) {
        assert HeldBy(s, w, r);
      }
      CannotSendIsForever(s1, later, r);
    }
  }

  // While ids are recorded, a row that is being sent is PROCESSING, unless its campaign was cancelled before.
  ghost predicate SendersProcess(s: State) {
    && (forall c :: c in s.campaigns && s.campaigns[c].Cancelled? ==> c in s.everCancelled)
    && (forall w :: w in s.workers && s.workers[w].stage.MarkCancelled? ==> s.workers[w].campaign in s.everCancelled)
    && (forall w ::
          w in s.workers && s.workers[w].row in s.rows && Sender(s.workers[w], s.rows[s.workers[w].row], s.attempts) ==>
          s.rows[s.workers[w].row].status.Processing? || s.workers[w].campaign in s.everCancelled)
  }

  lemma LocalSenderProcesses(s: State, u: WorkerId, a: Action)
    requires Recording(a) && IsWorkerAction(a) && u in s.workers && s.workers[u].row in s.rows
    requires var me, row := s.workers[u], s.rows[s.workers[u].row];
             && HolderOk(me.stage, row) && KeepsIds(me.stage, row)
             && (Sender(me, row, s.attempts) ==> row.status.Processing? || me.campaign in s.everCancelled)
             && (me.stage.MarkCancelled? ==> me.campaign in s.everCancelled)
    ensures var me := s.workers[u];
            var row := s.rows[me.row];
            var o := Local(s, u, a);
            && (o.stage.Some? && Sender(me.(stage := o.stage.value), o.row, s.attempts) ==>
                o.row.status.Processing? || me.campaign in s.everCancelled)
            && (o.stage.Some? && o.stage.value.MarkCancelled? ==> me.stage.MarkCancelled?)
            && (!Holds(me.stage) && !R.Waiting(row.status) ==>
                  o.row == row || (o.row == row.(status := R.Cancelled) && me.campaign in s.everCancelled))
  {}

  lemma WorkerKeepsSendersProcess(s: State, a: Action)
    requires Inv(s) && NothingLost(s) && Recording(a) && SendersProcess(s) && IsWorkerAction(a)
    ensures SendersProcess(WorkerStep(s, a))
  {
    var u := a.worker;
    if u in s.workers {
      var me := s.workers[u];
      assert HolderOk(me.stage, s.rows[me.row]) && KeepsIds(me.stage, s.rows[me.row]);
      LocalSenderProcesses(s, u, a);
      WorkerWrites(s, a);
      hide Local, WorkerStep, Step, Inv, NothingLost;
      PutKeepsSendersProcess(s, u, Local(s, u, a), WorkerStep(s, a));
    }
  }

  lemma PutKeepsSendersProcess(s: State, u: WorkerId, o: Outcome, s': State)
    requires Inv(s) && SendersProcess(s) && u in s.workers
    requires s'.rows == s.rows[s.workers[u].row := o.row] && s'.workers == Put(s, u, o).workers
    requires s'.campaigns == s.campaigns && s'.everCancelled == s.everCancelled && s'.attempts == s.attempts
    requires var me := s.workers[u];
             var row := s.rows[me.row];
             && (o.stage.Some? && Sender(me.(stage := o.stage.value), o.row, s.attempts) ==>
                 o.row.status.Processing? || me.campaign in s.everCancelled)
             && (o.stage.Some? && o.stage.value.MarkCancelled? ==> me.stage.MarkCancelled?)
             && (!Holds(me.stage) && !R.Waiting(row.status) ==>
                   o.row == row || (o.row == row.(status := R.Cancelled) && me.campaign in s.everCancelled))
    ensures SendersProcess(s')
  {
    hide RowsOk, ProcessingHeld, SendSafety.MessagesOk, Sender, HolderOk;
    var me := s.workers[u];
    forall w | w in s'.workers && Sender(s'.workers[w], s'.rows[s'.workers[w].row], s'.attempts)
      ensures s'.rows[s'.workers[w].row].status.Processing? || s'.workers[w].campaign in s'.everCancelled
    {
      SendersHold(s'.workers[w], s'.rows[s'.workers[w].row], s.attempts);
      if w != u && s.workers[w].row == me.row {
        assert HolderOk(s.workers[w].stage, s.rows[me.row]);
        HoldersRow(s.workers[w].stage, s.rows[me.row]);
        assert HeldBy(s, w, me.row);
        assert !HeldBy(s, u, me.row);
      }
    }
  }

  lemma SendersHold(job: Worker, row: Row, attempts: nat)
    requires Sender(job, row, attempts)
    ensures Holds(job.stage)
  {}

  lemma HoldersRow(stage: Stage, row: Row)
    requires HolderOk(stage, row) && Holds(stage)
    ensures !R.Waiting(row.status)
  {}

  lemma OutsideCancels(s: State, a: Action)
    requires IsOutside(a) && forall c :: c in s.campaigns && s.campaigns[c].Cancelled? ==> c in s.everCancelled
    ensures s.everCancelled <= Step(s, a).everCancelled
    ensures forall c :: c in Step(s, a).campaigns && Step(s, a).campaigns[c].Cancelled? ==>
            c in Step(s, a).everCancelled
  {}

  lemma OutsideKeepsSendersProcess(s: State, s': State)
    requires Known(s) && HoldersOk(s) && SendersProcess(s) && Outside(s, s')
    requires s.everCancelled <= s'.everCancelled
    requires forall c :: c in s'.campaigns && s'.campaigns[c].Cancelled? ==> c in s'.everCancelled
    ensures SendersProcess(s')
  {
    forall w | w in s'.workers && Sender(s'.workers[w], s'.rows[s'.workers[w].row], s'.attempts)
      ensures s'.rows[s'.workers[w].row].status.Processing? || s'.workers[w].campaign in s'.everCancelled
    {
      assert OutsideChange(s.rows[s.workers[w].row], s'.rows[s.workers[w].row]);
      assert HolderOk(s.workers[w].stage, s.rows[s.workers[w].row]);
    }
  }

  lemma StepKeepsSendersProcess(s: State, a: Action)
    requires Inv(s) && NothingLost(s) && Recording(a) && SendersProcess(s)
    ensures SendersProcess(Step(s, a))
  {
    var s' := Step(s, a);
    if IsWorkerAction(a) {
      WorkerKeepsSendersProcess(s, a);
    } else if IsOutside(a) {
      OutsideFootprint(s, a);
      OutsideCancels(s, a);
      OutsideKeepsSendersProcess(s, s');
    } else {
      NewcomersSendNothing(s, a);
    }
    hide Step, Inv, NothingLost;
  }

  lemma NewcomersSendNothing(s: State, a: Action)
    requires Known(s) && SendersProcess(s) && (a.Begin? || a.Prepare?)
    ensures SendersProcess(Step(s, a))
  {}

  lemma {:induction false} RunKeepsSendersProcess(s: State, actions: seq<Action>)
    requires Inv(s) && NothingLost(s) && SendersProcess(s)
    requires AllRecording(actions)
    ensures SendersProcess(Run(s, actions))
    decreases |actions|
  {
    if actions != [] {
      assert Recording(actions[0]);
      StepKeeps(s, actions[0]);
      RecordingStepLosesNothing(s, actions[0]);
      StepKeepsSendersProcess(s, actions[0]);
      RunKeepsSendersProcess(Step(s, actions[0]), actions[1..]);
    }
  }

  /** Every row that is sent after the first cancel of its campaign was PROCESSING at the cancel instant. */
  lemma OnlyProcessingSurvivesCancel(attempts: nat, before: seq<Action>, campaign: CampaignId,
                                     later: seq<Action>, r: RowId)
    requires AllRecording(before)
    requires var s := Run(Empty(attempts), before);
             && campaign in s.campaigns && campaign !in s.everCancelled
             && r in s.rows && s.rows[r].campaign == campaign
    ensures var s := Run(Empty(attempts), before);
            var s2 := Run(Empty(attempts), before + [Cancel(campaign)] + later);
            r in s2.rows && (s2.rows[r].tally.accepts == s.rows[r].tally.accepts || s.rows[r].status.Processing?)
  {
    var s := Run(Empty(attempts), before);
    OnlyInFlightSurvivesCancel(attempts, before, campaign, later, r);
    ReachableIsSafe(attempts, before);
    RunKeepsSendersProcess(Empty(attempts), before);
    if BeingSent(s, r) {
      var w :| HeldBy(s, w, r) && Sender(s.workers[w], s.rows[r], s.attempts);
      assert s.workers[w].campaign == campaign;
    }
  }
}
