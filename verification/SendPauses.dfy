// What a pause stops, statement by statement: while nobody writes RUNNING to a campaign, the provider is called only
// for recipients whose worker had passed the fresh look at the campaign before.

module SendPauses {
  import opened Options
  import opened SendProtocol
  import opened SendSafety
  import opened SendFinality

  /** The action does not write RUNNING to the campaign. A start, a resume and the last write of a dispatch pass do, the
      latter also when the campaign was paused during the pass. */
  predicate KeepsHalted(a: Action, c: CampaignId) {
    a.WriteCampaign? && a.campaign == c ==> !a.status.Running?
  }

  // A worker is about to call the provider for the row.
  ghost predicate AboutToCall(s: State, r: RowId) {
    exists w :: HeldBy(s, w, r) && s.workers[w].stage.Calling?
  }

  /** The calls for the row, and one more while a worker is about to call. */
  ghost function CallsInSight(s: State, r: RowId): nat
    requires r in s.rows
  {
    s.rows[r].tally.calls + if AboutToCall(s, r) then 1 else 0
  }

  ghost predicate HaltedFor(s: State, r: RowId) {
    r in s.rows && s.rows[r].campaign in s.campaigns && !s.campaigns[s.rows[r].campaign].Running?
  }

  lemma StepKeepsHalted(s: State, a: Action, r: RowId)
    requires Inv(s) && HaltedFor(s, r) && KeepsHalted(a, s.rows[r].campaign)
    ensures HaltedFor(Step(s, a), r) && Step(s, a).rows[r].campaign == s.rows[r].campaign
  {
    StepKeepsIdentity(s, a, r);
    CampaignStays(s, a, s.rows[r].campaign);
    hide Step;
  }

  lemma CampaignStays(s: State, a: Action, c: CampaignId)
    requires c in s.campaigns && !s.campaigns[c].Running? && KeepsHalted(a, c)
    ensures c in Step(s, a).campaigns && !Step(s, a).campaigns[c].Running?
  {
    hide Local, SetWhere;
  }

  // A statement of a worker on its own row, while the campaign does not run.
  lemma LocalCalls(s: State, u: WorkerId, a: Action)
    requires u in s.workers && IsWorkerAction(a) && s.workers[u].row in s.rows
    requires s.workers[u].campaign in s.campaigns ==> !s.campaigns[s.workers[u].campaign].Running?
    ensures var me := s.workers[u];
            var row := s.rows[me.row];
            var o := Local(s, u, a);
            && (o.stage.Some? && o.stage.value.Calling? ==> me.stage.Calling? && o.row.tally.calls == row.tally.calls)
            && o.row.tally.calls <= row.tally.calls + (if me.stage.Calling? then 1 else 0)
            && row.tally.calls <= o.row.tally.calls
  {}

  lemma WorkerCalls(s: State, a: Action, r: RowId)
    requires Inv(s) && HaltedFor(s, r) && IsWorkerAction(a) && a.worker in s.workers
    ensures r in Step(s, a).rows && CallsInSight(Step(s, a), r) <= CallsInSight(s, r)
    ensures s.rows[r].tally.calls <= Step(s, a).rows[r].tally.calls
  {
    var u := a.worker;
    var me := s.workers[u];
    WorkerWrites(s, a);
    if me.row == r {
      LocalCalls(s, u, a);
      assert me.stage.Calling? ==> HeldBy(s, u, r);
    }
    var s' := Step(s, a);
    hide Local, WorkerStep, Put, Step;
    if AboutToCall(s', r) {
      var w :| HeldBy(s', w, r) && s'.workers[w].stage.Calling?;
      if w != u {
        assert HeldBy(s, w, r) && s.workers[w].stage.Calling?;
        assert me.row == r ==> !HeldBy(s, u, r);
      }
    }
  }

  lemma OtherCalls(s: State, a: Action, r: RowId)
    requires Inv(s) && r in s.rows && !IsWorkerAction(a)
    ensures r in Step(s, a).rows && Step(s, a).rows[r].tally == s.rows[r].tally
            && (AboutToCall(Step(s, a), r) ==> AboutToCall(s, r))
  {
    var s' := Step(s, a);
    if IsOutside(a) {
      OutsideFootprint(s, a);
      assert OutsideChange(s.rows[r], s'.rows[r]);
    } else {
      NewcomersHoldNothing(s, a, r);
    }
    hide Step, Inv;
    if AboutToCall(s', r) {
      var w :| HeldBy(s', w, r) && s'.workers[w].stage.Calling?;
      assert HeldBy(s, w, r) && s.workers[w].stage.Calling?;
    }
  }

  lemma StepCalls(s: State, a: Action, r: RowId)
    requires Inv(s) && HaltedFor(s, r)
    ensures r in Step(s, a).rows && CallsInSight(Step(s, a), r) <= CallsInSight(s, r)
    ensures s.rows[r].tally.calls <= Step(s, a).rows[r].tally.calls
  {
    if IsWorkerAction(a) {
      if a.worker in s.workers {
        WorkerCalls(s, a, r);
      }
    } else {
      OtherCalls(s, a, r);
    }
  }

  lemma {:induction false} RunCalls(s: State, later: seq<Action>, r: RowId)
    requires Inv(s) && HaltedFor(s, r) && forall i :: 0 <= i < |later| ==> KeepsHalted(later[i], s.rows[r].campaign)
    ensures r in Run(s, later).rows && CallsInSight(Run(s, later), r) <= CallsInSight(s, r)
    ensures s.rows[r].tally.calls <= Run(s, later).rows[r].tally.calls
    decreases |later|
  {
    hide Inv, HaltedFor, KeepsHalted, CallsInSight, Step;
    assert r in s.rows by { HaltedRow(s, r); }
    if later != [] {
      StepKeeps(s, later[0]);
      StepKeepsHalted(s, later[0], r);
      StepCalls(s, later[0], r);
      RunCalls(Step(s, later[0]), later[1..], r);
    }
  }

  lemma HaltedRow(s: State, r: RowId)
    requires HaltedFor(s, r)
    ensures r in s.rows
  {}

  /** The continuation writes RUNNING to no campaign of the row and calls the provider for it. */
  predicate CalledLater(s: State, later: seq<Action>, r: RowId) {
    && r in s.rows && r in Run(s, later).rows && Run(s, later).rows[r].tally.calls > s.rows[r].tally.calls
    && forall i :: 0 <= i < |later| ==> KeepsHalted(later[i], s.rows[r].campaign)
  }

  /** In every reachable state in which a campaign does not run, until RUNNING is written to it: a recipient of it is
      called in some continuation if and only if a worker is about to call it, and then at most once. */
  lemma HaltStopsExactly(attempts: nat, before: seq<Action>, r: RowId)
    requires HaltedFor(Run(Empty(attempts), before), r)
    ensures var s := Run(Empty(attempts), before);
            && ((exists later: seq<Action> :: CalledLater(s, later, r)) <==> AboutToCall(s, r))
            && forall later: seq<Action> :: CalledLater(s, later, r) ==>
                 Run(s, later).rows[r].tally.calls == s.rows[r].tally.calls + 1
  {
    var s := Run(Empty(attempts), before);
    ReachableIsSafe(attempts, before);
    hide Inv;
    forall later: seq<Action> | CalledLater(s, later, r)
      ensures AboutToCall(s, r) && Run(s, later).rows[r].tally.calls == s.rows[r].tally.calls + 1
    {
      RunCalls(s, later, r);
    }
    if AboutToCall(s, r) {
      var w :| HeldBy(s, w, r) && s.workers[w].stage.Calling?;
      CallNow(s, w, r);
    }
  }

  lemma CallNow(s: State, w: WorkerId, r: RowId)
    requires HeldBy(s, w, r) && s.workers[w].stage.Calling? && r in s.rows
    ensures CalledLater(s, [CallAccepted(w, None)], r)
  {
    assert Run(s, [CallAccepted(w, None)]) == Run(Step(s, CallAccepted(w, None)), []);
  }
}
