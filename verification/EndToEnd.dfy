// From the selected customers to the provider: a campaign makes the provider accept at most one message per
// customer, however its preparation was batched and whatever the delivery protocol did afterwards.

module EndToEnd {
  import opened Options
  import opened SendProtocol
  import opened SendSafety
  import opened SendFinality
  import P = Preparation
  import R = RecipientStatus

  ghost predicate Injective(key: P.DebtId -> RowId) {
    forall d, e :: key(d) == key(e) ==> d == e
  }

  function RecipientOf(campaign: CampaignId, prepared: P.Prepared): Row {
    Row(campaign, prepared.customer, if prepared.status.Pending? then R.Pending else R.Skipped, None, None, 0,
        NO_HISTORY)
  }

  /** The recipient rows that a preparation run inserts; `key` gives each (campaign, debt) pair its row id. */
  function Recipients(campaign: CampaignId, rows: map<P.DebtId, P.Prepared>, key: P.DebtId -> RowId): map<RowId, Row>
    requires Injective(key)
  {
    map d | d in rows :: key(d) := RecipientOf(campaign, rows[d])
  }

  // ---------------------------------------------------------------------------------------------
  // No later step adds rows to a prepared campaign, or makes a skipped row sendable
  // ---------------------------------------------------------------------------------------------

  ghost predicate NoNewRows(s: State, campaign: CampaignId, known: set<RowId>) {
    campaign in s.campaigns && forall r :: r in s.rows && s.rows[r].campaign == campaign ==> r in known
  }

  lemma StepKeepsNoNewRows(s: State, a: Action, campaign: CampaignId, known: set<RowId>)
    requires Inv(s) && NoNewRows(s, campaign, known)
    ensures NoNewRows(Step(s, a), campaign, known)
  {
    var s' := Step(s, a);
    StepAddsNothing(s, a, campaign);
    forall r | r in s'.rows && s'.rows[r].campaign == campaign ensures r in known {
      if r in s.rows {
        StepKeepsIdentity(s, a, r);
      }
    }
    hide Step, Inv;
  }

  lemma StepAddsNothing(s: State, a: Action, campaign: CampaignId)
    requires Inv(s) && campaign in s.campaigns
    ensures campaign in Step(s, a).campaigns
    ensures forall r :: r in Step(s, a).rows && r !in s.rows ==> Step(s, a).rows[r].campaign != campaign
  {
    if IsWorkerAction(a) {
      WorkerAddsNothing(s, a);
      hide Local;
    } else if IsOutside(a) {
      OutsideFootprint(s, a);
      hide Step;
    }
  }

  // ---------------------------------------------------------------------------------------------
  // One row after the run of its campaign's preparation
  // ---------------------------------------------------------------------------------------------

  /** What a run that follows the preparation may say about one of the campaign's rows. */
  ghost predicate Accounted(s: State, campaign: CampaignId, rows: map<RowId, Row>, r: RowId) {
    && r in rows && r in s.rows && s.rows[r].customer == rows[r].customer
    && (!rows[r].status.Pending? ==> CannotSend(s, r) && s.rows[r].tally.accepts == 0)
  }

  ghost predicate AllAccounted(s: State, campaign: CampaignId, rows: map<RowId, Row>) {
    && campaign in s.campaigns
    && forall r :: r in s.rows && s.rows[r].campaign == campaign ==> Accounted(s, campaign, rows, r)
  }

  lemma StepKeepsAccounted(s: State, a: Action, campaign: CampaignId, rows: map<RowId, Row>)
    requires Inv(s) && AllAccounted(s, campaign, rows)
    ensures AllAccounted(Step(s, a), campaign, rows)
  {
    var s' := Step(s, a);
    StepKeepsNoNewRows(s, a, campaign, set r | r in s.rows && s.rows[r].campaign == campaign);
    forall r | r in s'.rows && s'.rows[r].campaign == campaign ensures Accounted(s', campaign, rows, r) {
      assert r in s.rows && s.rows[r].campaign == campaign;
      StepKeepsIdentity(s, a, r);
      assert Accounted(s, campaign, rows, r);
      if !rows[r].status.Pending? {
        StepKeepsCannotSend(s, a, r);
      }
    }
  }

  lemma {:induction false} RunKeepsAccounted(s: State, actions: seq<Action>, campaign: CampaignId,
                                             rows: map<RowId, Row>)
    requires Inv(s) && AllAccounted(s, campaign, rows)
    ensures AllAccounted(Run(s, actions), campaign, rows)
    decreases |actions|
  {
    if actions != [] {
      StepKeeps(s, actions[0]);
      StepKeepsAccounted(s, actions[0], campaign, rows);
      RunKeepsAccounted(Step(s, actions[0]), actions[1..], campaign, rows);
    }
  }

  lemma PreparingAccounts(s: State, campaign: CampaignId, rows: map<RowId, Row>)
    requires Inv(s) && campaign !in s.campaigns && PrepareStep(s, campaign, rows) != s
    ensures AllAccounted(PrepareStep(s, campaign, rows), campaign, rows)
  {}

  // ---------------------------------------------------------------------------------------------
  // The main result
  // ---------------------------------------------------------------------------------------------

  /** A preparation action with the rows of a run over these items. */
  function PrepareFrom(campaign: CampaignId, items: seq<P.Item>, key: P.DebtId -> RowId): Action
    requires Injective(key)
  {
    Prepare(campaign, Recipients(campaign, P.PreparedRows(items), key))
  }

  lemma AccountedOncePerCustomer(s: State, campaign: CampaignId, items: seq<P.Item>, key: P.DebtId -> RowId,
                                 r: RowId, q: RowId)
    requires Injective(key) && AllAccounted(s, campaign, Recipients(campaign, P.PreparedRows(items), key))
    requires r in s.rows && s.rows[r].campaign == campaign && s.rows[r].tally.accepts > 0
    requires q in s.rows && s.rows[q].campaign == campaign && s.rows[q].tally.accepts > 0
    requires s.rows[r].customer == s.rows[q].customer
    ensures r == q
  {
    var prepared := P.PreparedRows(items);
    var rows := Recipients(campaign, prepared, key);
    assert Accounted(s, campaign, rows, r) && Accounted(s, campaign, rows, q);
    P.PreparationSendsOncePerCustomer(items);
    var d :| d in prepared && key(d) == r;
    var e :| e in prepared && key(e) == q;
    assert d in P.PendingRows(prepared) && e in P.PendingRows(prepared);
  }

  /** Take any protocol run in which a new campaign is prepared from any customers and debts and in which
      accepted ids are recorded, and stop it anywhere. Two rows of the campaign for the same customer that the
      provider accepted are the same row, and it was accepted once. */
  lemma OneMessagePerCustomer(attempts: nat, before: seq<Action>, after: seq<Action>, campaign: CampaignId,
                              items: seq<P.Item>, key: P.DebtId -> RowId, r: RowId, q: RowId)
    requires Injective(key)
    requires AllRecording(before) && AllRecording(after)
    requires campaign !in Run(Empty(attempts), before).campaigns
    requires campaign in Run(Empty(attempts), before + [PrepareFrom(campaign, items, key)]).campaigns
    requires var s := Run(Empty(attempts), before + [PrepareFrom(campaign, items, key)] + after);
             && r in s.rows && s.rows[r].campaign == campaign && s.rows[r].tally.accepts > 0
             && q in s.rows && s.rows[q].campaign == campaign && s.rows[q].tally.accepts > 0
             && s.rows[r].customer == s.rows[q].customer
    ensures r == q
    ensures Run(Empty(attempts), before + [PrepareFrom(campaign, items, key)] + after).rows[r].tally.accepts == 1
  {
    var a := PrepareFrom(campaign, items, key);
    AllRecordingAppend(before, a, after);
    AtMostOnce(attempts, before + [a] + after, r);
    PreparedRunIsAccounted(attempts, before, after, campaign, Recipients(campaign, P.PreparedRows(items), key));
    AccountedOncePerCustomer(Run(Empty(attempts), before + [a] + after), campaign, items, key, r, q);
  }

  lemma PreparedRunIsAccounted(attempts: nat, before: seq<Action>, after: seq<Action>, campaign: CampaignId,
                               rows: map<RowId, Row>)
    requires campaign !in Run(Empty(attempts), before).campaigns
    requires campaign in Run(Empty(attempts), before + [Prepare(campaign, rows)]).campaigns
    ensures AllAccounted(Run(Empty(attempts), before + [Prepare(campaign, rows)] + after), campaign, rows)
  {
    PreparedState(attempts, before, campaign, rows);
    RunKeepsAccounted(Run(Empty(attempts), before + [Prepare(campaign, rows)]), after, campaign, rows);
    RunAppend(Empty(attempts), before + [Prepare(campaign, rows)], after);
  }

  lemma PreparedState(attempts: nat, before: seq<Action>, campaign: CampaignId, rows: map<RowId, Row>)
    requires campaign !in Run(Empty(attempts), before).campaigns
    requires campaign in Run(Empty(attempts), before + [Prepare(campaign, rows)]).campaigns
    ensures Inv(Run(Empty(attempts), before + [Prepare(campaign, rows)]))
    ensures AllAccounted(Run(Empty(attempts), before + [Prepare(campaign, rows)]), campaign, rows)
  {
    var s0 := Run(Empty(attempts), before);
    ReachableIsSafe(attempts, before);
    RunAppend(Empty(attempts), before, [Prepare(campaign, rows)]);
    assert Run(s0, [Prepare(campaign, rows)]) == Step(s0, Prepare(campaign, rows));
    StepKeeps(s0, Prepare(campaign, rows));
    PreparingAccounts(s0, campaign, rows);
  }
}
