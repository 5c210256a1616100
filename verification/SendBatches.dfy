// The in-flight bound of the dispatcher. A dispatch pass reads that nothing is in flight, selects a batch, and
// moves its rows to QUEUED one statement at a time while workers claim, release and retry, admins resume, and
// customers opt out in between. A pass holds its campaign's lock, so passes of one campaign do not overlap.

module SendBatches {
  import opened BatchLimits
  import opened Options
  import opened CampaignErrors
  import opened SendProtocol
  import opened SendSafety
  import opened SendRetries
  import R = RecipientStatus
  import C = CampaignStatus

  /** The latest pass of a campaign: the selected rows, how many were handled, and whether it holds the lock. */
  datatype Pass = Pass(batch: seq<RowId>, next: nat, locked: bool)

  datatype System = System(state: State, passes: map<CampaignId, Pass>)

  datatype Event =
    | Protocol(action: Action)                              // any protocol action but a dispatcher's write
    | OpenPass(campaign: CampaignId, selected: seq<RowId>)  // lock, reads and selection
    | QueueNext(campaign: CampaignId, enqueued: bool)       // one iteration of the dispatcher's loop
    | ClosePass(campaign: CampaignId)                       // the lock is released, or expires after a crash

  predicate InFlightOf(s: State, campaign: CampaignId, r: RowId) {
    r in s.rows && s.rows[r].campaign == campaign && R.InFlight(s.rows[r].status)
  }

  function InFlightSet(s: State, campaign: CampaignId): set<RowId> {
    set r | r in s.rows && InFlightOf(s, campaign, r)
  }

  /** The campaigns' own batch sizes, which may be null or zero, and the two environment values. */
  datatype Limits = Limits(own: map<CampaignId, Option<nat>>, fallback: nat, maximum: nat)

  function BatchSize(limits: Limits, c: CampaignId): nat {
    EffectiveBatchSize(if c in limits.own then limits.own[c] else None, limits.fallback, limits.maximum)
  }

  predicate MayOpen(y: System, campaign: CampaignId, selected: seq<RowId>, limits: Limits) {
    && campaign in y.state.campaigns && C.Active(y.state.campaigns[campaign])
    && (campaign in y.passes ==> !y.passes[campaign].locked)
    && InFlightSet(y.state, campaign) == {}
    && 0 < |selected| <= BatchSize(limits, campaign)
    && (forall r :: r in selected ==>
        r in y.state.rows && y.state.rows[r].campaign == campaign && y.state.rows[r].status.Pending?)
  }

  function Next(y: System, e: Event, limits: Limits): System {
    match e
    case Protocol(a) => if a.QueueRow? then y else y.(state := Step(y.state, a))
    case OpenPass(c, selected) =>
      if MayOpen(y, c, selected, limits) then y.(passes := y.passes[c := Pass(selected, 0, true)]) else y
    case QueueNext(c, enqueued) =>
      if c in y.passes && y.passes[c].locked && y.passes[c].next < |y.passes[c].batch|
      then
        var p := y.passes[c];
        System(if enqueued then Step(y.state, QueueRow(p.batch[p.next])) else y.state,
               y.passes[c := p.(next := p.next + 1)])
      else y
    case ClosePass(c) =>
      if c in y.passes then y.(passes := y.passes[c := y.passes[c].(locked := false)]) else y
  }

  /** One live job per row, and no count refresh fails after a send. */
  predicate Regular(y: System, e: Event) {
    e.Protocol? ==> OneJob(y.state, e.action) && !e.action.RefreshThrew?
  }

  ghost predicate RegularRun(y: System, events: seq<Event>, limits: Limits)
    decreases |events|
  {
    events == [] || (Regular(y, events[0]) && RegularRun(Next(y, events[0], limits), events[1..], limits))
  }

  function RunAll(y: System, events: seq<Event>, limits: Limits): System
    decreases |events|
  {
    if events == [] then y else RunAll(Next(y, events[0], limits), events[1..], limits)
  }

  function Start(attempts: nat): System {
    System(Empty(attempts), map[])
  }

  // ---------------------------------------------------------------------------------------------
  // Invariant: whatever is in flight belongs to the latest batch
  // ---------------------------------------------------------------------------------------------

  // A worker in the catch block is there because of its call, so its row is still PROCESSING.
  ghost predicate FailuresProcess(s: State)
    requires Known(s)
  {
    forall w :: w in s.workers && s.workers[w].stage.Failing? ==> FailedCall(s.rows[s.workers[w].row])
  }

  predicate FailedCall(row: Row) {
    row.status.Processing? && row.providerId.None?
  }

  ghost predicate Batched(y: System, limits: Limits) {
    && Inv(y.state) && Within(y.state) && FailuresProcess(y.state)
    && (forall c :: c in y.passes ==> |y.passes[c].batch| <= BatchSize(limits, c))
    && (forall c, r :: c in y.passes && r in y.passes[c].batch ==> r in y.state.rows && y.state.rows[r].campaign == c)
    && (forall c, r :: InFlightOf(y.state, c, r) ==> c in y.passes && r in y.passes[c].batch)
  }

  lemma LocalEffect(s: State, u: WorkerId, a: Action)
    requires IsWorkerAction(a) && !a.RefreshThrew? && u in s.workers && s.workers[u].row in s.rows
    requires OwnRowOk(s.workers[u], s.rows[s.workers[u].row], s.attempts)
    ensures var o := Local(s, u, a);
            var row := s.rows[s.workers[u].row];
            && (R.InFlight(o.row.status) ==> R.InFlight(row.status))
            && (o.stage.Some? && o.stage.value.Failing? ==> FailedCall(o.row))
            && (!Live(s.workers[u].stage) ==> o.row == row)
  {}

  // What the invariants say of a worker and its row.
  predicate OwnRowOk(me: Worker, row: Row, attempts: nat) {
    HolderOk(me.stage, row) && JobWithin(me, row, attempts) && (me.stage.Failing? ==> FailedCall(row))
  }

  lemma OwnRow(s: State, u: WorkerId)
    requires Inv(s) && Within(s) && FailuresProcess(s) && u in s.workers
    ensures s.workers[u].row in s.rows && OwnRowOk(s.workers[u], s.rows[s.workers[u].row], s.attempts)
  {}

  lemma OutsideTakesOffNothing(s: State, a: Action, r: RowId)
    requires IsOutside(a) && !a.QueueRow? && r in s.rows
    ensures r in Step(s, a).rows
    ensures R.InFlight(Step(s, a).rows[r].status) ==> R.InFlight(s.rows[r].status)
    ensures s.rows[r].campaign == Step(s, a).rows[r].campaign
  {}

  /** No row enters flight by an action that is not the dispatcher's. */
  lemma NothingElseTakesOff(s: State, a: Action, r: RowId)
    requires Inv(s) && Within(s) && FailuresProcess(s)
    requires !a.RefreshThrew? && !a.QueueRow?
    requires r in Step(s, a).rows && R.InFlight(Step(s, a).rows[r].status)
    ensures r in s.rows && R.InFlight(s.rows[r].status) && s.rows[r].campaign == Step(s, a).rows[r].campaign
  {
    if IsWorkerAction(a) {
      if a.worker in s.workers {
        hide *;
        OwnRow(s, a.worker);
        LocalEffect(s, a.worker, a);
        WorkerWrites(s, a);
        LocalKeepsIdentity(s, a.worker, a);
      }
    } else if IsOutside(a) {
      OutsideTakesOffNothing(s, a, r);
    }
  }

  lemma WorkerKeepsFailures(s: State, a: Action)
    requires Inv(s) && Within(s) && FailuresProcess(s) && !a.RefreshThrew? && IsWorkerAction(a)
    requires Known(WorkerStep(s, a))
    ensures FailuresProcess(WorkerStep(s, a))
  {
    var u := a.worker;
    if u in s.workers {
      OwnRow(s, u);
      LocalEffect(s, u, a);
      WorkerWrites(s, a);
      hide *;
      PutKeepsFailures(s, u, Local(s, u, a), WorkerStep(s, a));
    }
  }

  lemma PutKeepsFailures(s: State, u: WorkerId, o: Outcome, s': State)
    requires Inv(s) && Within(s) && FailuresProcess(s) && u in s.workers && Known(s')
    requires s'.rows == s.rows[s.workers[u].row := o.row] && s'.workers == Put(s, u, o).workers
    requires o.stage.Some? && o.stage.value.Failing? ==> FailedCall(o.row)
    requires !Live(s.workers[u].stage) ==> o.row == s.rows[s.workers[u].row]
    ensures FailuresProcess(s')
  {
    hide Inv, FailedCall, RowWithin, JobWithin;
    forall w | w in s'.workers && s'.workers[w].stage.Failing?
      ensures FailedCall(s'.rows[s'.workers[w].row])
    {
      if w != u {
        assert s.workers[w].stage.Failing? && Live(s.workers[w].stage);
      }
    }
  }

  lemma OutsideKeepsFailures(s: State, s': State)
    requires Known(s) && FailuresProcess(s) && Outside(s, s') && Known(s')
    ensures FailuresProcess(s')
  {}

  lemma StepKeepsFailures(s: State, a: Action)
    requires Inv(s) && Within(s) && FailuresProcess(s) && !a.RefreshThrew?
    ensures Inv(Step(s, a)) && FailuresProcess(Step(s, a))
  {
    StepKeeps(s, a);
    if IsWorkerAction(a) {
      WorkerKeepsFailures(s, a);
    } else if IsOutside(a) {
      OutsideFootprint(s, a);
      OutsideKeepsFailures(s, Step(s, a));
    } else {
      NewcomersKeepFailures(s, a);
    }
    hide Inv, Within, FailuresProcess;
  }

  lemma NewcomersKeepFailures(s: State, a: Action)
    requires Known(s) && FailuresProcess(s) && (a.Begin? || a.Prepare?) && Known(Step(s, a))
    ensures FailuresProcess(Step(s, a))
  {}

  lemma ProtocolKeepsBatched(y: System, a: Action, limits: Limits)
    requires Batched(y, limits) && OneJob(y.state, a) && !a.RefreshThrew? && !a.QueueRow?
    ensures Batched(y.(state := Step(y.state, a)), limits)
  {
    hide OneJob, Step, Within, FailuresProcess, Inv, InFlightOf, Batched;
    BatchesStay(y, a, limits);
    FlightsStay(y, a, limits);
    StateStays(y, a, limits);
    MovedIsBatched(y, Step(y.state, a), limits);
  }

  lemma MovedIsBatched(y: System, s: State, limits: Limits)
    requires Batched(y, limits) && Inv(s) && Within(s) && FailuresProcess(s)
    requires forall c, r :: c in y.passes && r in y.passes[c].batch ==> r in s.rows && s.rows[r].campaign == c
    requires forall c, r :: InFlightOf(s, c, r) ==> c in y.passes && r in y.passes[c].batch
    ensures Batched(y.(state := s), limits)
  {
    hide Within, FailuresProcess, Inv, InFlightOf;
  }

  lemma StateStays(y: System, a: Action, limits: Limits)
    requires Batched(y, limits) && OneJob(y.state, a) && !a.RefreshThrew?
    ensures Inv(Step(y.state, a)) && Within(Step(y.state, a)) && FailuresProcess(Step(y.state, a))
  {
    hide Step, Within, FailuresProcess, Inv, InFlightOf, OneJob;
    StepKeepsWithin(y.state, a);
    StepKeepsFailures(y.state, a);
  }

  lemma BatchesStay(y: System, a: Action, limits: Limits)
    requires Batched(y, limits)
    ensures forall c, r :: c in y.passes && r in y.passes[c].batch ==>
              r in Step(y.state, a).rows && Step(y.state, a).rows[r].campaign == c
  {
    hide Step, Within, FailuresProcess, Inv, InFlightOf;
    forall c, r | c in y.passes && r in y.passes[c].batch
      ensures r in Step(y.state, a).rows && Step(y.state, a).rows[r].campaign == c
    {
      StepKeepsIdentity(y.state, a, r);
    }
  }

  lemma FlightsStay(y: System, a: Action, limits: Limits)
    requires Batched(y, limits) && !a.RefreshThrew? && !a.QueueRow?
    ensures forall c, r :: InFlightOf(Step(y.state, a), c, r) ==> c in y.passes && r in y.passes[c].batch
  {
    hide Step, Within, FailuresProcess, Inv;
    forall c, r | InFlightOf(Step(y.state, a), c, r) ensures c in y.passes && r in y.passes[c].batch {
      NothingElseTakesOff(y.state, a, r);
      assert InFlightOf(y.state, c, r);
    }
  }

  lemma QueueingKeepsBatched(y: System, c: CampaignId, enqueued: bool, limits: Limits)
    requires Batched(y, limits)
    ensures Batched(Next(y, QueueNext(c, enqueued), limits), limits)
  {
    hide Within, FailuresProcess, Inv, Step, InFlightOf;
    if c in y.passes && y.passes[c].locked && y.passes[c].next < |y.passes[c].batch| {
      var p := y.passes[c];
      var moved := y.(passes := y.passes[c := p.(next := p.next + 1)]);
      assert Batched(moved, limits);
      if enqueued {
        WriteKeepsBatched(moved, c, p.batch[p.next], limits);
      }
    }
  }

  // The dispatcher's write of a row that its campaign's pass has selected.
  lemma WriteKeepsBatched(y: System, c: CampaignId, id: RowId, limits: Limits)
    requires Batched(y, limits) && c in y.passes && id in y.passes[c].batch
    ensures Batched(y.(state := Step(y.state, QueueRow(id))), limits)
  {
    StateStays(y, QueueRow(id), limits);
    BatchesStay(y, QueueRow(id), limits);
    forall d, r | InFlightOf(Step(y.state, QueueRow(id)), d, r) ensures d in y.passes && r in y.passes[d].batch {
      WriteTakesOffOne(y.state, id, d, r);
    }
    hide Step, Within, FailuresProcess, Inv, InFlightOf;
    MovedIsBatched(y, Step(y.state, QueueRow(id)), limits);
  }

  lemma WriteTakesOffOne(s: State, id: RowId, c: CampaignId, r: RowId)
    requires InFlightOf(Step(s, QueueRow(id)), c, r)
    ensures InFlightOf(s, c, r) || (r == id && r in s.rows && s.rows[r].campaign == c)
  {}

  lemma OpeningKeepsBatched(y: System, c: CampaignId, selected: seq<RowId>, limits: Limits)
    requires Batched(y, limits)
    ensures Batched(Next(y, OpenPass(c, selected), limits), limits)
  {
    hide Within, FailuresProcess, Inv;
    var y' := Next(y, OpenPass(c, selected), limits);
    forall d, r | InFlightOf(y'.state, d, r) ensures d in y'.passes && r in y'.passes[d].batch {
      assert InFlightOf(y.state, d, r);
      assert r in InFlightSet(y.state, d);
    }
  }

  lemma {:induction false} RunKeepsBatched(y: System, events: seq<Event>, limits: Limits)
    requires Batched(y, limits) && RegularRun(y, events, limits)
    ensures Batched(RunAll(y, events, limits), limits)
    decreases |events|
  {
    if events != [] {
      NextKeepsBatched(y, events[0], limits);
      hide Batched, Next, Regular;
      RunKeepsBatched(Next(y, events[0], limits), events[1..], limits);
    }
  }

  lemma NextKeepsBatched(y: System, e: Event, limits: Limits)
    requires Batched(y, limits) && Regular(y, e)
    ensures Batched(Next(y, e, limits), limits)
  {
    hide Step, Within, FailuresProcess, Inv, InFlightOf;
    match e
    case Protocol(a) => if !a.QueueRow? { ProtocolKeepsBatched(y, a, limits); }
    case OpenPass(c, selected) => OpeningKeepsBatched(y, c, selected, limits);
    case QueueNext(c, enqueued) => QueueingKeepsBatched(y, c, enqueued, limits);
    case ClosePass(c) =>
  }

  // ---------------------------------------------------------------------------------------------
  // The main result
  // ---------------------------------------------------------------------------------------------

  lemma {:induction false} SubsetOfSequence(elements: set<RowId>, list: seq<RowId>)
    requires forall r :: r in elements ==> r in list
    ensures |elements| <= |list|
    decreases |list|
  {
    if list == [] {
      assert elements == {};
    } else {
      var rest := elements - {list[0]};
      forall r | r in rest ensures r in list[1..] {
        assert r in list && r != list[0];
      }
      SubsetOfSequence(rest, list[1..]);
      assert elements <= rest + {list[0]};
    }
  }

  /** At every point of a regular run, at most one batch of each campaign is QUEUED or PROCESSING. */
  lemma InFlightBounded(attempts: nat, events: seq<Event>, limits: Limits, campaign: CampaignId)
    requires attempts > 0 && RegularRun(Start(attempts), events, limits)
    ensures var inFlight := InFlightSet(RunAll(Start(attempts), events, limits).state, campaign);
            |inFlight| <= BatchSize(limits, campaign) <= limits.maximum
  {
    RunKeepsBatched(Start(attempts), events, limits);
    var y := RunAll(Start(attempts), events, limits);
    var inFlight := InFlightSet(y.state, campaign);
    if inFlight != {} {
      forall r | r in inFlight ensures campaign in y.passes && r in y.passes[campaign].batch {
        assert InFlightOf(y.state, campaign, r);
      }
      SubsetOfSequence(inFlight, y.passes[campaign].batch);
    }
  }

  // ---------------------------------------------------------------------------------------------
  // The bound is reached
  // ---------------------------------------------------------------------------------------------

  function FreshRows(n: nat): map<RowId, Row> {
    map i: nat | i < n :: Row(0, i, R.Pending, None, None, 0, NO_HISTORY)
  }

  function Ids(n: nat): seq<RowId> {
    seq(n, i requires 0 <= i < n => i)
  }

  /** Prepare a campaign of n recipients and dispatch the first k of one batch of all of them. */
  function OneBatch(n: nat, k: nat): seq<Event> {
    if k == 0 then [Protocol(Prepare(0, FreshRows(n))), OpenPass(0, Ids(n))]
    else OneBatch(n, k - 1) + [QueueNext(0, true)]
  }

  function AfterSome(attempts: nat, n: nat, k: nat): System {
    System(State(attempts, map[0 := C.Scheduled], {},
                 map i: nat | i < n :: FreshRows(n)[i].(status := if i < k then R.Queued else R.Pending), map[], map[]),
           map[0 := Pass(Ids(n), k, true)])
  }

  lemma {:induction false} RunAllAppend(y: System, before: seq<Event>, e: Event, limits: Limits)
    ensures RunAll(y, before + [e], limits) == Next(RunAll(y, before, limits), e, limits)
    ensures RegularRun(y, before, limits) && Regular(RunAll(y, before, limits), e) ==>
            RegularRun(y, before + [e], limits)
    decreases |before|
  {
    hide Next, Regular;
    if before == [] {
      assert [] + [e] == [e] && [e][1..] == [];
      assert RunAll(Next(y, e, limits), [], limits) == Next(y, e, limits);
    } else {
      assert (before + [e])[1..] == before[1..] + [e];
      RunAllAppend(Next(y, before[0], limits), before[1..], e, limits);
    }
  }

  lemma OpenedBatch(attempts: nat, n: nat, limits: Limits)
    requires 0 < n <= BatchSize(limits, 0)
    ensures RunAll(Start(attempts), OneBatch(n, 0), limits) == AfterSome(attempts, n, 0)
    ensures RegularRun(Start(attempts), OneBatch(n, 0), limits)
  {
    hide BatchSize, Next, RunAll, RegularRun, AfterSome, FreshRows;
    var prepare := Protocol(Prepare(0, FreshRows(n)));
    FirstTwo(attempts, n, limits);
    RunAllAppend(Start(attempts), [], prepare, limits);
    EmptyRun(Start(attempts), limits);
    assert [] + [prepare] == [prepare];
    RunAllAppend(Start(attempts), [prepare], OpenPass(0, Ids(n)), limits);
    assert [prepare] + [OpenPass(0, Ids(n))] == OneBatch(n, 0);
  }

  lemma EmptyRun(y: System, limits: Limits)
    ensures RunAll(y, [], limits) == y && RegularRun(y, [], limits)
  {}

  lemma FirstTwo(attempts: nat, n: nat, limits: Limits)
    requires 0 < n <= BatchSize(limits, 0)
    ensures var y1 := Next(Start(attempts), Protocol(Prepare(0, FreshRows(n))), limits);
            Next(y1, OpenPass(0, Ids(n)), limits) == AfterSome(attempts, n, 0)
  {
    hide BatchSize;
    var y1 := Next(Start(attempts), Protocol(Prepare(0, FreshRows(n))), limits);
    assert y1.state == AfterSome(attempts, n, 0).state;
    assert InFlightSet(y1.state, 0) == {};
    assert MayOpen(y1, 0, Ids(n), limits);
  }

  lemma {:induction false} BatchGrows(attempts: nat, n: nat, k: nat, limits: Limits)
    requires 0 < n <= BatchSize(limits, 0) && k <= n
    ensures RunAll(Start(attempts), OneBatch(n, k), limits) == AfterSome(attempts, n, k)
    ensures RegularRun(Start(attempts), OneBatch(n, k), limits)
    decreases k
  {
    hide BatchSize, Next, RunAll, RegularRun, AfterSome, OneJob;
    if k == 0 {
      OpenedBatch(attempts, n, limits);
    } else {
      BatchGrows(attempts, n, k - 1, limits);
      RunAllAppend(Start(attempts), OneBatch(n, k - 1), QueueNext(0, true), limits);
      OneMoreQueued(attempts, n, k - 1, limits);
    }
  }

  lemma OneMoreQueued(attempts: nat, n: nat, k: nat, limits: Limits)
    requires k < n
    ensures Next(AfterSome(attempts, n, k), QueueNext(0, true), limits) == AfterSome(attempts, n, k + 1)
  {
    var y, y' := AfterSome(attempts, n, k), AfterSome(attempts, n, k + 1);
    assert Ids(n)[k] == k && y.state.rows[k].status.Pending?;
    assert y.state.rows[k := y.state.rows[k].(status := R.Queued)] == y'.state.rows;
  }

  lemma {:induction false} RangeSize(ids: set<RowId>, n: nat)
    requires forall i: RowId :: i in ids <==> i < n
    ensures |ids| == n
    decreases n
  {
    if n > 0 {
      RangeSize(ids - {n - 1}, n - 1);
    } else {
      assert ids == {};
    }
  }

  /** For all limits that let a batch have a recipient, a regular run brings a whole batch into flight. */
  lemma InFlightReached(attempts: nat, limits: Limits)
    requires BatchSize(limits, 0) > 0
    ensures var n := BatchSize(limits, 0);
            var events := OneBatch(n, n);
            && RegularRun(Start(attempts), events, limits)
            && |InFlightSet(RunAll(Start(attempts), events, limits).state, 0)| == n
  {
    var n := BatchSize(limits, 0);
    hide BatchSize;
    BatchGrows(attempts, n, n, limits);
    RangeSize(InFlightSet(AfterSome(attempts, n, n).state, 0), n);
  }
}
