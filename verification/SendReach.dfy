// Exactly which recipients can still be sent. Between reading a campaign and writing its status a call may be
// overtaken, so a campaign that was cancelled comes to run again exactly if a call that read it before has yet to
// write. With that, what an opt-out and a cancel let through is exact.

module SendReach {
  import opened Options
  import opened CampaignErrors
  import opened SendProtocol
  import opened SendSafety
  import opened SendFinality
  import opened SendPauses
  import R = RecipientStatus
  import C = CampaignStatus

  // ---------------------------------------------------------------------------------------------
  // Calls that write a campaign's status
  // ---------------------------------------------------------------------------------------------

  /** A call that has read a campaign and will write this status to it. */
  datatype Call = Call(campaign: CampaignId, status: C.Status)

  datatype System = System(state: State, calls: multiset<Call>)

  datatype Move =
    | Act(action: Action)   // any action of the protocol but a write of a campaign's status
    | Read(call: Call)      // a call reads the campaign and decides what to write
    | Write(call: Call)

  // The statuses from which a start, a resume or a dispatch sets RUNNING.
  predicate Launchable(status: C.Status) {
    status.Draft? || status.Ready? || status.Scheduled? || status.Running? || status.Paused?
  }

  /** What a call may write after it saw this status: a count refresh writes it back or completes, a pause pauses, and a
      start, a resume or a dispatch sets RUNNING. */
  predicate MayWrite(seen: C.Status, status: C.Status) {
    || status == seen
    || (Launchable(seen) && status.Running?)
    || (C.Active(seen) && (status.Paused? || status.Completed?))
    || ((seen.Running? || seen.Queued? || seen.Ready?) && (status.Completed? || status.CompletedWithErrors?))
  }

  function Follow(y: System, m: Move): System {
    match m
    case Act(a) => if a.WriteCampaign? then y else y.(state := Step(y.state, a))
    case Read(call) =>
      if call.campaign in y.state.campaigns && MayWrite(y.state.campaigns[call.campaign], call.status)
      then y.(calls := y.calls + multiset{call})
      else y
    case Write(call) =>
      if call in y.calls
      then System(Step(y.state, WriteCampaign(call.campaign, call.status)), y.calls - multiset{call})
      else y
  }

  function FollowAll(y: System, moves: seq<Move>): System
    decreases |moves|
  {
    if moves == [] then y else FollowAll(Follow(y, moves[0]), moves[1..])
  }

  function Start(attempts: nat): System {
    System(Empty(attempts), multiset{})
  }

  // The run of the protocol behind the moves.
  function Actions(y: System, moves: seq<Move>): seq<Action>
    decreases |moves|
  {
    if moves == [] then []
    else
      (match moves[0]
       case Act(a) => if a.WriteCampaign? then [] else [a]
       case Read(_) => []
       case Write(call) => if call in y.calls then [WriteCampaign(call.campaign, call.status)] else [])
      + Actions(Follow(y, moves[0]), moves[1..])
  }

  lemma {:induction false} MovesAreRuns(y: System, moves: seq<Move>)
    ensures FollowAll(y, moves).state == Run(y.state, Actions(y, moves))
    decreases |moves|
  {
    hide Step;
    if moves != [] {
      var first := Actions(y, [moves[0]]);
      var rest := Actions(Follow(y, moves[0]), moves[1..]);
      assert Actions(Follow(y, moves[0]), [moves[0]][1..]) == [];
      assert Actions(y, moves) == first + rest;
      RunAppend(y.state, first, rest);
      OneMove(y, moves[0]);
      MovesAreRuns(Follow(y, moves[0]), moves[1..]);
    }
  }

  lemma OneMove(y: System, m: Move)
    ensures Run(y.state, Actions(y, [m])) == Follow(y, m).state
  {
    hide Step;
    assert [m][1..] == [] && Actions(Follow(y, m), []) == [];
    var actions := Actions(y, [m]);
    if actions != [] {
      assert |actions| == 1 && Run(y.state, actions) == Run(Step(y.state, actions[0]), actions[1..]);
    }
  }

  // ---------------------------------------------------------------------------------------------
  // Whether a campaign can come to run
  // ---------------------------------------------------------------------------------------------

  // A call is under way that will write a status from which the campaign comes to run.
  ghost predicate CallPending(y: System, c: CampaignId) {
    exists status :: Call(c, status) in y.calls && Launchable(status)
  }

  ghost predicate MayRun(y: System, c: CampaignId) {
    c in y.state.campaigns && (Launchable(y.state.campaigns[c]) || CallPending(y, c))
  }

  lemma StaysIdle(y: System, m: Move, c: CampaignId)
    requires c in y.state.campaigns && !MayRun(y, c)
    ensures c in Follow(y, m).state.campaigns && !MayRun(Follow(y, m), c)
  {
    var y' := Follow(y, m);
    StatusStays(y.state, if m.Act? then m.action else WriteCampaign(m.call.campaign, m.call.status), c);
    hide Step;
    forall status | Call(c, status) in y'.calls ensures !Launchable(status) {
      assert m == Read(Call(c, status)) || Call(c, status) in y.calls;
    }
  }

  lemma StatusStays(s: State, a: Action, c: CampaignId)
    requires c in s.campaigns
    ensures c in Step(s, a).campaigns
    ensures Step(s, a).campaigns[c] == s.campaigns[c] || Step(s, a).campaigns[c].Cancelled?
         || (a.WriteCampaign? && a.campaign == c && Step(s, a).campaigns[c] == a.status)
  {
    hide Local, SetWhere;
  }

  lemma {:induction false} NothingLaunches(y: System, moves: seq<Move>, c: CampaignId)
    requires c in y.state.campaigns && !MayRun(y, c)
    ensures forall i :: 0 <= i < |Actions(y, moves)| ==> KeepsHalted(Actions(y, moves)[i], c)
    decreases |moves|
  {
    hide MayRun, Step;
    if moves != [] {
      StaysIdle(y, moves[0], c);
      NothingLaunches(Follow(y, moves[0]), moves[1..], c);
      if moves[0].Write? && moves[0].call in y.calls && moves[0].call.campaign == c {
        IdleCall(y, moves[0].call);
      }
    }
  }

  lemma IdleCall(y: System, call: Call)
    requires call.campaign in y.state.campaigns && call in y.calls && !MayRun(y, call.campaign)
    ensures !Launchable(call.status)
  {
    assert call == Call(call.campaign, call.status);
  }

  lemma WritesStatus(s: State, c: CampaignId, status: C.Status)
    requires c in s.campaigns && !status.Cancelled?
    ensures Step(s, WriteCampaign(c, status)) == s.(campaigns := s.campaigns[c := status])
  {}

  lemma LaunchNow(y: System, c: CampaignId)
    requires c in y.state.campaigns && Launchable(y.state.campaigns[c])
    ensures FollowAll(y, [Read(Call(c, C.Running)), Write(Call(c, C.Running))]).state
         == y.state.(campaigns := y.state.campaigns[c := C.Running])
  {
    hide Step;
    var run := Call(c, C.Running);
    WritesStatus(y.state, c, C.Running);
    var y1 := Follow(y, Read(run));
    assert y1 == y.(calls := y.calls + multiset{run}) && run in y1.calls;
    hide Follow;
    assert FollowAll(y, [Read(run), Write(run)]) == FollowAll(y1, [Write(run)]);
    assert FollowAll(y1, [Write(run)]) == FollowAll(Follow(y1, Write(run)), []);
    assert Follow(y1, Write(run)).state == Step(y1.state, WriteCampaign(c, C.Running)) by { Writes(y1, run); }
  }

  lemma Writes(y: System, call: Call)
    requires call in y.calls
    ensures Follow(y, Write(call)).state == Step(y.state, WriteCampaign(call.campaign, call.status))
  {
    hide Step;
  }

  /** Moves that set the campaign to RUNNING and do nothing else to the tables. */
  lemma Launch(y: System, c: CampaignId) returns (moves: seq<Move>)
    requires MayRun(y, c)
    ensures FollowAll(y, moves).state == y.state.(campaigns := y.state.campaigns[c := C.Running])
  {
    var run := Call(c, C.Running);
    moves := [Read(run), Write(run)];
    if Launchable(y.state.campaigns[c]) {
      LaunchNow(y, c);
    } else {
      var status :| Call(c, status) in y.calls && Launchable(status);
      LaunchAfter(y, Call(c, status));
      moves := [Write(Call(c, status))] + moves;
    }
  }

  lemma LaunchAfter(y: System, call: Call)
    requires call in y.calls && call.campaign in y.state.campaigns && Launchable(call.status)
    ensures var c := call.campaign;
            FollowAll(y, [Write(call)] + [Read(Call(c, C.Running)), Write(Call(c, C.Running))]).state
            == y.state.(campaigns := y.state.campaigns[c := C.Running])
  {
    hide Step, Follow;
    var y1 := Follow(y, Write(call));
    Writes(y, call);
    WritesStatus(y.state, call.campaign, call.status);
    LaunchNow(y1, call.campaign);
    var launch := [Read(Call(call.campaign, C.Running)), Write(Call(call.campaign, C.Running))];
    assert ([Write(call)] + launch)[1..] == launch;
  }

  // ---------------------------------------------------------------------------------------------
  // Continuations that send, while the campaign runs
  // ---------------------------------------------------------------------------------------------

  // The actions write no campaign's status, and let the provider accept the row at least once more.
  predicate Sends(s: State, later: seq<Action>, r: RowId) {
    && r in s.rows && r in Run(s, later).rows && Run(s, later).rows[r].tally.accepts > s.rows[r].tally.accepts
    && forall i :: 0 <= i < |later| ==> !later[i].WriteCampaign?
  }

  lemma Prepend(s: State, a: Action, later: seq<Action>, r: RowId)
    requires r in s.rows && Sends(Step(s, a), later, r) && !a.WriteCampaign?
    requires Step(s, a).rows[r].tally.accepts == s.rows[r].tally.accepts
    ensures Sends(s, [a] + later, r)
  {
    assert ([a] + later)[1..] == later;
  }

  lemma {:induction false} UnusedId(ids: set<WorkerId>) returns (id: WorkerId)
    ensures forall other :: other in ids ==> other < id
    decreases |ids|
  {
    id := 0;
    if ids != {} {
      var one :| one in ids;
      var above := UnusedId(ids - {one});
      id := if above > one then above else one + 1;
      assert forall other :: other in ids ==> other == one || other in ids - {one};
    }
  }

  predicate RunsFor(s: State, r: RowId) {
    r in s.rows && s.rows[r].campaign in s.campaigns && s.campaigns[s.rows[r].campaign].Running?
  }

  // The worker is at this stage of a job on the row.
  predicate At(s: State, w: WorkerId, r: RowId, stage: Stage) {
    && w in s.workers && s.workers[w].row == r && s.workers[w].stage == stage
    && r in s.rows && s.workers[w].campaign == s.rows[r].campaign
  }

  lemma FromCalling(s: State, w: WorkerId, r: RowId) returns (later: seq<Action>)
    requires At(s, w, r, Calling)
    ensures Sends(s, later, r)
  {
    later := [CallAccepted(w, None)];
    var s1 := Step(s, CallAccepted(w, None));
    assert Run(s, later) == Run(s1, []);
  }

  lemma FromClaimed(s: State, w: WorkerId, r: RowId) returns (later: seq<Action>)
    requires At(s, w, r, Claimed) && RunsFor(s, r)
    ensures Sends(s, later, r)
  {
    var s1 := Step(s, CheckFresh(w));
    assert At(s1, w, r, Calling) && s1.rows[r] == s.rows[r];
    later := FromCalling(s1, w, r);
    hide Step;
    Prepend(s, CheckFresh(w), later, r);
    later := [CheckFresh(w)] + later;
  }

  lemma FromQueued(s: State, r: RowId) returns (later: seq<Action>)
    requires RunsFor(s, r) && s.rows[r].status.Queued? && s.rows[r].providerId.None?
    ensures Sends(s, later, r)
  {
    var c := s.rows[r].campaign;
    var w := UnusedId(s.workers.Keys);
    assert w !in s.workers;
    var s1 := Step(s, Begin(w, c, r));
    assert At(s1, w, r, Claiming) && s1.rows == s.rows;
    var s2 := Step(s1, Claim(w));
    assert At(s2, w, r, Claimed) && s2.rows[r].tally == s.rows[r].tally && RunsFor(s2, r);
    later := FromClaimed(s2, w, r);
    hide Step;
    Prepend(s1, Claim(w), later, r);
    later := [Claim(w)] + later;
    Prepend(s, Begin(w, c, r), later, r);
    later := [Begin(w, c, r)] + later;
  }

  lemma FromWaiting(s: State, r: RowId) returns (later: seq<Action>)
    requires RunsFor(s, r) && R.Waiting(s.rows[r].status) && s.rows[r].providerId.None?
    ensures Sends(s, later, r)
  {
    if s.rows[r].status.Queued? {
      later := FromQueued(s, r);
    } else {
      later := FromQueued(Step(s, QueueRow(r)), r);
      Prepend(s, QueueRow(r), later, r);
      later := [QueueRow(r)] + later;
    }
  }

  lemma FromReleasing(s: State, w: WorkerId, r: RowId) returns (later: seq<Action>)
    requires At(s, w, r, Releasing(R.Pending)) && RunsFor(s, r) && s.rows[r].providerId.None?
    ensures Sends(s, later, r)
  {
    var s1 := Step(s, Release(w));
    assert s1.rows[r] == s.rows[r].(status := R.Pending);
    later := FromWaiting(s1, r);
    Prepend(s, Release(w), later, r);
    later := [Release(w)] + later;
  }

  lemma FromFailing(s: State, w: WorkerId, r: RowId, category: Category) returns (later: seq<Action>)
    requires At(s, w, r, Failing(category)) && RunsFor(s, r) && s.rows[r].providerId.None?
    requires Retryable(category) && AttemptsLeft(s.workers[w], s.attempts)
    ensures Sends(s, later, r)
  {
    var s1 := Step(s, Catch(w));
    assert s1.rows[r] == s.rows[r].(status := R.Queued);
    later := FromWaiting(s1, r);
    Prepend(s, Catch(w), later, r);
    later := [Catch(w)] + later;
  }

  // The recording transaction aborts, or the refresh after a commit without an id throws.
  lemma FromAnswer(s: State, w: WorkerId, r: RowId, a: Action) returns (later: seq<Action>)
    requires w in s.workers && At(s, w, r, s.workers[w].stage) && RunsFor(s, r) && s.rows[r].providerId.None?
    requires AttemptsLeft(s.workers[w], s.attempts)
    requires (s.workers[w].stage.Accepted? && a == RecordAborted(w, RetryableError))
          || (s.workers[w].stage.Recorded? && a == RefreshThrew(w, RetryableError))
    ensures Sends(s, later, r)
  {
    var s1 := Step(s, a);
    assert At(s1, w, r, Failing(RetryableError)) && s1.rows[r] == Lose(s.rows[r]);
    later := FromFailing(s1, w, r, RetryableError);
    Prepend(s, a, later, r);
    later := [a] + later;
  }

  /** A row that is not excluded from sending is accepted in some continuation, if its campaign runs. */
  lemma SomeRunSends(s: State, r: RowId) returns (later: seq<Action>)
    requires Inv(s) && RunsFor(s, r) && !CannotSend(s, r)
    ensures Sends(s, later, r)
  {
    if R.Waiting(s.rows[r].status) && s.rows[r].providerId.None? {
      later := FromWaiting(s, r);
    } else {
      var w :| HeldBy(s, w, r) && Sender(s.workers[w], s.rows[r], s.attempts);
      var stage := s.workers[w].stage;
      assert HolderOk(stage, s.rows[r]) && At(s, w, r, stage);
      hide Inv, Step, Run;
      if stage.Calling? {
        later := FromCalling(s, w, r);
      } else if stage.Claimed? {
        later := FromClaimed(s, w, r);
      } else if stage.Releasing? {
        later := FromReleasing(s, w, r);
      } else if stage.Accepted? {
        later := FromAnswer(s, w, r, RecordAborted(w, RetryableError));
      } else if stage.Recorded? {
        later := FromAnswer(s, w, r, RefreshThrew(w, RetryableError));
      } else {
        later := FromFailing(s, w, r, stage.category);
      }
    }
  }

  // ---------------------------------------------------------------------------------------------
  // The main results
  // ---------------------------------------------------------------------------------------------

  /** The moves let the provider accept the row at least once more. */
  predicate SentLater(y: System, later: seq<Move>, r: RowId) {
    && r in y.state.rows && r in FollowAll(y, later).state.rows
    && FollowAll(y, later).state.rows[r].tally.accepts > y.state.rows[r].tally.accepts
  }

  /** A worker is about to call the provider for the row; or its campaign may come to run, and it waits without a
      provider id or a worker is sending it. */
  ghost predicate Sendable(y: System, r: RowId)
    requires r in y.state.rows
  {
    || AboutToCall(y.state, r)
    || (MayRun(y, y.state.rows[r].campaign)
        && ((R.Waiting(y.state.rows[r].status) && y.state.rows[r].providerId.None?) || BeingSent(y.state, r)))
  }

  function Acts(actions: seq<Action>): seq<Move> {
    seq(|actions|, i requires 0 <= i < |actions| => Act(actions[i]))
  }

  lemma {:induction false} ActsRun(y: System, actions: seq<Action>)
    requires forall i :: 0 <= i < |actions| ==> !actions[i].WriteCampaign?
    ensures FollowAll(y, Acts(actions)) == y.(state := Run(y.state, actions))
    decreases |actions|
  {
    hide Step;
    if actions != [] {
      assert Acts(actions)[1..] == Acts(actions[1..]);
      ActsRun(y.(state := Step(y.state, actions[0])), actions[1..]);
    }
  }

  lemma {:induction false} FollowAppend(y: System, before: seq<Move>, after: seq<Move>)
    ensures FollowAll(y, before + after) == FollowAll(FollowAll(y, before), after)
    decreases |before|
  {
    if before == [] {
      assert before + after == after;
    } else {
      assert (before + after)[1..] == before[1..] + after;
      FollowAppend(Follow(y, before[0]), before[1..], after);
    }
  }

  lemma SomeMovesSend(y: System, r: RowId) returns (later: seq<Move>)
    requires Inv(y.state) && r in y.state.rows && Sendable(y, r)
    ensures SentLater(y, later, r)
  {
    if AboutToCall(y.state, r) {
      var w :| HeldBy(y.state, w, r) && y.state.workers[w].stage.Calling?;
      assert At(y.state, w, r, Calling);
      var actions := FromCalling(y.state, w, r);
      ActsRun(y, actions);
      later := Acts(actions);
    } else {
      var c := y.state.rows[r].campaign;
      var launch := Launch(y, c);
      var y1 := FollowAll(y, launch);
      RunningKeeps(y.state, c, r);
      hide Inv, CannotSend, FollowAll;
      var actions := SomeRunSends(y1.state, r);
      ActsRun(y1, actions);
      FollowAppend(y, launch, Acts(actions));
      later := launch + Acts(actions);
    }
  }

  lemma RunningKeeps(s: State, c: CampaignId, r: RowId)
    requires Inv(s) && r in s.rows && c in s.campaigns
    requires (R.Waiting(s.rows[r].status) && s.rows[r].providerId.None?) || BeingSent(s, r)
    ensures var s' := s.(campaigns := s.campaigns[c := C.Running]);
            Inv(s') && !CannotSend(s', r)
  {
    var s' := s.(campaigns := s.campaigns[c := C.Running]);
    assert Step(s, WriteCampaign(c, C.Running)) == s';
    StepKeeps(s, WriteCampaign(c, C.Running));
    hide Inv, Step;
    if BeingSent(s, r) {
      var w :| HeldBy(s, w, r) && Sender(s.workers[w], s.rows[r], s.attempts);
      assert HeldBy(s', w, r) && Sender(s'.workers[w], s'.rows[r], s'.attempts);
    }
  }

  // The provider accepts a row only when it is called for it.
  ghost predicate AcceptsCalled(s: State, s': State, r: RowId) {
    && r in s.rows && r in s'.rows
    && s'.rows[r].tally.accepts - s.rows[r].tally.accepts <= s'.rows[r].tally.calls - s.rows[r].tally.calls
  }

  lemma AcceptsAreCalls(s: State, a: Action, r: RowId)
    requires Inv(s) && r in s.rows
    ensures AcceptsCalled(s, Step(s, a), r)
  {
    if IsWorkerAction(a) {
      WorkerAccepts(s, a, r);
    } else if IsOutside(a) {
      OutsideFootprint(s, a);
      OutsideAccepts(s, Step(s, a), r);
    } else {
      NewcomersHoldNothing(s, a, r);
    }
    hide Inv, Step;
  }

  lemma WorkerAccepts(s: State, a: Action, r: RowId)
    requires Known(s) && r in s.rows && IsWorkerAction(a)
    ensures AcceptsCalled(s, Step(s, a), r)
  {
    if a.worker in s.workers {
      WorkerWrites(s, a);
      LocalAccepts(s, a.worker, a);
      hide Local, WorkerStep, Step;
    }
  }

  lemma OutsideAccepts(s: State, s': State, r: RowId)
    requires r in s.rows && Outside(s, s')
    ensures AcceptsCalled(s, s', r)
  {
    assert OutsideChange(s.rows[r], s'.rows[r]);
  }

  lemma LocalAccepts(s: State, w: WorkerId, a: Action)
    requires w in s.workers && s.workers[w].row in s.rows && IsWorkerAction(a)
    ensures var before, after := s.rows[s.workers[w].row].tally, Local(s, w, a).row.tally;
            after.accepts - before.accepts <= after.calls - before.calls
  {}

  lemma {:induction false} RunAcceptsAreCalls(s: State, actions: seq<Action>, r: RowId)
    requires Inv(s) && r in s.rows
    ensures AcceptsCalled(s, Run(s, actions), r)
    decreases |actions|
  {
    hide Inv, Step;
    if actions != [] {
      StepKeeps(s, actions[0]);
      AcceptsAreCalls(s, actions[0], r);
      RunAcceptsAreCalls(Step(s, actions[0]), actions[1..], r);
    }
  }

  lemma NoMovesSend(y: System, later: seq<Move>, r: RowId)
    requires Inv(y.state) && r in y.state.rows && !Sendable(y, r)
    ensures !SentLater(y, later, r)
  {
    var actions := Actions(y, later);
    MovesAreRuns(y, later);
    assert y.state.rows[r].campaign in y.state.campaigns;
    if MayRun(y, y.state.rows[r].campaign) {
      CannotSendIsForever(y.state, actions, r);
    } else {
      NothingLaunches(y, later, y.state.rows[r].campaign);
      RunCalls(y.state, actions, r);
      RunAcceptsAreCalls(y.state, actions, r);
    }
  }

  lemma ReachableSystem(attempts: nat, before: seq<Move>)
    ensures Inv(FollowAll(Start(attempts), before).state)
  {
    MovesAreRuns(Start(attempts), before);
    ReachableIsSafe(attempts, Actions(Start(attempts), before));
    hide Inv, Run;
  }

  /** In every reachable state: some continuation sends the row exactly when a worker is about to call the provider for
      it, or its campaign may come to run and it waits without a provider id or a worker is sending it. */
  lemma SendableExactly(attempts: nat, before: seq<Move>, r: RowId)
    requires r in FollowAll(Start(attempts), before).state.rows
    ensures var y := FollowAll(Start(attempts), before);
            (exists later: seq<Move> :: SentLater(y, later, r)) <==> Sendable(y, r)
  {
    var y := FollowAll(Start(attempts), before);
    ReachableSystem(attempts, before);
    hide Inv, FollowAll, Sendable;
    if Sendable(y, r) {
      var later := SomeMovesSend(y, r);
    } else {
      forall later: seq<Move> ensures !SentLater(y, later, r) {
        NoMovesSend(y, later, r);
      }
    }
  }

  // The action takes the row out if it waits.
  predicate TakesOut(s: State, a: Action, r: RowId) {
    && r in s.rows
    && ((a.OptOut? && a.customer == s.rows[r].customer)
        || (a.Cancel? && a.campaign == s.rows[r].campaign && a.campaign in s.campaigns))
  }

  lemma TakenOut(s: State, a: Action, r: RowId)
    requires TakesOut(s, a, r)
    ensures var s1 := Step(s, a);
            && r in s1.rows && !R.Waiting(s1.rows[r].status) && s1.rows[r].tally == s.rows[r].tally
            && s1.rows[r].campaign == s.rows[r].campaign
            && (BeingSent(s1, r) <==> BeingSent(s, r)) && (AboutToCall(s1, r) <==> AboutToCall(s, r))
  {
    var s1 := Step(s, a);
    assert s1.workers == s.workers && s1.attempts == s.attempts;
    assert s1.rows[r].providerId == s.rows[r].providerId;
    forall w ensures HeldBy(s1, w, r) <==> HeldBy(s, w, r) {}
    forall w | HeldBy(s, w, r)
      ensures Sender(s1.workers[w], s1.rows[r], s1.attempts) <==> Sender(s.workers[w], s.rows[r], s.attempts)
    {}
  }

  lemma RunsAfter(y: System, a: Action, c: CampaignId)
    requires c in y.state.campaigns && (a.OptOut? || (a.Cancel? && a.campaign == c))
    ensures MayRun(Follow(y, Act(a)), c) <==> if a.Cancel? then CallPending(y, c) else MayRun(y, c)
  {
    hide SetWhere;
    assert CallPending(Follow(y, Act(a)), c) <==> CallPending(y, c);
  }

  /** An opt-out of the customer, or a cancel of the campaign, lets through exactly the rows for which a worker was
      about to call the provider, and those that a worker was sending while the campaign may come to run: for a cancel,
      while a call that read the campaign before has yet to write its status. Such a row is accepted in some
      continuation, and no other row is in any. */
  lemma LetsThroughExactly(attempts: nat, before: seq<Move>, a: Action, r: RowId)
    requires TakesOut(FollowAll(Start(attempts), before).state, a, r)
    ensures var y := FollowAll(Start(attempts), before);
            var c := y.state.rows[r].campaign;
            (exists later: seq<Move> :: SentLater(Follow(y, Act(a)), later, r)) <==>
              || AboutToCall(y.state, r)
              || (BeingSent(y.state, r) && if a.Cancel? then CallPending(y, c) else MayRun(y, c))
  {
    var y := FollowAll(Start(attempts), before);
    var y1 := Follow(y, Act(a));
    ReachableSystem(attempts, before);
    TakenOut(y.state, a, r);
    assert y.state.rows[r].campaign in y.state.campaigns;
    RunsAfter(y, a, y.state.rows[r].campaign);
    FollowAppend(Start(attempts), before, [Act(a)]);
    assert y1 == FollowAll(Start(attempts), before + [Act(a)])
           by { assert FollowAll(y, [Act(a)]) == FollowAll(y1, []); }
    hide FollowAll, Step, Inv, BeingSent, AboutToCall, MayRun, CallPending;
    SendableExactly(attempts, before + [Act(a)], r);
  }

  /** A row of the customer that is accepted after the opt-out was being sent at that instant, whatever runs before and
      after. */
  lemma OnlyInFlightSurvivesOptOut(attempts: nat, before: seq<Action>, customer: CustomerId, later: seq<Action>,
                                   r: RowId)
    requires var s := Run(Empty(attempts), before); r in s.rows && s.rows[r].customer == customer
    ensures var s := Run(Empty(attempts), before);
            var s2 := Run(Empty(attempts), before + [OptOut(customer)] + later);
            r in s2.rows && (s2.rows[r].tally.accepts == s.rows[r].tally.accepts || BeingSent(s, r))
  {
    var s := Run(Empty(attempts), before);
    var s1 := Step(s, OptOut(customer));
    ReachableIsSafe(attempts, before);
    RunThrough(Empty(attempts), before, OptOut(customer), later);
    hide Run;
    StepKeeps(s, OptOut(customer));
    RowsPersist(s1, later, r);
    TakenOut(s, OptOut(customer), r);
    if !BeingSent(s, r) {
      CannotSendIsForever(s1, later, r);
    }
  }
}
