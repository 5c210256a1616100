// Runs that show how far the guarantees of SendSafety and SendFinality reach: the bound on repeated sends is
// attained, and opt-out does not stop a row that a worker is sending.

module SendWitnesses {
  import opened Options
  import opened CampaignErrors
  import opened SendProtocol
  import R = RecipientStatus
  import C = CampaignStatus

  // One running campaign with one queued recipient that was attempted n times.
  function QueuedAfter(attempts: nat, n: nat, t: Tally): State {
    State(attempts, map[0 := C.Running], {}, map[0 := Row(0, 0, R.Queued, None, None, n, t)], map[], map[])
  }

  // A worker stands before the provider call of attempt n + 1.
  function CallingAfter(attempts: nat, n: nat, t: Tally): State {
    State(attempts, map[0 := C.Running], {}, map[0 := Row(0, 0, R.Processing, None, None, n + 1, t)], map[],
          map[0 := Worker(0, 0, n, Calling)])
  }

  function Setup(): seq<Action> {
    [Prepare(0, map[0 := Row(0, 0, R.Pending, None, None, 0, NO_HISTORY)]), WriteCampaign(0, C.Running), QueueRow(0)]
  }

  function SendUpToCall(): seq<Action> {
    [Begin(0, 0, 0), Claim(0), CheckFresh(0)]
  }

  function LoseAnswer(): seq<Action> {
    [CallAccepted(0, Some(0)), RecordAborted(0, RetryableError), Catch(0)]
  }

  function Retry(): seq<Action> {
    [CallRejected(0, RateLimit), Catch(0)]
  }

  function LostRounds(n: nat): seq<Action> {
    if n == 0 then Setup() else LostRounds(n - 1) + (SendUpToCall() + LoseAnswer())
  }

  // ---------------------------------------------------------------------------------------------
  // Running the pieces
  // ---------------------------------------------------------------------------------------------

  lemma RunVia(s: State, before: seq<Action>, middle: State, after: seq<Action>, end: State)
    requires Run(s, before) == middle && Run(middle, after) == end
    ensures Run(s, before + after) == end
  {
    RunAppend(s, before, after);
  }

  lemma RunOne(s: State, a: Action)
    ensures Run(s, [a]) == Step(s, a)
  {}

  lemma RunTwo(s: State, a: Action, b: Action)
    ensures Run(s, [a, b]) == Step(Step(s, a), b)
  {
    assert [a, b] == [a] + [b];
    RunOne(s, a);
    RunOne(Step(s, a), b);
    RunVia(s, [a], Step(s, a), [b], Step(Step(s, a), b));
  }

  lemma SetupQueues(attempts: nat)
    ensures Run(Empty(attempts), Setup()) == QueuedAfter(attempts, 0, NO_HISTORY)
  {}

  lemma ReachesCall(attempts: nat, n: nat, t: Tally)
    ensures Run(QueuedAfter(attempts, n, t), SendUpToCall()) == CallingAfter(attempts, n, t)
  {}

  lemma AnswerIsLost(attempts: nat, n: nat, t: Tally)
    requires n + 1 < attempts
    ensures Run(CallingAfter(attempts, n, t), LoseAnswer())
         == QueuedAfter(attempts, n + 1, Tally(t.calls + 1, t.accepts + 1, t.lost + 1))
  {}

  lemma CallIsRetried(attempts: nat, n: nat, t: Tally)
    requires n + 1 < attempts
    ensures Run(CallingAfter(attempts, n, t), Retry()) == QueuedAfter(attempts, n + 1, t.(calls := t.calls + 1))
  {}

  lemma CallIsAccepted(attempts: nat, n: nat, t: Tally)
    ensures var s := Run(CallingAfter(attempts, n, t), [CallAccepted(0, Some(0))]);
            0 in s.rows && s.rows[0].customer == 0 && s.rows[0].tally == Tally(t.calls + 1, t.accepts + 1, t.lost)
  {}

  lemma NextRound(attempts: nat, m: nat, before: seq<Action>)
    requires m + 1 < attempts
    requires Run(Empty(attempts), before) == QueuedAfter(attempts, m, Tally(m, m, m))
    ensures Run(Empty(attempts), before + (SendUpToCall() + LoseAnswer()))
         == QueuedAfter(attempts, m + 1, Tally(m + 1, m + 1, m + 1))
  {
    hide Run, Step;
    var t := Tally(m, m, m);
    ReachesCall(attempts, m, t);
    AnswerIsLost(attempts, m, t);
    RunAppend(QueuedAfter(attempts, m, t), SendUpToCall(), LoseAnswer());
    RunAppend(Empty(attempts), before, SendUpToCall() + LoseAnswer());
  }

  lemma {:induction false} ManyLostRounds(attempts: nat, n: nat)
    requires n < attempts
    ensures Run(Empty(attempts), LostRounds(n)) == QueuedAfter(attempts, n, Tally(n, n, n))
  {
    if n == 0 {
      SetupQueues(attempts);
    } else {
      ManyLostRounds(attempts, n - 1);
      NextRound(attempts, n - 1, LostRounds(n - 1));
    }
  }

  // ---------------------------------------------------------------------------------------------
  // The witnesses
  // ---------------------------------------------------------------------------------------------

  /** The bound of AcceptsBoundedByLosses is attained: below the retry limit, n aborted recordings let the
      provider accept the same recipient n + 1 times. */
  lemma LossesAllowRepeats(attempts: nat, n: nat)
    requires n < attempts
    ensures var s := Run(Empty(attempts), LostRounds(n) + SendUpToCall() + [CallAccepted(0, Some(0))]);
            0 in s.rows && s.rows[0].tally.accepts == n + 1 && s.rows[0].tally.lost == n
  {
    var t := Tally(n, n, n);
    ManyLostRounds(attempts, n);
    ReachesCall(attempts, n, t);
    RunVia(Empty(attempts), LostRounds(n), QueuedAfter(attempts, n, t), SendUpToCall(), CallingAfter(attempts, n, t));
    CallIsAccepted(attempts, n, t);
    RunVia(Empty(attempts), LostRounds(n) + SendUpToCall(), CallingAfter(attempts, n, t), [CallAccepted(0, Some(0))],
           Run(CallingAfter(attempts, n, t), [CallAccepted(0, Some(0))]));
  }

  function InFlight(): seq<Action> {
    Setup() + SendUpToCall()
  }

  lemma OptOutPassesBy(attempts: nat)
    ensures Run(CallingAfter(attempts, 0, NO_HISTORY), [OptOut(0)]) == CallingAfter(attempts, 0, NO_HISTORY)
  {}

  function RetriedAndSent(): seq<Action> {
    Retry() + SendUpToCall() + [CallAccepted(0, Some(0))]
  }

  /** Opt-out leaves a PROCESSING row alone: its customer can still be sent the message, even by a later retry
      of a call that failed after the opt-out. */
  lemma OptOutMissesInFlight(attempts: nat)
    requires attempts > 1
    ensures var s := Run(Empty(attempts), InFlight());
            var s2 := Run(Empty(attempts), InFlight() + [OptOut(0)] + RetriedAndSent());
            && 0 in s.rows && s.rows[0].customer == 0 && s.rows[0].tally.accepts == 0
            && 0 in s2.rows && s2.rows[0].tally.accepts == 1
  {
    hide Run, Step;
    var s := CallingAfter(attempts, 0, NO_HISTORY);
    SetupQueues(attempts);
    ReachesCall(attempts, 0, NO_HISTORY);
    RunVia(Empty(attempts), Setup(), QueuedAfter(attempts, 0, NO_HISTORY), SendUpToCall(), s);
    OptOutPassesBy(attempts);
    RunVia(Empty(attempts), InFlight(), s, [OptOut(0)], s);
    var t := Tally(1, 0, 0);
    CallIsRetried(attempts, 0, NO_HISTORY);
    ReachesCall(attempts, 1, t);
    CallIsAccepted(attempts, 1, t);
    var end := Run(CallingAfter(attempts, 1, t), [CallAccepted(0, Some(0))]);
    RunVia(s, Retry(), QueuedAfter(attempts, 1, t), SendUpToCall(), CallingAfter(attempts, 1, t));
    RunVia(s, Retry() + SendUpToCall(), CallingAfter(attempts, 1, t), [CallAccepted(0, Some(0))], end);
    RunVia(Empty(attempts), InFlight() + [OptOut(0)], s, RetriedAndSent(), end);
  }

  // ---------------------------------------------------------------------------------------------
  // Several jobs for one recipient
  // ---------------------------------------------------------------------------------------------

  predicate Remaining(w: WorkerId, m: nat) {
    m <= w
  }

  // n jobs have read the row before its first attempt, and the first m of them have failed since.
  function Stale(attempts: nat, n: nat, m: nat): State {
    State(attempts, map[0 := C.Running], {}, map[0 := Row(0, 0, R.Queued, None, None, m, Tally(m, 0, 0))], map[],
          map w | m <= w < n && Remaining(w, m) :: Worker(0, 0, 0, Claiming))
  }

  function Begins(n: nat): seq<Action> {
    if n == 0 then Setup() else Begins(n - 1) + [Begin(n - 1, 0, 0)]
  }

  function FailingTry(w: WorkerId): seq<Action> {
    [Claim(w), CheckFresh(w)] + [CallRejected(w, RateLimit), Catch(w)]
  }

  function FailingTries(n: nat, m: nat): seq<Action> {
    if m == 0 then Begins(n) else FailingTries(n, m - 1) + FailingTry(m - 1)
  }

  lemma {:induction false} AllBegin(attempts: nat, n: nat)
    ensures Run(Empty(attempts), Begins(n)) == Stale(attempts, n, 0)
  {
    if n == 0 {
      SetupQueues(attempts);
      assert Stale(attempts, 0, 0) == QueuedAfter(attempts, 0, NO_HISTORY);
    } else {
      AllBegin(attempts, n - 1);
      var s := Stale(attempts, n - 1, 0);
      RunOne(s, Begin(n - 1, 0, 0));
      assert Step(s, Begin(n - 1, 0, 0)) == Stale(attempts, n, 0);
      RunVia(Empty(attempts), Begins(n - 1), s, [Begin(n - 1, 0, 0)], Stale(attempts, n, 0));
    }
  }

  // Worker m has claimed the row and stands before its call.
  function StaleCalling(attempts: nat, n: nat, m: nat): State
    requires m < n
  {
    Stale(attempts, n, m).(rows := map[0 := Row(0, 0, R.Processing, None, None, m + 1, Tally(m, 0, 0))],
                           workers := Stale(attempts, n, m).workers[m := Worker(0, 0, 0, Calling)])
  }

  lemma StaleClaims(attempts: nat, n: nat, m: nat)
    requires m < n
    ensures Run(Stale(attempts, n, m), [Claim(m), CheckFresh(m)]) == StaleCalling(attempts, n, m)
  {
    var s := Stale(attempts, n, m);
    RunTwo(s, Claim(m), CheckFresh(m));
    var s1 := Step(s, Claim(m));
    assert s1.rows == map[0 := Row(0, 0, R.Processing, None, None, m + 1, Tally(m, 0, 0))];
    assert s1.workers == s.workers[m := Worker(0, 0, 0, Claimed)];
    var s2 := Step(s1, CheckFresh(m));
    assert s2.workers == s.workers[m := Worker(0, 0, 0, Calling)];
    assert s2.rows == s1.rows;
  }

  lemma StaleFails(attempts: nat, n: nat, m: nat)
    requires m < n && attempts > 1
    ensures Run(StaleCalling(attempts, n, m), [CallRejected(m, RateLimit), Catch(m)]) == Stale(attempts, n, m + 1)
  {
    var s := StaleCalling(attempts, n, m);
    RunTwo(s, CallRejected(m, RateLimit), Catch(m));
    var s1 := Step(s, CallRejected(m, RateLimit));
    assert s1.rows == map[0 := Row(0, 0, R.Processing, None, None, m + 1, Tally(m + 1, 0, 0))];
    assert s1.workers == s.workers[m := Worker(0, 0, 0, Failing(RateLimit))];
    var s2 := Step(s1, Catch(m));
    assert s2.rows == map[0 := Row(0, 0, R.Queued, None, None, m + 1, Tally(m + 1, 0, 0))];
    assert s2.workers == Stale(attempts, n, m + 1).workers;
  }

  lemma {:induction false} AllFail(attempts: nat, n: nat, m: nat)
    requires m <= n && attempts > 1
    ensures Run(Empty(attempts), FailingTries(n, m)) == Stale(attempts, n, m)
  {
    if m == 0 {
      AllBegin(attempts, n);
    } else {
      AllFail(attempts, n, m - 1);
      StaleClaims(attempts, n, m - 1);
      StaleFails(attempts, n, m - 1);
      hide Run, Step, Stale;
      RunVia(Stale(attempts, n, m - 1), [Claim(m - 1), CheckFresh(m - 1)], StaleCalling(attempts, n, m - 1),
             [CallRejected(m - 1, RateLimit), Catch(m - 1)], Stale(attempts, n, m));
      RunVia(Empty(attempts), FailingTries(n, m - 1), Stale(attempts, n, m - 1), FailingTry(m - 1),
             Stale(attempts, n, m));
    }
  }

  /** Without the rule of one live job per recipient there is no bound on the calls, whatever the attempts allowed:
      n jobs that have read the row before its first attempt make n calls, and the row is QUEUED again. */
  lemma StaleJobsExceedAttempts(attempts: nat, n: nat)
    requires attempts > 1
    ensures var s := Run(Empty(attempts), FailingTries(n, n));
            0 in s.rows && s.rows[0].tally.calls == n && s.rows[0].status.Queued?
  {
    AllFail(attempts, n, n);
  }
}
