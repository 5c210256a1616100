// The dispatcher of one campaign against a clock: a pass opens only when nothing is in flight, reads the last update of
// an attempted recipient, and adds jobs one after the other while others are sent and recorded.

module DispatchClock {
  import opened Options
  import opened SendRate

  /** `latest` is the last update of an attempted recipient, `inFlight` the jobs of the newest batch that are neither
      recorded nor gone. */
  datatype Clock = Clock(now: int, latest: Option<int>, batches: seq<Batch>, inFlight: set<nat>)

  const START := Clock(0, None, [], {})

  datatype Action =
    | ATick(ms: nat)
    | AOpen                // a pass that finds nothing in flight
    | AAdd                 // one iteration of its loop
    | ASkip                // an iteration in which the queue throws
    | ARecord(job: nat)    // a send, or its final failure, is recorded
    | ALeave(job: nat)     // a recipient leaves without an attempt
    | ANotify              // a notification updates an attempted recipient

  function Replace(c: Clock, b: Batch): Clock
    requires c.batches != []
  {
    c.(batches := c.batches[|c.batches| - 1 := b])
  }

  function Step(c: Clock, a: Action, batchDelay: int, spacing: int): Clock {
    match a
    case ATick(ms) => c.(now := c.now + ms)
    case AOpen => if c.inFlight == {} then c.(batches := c.batches + [Batch(c.now, c.latest, [], map[])]) else c
    case AAdd =>
      if c.batches == [] then c
      else
        var b := c.batches[|c.batches| - 1];
        Replace(c, b.(at := b.at + [c.now])).(inFlight := c.inFlight + {|b.at|})
    case ASkip =>
      if c.batches == [] then c
      else
        var b := c.batches[|c.batches| - 1];
        Replace(c, b.(at := b.at + [c.now]))
    case ARecord(job) =>
      if c.batches == [] || job !in c.inFlight || job >= |c.batches[|c.batches| - 1].at| then c
      else
        var b := c.batches[|c.batches| - 1];
        if c.now < Due(b, batchDelay, spacing, job) then c
        else Replace(c, b.(recorded := b.recorded[job := c.now])).(latest := Some(c.now),
                                                                   inFlight := c.inFlight - {job})
    case ALeave(job) => c.(inFlight := c.inFlight - {job})
    case ANotify => if c.latest.Some? then c.(latest := Some(c.now)) else c
  }

  function Run(c: Clock, actions: seq<Action>, batchDelay: int, spacing: int): Clock
    decreases |actions|
  {
    if actions == [] then c else Run(Step(c, actions[0], batchDelay, spacing), actions[1..], batchDelay, spacing)
  }

  // ---------------------------------------------------------------------------------------------
  // The invariant
  // ---------------------------------------------------------------------------------------------

  ghost predicate BatchNow(b: Batch, now: int, latest: Option<int>, batchDelay: int, spacing: int) {
    && BatchOk(b, batchDelay, spacing) && b.now <= now
    && (forall i :: 0 <= i < |b.at| ==> b.at[i] <= now)
    && (forall i :: i in b.recorded ==> latest.Some? && b.recorded[i] <= latest.value)
  }

  ghost predicate Inv(c: Clock, batchDelay: int, spacing: int) {
    && (forall k :: 0 <= k < |c.batches| ==> BatchNow(c.batches[k], c.now, c.latest, batchDelay, spacing))
    && (c.latest.Some? ==> c.latest.value <= c.now)
    && SeesEarlier(c.batches)
  }

  // The newest batch changes, and the clock moves on.
  lemma ReplaceKeeps(c: Clock, c': Clock, b: Batch, batchDelay: int, spacing: int)
    requires Inv(c, batchDelay, spacing) && c.batches != []
    requires c'.batches == c.batches[|c.batches| - 1 := b] && c'.now >= c.now
             && b.latest == c.batches[|c.batches| - 1].latest
    requires c'.latest.Some? ==> c'.latest.value <= c'.now
    requires c.latest.Some? ==> c'.latest.Some? && c.latest.value <= c'.latest.value
    requires BatchNow(b, c'.now, c'.latest, batchDelay, spacing)
    ensures Inv(c', batchDelay, spacing)
  {
    hide BatchOk;
    var n := |c.batches| - 1;
    forall k | 0 <= k < |c'.batches| ensures BatchNow(c'.batches[k], c'.now, c'.latest, batchDelay, spacing) {
      if k < n {
        assert BatchNow(c.batches[k], c.now, c.latest, batchDelay, spacing);
      }
    }
    forall k, l, i | 0 <= k < l < |c'.batches| && i in c'.batches[k].recorded
      ensures c'.batches[l].latest.Some? && c'.batches[k].recorded[i] <= c'.batches[l].latest.value
    {
      assert c.batches[k].recorded[i] <= c.batches[l].latest.value;
    }
  }

  lemma LaterKeeps(c: Clock, c': Clock, batchDelay: int, spacing: int)
    requires Inv(c, batchDelay, spacing) && c'.batches == c.batches && c'.now >= c.now
    requires c'.latest.Some? ==> c'.latest.value <= c'.now
    requires c.latest.Some? ==> c'.latest.Some? && c.latest.value <= c'.latest.value
    ensures Inv(c', batchDelay, spacing)
  {
    hide BatchOk;
    forall k | 0 <= k < |c'.batches| ensures BatchNow(c'.batches[k], c'.now, c'.latest, batchDelay, spacing) {
      assert BatchNow(c.batches[k], c.now, c.latest, batchDelay, spacing);
    }
  }

  lemma OpenKeeps(c: Clock, batchDelay: int, spacing: int)
    requires Inv(c, batchDelay, spacing)
    ensures Inv(c.(batches := c.batches + [Batch(c.now, c.latest, [], map[])]), batchDelay, spacing)
  {
    var b := Batch(c.now, c.latest, [], map[]);
    var c' := c.(batches := c.batches + [b]);
    assert BatchOk(b, batchDelay, spacing);
    hide BatchOk;
    forall k | 0 <= k < |c'.batches| ensures BatchNow(c'.batches[k], c'.now, c'.latest, batchDelay, spacing) {
      if k < |c.batches| {
        assert BatchNow(c.batches[k], c.now, c.latest, batchDelay, spacing);
      }
    }
    forall k, l, i | 0 <= k < l < |c'.batches| && i in c'.batches[k].recorded
      ensures c'.batches[l].latest.Some? && c'.batches[k].recorded[i] <= c'.batches[l].latest.value
    {
      assert BatchNow(c.batches[k], c.now, c.latest, batchDelay, spacing);
    }
  }

  // One more job: the due times of the others stay.
  lemma AddKeepsBatch(b: Batch, c: Clock, batchDelay: int, spacing: int)
    requires BatchNow(b, c.now, c.latest, batchDelay, spacing)
    ensures BatchNow(b.(at := b.at + [c.now]), c.now, c.latest, batchDelay, spacing)
  {
    var b' := b.(at := b.at + [c.now]);
    forall i | i in b'.recorded ensures i < |b'.at| && Due(b', batchDelay, spacing, i) <= b'.recorded[i] {
      assert Due(b', batchDelay, spacing, i) == Due(b, batchDelay, spacing, i);
    }
  }

  lemma RecordKeepsBatch(b: Batch, c: Clock, batchDelay: int, spacing: int, job: nat)
    requires BatchNow(b, c.now, c.latest, batchDelay, spacing) && job < |b.at|
             && Due(b, batchDelay, spacing, job) <= c.now
    requires c.latest.Some? ==> c.latest.value <= c.now
    ensures BatchNow(b.(recorded := b.recorded[job := c.now]), c.now, Some(c.now), batchDelay, spacing)
  {
    var b' := b.(recorded := b.recorded[job := c.now]);
    forall i | i in b'.recorded ensures i < |b'.at| && Due(b', batchDelay, spacing, i) <= b'.recorded[i] {
      assert Due(b', batchDelay, spacing, i) == Due(b, batchDelay, spacing, i);
    }
  }

  lemma StepKeeps(c: Clock, a: Action, batchDelay: int, spacing: int)
    requires Inv(c, batchDelay, spacing)
    ensures Inv(Step(c, a, batchDelay, spacing), batchDelay, spacing)
  {
    var c' := Step(c, a, batchDelay, spacing);
    hide BatchOk, Due, SeesEarlier, BatchNow;
    if a.AOpen? {
      OpenKeeps(c, batchDelay, spacing);
    } else if c'.batches != c.batches {
      var b := c.batches[|c.batches| - 1];
      assert BatchNow(b, c.now, c.latest, batchDelay, spacing);
      if a.ARecord? {
        RecordKeepsBatch(b, c, batchDelay, spacing, a.job);
        ReplaceKeeps(c, c.(batches := c'.batches, latest := c'.latest), c'.batches[|c.batches| - 1], batchDelay,
                     spacing);
        LaterKeeps(c.(batches := c'.batches, latest := c'.latest), c', batchDelay, spacing);
      } else {
        AddKeepsBatch(b, c, batchDelay, spacing);
        ReplaceKeeps(c, c.(batches := c'.batches), c'.batches[|c.batches| - 1], batchDelay, spacing);
        LaterKeeps(c.(batches := c'.batches), c', batchDelay, spacing);
      }
    } else {
      LaterKeeps(c, c', batchDelay, spacing);
    }
  }

  lemma {:induction false} RunKeeps(c: Clock, actions: seq<Action>, batchDelay: int, spacing: int)
    requires Inv(c, batchDelay, spacing)
    ensures Inv(Run(c, actions, batchDelay, spacing), batchDelay, spacing)
    decreases |actions|
  {
    hide Inv, Step;
    if actions != [] {
      StepKeeps(c, actions[0], batchDelay, spacing);
      RunKeeps(Step(c, actions[0], batchDelay, spacing), actions[1..], batchDelay, spacing);
    }
  }

  // ---------------------------------------------------------------------------------------------
  // The rate
  // ---------------------------------------------------------------------------------------------

  /** In every run of the dispatcher, however passes, sends, records and notifications interleave: no half-open minute
      holds more due times of recorded sends than the rate, when the batch delay is at least the spacing. */
  lemma RateOfEveryRun(actions: seq<Action>, own: Option<int>, max: int, batchDelay: int, start: int)
    requires Spacing(Rate(own, max)) <= batchDelay
    ensures var spacing := Spacing(Rate(own, max));
            var batches := Run(START, actions, batchDelay, spacing).batches;
            |InMinute(AllDues(batches, batchDelay, spacing), start)| <= Rate(own, max)
  {
    var spacing := Spacing(Rate(own, max));
    var c := Run(START, actions, batchDelay, spacing);
    RunKeeps(START, actions, batchDelay, spacing);
    hide Run, AllDues, InMinute;
    assert BatchesOk(c.batches, batchDelay, spacing) by {
      forall k | 0 <= k < |c.batches| ensures BatchOk(c.batches[k], batchDelay, spacing) {
        assert BatchNow(c.batches[k], c.now, c.latest, batchDelay, spacing);
      }
    }
    RateHolds(c.batches, own, max, batchDelay, start);
  }

  // The due times of all jobs of a batch, recorded or not.
  function JobDues(b: Batch, batchDelay: int, spacing: int): seq<int> {
    seq(|b.at|, i requires 0 <= i < |b.at| => Due(b, batchDelay, spacing, i))
  }

  /** Whatever the batch delay, each batch of every run alone has at most `rate` due times in a minute, recorded or
      not. */
  lemma RateOfEveryBatch(actions: seq<Action>, own: Option<int>, max: int, batchDelay: int, k: nat, start: int)
    requires k < |Run(START, actions, batchDelay, Spacing(Rate(own, max))).batches|
    ensures var spacing := Spacing(Rate(own, max));
            var batch := Run(START, actions, batchDelay, spacing).batches[k];
            |InMinute(JobDues(batch, batchDelay, spacing), start)| <= Rate(own, max)
  {
    var spacing := Spacing(Rate(own, max));
    var c := Run(START, actions, batchDelay, spacing);
    RunKeeps(START, actions, batchDelay, spacing);
    hide Run, InMinute;
    var b := c.batches[k];
    assert BatchNow(b, c.now, c.latest, batchDelay, spacing);
    var dues := JobDues(b, batchDelay, spacing);
    forall i | 0 < i < |dues| ensures dues[i - 1] + spacing <= dues[i] {
      DuesIncrease(b, batchDelay, spacing, i - 1, i);
    }
    SpacedMinute(dues, Rate(own, max), spacing, start);
  }

  // ---------------------------------------------------------------------------------------------
  // The condition on the batch delay is needed
  // ---------------------------------------------------------------------------------------------

  // A pass of one recipient, who is sent and recorded at the due time.
  function Round(batchDelay: nat, i: nat): seq<Action> {
    [ATick(if i == 0 then 0 else batchDelay), AOpen, AAdd, ARecord(0)]
  }

  function Rounds(batchDelay: nat, n: nat): seq<Action> {
    if n == 0 then [] else Rounds(batchDelay, n - 1) + Round(batchDelay, n - 1)
  }

  function AfterRounds(batchDelay: nat, n: nat): Clock {
    var now := if n == 0 then 0 else Offset(n - 1, batchDelay);
    Clock(now, if n == 0 then None else Some(now), OneByOne(batchDelay, n), {})
  }

  lemma {:induction false} RunAppend(c: Clock, before: seq<Action>, after: seq<Action>, batchDelay: int, spacing: int)
    ensures Run(c, before + after, batchDelay, spacing)
            == Run(Run(c, before, batchDelay, spacing), after, batchDelay, spacing)
    decreases |before|
  {
    hide Step;
    if before == [] {
      assert before + after == after;
    } else {
      assert (before + after)[1..] == before[1..] + after;
      RunAppend(Step(c, before[0], batchDelay, spacing), before[1..], after, batchDelay, spacing);
    }
  }

  lemma FourSteps(c: Clock, w: Action, x: Action, y: Action, z: Action, batchDelay: int, spacing: int)
    ensures var c2 := Step(Step(c, w, batchDelay, spacing), x, batchDelay, spacing);
            Run(c, [w, x, y, z], batchDelay, spacing) == Step(Step(c2, y, batchDelay, spacing), z, batchDelay, spacing)
  {
    hide Step;
    var c1 := Step(c, w, batchDelay, spacing);
    var c2 := Step(c1, x, batchDelay, spacing);
    var c3 := Step(c2, y, batchDelay, spacing);
    assert Run(c3, [z], batchDelay, spacing) == Run(Step(c3, z, batchDelay, spacing), [], batchDelay, spacing);
    assert Run(c2, [y, z], batchDelay, spacing) == Run(c3, [z], batchDelay, spacing);
    assert Run(c1, [x, y, z], batchDelay, spacing) == Run(c2, [y, z], batchDelay, spacing);
  }

  // The pass, from a clock that stands at its due time.
  lemma OnePass(c: Clock, b: Batch, batchDelay: int, spacing: int)
    requires c.inFlight == {} && b == Batch(c.now, c.latest, [c.now], map[0 := c.now])
             && Due(b, batchDelay, spacing, 0) == c.now
    ensures Step(Step(Step(c, AOpen, batchDelay, spacing), AAdd, batchDelay, spacing), ARecord(0), batchDelay, spacing)
         == Clock(c.now, Some(c.now), c.batches + [b], {})
  {
    var blank := Batch(c.now, c.latest, [], map[]);
    var added := blank.(at := [c.now]);
    assert Step(c, AOpen, batchDelay, spacing) == c.(batches := c.batches + [blank]);
    assert [] + [c.now] == [c.now];
    var c2 := c.(batches := c.batches + [blank]);
    assert Replace(c2, added).batches == c.batches + [added];
    assert Step(c2, AAdd, batchDelay, spacing) == c.(batches := c.batches + [added], inFlight := {0});
    assert Due(added, batchDelay, spacing, 0) == Due(b, batchDelay, spacing, 0);
    hide Due;
    var c3 := c.(batches := c.batches + [added], inFlight := {0});
    assert Replace(c3, b).batches == c.batches + [b];
  }

  lemma OneRound(batchDelay: nat, spacing: int, i: nat)
    ensures Run(AfterRounds(batchDelay, i), Round(batchDelay, i), batchDelay, spacing) == AfterRounds(batchDelay, i + 1)
  {
    var c := AfterRounds(batchDelay, i);
    FourSteps(c, ATick(if i == 0 then 0 else batchDelay), AOpen, AAdd, ARecord(0), batchDelay, spacing);
    var c1 := c.(now := Offset(i, batchDelay));
    assert Step(c, ATick(if i == 0 then 0 else batchDelay), batchDelay, spacing) == c1;
    OneDue(batchDelay, spacing, i);
    hide Step, Run, Offset, Due;
    OnePass(c1, OneBatch(batchDelay, i), batchDelay, spacing);
    assert OneByOne(batchDelay, i + 1) == OneByOne(batchDelay, i) + [OneBatch(batchDelay, i)];
  }

  lemma {:induction false} RoundsRun(batchDelay: nat, spacing: int, n: nat)
    ensures Run(START, Rounds(batchDelay, n), batchDelay, spacing) == AfterRounds(batchDelay, n)
  {
    if n > 0 {
      RoundsRun(batchDelay, spacing, n - 1);
      RunAppend(START, Rounds(batchDelay, n - 1), Round(batchDelay, n - 1), batchDelay, spacing);
      OneRound(batchDelay, spacing, n - 1);
    }
  }

  /** With any shorter batch delay a run of the dispatcher, of passes of one recipient each, puts one send too many into
      a minute. */
  lemma ShorterDelayFailsInARun(own: Option<int>, max: int, batchDelay: int)
    requires 0 <= batchDelay < Spacing(Rate(own, max))
    ensures var rate := Rate(own, max);
            var c := Run(START, Rounds(batchDelay, rate + 1), batchDelay, Spacing(rate));
            |InMinute(AllDues(c.batches, batchDelay, Spacing(rate)), 0)| == rate + 1
  {
    RoundsRun(batchDelay, Spacing(Rate(own, max)), Rate(own, max) + 1);
    hide Run, AllDues, InMinute;
    ShorterDelayFails(own, max, batchDelay);
  }
}
