// The sending rate of a campaign (src/services/campaign-dispatcher.service.js:56-68): how far apart the dispatcher
// spaces the jobs of a batch, and what that guarantees for every minute.

module SendRate {
  import opened Options

  const MINUTE := 60000

  /** `Math.max(1, Math.min(campaign.rateLimitPerMinute || max, max))` */
  function Rate(own: Option<int>, max: int): (rate: int)
    ensures rate >= 1
  {
    var wanted := if own.Some? && own.value != 0 then own.value else max;
    var capped := if wanted < max then wanted else max;
    if capped > 1 then capped else 1
  }

  /** The rate is the highest one that neither the campaign's own, if it has one, nor the maximum exceeds, and 1 if
      there is none. */
  lemma RateIsHighest(own: Option<int>, max: int, rate: int)
    requires rate >= 1
    ensures rate <= Rate(own, max)
            <==> rate == 1 || (rate <= max && (own.Some? && own.value != 0 ==> rate <= own.value))
  {}

  /** `Math.ceil(60000 / ratePerMinute)` */
  function Spacing(rate: int): (spacing: int)
    requires rate >= 1
    ensures spacing >= 1 && rate * spacing >= MINUTE && rate * (spacing - 1) < MINUTE
  {
    var spacing := (MINUTE + rate - 1) / rate;
    DivisionRest(MINUTE + rate - 1, rate);
    assert rate * (spacing - 1) == rate * spacing - rate;
    assert spacing >= 1 by { PositiveFactor(rate, spacing); }
    spacing
  }

  lemma PositiveFactor(x: int, y: int)
    requires x >= 1 && x * y > 0
    ensures y >= 1
  {}

  lemma DivisionRest(x: int, y: int)
    requires y > 0
    ensures x - y < y * (x / y) <= x
  {}

  /** One pass of the dispatch loop: when the pass read the clock, the last update of an attempted recipient that it
      found, the times at which the jobs were added, in order, and for the jobs whose sends were recorded, the time
      of that record. */
  datatype Batch = Batch(now: int, latest: Option<int>, at: seq<int>, recorded: map<nat, int>)

  function Delay(b: Batch, batchDelay: int): int {
    if b.latest.None? then 0
    else
      var rest := batchDelay - (b.now - b.latest.value);
      if rest > 0 then rest else 0
  }

  function Offset(i: int, spacing: int): int {
    i * spacing
  }

  // The time from which the queue may run the job.
  function Due(b: Batch, batchDelay: int, spacing: int, i: nat): int
    requires i < |b.at|
  {
    b.at[i] + Delay(b, batchDelay) + Offset(i, spacing)
  }

  /** The loop reads the clock before it adds the first job, and a job never runs before it is due. */
  ghost predicate BatchOk(b: Batch, batchDelay: int, spacing: int) {
    && (forall i :: 0 <= i < |b.at| ==> b.now <= b.at[i])
    && (forall i, j :: 0 <= i < j < |b.at| ==> b.at[i] <= b.at[j])
    && (forall i :: i in b.recorded ==> i < |b.at| && Due(b, batchDelay, spacing, i) <= b.recorded[i])
  }

  /** The loop as the source runs it; `refused` are the iterations in which the queue throws. */
  method AddJobs(delayMs: int, spacingMs: int, at: seq<int>, refused: set<nat>) returns (due: map<nat, int>)
    requires spacingMs >= 0 && forall i, j :: 0 <= i < j < |at| ==> at[i] <= at[j]
    ensures forall i :: i in due <==> 0 <= i < |at| && i !in refused
    ensures forall i, j :: i in due && j in due && i < j ==> due[i] + spacingMs <= due[j]
    ensures forall i :: i in due ==> due[i] >= at[i] + delayMs
  {
    due := map[];
    var index := 0;
    while index < |at|
      invariant 0 <= index <= |at|
      invariant forall i :: i in due <==> 0 <= i < index && i !in refused
      invariant forall i :: i in due ==> due[i] == at[i] + delayMs + i * spacingMs
    {
      if index !in refused {
        due := due[index := at[index] + delayMs + index * spacingMs];
      }
      index := index + 1;
    }
    forall i, j | i in due && j in due && i < j ensures due[i] + spacingMs <= due[j] {
      Multiples(i, j, spacingMs);
    }
    forall i | i in due ensures due[i] >= at[i] + delayMs {
      Multiples(0, i + 1, spacingMs);
      assert (i + 1) * spacingMs == i * spacingMs + spacingMs;
    }
  }

  lemma {:induction false} Multiples(i: nat, j: nat, d: int)
    requires i < j && d >= 0
    ensures i * d + d <= j * d
    decreases j - i
  {
    assert (j - 1) * d + d == j * d;
    if i < j - 1 {
      Multiples(i, j - 1, d);
    }
  }

  // ---------------------------------------------------------------------------------------------
  // Spaced sequences
  // ---------------------------------------------------------------------------------------------

  predicate Spaced(s: seq<int>, d: int) {
    forall i :: 0 < i < |s| ==> s[i - 1] + d <= s[i]
  }

  lemma {:induction false} SpacedFar(s: seq<int>, d: int, i: nat, j: nat)
    requires Spaced(s, d) && i <= j < |s|
    ensures s[i] + (j - i) * d <= s[j]
    decreases j - i
  {
    if i < j {
      SpacedFar(s, d, i, j - 1);
      assert (j - i) * d == (j - 1 - i) * d + d;
    }
  }

  /** The positions of the times that fall into the minute that starts at `start`. */
  function InMinute(s: seq<int>, start: int): set<nat> {
    set i | 0 <= i < |s| && start <= s[i] < start + MINUTE
  }

  lemma {:induction false} RangeSize(positions: set<nat>, low: nat, n: nat)
    requires forall i :: i in positions ==> low <= i < low + n
    ensures |positions| <= n
    decreases n
  {
    if n > 0 {
      RangeSize(positions - {low + n - 1}, low, n - 1);
    } else {
      assert positions == {};
    }
  }

  /** Times that are at least one spacing apart: no minute holds more of them than the rate. */
  lemma SpacedMinute(s: seq<int>, rate: nat, spacing: int, start: int)
    requires rate * spacing >= MINUTE && spacing >= 0 && Spaced(s, spacing)
    ensures |InMinute(s, start)| <= rate
  {
    hide Spaced;
    var inside := InMinute(s, start);
    if inside != {} {
      var first := Least(inside);
      forall i | i in inside ensures first <= i < first + rate {
        if i >= first + rate {
          MinuteApart(s, rate, spacing, first, i);
        }
      }
      RangeSize(inside, first, rate);
    }
  }

  lemma MinuteApart(s: seq<int>, rate: nat, spacing: int, i: nat, j: nat)
    requires rate * spacing >= MINUTE && spacing >= 0 && Spaced(s, spacing) && i + rate <= j < |s|
    ensures s[i] + MINUTE <= s[j]
  {
    SpacedFar(s, spacing, i, j);
    Multiples(rate, j - i + 1, spacing);
    assert (j - i + 1) * spacing == (j - i) * spacing + spacing;
  }

  lemma {:induction false} Least(positions: set<nat>) returns (least: nat)
    requires positions != {}
    ensures least in positions && forall i :: i in positions ==> least <= i
    decreases |positions|
  {
    var one :| one in positions;
    least := one;
    var others := positions - {one};
    if others != {} {
      var rest := Least(others);
      least := if rest < one then rest else one;
      forall i | i in positions ensures least <= i {
        assert i == one || i in others;
      }
    } else {
      assert positions == {one} + others;
    }
  }

  // ---------------------------------------------------------------------------------------------
  // Batches
  // ---------------------------------------------------------------------------------------------

  // The due times of the recorded sends among the first n jobs of a batch.
  function RecordedDues(b: Batch, batchDelay: int, spacing: int, n: nat): seq<int>
    requires n <= |b.at|
  {
    if n == 0 then []
    else RecordedDues(b, batchDelay, spacing, n - 1)
         + (if n - 1 in b.recorded then [Due(b, batchDelay, spacing, n - 1)] else [])
  }

  function AllDues(batches: seq<Batch>, batchDelay: int, spacing: int): seq<int> {
    if batches == [] then []
    else
      var b := batches[|batches| - 1];
      AllDues(batches[..|batches| - 1], batchDelay, spacing) + RecordedDues(b, batchDelay, spacing, |b.at|)
  }

  lemma DuesIncrease(b: Batch, batchDelay: int, spacing: int, i: nat, j: nat)
    requires BatchOk(b, batchDelay, spacing) && spacing >= 0 && i < j < |b.at|
    ensures Due(b, batchDelay, spacing, i) + spacing <= Due(b, batchDelay, spacing, j)
  {
    Multiples(i, j, spacing);
  }

  // No job of a batch is due before the batch delay after the update that the pass found.
  lemma DueAfterDelay(b: Batch, batchDelay: int, spacing: int, i: nat)
    requires BatchOk(b, batchDelay, spacing) && spacing >= 0 && i < |b.at| && b.latest.Some?
    ensures b.latest.value + batchDelay <= Due(b, batchDelay, spacing, i)
  {}

  // One of the first n jobs is recorded and due at this time.
  ghost predicate RecordedAt(b: Batch, batchDelay: int, spacing: int, n: nat, x: int)
    requires n <= |b.at|
  {
    exists i :: i in b.recorded && i < n && x == Due(b, batchDelay, spacing, i)
  }

  lemma {:induction false} DuesInBatch(b: Batch, batchDelay: int, spacing: int, n: nat)
    requires BatchOk(b, batchDelay, spacing) && n <= |b.at| && spacing >= 0
    ensures var dues := RecordedDues(b, batchDelay, spacing, n);
            Spaced(dues, spacing) && forall k :: 0 <= k < |dues| ==> RecordedAt(b, batchDelay, spacing, n, dues[k])
  {
    hide BatchOk, Due;
    if n > 0 {
      DuesInBatch(b, batchDelay, spacing, n - 1);
      var before := RecordedDues(b, batchDelay, spacing, n - 1);
      var dues := RecordedDues(b, batchDelay, spacing, n);
      if n - 1 in b.recorded && before != [] {
        var last := before[|before| - 1];
        var i :| i in b.recorded && i < n - 1 && last == Due(b, batchDelay, spacing, i);
        DuesIncrease(b, batchDelay, spacing, i, n - 1);
      }
      forall k | 0 <= k < |dues| ensures RecordedAt(b, batchDelay, spacing, n, dues[k]) {
        if k < |before| {
          assert RecordedAt(b, batchDelay, spacing, n - 1, before[k]);
        }
      }
    }
  }

  // A batch is dispatched when the ones before it are no longer in flight, so that its pass sees their records.
  ghost predicate SeesEarlier(batches: seq<Batch>) {
    forall k, l, i :: 0 <= k < l < |batches| && i in batches[k].recorded ==>
      batches[l].latest.Some? && batches[k].recorded[i] <= batches[l].latest.value
  }

  ghost predicate BatchesOk(batches: seq<Batch>, batchDelay: int, spacing: int) {
    SeesEarlier(batches) && forall k :: 0 <= k < |batches| ==> BatchOk(batches[k], batchDelay, spacing)
  }

  // Some record in the batches is not older than the time.
  ghost predicate Covered(batches: seq<Batch>, x: int) {
    exists k, i :: 0 <= k < |batches| && i in batches[k].recorded && x <= batches[k].recorded[i]
  }

  lemma CoveredBefore(batches: seq<Batch>, x: int)
    requires batches != [] && SeesEarlier(batches) && Covered(batches[..|batches| - 1], x)
    ensures Covered(batches, x)
    ensures batches[|batches| - 1].recorded != map[] ==>
              batches[|batches| - 1].latest.Some? && x <= batches[|batches| - 1].latest.value
  {}

  // A due time of the newest batch.
  lemma DueInBatch(b: Batch, batchDelay: int, spacing: int, x: int)
    requires BatchOk(b, batchDelay, spacing) && spacing >= 0 && x in RecordedDues(b, batchDelay, spacing, |b.at|)
    ensures exists i :: i in b.recorded && x <= b.recorded[i]
    ensures b.latest.Some? ==> b.latest.value + batchDelay <= x
  {
    hide Due, RecordedDues;
    DuesInBatch(b, batchDelay, spacing, |b.at|);
    assert RecordedAt(b, batchDelay, spacing, |b.at|, x);
    var i :| i in b.recorded && i < |b.at| && x == Due(b, batchDelay, spacing, i);
    if b.latest.Some? {
      DueAfterDelay(b, batchDelay, spacing, i);
    }
  }

  lemma SpacedJoin(before: seq<int>, now: seq<int>, spacing: int)
    requires Spaced(before, spacing) && Spaced(now, spacing)
    requires before != [] && now != [] ==> before[|before| - 1] + spacing <= now[0]
    ensures Spaced(before + now, spacing)
  {}

  // The newest batch comes after the ones before it.
  lemma NewestIsLater(batches: seq<Batch>, batchDelay: int, spacing: int, x: int, y: int)
    requires 0 <= spacing <= batchDelay && BatchesOk(batches, batchDelay, spacing) && batches != []
    requires var b := batches[|batches| - 1];
             Covered(batches[..|batches| - 1], x) && y in RecordedDues(b, batchDelay, spacing, |b.at|)
    ensures x + spacing <= y
  {
    var b := batches[|batches| - 1];
    hide BatchOk, Due, RecordedDues, Covered;
    DueInBatch(b, batchDelay, spacing, y);
    CoveredBefore(batches, x);
  }

  lemma NewestIsCovered(batches: seq<Batch>, batchDelay: int, spacing: int, x: int)
    requires 0 <= spacing && BatchesOk(batches, batchDelay, spacing) && batches != []
    requires var b := batches[|batches| - 1]; x in RecordedDues(b, batchDelay, spacing, |b.at|)
    ensures Covered(batches, x)
  {
    var b := batches[|batches| - 1];
    hide BatchOk, Due, RecordedDues, Covered;
    DueInBatch(b, batchDelay, spacing, x);
    var i :| i in b.recorded && x <= b.recorded[i];
    LastCovers(batches, i, x);
  }

  lemma EarlierAreOk(batches: seq<Batch>, batchDelay: int, spacing: int)
    requires BatchesOk(batches, batchDelay, spacing) && batches != []
    ensures BatchesOk(batches[..|batches| - 1], batchDelay, spacing) && SeesEarlier(batches)
    ensures BatchOk(batches[|batches| - 1], batchDelay, spacing)
  {
    hide BatchOk;
  }

  lemma {:induction false} DuesAcross(batches: seq<Batch>, batchDelay: int, spacing: int)
    requires 0 <= spacing <= batchDelay && BatchesOk(batches, batchDelay, spacing)
    ensures Spaced(AllDues(batches, batchDelay, spacing), spacing)
    ensures forall x :: x in AllDues(batches, batchDelay, spacing) ==> Covered(batches, x)
    decreases |batches|
  {
    if batches != [] {
      hide BatchOk, BatchesOk, SeesEarlier, Due, RecordedDues, Covered;
      var n := |batches| - 1;
      var b := batches[n];
      EarlierAreOk(batches, batchDelay, spacing);
      DuesAcross(batches[..n], batchDelay, spacing);
      DuesInBatch(b, batchDelay, spacing, |b.at|);
      var before := AllDues(batches[..n], batchDelay, spacing);
      var now := RecordedDues(b, batchDelay, spacing, |b.at|);
      if before != [] && now != [] {
        NewestIsLater(batches, batchDelay, spacing, before[|before| - 1], now[0]);
      }
      SpacedJoin(before, now, spacing);
      forall x | x in before + now ensures Covered(batches, x) {
        if x in before {
          CoveredBefore(batches, x);
        } else {
          NewestIsCovered(batches, batchDelay, spacing, x);
        }
      }
    }
  }

  lemma LastCovers(batches: seq<Batch>, i: nat, x: int)
    requires batches != [] && i in batches[|batches| - 1].recorded && x <= batches[|batches| - 1].recorded[i]
    ensures Covered(batches, x)
  {}

  /** Over all batches of a campaign, no minute holds more due times of recorded sends than the rate, when the batch
      delay is at least the spacing. */
  lemma RateHolds(batches: seq<Batch>, own: Option<int>, max: int, batchDelay: int, start: int)
    requires var spacing := Spacing(Rate(own, max)); spacing <= batchDelay && BatchesOk(batches, batchDelay, spacing)
    ensures |InMinute(AllDues(batches, batchDelay, Spacing(Rate(own, max))), start)| <= Rate(own, max)
  {
    hide BatchesOk, AllDues, InMinute, Spaced;
    var rate := Rate(own, max);
    DuesAcross(batches, batchDelay, Spacing(rate));
    SpacedMinute(AllDues(batches, batchDelay, Spacing(rate)), rate, Spacing(rate), start);
  }

  // ---------------------------------------------------------------------------------------------
  // The bound on the batch delay is exact
  // ---------------------------------------------------------------------------------------------

  function OneBatch(batchDelay: int, i: nat): Batch {
    Batch(Offset(i, batchDelay), if i == 0 then None else Some(Offset(i - 1, batchDelay)),
          [Offset(i, batchDelay)], map[0 := Offset(i, batchDelay)])
  }

  // n batches of one recipient each, every one dispatched and recorded at its due time.
  function OneByOne(batchDelay: int, n: nat): seq<Batch> {
    seq(n, i requires 0 <= i < n => OneBatch(batchDelay, i))
  }

  lemma OneDue(batchDelay: int, spacing: int, i: nat)
    requires batchDelay >= 0
    ensures var b := OneBatch(batchDelay, i);
            Due(b, batchDelay, spacing, 0) == Offset(i, batchDelay) && BatchOk(b, batchDelay, spacing)
  {}

  lemma {:induction false} OneByOneDues(batchDelay: int, spacing: int, n: nat)
    requires batchDelay >= 0
    ensures AllDues(OneByOne(batchDelay, n), batchDelay, spacing)
            == seq(n, i requires 0 <= i < n => Offset(i, batchDelay))
  {
    hide Offset, BatchOk;
    if n > 0 {
      OneByOneDues(batchDelay, spacing, n - 1);
      var batches := OneByOne(batchDelay, n);
      assert batches[..n - 1] == OneByOne(batchDelay, n - 1);
      OneDue(batchDelay, spacing, n - 1);
      var b := OneBatch(batchDelay, n - 1);
      hide Due, OneBatch;
      assert RecordedDues(b, batchDelay, spacing, 1)
             == RecordedDues(b, batchDelay, spacing, 0) + [Offset(n - 1, batchDelay)];
    }
  }

  lemma OneByOneOk(batchDelay: int, spacing: int, n: nat)
    requires batchDelay >= 0
    ensures BatchesOk(OneByOne(batchDelay, n), batchDelay, spacing)
  {
    var batches := OneByOne(batchDelay, n);
    forall k | 0 <= k < n ensures BatchOk(batches[k], batchDelay, spacing) {
      OneDue(batchDelay, spacing, k);
    }
    hide Offset, BatchOk;
    forall k, l, i | 0 <= k < l < n && i in batches[k].recorded
      ensures batches[l].latest.Some? && batches[k].recorded[i] <= batches[l].latest.value
    {
      OffsetsGrow(k, l - 1, batchDelay);
    }
  }

  lemma OffsetsGrow(i: nat, j: nat, d: int)
    requires i <= j && d >= 0
    ensures Offset(i, d) <= Offset(j, d)
  {}

  /** With a shorter batch delay there are batches of single recipients that put one send too many into a minute. */
  lemma ShorterDelayFails(own: Option<int>, max: int, batchDelay: int)
    requires 0 <= batchDelay < Spacing(Rate(own, max))
    ensures var rate := Rate(own, max);
            var batches := OneByOne(batchDelay, rate + 1);
            && BatchesOk(batches, batchDelay, Spacing(rate))
            && |InMinute(AllDues(batches, batchDelay, Spacing(rate)), 0)| == rate + 1
  {
    hide AllDues, BatchesOk, OneByOne, InMinute;
    var rate := Rate(own, max);
    OneByOneDues(batchDelay, Spacing(rate), rate + 1);
    OneByOneOk(batchDelay, Spacing(rate), rate + 1);
    LessTimes(rate, batchDelay, Spacing(rate) - 1);
    EvenTimes(batchDelay, rate);
  }

  lemma EvenTimes(batchDelay: int, n: nat)
    requires batchDelay >= 0 && n * batchDelay < MINUTE
    ensures |InMinute(seq(n + 1, i requires 0 <= i < n + 1 => Offset(i, batchDelay)), 0)| == n + 1
  {
    var times := seq(n + 1, i requires 0 <= i < n + 1 => Offset(i, batchDelay));
    assert Offset(0, batchDelay) == 0 && Offset(n, batchDelay) < MINUTE;
    hide Offset;
    forall i | 0 <= i <= n ensures 0 <= times[i] < MINUTE {
      OffsetsGrow(0, i, batchDelay);
      OffsetsGrow(i, n, batchDelay);
    }
    RangeOf(InMinute(times, 0), n + 1);
  }

  lemma {:induction false} LessTimes(n: nat, x: int, y: int)
    requires x <= y
    ensures n * x <= n * y
  {}

  lemma {:induction false} RangeOf(positions: set<nat>, n: nat)
    requires forall i: nat :: i in positions <==> i < n
    ensures |positions| == n
    decreases n
  {
    if n > 0 {
      RangeOf(positions - {n - 1}, n - 1);
    } else {
      assert positions == {};
    }
  }
}
