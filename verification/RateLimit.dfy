// src/middleware/rateLimit.middleware.js:75-98,146-173: the in-memory fixed-window counters that all limiters share,
// and the decision whether a request is admitted.

module RateLimitSpec {
  import opened Collections

  datatype Policy = Policy(windowMs: nat, limit: nat)

  /** A counter belongs to one policy and one caller. */
  datatype Key = Key(policy: string, caller: string)

  datatype Window = Window(count: nat, resetAt: int)

  datatype Result = Result(count: nat, resetMs: int)

  type Store = map<Key, Window>

  /** `incrementMemory`: the answer, and the window that the key has afterwards */
  function Increment(store: Store, key: Key, windowMs: nat, now: int): (Result, Window) {
    if key !in store || store[key].resetAt <= now then (Result(1, windowMs), Window(1, now + windowMs))
    else
      var left := store[key].resetAt - now;
      (Result(store[key].count + 1, if left > 1 then left else 1), store[key].(count := store[key].count + 1))
  }

  predicate Admits(store: Store, key: Key, policy: Policy, now: int) {
    Increment(store, key, policy.windowMs, now).0.count <= policy.limit
  }

  datatype Request = Request(key: Key, at: int)

  /** The store after these requests, each counted under the policy of its key. */
  function After(policies: string -> Policy, requests: seq<Request>): Store {
    if requests == [] then map[]
    else
      var r := requests[|requests| - 1];
      var before := After(policies, requests[..|requests| - 1]);
      before[r.key := Increment(before, r.key, policies(r.key.policy).windowMs, r.at).1]
  }

  /** The times of the admitted requests of one key. */
  function Admitted(policies: string -> Policy, requests: seq<Request>, key: Key): seq<int> {
    if requests == [] then []
    else
      var r := requests[|requests| - 1];
      var earlier := requests[..|requests| - 1];
      Admitted(policies, earlier, key)
      + (if r.key == key && Admits(After(policies, earlier), key, policies(key.policy), r.at) then [r.at] else [])
  }

  ghost predicate InOrder(requests: seq<Request>) {
    forall i, j :: 0 <= i < j < |requests| ==> requests[i].at <= requests[j].at
  }

  function CountIn(times: seq<int>, from: int, to: int): nat {
    if times == [] then 0
    else
      var last := times[|times| - 1];
      CountIn(times[..|times| - 1], from, to) + (if from <= last < to then 1 else 0)
  }

  lemma CountAppend(times: seq<int>, x: int, from: int, to: int)
    ensures CountIn(times + [x], from, to) == CountIn(times, from, to) + (if from <= x < to then 1 else 0)
  {}

  lemma {:induction false} CountNone(times: seq<int>, from: int, to: int)
    requires forall i :: 0 <= i < |times| ==> times[i] < from || to <= times[i]
    ensures CountIn(times, from, to) == 0
  {
    if times != [] {
      CountNone(times[..|times| - 1], from, to);
    }
  }

  // ---------------------------------------------------------------------------------------------
  // What the window of a key says about its admitted requests
  // ---------------------------------------------------------------------------------------------

  /** With the window [start, resetAt) and its count: what was admitted in it, in it but after its first request, and
      within one window length before its first request. */
  ghost predicate Explains(w: Window, p: Policy, times: seq<int>) {
    var start := w.resetAt - p.windowMs;
    && w.count >= 1
    && (forall i :: 0 <= i < |times| ==> times[i] < w.resetAt)
    && CountIn(times, start, w.resetAt) <= Min(w.count, p.limit)
    && (forall from :: start < from ==> CountIn(times, from, w.resetAt) <= Min(w.count, p.limit) - 1)
    && (forall from :: start - p.windowMs < from <= start ==>
          CountIn(times, from, w.resetAt) <= p.limit - 1 + Min(w.count, p.limit))
  }

  lemma {:induction false} CountSplit(times: seq<int>, from: int, to: int, further: int)
    requires forall i :: 0 <= i < |times| ==> times[i] < to
    requires to <= further
    ensures CountIn(times, from, further) == CountIn(times, from, to)
  {
    if times != [] {
      CountSplit(times[..|times| - 1], from, to, further);
    }
  }

  // One more request of the key.
  lemma IncrementExplains(store: Store, key: Key, p: Policy, now: int, times: seq<int>)
    requires p.windowMs >= 1 && p.limit >= 1
    requires if key in store then Explains(store[key], p, times) && store[key].resetAt - p.windowMs <= now
             else times == []
    ensures var (result, w) := Increment(store, key, p.windowMs, now);
            w.resetAt - p.windowMs <= now && Explains(w, p, times + (if result.count <= p.limit then [now] else []))
  {
    var (result, w) := Increment(store, key, p.windowMs, now);
    var times' := times + (if result.count <= p.limit then [now] else []);
    var start := w.resetAt - p.windowMs;
    forall from ensures CountIn(times', from, w.resetAt)
                     == CountIn(times, from, w.resetAt)
                         + (if result.count <= p.limit && from <= now < w.resetAt then 1 else 0)
    {
      CountAppend(times, now, from, w.resetAt);
      assert times + [] == times;
    }
    if key in store && store[key].resetAt <= now {
      forall from ensures CountIn(times, from, w.resetAt) == CountIn(times, from, store[key].resetAt) {
        CountSplit(times, from, store[key].resetAt, w.resetAt);
      }
      CountNone(times, start, w.resetAt);
      forall from | start < from ensures CountIn(times', from, w.resetAt) == 0 {
        CountNone(times, from, w.resetAt);
      }
    }
  }

  lemma {:induction false} StoreExplains(policies: string -> Policy, requests: seq<Request>, key: Key)
    requires policies(key.policy).windowMs >= 1 && policies(key.policy).limit >= 1 && InOrder(requests)
    ensures var store := After(policies, requests);
            var times := Admitted(policies, requests, key);
            if key in store
            then Explains(store[key], policies(key.policy), times)
              && store[key].resetAt - policies(key.policy).windowMs <= requests[|requests| - 1].at
            else times == []
    decreases |requests|
  {
    hide Explains, Increment;
    if requests != [] {
      var n := |requests| - 1;
      StoreExplains(policies, requests[..n], key);
      var before := Admitted(policies, requests[..n], key);
      assert before + [] == before;
      if requests[n].key == key {
        IncrementExplains(After(policies, requests[..n]), key, policies(key.policy), requests[n].at,
                          before);
      }
    }
  }

  // ---------------------------------------------------------------------------------------------
  // The bounds
  // ---------------------------------------------------------------------------------------------

  // A window that a key had after the first n requests is still its window, or ended before the present one began.
  lemma {:induction false} WindowsFollow(policies: string -> Policy, requests: seq<Request>, key: Key, n: nat)
    requires policies(key.policy).windowMs >= 1 && n <= |requests| && key in After(policies, requests[..n])
    ensures key in After(policies, requests)
    ensures var earlier, present := After(policies, requests[..n])[key], After(policies, requests)[key];
            present.resetAt == earlier.resetAt || earlier.resetAt <= present.resetAt - policies(key.policy).windowMs
    decreases |requests|
  {
    if n == |requests| {
      assert requests[..n] == requests;
    } else {
      var last := |requests| - 1;
      assert requests[..last][..n] == requests[..n];
      WindowsFollow(policies, requests[..last], key, n);
    }
  }

  lemma PresentWindow(policies: string -> Policy, requests: seq<Request>, key: Key)
    requires policies(key.policy).windowMs >= 1 && policies(key.policy).limit >= 1 && InOrder(requests)
    requires key in After(policies, requests)
    ensures var p := policies(key.policy);
            var resetAt := After(policies, requests)[key].resetAt;
            && requests != [] && resetAt - p.windowMs <= requests[|requests| - 1].at
            && CountIn(Admitted(policies, requests, key), resetAt - p.windowMs, resetAt) <= p.limit
  {
    hide Explains, Admits, Increment, CountIn, Admitted;
    StoreExplains(policies, requests, key);
    WindowIsExplained(After(policies, requests)[key], policies(key.policy), Admitted(policies, requests, key));
  }

  lemma WindowIsExplained(w: Window, p: Policy, times: seq<int>)
    requires Explains(w, p, times)
    ensures CountIn(times, w.resetAt - p.windowMs, w.resetAt) <= p.limit
  {
    hide CountIn;
  }

  lemma LastIsOutside(policies: string -> Policy, requests: seq<Request>, key: Key, from: int, to: int)
    requires requests != [] && requests[|requests| - 1].at >= to
    ensures CountIn(Admitted(policies, requests, key), from, to)
         == CountIn(Admitted(policies, requests[..|requests| - 1], key), from, to)
  {
    hide CountIn, Admits, After;
    var before := Admitted(policies, requests[..|requests| - 1], key);
    assert before + [] == before;
    CountAppend(before, requests[|requests| - 1].at, from, to);
  }

  /** Each window that a key ever has in a trace holds at most `limit` of the requests that the whole trace admits. */
  lemma {:induction false} WindowHoldsLimit(policies: string -> Policy, requests: seq<Request>, key: Key, n: nat)
    requires policies(key.policy).windowMs >= 1 && policies(key.policy).limit >= 1 && InOrder(requests)
    requires n <= |requests| && key in After(policies, requests[..n])
    ensures var p := policies(key.policy);
            var resetAt := After(policies, requests[..n])[key].resetAt;
            CountIn(Admitted(policies, requests, key), resetAt - p.windowMs, resetAt) <= p.limit
    decreases |requests|
  {
    hide After, Admitted, CountIn;
    var p := policies(key.policy);
    var end := After(policies, requests[..n])[key].resetAt;
    WindowsFollow(policies, requests, key, n);
    PresentWindow(policies, requests, key);
    if After(policies, requests)[key].resetAt != end {
      var last := |requests| - 1;
      assert requests[..|requests|] == requests;
      assert requests[..last][..n] == requests[..n];
      WindowHoldsLimit(policies, requests[..last], key, n);
      LastIsOutside(policies, requests, key, end - p.windowMs, end);
    }
  }

  /** Every interval of one window length holds fewer than twice `limit` admitted requests of a key, whatever other
      keys and policies share the store. */
  lemma {:induction false} IntervalHoldsTwice(policies: string -> Policy, requests: seq<Request>, key: Key, from: int)
    requires policies(key.policy).windowMs >= 1 && policies(key.policy).limit >= 1 && InOrder(requests)
    ensures var p := policies(key.policy);
            CountIn(Admitted(policies, requests, key), from, from + p.windowMs) <= 2 * p.limit - 1
    decreases |requests|
  {
    if requests != [] {
      var n := |requests| - 1;
      var p := policies(key.policy);
      var times := Admitted(policies, requests, key);
      if requests[n].at >= from + p.windowMs {
        IntervalHoldsTwice(policies, requests[..n], key, from);
        var before := Admitted(policies, requests[..n], key);
        assert before + [] == before;
        CountAppend(before, requests[n].at, from, from + p.windowMs);
      } else {
        StoreExplains(policies, requests, key);
        if key in After(policies, requests) {
          NewestInterval(After(policies, requests)[key], p, times, requests[n].at, from);
        }
      }
    }
  }

  lemma NewestInterval(w: Window, p: Policy, times: seq<int>, now: int, from: int)
    requires Explains(w, p, times) && w.resetAt - p.windowMs <= now < from + p.windowMs && p.windowMs >= 1
             && p.limit >= 1
    ensures CountIn(times, from, from + p.windowMs) <= 2 * p.limit - 1
  {
    var start := w.resetAt - p.windowMs;
    if w.resetAt <= from + p.windowMs {
      CountSplit(times, from, w.resetAt, from + p.windowMs);
    } else {
      CountLess(times, from, from + p.windowMs, w.resetAt);
    }
    assert start - p.windowMs < from;
  }

  lemma {:induction false} CountLess(times: seq<int>, from: int, to: int, further: int)
    requires to <= further
    ensures CountIn(times, from, to) <= CountIn(times, from, further)
  {
    if times != [] {
      CountLess(times[..|times| - 1], from, to, further);
    }
  }

  /** A policy that admits nothing admits nothing. */
  lemma {:induction false} ZeroLimit(policies: string -> Policy, requests: seq<Request>, key: Key)
    requires policies(key.policy).limit == 0
    ensures Admitted(policies, requests, key) == []
  {
    if requests != [] {
      ZeroLimit(policies, requests[..|requests| - 1], key);
    }
  }

  // One request at time 0, limit - 1 at the end of its window, and limit at the start of the next one.
  function Burst(key: Key, p: Policy, n: nat): seq<Request> {
    seq(n, i requires 0 <= i < n =>
             Request(key, if i == 0 then 0 else if i < p.limit then p.windowMs - 1 else p.windowMs))
  }

  function BurstWindow(p: Policy, n: nat): Window {
    if n <= p.limit then Window(n, p.windowMs) else Window(n - p.limit, 2 * p.windowMs)
  }

  lemma BurstPrefix(key: Key, p: Policy, n: nat)
    requires p.windowMs >= 2 && p.limit >= 1
    ensures InOrder(Burst(key, p, n))
    ensures n > 0 ==> Burst(key, p, n)[..n - 1] == Burst(key, p, n - 1)
  {}

  lemma {:induction false} BurstStore(policies: string -> Policy, key: Key, n: nat)
    requires policies(key.policy).windowMs >= 2 && policies(key.policy).limit >= 1
    ensures var p := policies(key.policy);
            n <= 2 * p.limit ==>
              After(policies, Burst(key, p, n)) == if n == 0 then map[] else map[key := BurstWindow(p, n)]
  {
    var p := policies(key.policy);
    if n > 0 {
      BurstStore(policies, key, n - 1);
      BurstPrefix(key, p, n);
    }
  }

  lemma NothingAdmitted(policies: string -> Policy, key: Key, from: int, to: int)
    ensures CountIn(Admitted(policies, Burst(key, policies(key.policy), 0), key), from, to) == 0
  {}

  lemma BurstNext(policies: string -> Policy, key: Key, n: nat)
    requires policies(key.policy).windowMs >= 2 && policies(key.policy).limit >= 1
             && 0 < n <= 2 * policies(key.policy).limit
    ensures var p := policies(key.policy);
            var at := Burst(key, p, n)[n - 1].at;
            && Admitted(policies, Burst(key, p, n), key) == Admitted(policies, Burst(key, p, n - 1), key) + [at]
            && (p.windowMs - 1 <= at < 2 * p.windowMs - 1 <==> n > 1)
  {
    var p := policies(key.policy);
    BurstPrefix(key, p, n);
    BurstStore(policies, key, n - 1);
    hide After;
    assert Admits(After(policies, Burst(key, p, n - 1)), key, p, Burst(key, p, n)[n - 1].at);
  }

  lemma {:induction false} BurstIsAdmitted(policies: string -> Policy, key: Key, n: nat)
    requires policies(key.policy).windowMs >= 2 && policies(key.policy).limit >= 1
    ensures var p := policies(key.policy);
            0 < n <= 2 * p.limit ==>
              CountIn(Admitted(policies, Burst(key, p, n), key), p.windowMs - 1, 2 * p.windowMs - 1) == n - 1
  {
    var p := policies(key.policy);
    if 0 < n <= 2 * p.limit {
      BurstIsAdmitted(policies, key, n - 1);
      BurstNext(policies, key, n);
      hide Admitted, CountIn;
      CountAppend(Admitted(policies, Burst(key, p, n - 1), key), Burst(key, p, n)[n - 1].at, p.windowMs - 1,
                  2 * p.windowMs - 1);
      if n == 1 {
        NothingAdmitted(policies, key, p.windowMs - 1, 2 * p.windowMs - 1);
      }
    }
  }

  /** The bound is reached, for every limit and every window of at least two milliseconds. */
  lemma BoundIsReached(policies: string -> Policy, key: Key)
    requires policies(key.policy).windowMs >= 2 && policies(key.policy).limit >= 1
    ensures var p := policies(key.policy);
            var requests := Burst(key, p, 2 * p.limit);
            && InOrder(requests)
            && CountIn(Admitted(policies, requests, key), p.windowMs - 1, p.windowMs - 1 + p.windowMs)
               == 2 * p.limit - 1
  {
    BurstPrefix(key, policies(key.policy), 2 * policies(key.policy).limit);
    BurstIsAdmitted(policies, key, 2 * policies(key.policy).limit);
  }

  // ---------------------------------------------------------------------------------------------
  // Waiting
  // ---------------------------------------------------------------------------------------------

  function Wait(policies: string -> Policy, requests: seq<Request>, key: Key, now: int): int {
    Increment(After(policies, requests), key, policies(key.policy).windowMs, now).0.resetMs
  }

  lemma {:induction false} WindowStays(policies: string -> Policy, before: seq<Request>, between: seq<Request>,
                                       key: Key, resetAt: int)
    requires key in After(policies, before) && After(policies, before)[key].resetAt == resetAt
    requires forall i :: 0 <= i < |between| ==> between[i].at < resetAt
    ensures key in After(policies, before + between) && After(policies, before + between)[key].resetAt == resetAt
    decreases |between|
  {
    if between == [] {
      assert before + between == before;
    } else {
      var n := |between| - 1;
      WindowStays(policies, before, between[..n], key, resetAt);
      assert (before + between)[..|before + between| - 1] == before + between[..n];
    }
  }

  /** A caller who waits for the announced time finds an expired window and is admitted, whatever requests, also of
      the same key, came in the meantime. */
  lemma WaitingPays(policies: string -> Policy, before: seq<Request>, between: seq<Request>, key: Key, now: int)
    requires policies(key.policy).windowMs >= 1 && policies(key.policy).limit >= 1
    requires forall i :: 0 <= i < |between| ==> between[i].at < now + Wait(policies, before, key, now)
    ensures var requests := before + [Request(key, now)] + between;
            Admits(After(policies, requests), key, policies(key.policy), now + Wait(policies, before, key, now))
  {
    var asked := before + [Request(key, now)];
    assert asked[..|asked| - 1] == before;
    WindowStays(policies, asked, between, key, After(policies, asked)[key].resetAt);
  }
}

module RateLimit {
  import opened RateLimitSpec

  /** The limiters with the map that they share. */
  class Limiter {
    var memoryStores: Store

    constructor ()
      ensures memoryStores == map[]
    {
      memoryStores := map[];
    }

    method IncrementMemory(key: Key, windowMs: nat, now: int) returns (result: Result)
      modifies this
      ensures key in memoryStores && (result, memoryStores[key]) == Increment(old(memoryStores), key, windowMs, now)
      ensures memoryStores == old(memoryStores)[key := memoryStores[key]]
    {
      if key !in memoryStores || memoryStores[key].resetAt <= now {
        var next := Window(1, now + windowMs);
        memoryStores := memoryStores[key := next];
        return Result(next.count, windowMs);
      }
      var current := memoryStores[key];
      current := current.(count := current.count + 1);
      memoryStores := memoryStores[key := current];
      result := Result(current.count, if current.resetAt - now > 1 then current.resetAt - now else 1);
    }

    /** The limiter of one policy: whether the request passes, and what is left or how long to wait. */
    method Admit(key: Key, policy: Policy, now: int) returns (admitted: bool, remaining: nat, retryAfterSeconds: int)
      modifies this
      ensures admitted == Admits(old(memoryStores), key, policy, now)
      ensures memoryStores == old(memoryStores)[key := Increment(old(memoryStores), key, policy.windowMs, now).1]
      ensures var result := Increment(old(memoryStores), key, policy.windowMs, now).0;
              && remaining == (if result.count < policy.limit then policy.limit - result.count else 0)
              && (!admitted ==> retryAfterSeconds >= 1 && retryAfterSeconds * 1000 >= result.resetMs)
              && (!admitted && retryAfterSeconds > 1 ==> (retryAfterSeconds - 1) * 1000 < result.resetMs)
      ensures admitted ==> retryAfterSeconds == 0
    {
      var result := IncrementMemory(key, policy.windowMs, now);
      remaining := if policy.limit > result.count then policy.limit - result.count else 0;
      retryAfterSeconds := 0;
      if result.count > policy.limit {
        var seconds := (result.resetMs + 999) / 1000;
        retryAfterSeconds := if seconds > 1 then seconds else 1;
        return false, remaining, retryAfterSeconds;
      }
      admitted := true;
    }

    /** A whole trace of requests. */
    method Serve(policies: string -> Policy, requests: seq<Request>) returns (decisions: seq<bool>)
      requires memoryStores == map[]
      modifies this
      ensures memoryStores == After(policies, requests)
      ensures |decisions| == |requests| && forall i :: 0 <= i < |requests| ==>
              decisions[i] == AdmitsAt(policies, requests, i)
    {
      hide Admits;
      decisions := [];
      for n := 0 to |requests|
        invariant memoryStores == After(policies, requests[..n]) && |decisions| == n
        invariant forall i :: 0 <= i < n ==> decisions[i] == AdmitsAt(policies, requests, i)
      {
        var r := requests[n];
        var admitted, remaining, retryAfter := Admit(r.key, policies(r.key.policy), r.at);
        AfterOneMore(policies, requests, n);
        decisions := decisions + [admitted];
      }
      assert requests[..|requests|] == requests;
    }
  }

  predicate AdmitsAt(policies: string -> Policy, requests: seq<Request>, i: nat)
    requires i < |requests|
  {
    Admits(After(policies, requests[..i]), requests[i].key, policies(requests[i].key.policy), requests[i].at)
  }

  lemma AfterOneMore(policies: string -> Policy, requests: seq<Request>, n: nat)
    requires n < |requests|
    ensures var before := After(policies, requests[..n]);
            var r := requests[n];
            After(policies, requests[..n + 1])
                == before[r.key := Increment(before, r.key, policies(r.key.policy).windowMs, r.at).1]
  {
    assert requests[..n + 1][..n] == requests[..n];
  }
}
