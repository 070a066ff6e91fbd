/** The forwarder's token bucket, its exact closed form, and the bound over every window. */
module TokenBucket {
  import opened Numbers

  /** Sustained rate, tokens left, and the time of the last refill. */
  datatype Bucket = Bucket(rate: real, tokens: real, refilled: real)

  function Capacity(rate: real): real { if rate > 0.0 then Max(1.0, rate) else 0.0 }

  function NewBucket(rate: real, created: real): Bucket { Bucket(rate, Capacity(rate), created) }

  /** Tokens that accrue over an interval. */
  function Accrued(rate: real, from: real, to: real): real { (to - from) * rate }

  function Refilled(b: Bucket, now: real): real {
    Min(Capacity(b.rate), b.tokens + Accrued(b.rate, b.refilled, now))
  }

  predicate Grants(b: Bucket, now: real) { b.rate <= 0.0 || Refilled(b, now) >= 1.0 }

  function Take(b: Bucket, now: real): Bucket {
    if b.rate <= 0.0 then b
    else b.(tokens := Refilled(b, now) - (if Grants(b, now) then 1.0 else 0.0), refilled := now)
  }

  // ----- Runs of attempts -----

  /** The bucket after attempts at some times. */
  function AfterAttempts(b: Bucket, times: seq<real>): (r: Bucket)
    ensures r.rate == b.rate
  {
    if times == [] then b else Take(AfterAttempts(b, times[..|times| - 1]), times[|times| - 1])
  }

  predicate Granted(b: Bucket, times: seq<real>, i: nat)
    requires i < |times|
  {
    Grants(AfterAttempts(b, times[..i]), times[i])
  }

  /** How many of the attempts from `from` up to `end` are granted. */
  function GrantedCount(b: Bucket, times: seq<real>, from: nat, end: nat): (n: nat)
    requires end <= |times|
    ensures from <= end ==> n <= end - from
    decreases end
  {
    if end <= from then 0
    else GrantedCount(b, times, from, end - 1) + if Granted(b, times, end - 1) then 1 else 0
  }

  /** Tokens available to attempt `n` once the bucket has refilled. */
  function Available(b: Bucket, times: seq<real>, n: nat): real
    requires n < |times|
  {
    Refilled(AfterAttempts(b, times[..n]), times[n])
  }

  /** Window starts: the creation of the bucket, then every attempt. */
  function StartTime(created: real, times: seq<real>, k: nat): real
    requires k <= |times|
  {
    if k == 0 then created else times[k - 1]
  }

  function FirstAttempt(k: nat): nat { if k == 0 then 0 else k - 1 }

  /**
   * What the window opening at start `k` leaves for attempt `n`: one second's worth, but at least one, plus
   * the rate times the time since, less what the window has granted.
   */
  function Budget(rate: real, created: real, times: seq<real>, k: nat, n: nat): real
    requires k <= n + 1 <= |times|
  {
    (if rate < 1.0 then 1.0 else rate) + rate * (times[n] - StartTime(created, times, k))
      - GrantedCount(NewBucket(rate, created), times, FirstAttempt(k), n) as real
  }

  lemma CapacityIs(rate: real)
    requires rate > 0.0
    ensures Capacity(rate) == if rate < 1.0 then 1.0 else rate
  {
  }

  lemma AccruedIs(rate: real, a: real, b: real)
    ensures Accrued(rate, a, b) == rate * (b - a)
  {
  }

  lemma BudgetIs(rate: real, created: real, times: seq<real>, k: nat, n: nat)
    requires rate > 0.0 && k <= n + 1 <= |times|
    ensures Budget(rate, created, times, k, n) ==
      Capacity(rate) + Accrued(rate, StartTime(created, times, k), times[n])
        - GrantedCount(NewBucket(rate, created), times, FirstAttempt(k), n) as real
  {
    CapacityIs(rate);
    AccruedIs(rate, StartTime(created, times, k), times[n]);
    hide Capacity, Accrued, GrantedCount, StartTime;
  }

  lemma AccruedSum(rate: real, a: real, b: real, c: real)
    ensures Accrued(rate, a, c) == Accrued(rate, a, b) + Accrued(rate, b, c)
    ensures Accrued(rate, a, a) == 0.0
  {
    var first, second := b - a, c - b;
    assert c - a == first + second;
    assert (first + second) * rate == first * rate + second * rate;
  }

  lemma AccruedNonNegative(rate: real, a: real, b: real)
    requires a <= b && rate >= 0.0
    ensures Accrued(rate, a, b) >= 0.0
  {
  }

  /** From one attempt to the next the available tokens follow the clamped recurrence. */
  lemma NextAvailable(b: Bucket, times: seq<real>, n: nat)
    requires b.rate > 0.0 && n + 1 < |times|
    ensures Available(b, times, n + 1) ==
      Min(Capacity(b.rate),
          Available(b, times, n) - (if Granted(b, times, n) then 1.0 else 0.0)
            + Accrued(b.rate, times[n], times[n + 1]))
  {
    hide Capacity, Min, Accrued;
    assert times[..n + 1][..n] == times[..n];
  }

  lemma NextBudget(rate: real, created: real, times: seq<real>, k: nat, n: nat)
    requires rate > 0.0 && k <= n + 1 && n + 1 < |times|
    ensures Budget(rate, created, times, k, n + 1) ==
      Budget(rate, created, times, k, n)
        - (if Granted(NewBucket(rate, created), times, n) then 1.0 else 0.0)
        + Accrued(rate, times[n], times[n + 1])
  {
    BudgetIs(rate, created, times, k, n);
    BudgetIs(rate, created, times, k, n + 1);
    hide Budget, Capacity, Accrued, Granted, NewBucket;
    AccruedSum(rate, StartTime(created, times, k), times[n], times[n + 1]);
  }

  lemma LatestBudget(rate: real, created: real, times: seq<real>, n: nat)
    requires rate > 0.0 && n < |times|
    ensures Budget(rate, created, times, n + 1, n) == Capacity(rate)
  {
    BudgetIs(rate, created, times, n + 1, n);
    hide Budget, Capacity, Accrued, NewBucket;
    AccruedSum(rate, times[n], times[n], times[n]);
  }

  lemma FirstAvailable(rate: real, created: real, times: seq<real>)
    requires rate > 0.0 && |times| > 0
    ensures Available(NewBucket(rate, created), times, 0) ==
      Min(Capacity(rate), Budget(rate, created, times, 0, 0))
  {
    BudgetIs(rate, created, times, 0, 0);
    hide Budget, Capacity, Min, Accrued;
    assert times[..0] == [];
  }

  /** The available tokens are the least of what any window leaves. */
  ghost predicate IsLeastBudget(rate: real, created: real, times: seq<real>, n: nat, value: real)
    requires n < |times|
  {
    && (forall k: nat :: k <= n + 1 ==> value <= Budget(rate, created, times, k, n))
    && (exists k: nat :: k <= n + 1 && value == Budget(rate, created, times, k, n))
  }

  /**
   * Closed form: at every attempt the tokens available equal the minimum, over all windows ending there
   * and starting at the creation or at an attempt, of the larger of the rate and one, plus the rate times
   * the window's length, minus grants so far.
   */
  lemma {:induction false} ClosedForm(rate: real, created: real, times: seq<real>, n: nat)
    requires rate > 0.0 && n < |times|
    ensures IsLeastBudget(rate, created, times, n, Available(NewBucket(rate, created), times, n))
  {
    hide Available, Budget, Capacity, Granted, NewBucket, Accrued;
    var b := NewBucket(rate, created);
    LatestBudget(rate, created, times, n);
    if n == 0 {
      FirstAvailable(rate, created, times);
    } else {
      var m := n - 1;
      ClosedForm(rate, created, times, m);
      assert b.rate == rate by { RateOfNew(rate, created); }
      NextAvailable(b, times, m);
      forall k: nat | k <= n ensures
        Budget(rate, created, times, k, n) == Budget(rate, created, times, k, m)
          - (if Granted(b, times, m) then 1.0 else 0.0) + Accrued(rate, times[m], times[n])
      {
        NextBudget(rate, created, times, k, m);
      }
    }
  }

  lemma RateOfNew(rate: real, created: real)
    ensures NewBucket(rate, created).rate == rate
  {
  }

  /** An attempt is refused exactly when granting it would overflow some window. */
  lemma RefusedExactly(rate: real, created: real, times: seq<real>, n: nat)
    requires rate > 0.0 && n < |times|
    ensures !Granted(NewBucket(rate, created), times, n) <==>
      exists k: nat :: k <= n + 1 && Budget(rate, created, times, k, n) < 1.0
  {
    ClosedForm(rate, created, times, n);
    hide Budget, Refilled, AfterAttempts;
  }

  ghost predicate Nondecreasing(created: real, times: seq<real>) {
    && (|times| > 0 ==> created <= times[0])
    && (forall i, j :: 0 <= i <= j < |times| ==> times[i] <= times[j])
  }

  /** Tokens never run below zero. */
  lemma {:induction false} AvailableNonNegative(rate: real, created: real, times: seq<real>, n: nat)
    requires rate > 0.0 && n < |times| && Nondecreasing(created, times)
    ensures Available(NewBucket(rate, created), times, n) >= 0.0
  {
    hide Accrued, AfterAttempts;
    var b := NewBucket(rate, created);
    if n == 0 {
      AccruedNonNegative(rate, created, times[0]);
      assert AfterAttempts(b, times[..0]) == b by { NoAttempts(b, times[..0]); }
    } else {
      AvailableNonNegative(rate, created, times, n - 1);
      NextAvailable(b, times, n - 1);
      AccruedNonNegative(rate, times[n - 1], times[n]);
    }
  }

  lemma NoAttempts(b: Bucket, times: seq<real>)
    requires times == []
    ensures AfterAttempts(b, times) == b
  {
  }

  lemma WindowGrants(rate: real, created: real, times: seq<real>, k: nat, n: nat)
    requires rate > 0.0 && k <= n + 1 <= |times| && Nondecreasing(created, times)
    ensures GrantedCount(NewBucket(rate, created), times, FirstAttempt(k), n + 1) as real
      <= Capacity(rate) + Accrued(rate, StartTime(created, times, k), times[n])
  {
    ClosedForm(rate, created, times, n);
    AvailableNonNegative(rate, created, times, n);
    BudgetIs(rate, created, times, k, n);
    hide Refilled, AfterAttempts, Capacity, Accrued, StartTime, Budget;
    assert Available(NewBucket(rate, created), times, n) <= Budget(rate, created, times, k, n);
  }

  /** Every window grants at most the larger of the rate and one, plus the rate times the window's length. */
  lemma WindowBound(rate: real, created: real, times: seq<real>, k: nat, n: nat)
    requires rate > 0.0 && k <= n + 1 <= |times| && Nondecreasing(created, times)
    ensures var start, first := if k == 0 then created else times[k - 1], if k == 0 then 0 else k - 1;
      GrantedCount(NewBucket(rate, created), times, first, n + 1) as real
        <= (if rate < 1.0 then 1.0 else rate) + rate * (times[n] - start)
  {
    hide Capacity, Accrued, GrantedCount, NewBucket, Nondecreasing;
    WindowGrants(rate, created, times, k, n);
    CapacityIs(rate);
    AccruedIs(rate, StartTime(created, times, k), times[n]);
  }

  /** An attempt at the time of the last refill finds only what was left then. */
  lemma TakeAtOnce(b: Bucket)
    requires b.rate > 0.0 && b.tokens <= Capacity(b.rate)
    ensures Grants(b, b.refilled) <==> b.tokens >= 1.0
    ensures Take(b, b.refilled) == if b.tokens >= 1.0 then b.(tokens := b.tokens - 1.0) else b
  {
    AccruedSum(b.rate, b.refilled, b.refilled, b.refilled);
    hide Accrued, Capacity;
  }

  /** What `n` attempts at the creation time leave: whole tokens are taken while there are any. */
  ghost predicate Burst(b: Bucket, n: nat, left: Bucket) {
    && left.refilled == b.refilled && left.rate == b.rate
    && 0.0 <= left.tokens <= Capacity(b.rate)
    && (if n as real <= Capacity(b.rate) then left.tokens == Capacity(b.rate) - n as real else left.tokens < 1.0)
  }

  lemma {:induction false} BurstLeaves(rate: real, created: real, times: seq<real>)
    requires rate > 0.0 && forall i :: 0 <= i < |times| ==> times[i] == created
    ensures Burst(NewBucket(rate, created), |times|, AfterAttempts(NewBucket(rate, created), times))
  {
    CapacityIs(rate);
    hide Capacity, Take;
    if times != [] {
      var b, front := NewBucket(rate, created), times[..|times| - 1];
      BurstLeaves(rate, created, front);
      TakeAtOnce(AfterAttempts(b, front));
    }
  }

  /** A burst at the creation time is granted exactly up to the larger of the rate and one. */
  lemma BurstExactly(rate: real, created: real, times: seq<real>, n: nat)
    requires rate > 0.0 && n < |times| && forall i :: 0 <= i < |times| ==> times[i] == created
    ensures Granted(NewBucket(rate, created), times, n) <==>
      (n + 1) as real <= if rate < 1.0 then 1.0 else rate
  {
    BurstLeaves(rate, created, times[..n]);
    TakeAtOnce(AfterAttempts(NewBucket(rate, created), times[..n]));
    CapacityIs(rate);
    hide AfterAttempts, Capacity, Grants, Take;
  }

  /** A rate of zero or less never refuses. */
  lemma UnlimitedGrants(b: Bucket, times: seq<real>, n: nat)
    requires b.rate <= 0.0 && n < |times|
    ensures Granted(b, times, n)
  {
  }
}
