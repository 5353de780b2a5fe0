/** `dispatch_with_retry` of src/event_dispatcher.cpp over a whole-millisecond clock.  What the
    sink and the clock do is a parameter. */
module Retry {

  /** The sleep requested by `k` full backoffs starting at `b`: `b + 2b + 4b + ...`. */
  function TotalBackoff(b: nat, k: nat): nat {
    if k == 0 then 0 else 2 * TotalBackoff(b, k - 1) + b
  }

  lemma TotalBackoffStep(b: nat, k: nat)
    ensures TotalBackoff(b, k + 1) == 2 * TotalBackoff(b, k) + b
  {}

  function Pow2(k: nat): nat { if k == 0 then 1 else 2 * Pow2(k - 1) }

  lemma {:induction false} TotalBackoffClosed(b: nat, k: nat)
    ensures TotalBackoff(b, k) == b * (Pow2(k) - 1)
  {
    if k > 0 {
      TotalBackoffClosed(b, k - 1);
      TimesDoubled(b, Pow2(k - 1));
    }
  }

  lemma TimesDoubled(b: nat, p: nat)
    ensures b * (2 * p - 1) == 2 * (b * (p - 1)) + b
  {}

  lemma {:induction false} TotalBackoffGrows(b: nat, k: nat, n: nat)
    requires n <= k
    ensures TotalBackoff(b, n) <= TotalBackoff(b, k)
  {
    if n < k { TotalBackoffGrows(b, k - 1, n); }
  }

  /** A positive backoff; with none at all only the clock would end the retries. */
  type Backoff = n: nat | n > 0 witness 1

  /** How one dispatch to one sink goes: whether attempt `i` succeeds, how long it takes, and by how
      much the sleep after it overshoots. */
  datatype Behaviour = Behaviour(succeeds: nat -> bool, cost: nat -> nat, overshoot: nat -> nat)

  /** Attempt `i`, made after `elapsed`, and all later ones fail until the ceiling is reached. */
  predicate GivesUp(b: Behaviour, backoff: Backoff, ceiling: nat, elapsed: nat, i: nat)
    decreases ceiling - elapsed
  {
    var now := elapsed + b.cost(i);
    && !b.succeeds(i)
    && (now >= ceiling || GivesUp(b, 2 * backoff, ceiling, now + Least(ceiling - now, backoff) + b.overshoot(i), i + 1))
  }

  lemma GivesUpStep(b: Behaviour, backoff: Backoff, ceiling: nat, elapsed: nat, i: nat)
    ensures var now := elapsed + b.cost(i);
      GivesUp(b, backoff, ceiling, elapsed, i) <==>
        && !b.succeeds(i)
        && (now >= ceiling || GivesUp(b, 2 * backoff, ceiling, now + Least(ceiling - now, backoff) + b.overshoot(i), i + 1))
  {}

  function Least(a: nat, b: nat): nat { if a < b then a else b }

  /** The sink never takes the batch: a required one for all its retries, a best-effort one at once. */
  predicate Fails(required: bool, b: Behaviour, backoff: Backoff, ceiling: nat) {
    if required then GivesUp(b, backoff, ceiling, 0, 0) else !b.succeeds(0)
  }

  // ---------- when it gives up, from the times alone ----------

  /** The time attempts 0 to `k` and the oversleeping between them take. */
  function Spent(b: Behaviour, k: nat): nat {
    if k == 0 then b.cost(0) else Spent(b, k - 1) + b.overshoot(k - 1) + b.cost(k)
  }

  /** When attempt `k` ends if every sleep before it had its full, doubled length. */
  function EndsAt(b: Behaviour, initialBackoff: nat, k: nat): nat { Spent(b, k) + TotalBackoff(initialBackoff, k) }

  /** When attempt `k` begins, likewise. */
  function BeginsAt(b: Behaviour, initialBackoff: nat, k: nat): nat {
    if k == 0 then 0
    else EndsAt(b, initialBackoff, k - 1) + (TotalBackoff(initialBackoff, k - 1) + initialBackoff) + b.overshoot(k - 1)
  }

  lemma BeginsThenEnds(b: Behaviour, initialBackoff: nat, k: nat)
    ensures EndsAt(b, initialBackoff, k) == BeginsAt(b, initialBackoff, k) + b.cost(k)
  {}

  lemma {:induction false} EndsLater(b: Behaviour, initialBackoff: nat, i: nat, k: nat)
    requires i <= k
    ensures EndsAt(b, initialBackoff, i) <= EndsAt(b, initialBackoff, k)
  {
    if i < k { EndsLater(b, initialBackoff, i, k - 1); }
  }

  /** `elapsed` is when attempt `k` begins, unless a sleep was cut short at the ceiling. */
  ghost predicate OnTime(b: Behaviour, initialBackoff: nat, ceiling: nat, elapsed: nat, k: nat) {
    elapsed == BeginsAt(b, initialBackoff, k) || (elapsed >= ceiling && BeginsAt(b, initialBackoff, k) >= ceiling)
  }

  /** The first `n` attempts failed and ended below the ceiling. */
  ghost predicate Tried(b: Behaviour, initialBackoff: nat, ceiling: nat, n: nat) {
    forall i :: 0 <= i < n ==> !b.succeeds(i) && EndsAt(b, initialBackoff, i) < ceiling
  }

  lemma StartsOnTime(b: Behaviour, initialBackoff: nat, ceiling: nat)
    ensures OnTime(b, initialBackoff, ceiling, 0, 0) && Tried(b, initialBackoff, ceiling, 0)
    ensures TotalBackoff(initialBackoff, 0) == 0 && SleptOk(initialBackoff, ceiling, 0, 0, 0)
  {}

  lemma TriedMore(b: Behaviour, initialBackoff: nat, ceiling: nat, n: nat)
    requires Tried(b, initialBackoff, ceiling, n)
    ensures !b.succeeds(n) && EndsAt(b, initialBackoff, n) < ceiling ==> Tried(b, initialBackoff, ceiling, n + 1)
    ensures forall i :: 0 <= i < n ==> !b.succeeds(i)
  {
    hide EndsAt;
  }

  /** The sleeps add up to the doubled backoffs unless the ceiling has been reached; before attempt `k` all but the
      last of them lie below it. */
  ghost predicate SleptOk(initialBackoff: nat, ceiling: nat, elapsed: nat, slept: nat, k: nat) {
    && slept <= elapsed && slept <= ceiling
    && (slept == TotalBackoff(initialBackoff, k) || elapsed >= ceiling)
    && (k > 0 ==> TotalBackoff(initialBackoff, k - 1) < ceiling)
  }

  lemma SleepsOk(initialBackoff: Backoff, ceiling: nat, elapsed: nat, now: nat, slept: nat, k: nat, overshoot: nat)
    requires SleptOk(initialBackoff, ceiling, elapsed, slept, k) && elapsed <= now < ceiling
    ensures var sleepFor := Least(ceiling - now, TotalBackoff(initialBackoff, k) + initialBackoff);
      sleepFor > 0 && SleptOk(initialBackoff, ceiling, now + sleepFor + overshoot, slept + sleepFor, k + 1)
    ensures TotalBackoff(initialBackoff, k + 1) + initialBackoff == (TotalBackoff(initialBackoff, k) + initialBackoff) * 2
  {
    TotalBackoffStep(initialBackoff, k);
    hide TotalBackoff;
  }

  lemma FewAttempts(initialBackoff: nat, ceiling: nat, elapsed: nat, slept: nat, k: nat)
    requires SleptOk(initialBackoff, ceiling, elapsed, slept, k)
    ensures slept <= elapsed && slept <= ceiling
    ensures forall n: nat :: TotalBackoff(initialBackoff, n) >= ceiling ==> k + 1 <= n + 1
  {
    forall n: nat | TotalBackoff(initialBackoff, n) >= ceiling ensures k <= n {
      if n < k { TotalBackoffGrows(initialBackoff, k - 1, n); }
    }
  }

  /** Cutting a sleep short at the ceiling changes nothing about which attempts are made. */
  lemma StaysOnTime(b: Behaviour, initialBackoff: Backoff, ceiling: nat, elapsed: nat, k: nat)
    requires OnTime(b, initialBackoff, ceiling, elapsed, k)
    ensures var now := elapsed + b.cost(k);
      && (now >= ceiling <==> EndsAt(b, initialBackoff, k) >= ceiling)
      && (now < ceiling ==>
            OnTime(b, initialBackoff, ceiling,
                   now + Least(ceiling - now, TotalBackoff(initialBackoff, k) + initialBackoff) + b.overshoot(k), k + 1))
  {
    BeginsThenEnds(b, initialBackoff, k);
    hide TotalBackoff, Spent, EndsAt;
  }

  /** Every attempt fails up to one that ends at or after the ceiling. */
  ghost predicate NeverInTime(b: Behaviour, initialBackoff: nat, ceiling: nat, from: nat) {
    exists k: nat :: from <= k && EndsAt(b, initialBackoff, k) >= ceiling && forall i :: from <= i <= k ==> !b.succeeds(i)
  }

  lemma NeverStep(b: Behaviour, initialBackoff: nat, ceiling: nat, k: nat)
    ensures NeverInTime(b, initialBackoff, ceiling, k) <==>
      !b.succeeds(k) && (EndsAt(b, initialBackoff, k) >= ceiling || NeverInTime(b, initialBackoff, ceiling, k + 1))
  {
    hide EndsAt;
    if NeverInTime(b, initialBackoff, ceiling, k) {
      var m: nat :| k <= m && EndsAt(b, initialBackoff, m) >= ceiling && forall i :: k <= i <= m ==> !b.succeeds(i);
      assert !b.succeeds(k);
    }
    if !b.succeeds(k) && NeverInTime(b, initialBackoff, ceiling, k + 1) {
      var m: nat :| k + 1 <= m && EndsAt(b, initialBackoff, m) >= ceiling && forall i :: k + 1 <= i <= m ==> !b.succeeds(i);
      assert forall i :: k <= i <= m ==> !b.succeeds(i);
    }
  }

  lemma {:induction false} GivesUpIff(b: Behaviour, initialBackoff: Backoff, backoff: Backoff, ceiling: nat, elapsed: nat, k: nat)
    requires OnTime(b, initialBackoff, ceiling, elapsed, k) && backoff == TotalBackoff(initialBackoff, k) + initialBackoff
    ensures GivesUp(b, backoff, ceiling, elapsed, k) <==> NeverInTime(b, initialBackoff, ceiling, k)
    decreases ceiling - elapsed
  {
    StaysOnTime(b, initialBackoff, ceiling, elapsed, k);
    GivesUpStep(b, backoff, ceiling, elapsed, k);
    TotalBackoffStep(initialBackoff, k);
    NeverStep(b, initialBackoff, ceiling, k);
    var now := elapsed + b.cost(k);
    hide GivesUp, OnTime, EndsAt, TotalBackoff, NeverInTime;
    if now < ceiling {
      GivesUpIff(b, initialBackoff, 2 * backoff, ceiling, now + Least(ceiling - now, backoff) + b.overshoot(k), k + 1);
    }
  }

  /** A required sink fails exactly when every attempt fails up to one that, with all sleeps doubled in full, ends
      at or after the ceiling. */
  lemma FailsIff(b: Behaviour, initialBackoff: Backoff, ceiling: nat)
    ensures Fails(true, b, initialBackoff, ceiling) <==>
      exists k: nat :: EndsAt(b, initialBackoff, k) >= ceiling && forall i :: 0 <= i <= k ==> !b.succeeds(i)
  {
    GivesUpIff(b, initialBackoff, initialBackoff, ceiling, 0, 0);
    hide GivesUp, EndsAt;
    if NeverInTime(b, initialBackoff, ceiling, 0) {
      var k: nat :| 0 <= k && EndsAt(b, initialBackoff, k) >= ceiling && forall i :: 0 <= i <= k ==> !b.succeeds(i);
    }
  }

  /** The retries end with the first attempt that succeeds, or that ends at or after the ceiling. */
  ghost predicate Stops(b: Behaviour, initialBackoff: nat, ceiling: nat, attempts: nat)
    requires attempts >= 1
  {
    && (b.succeeds(attempts - 1) || EndsAt(b, initialBackoff, attempts - 1) >= ceiling)
    && forall i :: 0 <= i < attempts - 1 ==> !b.succeeds(i) && EndsAt(b, initialBackoff, i) < ceiling
  }

  /** Attempt `k` is the last one if it succeeds, if the sink is best-effort, or if it ends at or after the ceiling;
      then it tells whether the sink failed. */
  lemma Decided(required: bool, b: Behaviour, initialBackoff: Backoff, ceiling: nat, k: nat)
    requires Tried(b, initialBackoff, ceiling, k) && (!required ==> k == 0)
    ensures b.succeeds(k) || EndsAt(b, initialBackoff, k) >= ceiling ==> Stops(b, initialBackoff, ceiling, k + 1)
    ensures required ==> b.succeeds(k) || EndsAt(b, initialBackoff, k) >= ceiling ==>
      (b.succeeds(k) <==> !Fails(required, b, initialBackoff, ceiling))
    ensures !required ==> (b.succeeds(k) <==> !Fails(required, b, initialBackoff, ceiling))
  {
    hide EndsAt, GivesUp;
    if required { FailsIff(b, initialBackoff, ceiling); }
  }

  /** So a sink that comes back in time is not given up: if attempts 0 to `k - 1` fail, attempt `k` succeeds, and
      attempt `k - 1` ends below the ceiling, then exactly `k + 1` attempts are made. */
  lemma ComesBackInTime(b: Behaviour, initialBackoff: nat, ceiling: nat, attempts: nat, k: nat)
    requires attempts >= 1 && Stops(b, initialBackoff, ceiling, attempts)
    requires (forall i :: 0 <= i < k ==> !b.succeeds(i)) && b.succeeds(k)
    requires k > 0 ==> Spent(b, k - 1) + TotalBackoff(initialBackoff, k - 1) < ceiling
    ensures attempts == k + 1
  {
    hide TotalBackoff, Spent;
    if attempts - 1 < k { EndsLater(b, initialBackoff, attempts - 1, k - 1); }
  }

  /** A best-effort sink is tried once and never fails the dispatch.  A required sink is retried
      until it succeeds or `ceiling` has elapsed; it is tried at most `n + 1` times for any `n` with
      `backoff * (2^n - 1) >= ceiling`, and the sleeps requested add up to at most `ceiling`. */
  method DispatchWithRetry(required: bool, initialBackoff: Backoff, ceiling: nat, b: Behaviour)
    returns (ok: bool, attempts: nat, elapsed: nat, slept: nat)
    ensures attempts >= 1 && slept <= ceiling && slept <= elapsed
    ensures forall i :: 0 <= i < attempts - 1 ==> !b.succeeds(i)
    ensures !required ==> ok && attempts == 1
    ensures required && ok ==> b.succeeds(attempts - 1)
    ensures !ok ==> required && !b.succeeds(attempts - 1) && elapsed >= ceiling
    ensures b.succeeds(attempts - 1) <==> !Fails(required, b, initialBackoff, ceiling)
    ensures required ==> Stops(b, initialBackoff, ceiling, attempts)
    ensures forall n: nat :: TotalBackoff(initialBackoff, n) >= ceiling ==> attempts <= n + 1
  {
    var backoff: Backoff := initialBackoff;
    attempts, elapsed, slept := 0, 0, 0;
    StartsOnTime(b, initialBackoff, ceiling);
    hide *;
    while true
      invariant backoff == TotalBackoff(initialBackoff, attempts) + initialBackoff
      invariant Tried(b, initialBackoff, ceiling, attempts) && OnTime(b, initialBackoff, ceiling, elapsed, attempts)
      invariant SleptOk(initialBackoff, ceiling, elapsed, slept, attempts)
      invariant attempts > 0 ==> required
      decreases ceiling - elapsed
    {
      StaysOnTime(b, initialBackoff, ceiling, elapsed, attempts);
      TriedMore(b, initialBackoff, ceiling, attempts);
      FewAttempts(initialBackoff, ceiling, elapsed, slept, attempts);
      Decided(required, b, initialBackoff, ceiling, attempts);
      var success := b.succeeds(attempts);
      elapsed := elapsed + b.cost(attempts);
      attempts := attempts + 1;
      if success { return true, attempts, elapsed, slept; }
      if !required { return true, attempts, elapsed, slept; }
      if elapsed >= ceiling { return false, attempts, elapsed, slept; }
      SleepsOk(initialBackoff, ceiling, elapsed - b.cost(attempts - 1), elapsed, slept, attempts - 1, b.overshoot(attempts - 1));
      var sleepFor := Least(ceiling - elapsed, backoff);
      slept := slept + sleepFor;
      elapsed := elapsed + sleepFor + b.overshoot(attempts - 1);
      backoff := backoff * 2;
    }
  }
}
