/** The retry loop: how often it calls, what it gives back, how long it waits. */
module Retry {
  // One call of the code: `again` is what the retry condition says of the
  // error, `elapsed` how long the call took.
  datatype Attempt<+T, +E> = Success(value: T) | Failure(error: E, again: bool, elapsed: nat)

  // 0 stands for an option that is not set.
  datatype Policy = Policy(retries: int, delay: nat, exponential: bool, maxwait: nat, minExecutionTime: nat,
                           conditional: bool)

  // A failure that may be tried again.
  predicate Retriable<T, E>(attempt: Attempt<T, E>, policy: Policy) {
    attempt.Failure? && (policy.conditional ==> attempt.again)
  }

  // How many calls a code that keeps failing gets.
  function MostCalls(policy: Policy): (n: nat)
    ensures n >= 1 && n >= policy.retries && (n == 1 || n == policy.retries)
  {
    if policy.retries > 1 then policy.retries else 1
  }

  // The pause after call number k.
  function Pause(policy: Policy, k: nat): (p: nat)
    ensures policy.maxwait > 0 ==> p <= policy.maxwait
    ensures p <= policy.delay * (if policy.exponential then k + 1 else 1)
  {
    var p := if policy.exponential then policy.delay * (k + 1) else policy.delay;
    if policy.maxwait > 0 && p > policy.maxwait then policy.maxwait else p
  }

  function Pauses(policy: Policy, n: nat): nat {
    if n == 0 then 0 else Pauses(policy, n - 1) + Pause(policy, n - 1)
  }

  // The time n calls took, and the time they take when none is shorter than
  // `least`.
  function Elapsed<T, E>(code: nat -> Attempt<T, E>, least: nat, n: nat): nat {
    if n == 0 then 0 else Elapsed(code, least, n - 1) + Max(Length(code(n - 1)), least)
  }

  function Length<T, E>(attempt: Attempt<T, E>): nat {
    if attempt.Failure? then attempt.elapsed else 0
  }

  function Max(a: nat, b: nat): nat {
    if a >= b then a else b
  }

  /**
   Every call but the last failed in a way that may be tried again; the last one
   succeeded, used up the retries or must not be tried again, and its result is
   the result. So the first success among the calls there are is returned.
   `paused` is the total back-off, `held` what makes every failed call but the
   last take the least execution time.
   */
  method Run<T, E>(policy: Policy, code: nat -> Attempt<T, E>)
    returns (result: Attempt<T, E>, calls: nat, paused: nat, held: nat)
    ensures 1 <= calls && (calls == 1 || calls <= policy.retries)
    ensures result == code(calls - 1)
    ensures result.Failure? ==> calls >= policy.retries || (policy.conditional && !result.again)
    ensures forall k | 0 <= k < calls - 1 :: code(k).Failure? && (policy.conditional ==> code(k).again)
    ensures forall n | 0 <= n < MostCalls(policy) && code(n).Success?
                       && (forall k | 0 <= k < n :: Retriable(code(k), policy)) ::
              calls == n + 1 && result == code(n)
    ensures paused == Pauses(policy, calls - 1)
    ensures Elapsed(code, 0, calls - 1) + held == Elapsed(code, policy.minExecutionTime, calls - 1)
    ensures policy.minExecutionTime == 0 ==> held == 0
    ensures held <= policy.minExecutionTime * (calls - 1)
  {
    calls, paused, held := 0, 0, 0;
    while true
      invariant calls == 0 || calls < policy.retries
      invariant forall k | 0 <= k < calls :: Retriable(code(k), policy)
      invariant paused == Pauses(policy, calls)
      invariant Elapsed(code, 0, calls) + held == Elapsed(code, policy.minExecutionTime, calls)
      invariant held <= policy.minExecutionTime * calls
      decreases policy.retries - calls
    {
      result := code(calls);
      calls := calls + 1;
      if result.Success? {
        return;
      }
      if calls >= policy.retries {
        return;
      }
      if policy.conditional && !result.again {
        return;
      }
      if policy.minExecutionTime > 0 && policy.minExecutionTime > result.elapsed {
        held := held + (policy.minExecutionTime - result.elapsed);
      }
      var sleep := policy.delay;
      if policy.exponential {
        sleep := policy.delay * calls;
      }
      if policy.maxwait > 0 && sleep > policy.maxwait {
        sleep := policy.maxwait;
      }
      paused := paused + sleep;
    }
  }

  // Held calls take the least time each, longer ones what they take.
  lemma {:induction false} ElapsedIs<T, E>(code: nat -> Attempt<T, E>, least: nat, n: nat)
    ensures Elapsed(code, least, n) >= least * n && Elapsed(code, least, n) >= Elapsed(code, 0, n)
    ensures (forall k | 0 <= k < n :: Length(code(k)) >= least) ==> Elapsed(code, least, n) == Elapsed(code, 0, n)
    ensures (forall k | 0 <= k < n :: code(k).Failure? && code(k).elapsed <= least) ==>
              Elapsed(code, least, n) == least * n
  {
    if n > 0 {
      ElapsedIs(code, least, n - 1);
      Distribute(least, n - 1, 1);
    }
  }

  function Triangle(n: nat): nat {
    if n == 0 then 0 else Triangle(n - 1) + n
  }

  lemma {:induction false} TriangleIs(n: nat)
    ensures Triangle(n) == (n + 1) * n / 2
  {
    if n > 0 {
      TriangleIs(n - 1);
      assert (n + 1) * n == n * (n - 1) + 2 * n;
    }
  }

  lemma Distribute(d: nat, a: nat, b: nat)
    ensures d * (a + b) == d * a + d * b
  {
  }

  lemma {:induction false} Growing(policy: Policy, n: nat)
    requires policy.exponential
    ensures Pauses(policy, n) <= policy.delay * Triangle(n)
    ensures policy.maxwait == 0 || policy.delay * n <= policy.maxwait ==>
              Pauses(policy, n) == policy.delay * Triangle(n)
  {
    if n > 0 {
      Distribute(policy.delay, n - 1, 1);
      Growing(policy, n - 1);
      Distribute(policy.delay, Triangle(n - 1), n);
    }
  }

  lemma {:induction false} Flat(policy: Policy, n: nat)
    requires !policy.exponential
    ensures policy.maxwait == 0 || policy.delay <= policy.maxwait ==> Pauses(policy, n) == policy.delay * n
    ensures policy.maxwait > 0 && policy.delay > policy.maxwait ==> Pauses(policy, n) == policy.maxwait * n
  {
    if n > 0 {
      Flat(policy, n - 1);
      Distribute(policy.delay, n - 1, 1);
      Distribute(policy.maxwait, n - 1, 1);
    }
  }

  lemma {:induction false} Ceiling(policy: Policy, n: nat)
    requires policy.maxwait > 0
    ensures Pauses(policy, n) <= policy.maxwait * n
  {
    if n > 0 {
      Ceiling(policy, n - 1);
      Distribute(policy.maxwait, n - 1, 1);
    }
  }

  /**
   The total back-off of n calls: in exponential mode at most the arithmetic
   series delay * n(n-1)/2, exactly that while the ceiling is not reached, and
   the ceiling for each pause after that; otherwise the delay, or the ceiling
   when that is less, n - 1 times; never more than maxwait * (n - 1).
   */
  lemma BackoffIsBounded(policy: Policy, n: nat)
    requires n >= 1
    ensures policy.exponential ==> Pauses(policy, n - 1) <= policy.delay * (n * (n - 1) / 2)
    ensures policy.exponential && (policy.maxwait == 0 || policy.delay * (n - 1) <= policy.maxwait) ==>
              Pauses(policy, n - 1) == policy.delay * (n * (n - 1) / 2)
    ensures policy.exponential && policy.maxwait > 0 && policy.delay * n >= policy.maxwait ==>
              Pauses(policy, n) == Pauses(policy, n - 1) + policy.maxwait
    ensures !policy.exponential && (policy.maxwait == 0 || policy.delay <= policy.maxwait) ==>
              Pauses(policy, n - 1) == policy.delay * (n - 1)
    ensures !policy.exponential && policy.maxwait > 0 && policy.delay > policy.maxwait ==>
              Pauses(policy, n - 1) == policy.maxwait * (n - 1)
    ensures policy.maxwait > 0 ==> Pauses(policy, n - 1) <= policy.maxwait * (n - 1)
  {
    if policy.exponential {
      TriangleIs(n - 1);
      Growing(policy, n - 1);
    } else {
      Flat(policy, n - 1);
    }
    if policy.maxwait > 0 {
      Ceiling(policy, n - 1);
    }
  }
}
