/** `retry(fn, retries, delay)` of src/utils/retry.ts: call `fn` until it
    succeeds or the retries run out, waiting `delay` before the first retry
    and twice as long before each further one. */
module Retry {
  import opened Text

  const DefaultRetries := 3
  const DefaultDelay := 1000

  /** How one call of `fn` settles: a value, or a thrown error's message. */
  datatype Attempt<T> = Success(value: T) | Failure(message: string)

  /** How `retry` settles. */
  datatype Outcome<T> = Returned(value: T) | Thrown(message: string)

  /** The outcome, how many times `fn` was called, and the waits in between,
      in milliseconds, in the order they happen. */
  datatype Run<T> = Run(outcome: Outcome<T>, calls: nat, waits: seq<int>)

  function Pow2(n: nat): (p: nat)
    ensures p >= 1
  {
    if n == 0 then 1 else 2 * Pow2(n - 1)
  }

  const FailedPrefix := "Failed after "

  /** The message thrown once `fn` failed with `message` and `retries`
      retries were left. */
  function FailureMessage(retries: nat, message: string): string {
    FailedPrefix + NatToString(retries) + " retries: " + message
  }

  /** The call `retry(fn, retries, delay)`, where the calls of `fn` made from
      here on, counted from `first`, settle as `fn(first)`, `fn(first + 1)`, …. */
  function RetryRun<T>(fn: nat -> Attempt<T>, first: nat, retries: nat, delay: int): (r: Run<T>)
    ensures 1 <= r.calls <= retries + 1
    ensures |r.waits| == r.calls - 1
    decreases retries
  {
    match fn(first)
    case Success(v) => Run(Returned(v), 1, [])
    case Failure(m) =>
      if retries == 0 then Run(Thrown(FailureMessage(retries, m)), 1, [])
      else
        var rest := RetryRun(fn, first + 1, retries - 1, delay * 2);
        Run(rest.outcome, rest.calls + 1, [delay] + rest.waits)
  }

  /** The waits double: `delay, 2·delay, 4·delay, …`. */
  lemma {:induction false} WaitsDouble<T>(fn: nat -> Attempt<T>, first: nat, retries: nat, delay: int)
    ensures var w := RetryRun(fn, first, retries, delay).waits;
      forall i | 0 <= i < |w| :: w[i] == delay * Pow2(i)
    decreases retries
  {
    var r := RetryRun(fn, first, retries, delay);
    if fn(first).Failure? && retries > 0 {
      var rest := RetryRun(fn, first + 1, retries - 1, delay * 2);
      WaitsDouble(fn, first + 1, retries - 1, delay * 2);
      assert r.waits == [delay] + rest.waits;
      forall i | 1 <= i < |r.waits| ensures r.waits[i] == delay * Pow2(i) {
        assert r.waits[i] == rest.waits[i - 1] == (delay * 2) * Pow2(i - 1);
        Associate(delay, Pow2(i - 1));
      }
    }
  }

  lemma Associate(a: int, b: int)
    ensures (a * 2) * b == a * (2 * b)
  {
  }

  /** If the first `k` calls fail and call `k` succeeds, within the
      allowed retries, `retry` returns that call's value after exactly
      `k + 1` calls. */
  lemma {:induction false} FirstSuccess<T>(fn: nat -> Attempt<T>, first: nat, retries: nat, delay: int, k: nat)
    requires k <= retries
    requires forall i | first <= i < first + k :: fn(i).Failure?
    requires fn(first + k).Success?
    ensures RetryRun(fn, first, retries, delay).outcome == Returned(fn(first + k).value)
    ensures RetryRun(fn, first, retries, delay).calls == k + 1
    decreases k
  {
    if k > 0 {
      assert fn(first).Failure?;
      FirstSuccess(fn, first + 1, retries - 1, delay * 2, k - 1);
    }
  }

  /** If every allowed call fails, `fn` is called `retries + 1` times and the
      error names 0 retries and the last call's message. */
  lemma {:induction false} AllFail<T>(fn: nat -> Attempt<T>, first: nat, retries: nat, delay: int)
    requires forall i | first <= i <= first + retries :: fn(i).Failure?
    ensures RetryRun(fn, first, retries, delay).calls == retries + 1
    ensures RetryRun(fn, first, retries, delay).outcome ==
      Thrown("Failed after 0 retries: " + fn(first + retries).message)
    decreases retries
  {
    assert fn(first).Failure?;
    if retries == 0 {
      assert NatToString(0) == "0";
    } else {
      AllFail(fn, first + 1, retries - 1, delay * 2);
    }
  }

  /** A `fn` that never throws is called exactly once. */
  lemma NeverThrowsCalledOnce<T>(fn: nat -> Attempt<T>, first: nat, retries: nat, delay: int)
    requires fn(first).Success?
    ensures RetryRun(fn, first, retries, delay) == Run(Returned(fn(first).value), 1, [])
  {
  }

  /** Two failures then a success, under the defaults: three calls, waits of
      1000 and 2000 milliseconds. */
  lemma DefaultsTwoFailuresThenSuccess<T>(fn: nat -> Attempt<T>)
    requires fn(0).Failure? && fn(1).Failure? && fn(2).Success?
    ensures RetryRun(fn, 0, DefaultRetries, DefaultDelay) == Run(Returned(fn(2).value), 3, [1000, 2000])
  {
    FirstSuccess(fn, 0, DefaultRetries, DefaultDelay, 2);
    WaitsDouble(fn, 0, DefaultRetries, DefaultDelay);
    var r := RetryRun(fn, 0, DefaultRetries, DefaultDelay);
    assert r.waits[1] == 1000 * Pow2(1);
  }

  /** `retry(fn, retries, delay)`, with the sleeps recorded instead of taken:
      the loop does what the recursion does. */
  method RunRetry<T>(fn: nat -> Attempt<T>, retries: nat, delay: int)
    returns (outcome: Outcome<T>, calls: nat, waits: seq<int>)
    ensures Run(outcome, calls, waits) == RetryRun(fn, 0, retries, delay)
  {
    ghost var whole := RetryRun(fn, 0, retries, delay);
    var left := retries;
    var wait := delay;
    calls := 0;
    waits := [];
    while true
      invariant calls + left == retries
      invariant whole.outcome == RetryRun(fn, calls, left, wait).outcome
      invariant whole.calls == calls + RetryRun(fn, calls, left, wait).calls
      invariant whole.waits == waits + RetryRun(fn, calls, left, wait).waits
      decreases left
    {
      var attempt := fn(calls);
      ghost var here := RetryRun(fn, calls, left, wait);
      calls := calls + 1;
      match attempt {
        case Success(v) =>
          outcome := Returned(v);
          return;
        case Failure(m) =>
          if left == 0 {
            outcome := Thrown(FailureMessage(left, m));
            return;
          }
          assert here.waits == [wait] + RetryRun(fn, calls, left - 1, wait * 2).waits;
          waits := waits + [wait];
          left := left - 1;
          wait := wait * 2;
      }
    }
  }
}
