/** retry/retry.go: the `Retriable` implementations and their bounded retry
    loop. The work function is an oracle `fn` whose `i`-th call (counting
    from 0) returns `fn(i)`; `time.Sleep` is recorded in a sleep log that
    the loop returns instead of waiting. */
module Retry {
  import opened Common
  import Backoff

  /** The three implementations of the `Retriable` interface: `retrier`
      over a backoff strategy, the null object `noRetrier`, and the
      `RetriableFunc` adapter around a Go function. */
  datatype Retriable =
    | Retrier(backoff: Backoff.Backoff)
    | NoRetrier
    | RetriableFunc(f: int -> int)

  /** A `RetryFunc`: the result of each successive call. */
  type Work = nat -> Option<Error>

  /** `NextInterval(retry)` of each implementation. */
  function NextInterval(r: Retriable, retry: int): int
  {
    match r
    case Retrier(b) => Backoff.Next(b, retry)
    case NoRetrier => 0
    case RetriableFunc(f) => f(retry)
  }

  /** How many times a loop `for i := 0; i <= retries; i++` may run. */
  function Budget(retries: int): nat
  {
    if retries < 0 then 0 else retries + 1
  }

  /** The stopping rule of the loop: within the budget, every call but the
      last failed, and the loop ended early only on a success. */
  ghost predicate Stopped(fn: Work, retries: int, calls: nat)
  {
    && calls <= Budget(retries)
    && (forall j :: 0 <= j && j + 1 < calls ==> fn(j).Some?)
    && (calls < Budget(retries) ==> calls > 0 && fn(calls - 1).None?)
  }

  /** The number of failed calls among the first `calls`; each is followed
      by a sleep. */
  function Failures(fn: Work, calls: nat): nat
  {
    if calls > 0 && fn(calls - 1).None? then calls - 1 else calls
  }

  /** The sleeps after failed calls `0 .. n-1`, one `NextInterval(i)` each. */
  function Sleeps(r: Retriable, n: nat): seq<int>
  {
    seq(n, j => NextInterval(r, j))
  }

  /** The loop shared by `retrier.Do` and `noRetrier.Do` (and repeated in
      `HttpClient.Do`): call `fn`, and after each failure sleep
      `NextInterval(i)` and go on, up to `retries + 1` calls; stop at the
      first success. Returns the last call's result, the number of calls and
      the sleep log. */
  method RetryLoop(r: Retriable, fn: Work, retries: int)
    returns (lastErr: Option<Error>, calls: nat, sleeps: seq<int>)
    ensures Stopped(fn, retries, calls)
    ensures lastErr == (if calls == 0 then None else fn(calls - 1))
    ensures sleeps == Sleeps(r, Failures(fn, calls))
  {
    lastErr, calls, sleeps := None, 0, [];
    var i := 0;
    while i <= retries
      invariant 0 <= i == calls <= Budget(retries)
      invariant forall j :: 0 <= j < i ==> fn(j).Some?
      invariant lastErr == (if i == 0 then None else fn(i - 1))
      invariant sleeps == Sleeps(r, i)
    {
      lastErr := fn(i);
      calls := calls + 1;
      if lastErr.Some? {
        sleeps := sleeps + [NextInterval(r, i)];
        i := i + 1;
        continue;
      }
      break;
    }
  }

  /** `retrier.Do`: the bounded loop with the backoff's waits. It returns
      nil whatever happened; the last call's result is passed out
      separately. */
  method RetrierDo(b: Backoff.Backoff, fn: Work, retries: int)
    returns (err: Option<Error>, lastErr: Option<Error>, calls: nat, sleeps: seq<int>)
    ensures err == None
    ensures Stopped(fn, retries, calls)
    ensures lastErr == (if calls == 0 then None else fn(calls - 1))
    ensures |sleeps| == Failures(fn, calls)
    ensures forall j :: 0 <= j < |sleeps| ==> sleeps[j] == Backoff.Next(b, j)
  {
    lastErr, calls, sleeps := RetryLoop(Retrier(b), fn, retries);
    err := None;
  }

  /** `noRetrier.Do`: despite its name it runs the same bounded loop and
      does retry, only every wait is 0; it also returns nil. */
  method NoRetrierDo(fn: Work, retries: int)
    returns (err: Option<Error>, lastErr: Option<Error>, calls: nat, sleeps: seq<int>)
    ensures err == None
    ensures Stopped(fn, retries, calls)
    ensures lastErr == (if calls == 0 then None else fn(calls - 1))
    ensures |sleeps| == Failures(fn, calls)
    ensures forall j :: 0 <= j < |sleeps| ==> sleeps[j] == 0
  {
    lastErr, calls, sleeps := RetryLoop(NoRetrier, fn, retries);
    err := None;
  }

  /** `RetriableFunc.Do`: calls `fn` exactly once, whatever `retries` says,
      and returns its error. */
  method FuncDo(f: int -> int, fn: Work, retries: int) returns (err: Option<Error>, calls: nat)
    ensures calls == 1 && err == fn(0)
  {
    err := fn(0);
    calls := 1;
  }

  /** The stopping rule fixes the number of calls: a loop cannot stop at
      two different counts on the same outcomes. */
  lemma StoppedIsUnique(fn: Work, retries: int, c1: nat, c2: nat)
    requires Stopped(fn, retries, c1) && Stopped(fn, retries, c2)
    ensures c1 == c2
  {
    if c1 < c2 {
      assert false;
    } else if c2 < c1 {
      assert false;
    }
  }

  /** With `k` leading failures and a success at call `k` inside the
      budget, the loop makes exactly `k + 1` calls and `k` sleeps. */
  lemma StopsAtFirstSuccess(fn: Work, retries: int, calls: nat, k: nat)
    requires Stopped(fn, retries, calls)
    requires k < Budget(retries) && fn(k).None?
    requires forall j :: 0 <= j < k ==> fn(j).Some?
    ensures calls == k + 1 && Failures(fn, calls) == k
  {
    if calls < k + 1 {
      assert false;
    } else if calls > k + 1 {
      assert false;
    }
  }

  /** When every call in the budget fails, the loop uses the whole budget
      and sleeps after each call, the last one included. */
  lemma ExhaustsBudget(fn: Work, retries: int, calls: nat)
    requires Stopped(fn, retries, calls)
    requires forall j :: 0 <= j < Budget(retries) ==> fn(j).Some?
    ensures calls == Budget(retries) && Failures(fn, calls) == calls
  {
    if calls < Budget(retries) {
      assert false;
    }
  }

  /** Whichever strategy it wraps, a `retrier` waits nothing before its
      second call. */
  lemma FirstSleepIsZero(b: Backoff.Backoff)
    ensures NextInterval(Retrier(b), 0) == 0
    ensures NextInterval(NoRetrier, 0) == 0
  {
  }

  /** The scenario of retry_test.go: a constant backoff of 100ms, 5 retries
      and a work function that always fails. */
  method AlwaysFailingScenario() returns (err: Option<Error>, calls: nat, sleeps: seq<int>)
    ensures err == None && calls == 6
    ensures sleeps == [0, 200 * Millisecond, 400 * Millisecond, 800 * Millisecond,
                       1600 * Millisecond, 3200 * Millisecond]
  {
    var fn: Work := _ => Some(Error("retry testing"));
    var b := Backoff.NewConstantBackoff(100 * Millisecond);
    var lastErr;
    err, lastErr, calls, sleeps := RetrierDo(b, fn, 5);
    ExhaustsBudget(fn, 5, calls);
    assert Pow(2, 5) == 32;
    Backoff.ConstantIsDoubling(100 * Millisecond, 1);
    Backoff.ConstantIsDoubling(100 * Millisecond, 2);
    Backoff.ConstantIsDoubling(100 * Millisecond, 3);
    Backoff.ConstantIsDoubling(100 * Millisecond, 4);
    Backoff.ConstantIsDoubling(100 * Millisecond, 5);
  }
}
