/** The retry wrapper of the scrapers: a scraper is called up to `maxAttempts`
    times, waiting between failed attempts with exponential backoff, and a
    scraper that never succeeds yields an empty list instead of an exception.
    The wrapped call is a parameter: `attempt(k)` is what the k-th call (from 0)
    returns (`Ok`) or raises (`Err` with the exception's message); the waits are
    returned instead of slept. */
module ScraperUtils {
  import opened Wrappers
  import opened Text

  /** The defaults of the decorator. */
  const DefaultMaxAttempts: int := 3
  const DefaultDelay: real := 1.0
  const DefaultBackoff: real := 2.0

  function Power(b: real, k: nat): real {
    if k == 0 then 1.0 else b * Power(b, k - 1)
  }

  /** The wait before retry k + 1 (k from 0): `delay`, then `backoff` times the
      wait before it. */
  function Wait(delay: real, backoff: real, k: nat): real {
    if k == 0 then delay else Wait(delay, backoff, k - 1) * backoff
  }

  /** The k-th wait is delay·backoff^k. */
  lemma {:induction false} WaitClosedForm(delay: real, backoff: real, k: nat)
    ensures Wait(delay, backoff, k) == delay * Power(backoff, k)
  {
    if k > 0 {
      WaitClosedForm(delay, backoff, k - 1);
      Regroup(delay, Power(backoff, k - 1), backoff);
    }
  }

  lemma Regroup(d: real, p: real, b: real)
    ensures d * p * b == d * (b * p)
  {
  }

  /** The first `n` waits. */
  function Waits(delay: real, backoff: real, n: nat): (w: seq<real>)
    ensures |w| == n
  {
    if n == 0 then [] else Waits(delay, backoff, n - 1) + [Wait(delay, backoff, n - 1)]
  }

  /** The waits are a geometric progression: the k-th is delay·backoff^k. */
  lemma WaitsGeometric(delay: real, backoff: real, n: nat)
    ensures forall k :: 0 <= k < n ==> Waits(delay, backoff, n)[k] == delay * Power(backoff, k)
  {
    forall k | 0 <= k < n
      ensures Waits(delay, backoff, n)[k] == delay * Power(backoff, k)
    {
      WaitsAt(delay, backoff, n, k);
      WaitClosedForm(delay, backoff, k);
    }
  }

  /** The k-th wait of the list is the wait after the k-th failure. */
  lemma {:induction false} WaitsAt(delay: real, backoff: real, n: nat, k: nat)
    requires k < n
    ensures Waits(delay, backoff, n)[k] == Wait(delay, backoff, k)
  {
    var earlier := Waits(delay, backoff, n - 1);
    var last := Wait(delay, backoff, n - 1);
    if k < n - 1 {
      WaitsAt(delay, backoff, n - 1, k);
      SnocKeeps(earlier, last, k);
    } else {
      SnocLast(earlier, last);
    }
  }

  /** With the defaults, a scraper that always fails is called three times, with
      waits of one and then two seconds between the calls. */
  lemma DefaultWaits()
    ensures Waits(DefaultDelay, DefaultBackoff, DefaultMaxAttempts - 1) == [1.0, 2.0]
  {
    assert Waits(DefaultDelay, DefaultBackoff, 1) == [1.0];
  }

  /** The number of waits after `k` failed calls out of `maxAttempts`: one after
      each failure but the last allowed one. */
  function WaitCount(k: nat, maxAttempts: int): nat {
    if k > 0 && k == maxAttempts then k - 1 else k
  }

  /** `retry_async(max_attempts, delay, backoff)` applied to the call `attempt`:
      the result, the number of calls made and the waits between them. */
  method RetryAsync<T>(maxAttempts: int, delay: real, backoff: real, attempt: nat -> Result<seq<T>>)
    returns (result: seq<T>, calls: nat, waits: seq<real>)
    ensures calls <= if maxAttempts < 0 then 0 else maxAttempts
    ensures forall j :: 0 <= j < calls - 1 ==> attempt(j).Err?
    ensures calls > 0 && attempt(calls - 1).Ok? ==>
      result == attempt(calls - 1).value && waits == Waits(delay, backoff, calls - 1)
    ensures !(calls > 0 && attempt(calls - 1).Ok?) ==>
      result == [] && calls == (if maxAttempts < 0 then 0 else maxAttempts) &&
      (forall j :: 0 <= j < calls ==> attempt(j).Err?) &&
      waits == Waits(delay, backoff, WaitCount(calls, maxAttempts))
  {
    var currentDelay := delay;
    waits := [];
    calls := 0;
    for k := 0 to if maxAttempts < 0 then 0 else maxAttempts
      invariant calls == k
      invariant forall j :: 0 <= j < k ==> attempt(j).Err?
      invariant waits == Waits(delay, backoff, WaitCount(k, maxAttempts))
      invariant currentDelay == Wait(delay, backoff, |waits|)
    {
      var outcome := attempt(k);
      calls := calls + 1;
      if outcome.Ok? {
        return outcome.value, calls, waits;
      }
      if k < maxAttempts - 1 {
        waits := waits + [currentDelay];
        currentDelay := currentDelay * backoff;
      }
    }
    return [], calls, waits;
  }
}
