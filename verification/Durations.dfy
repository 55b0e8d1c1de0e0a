/** Retry and timeout arithmetic on Go's `time.Duration`, a 64-bit count of nanoseconds. */
module Durations {
  import opened Text

  const MAX_DURATION: int := 0x7fff_ffff_ffff_ffff
  const SECOND: int := 1_000_000_000

  predicate IsInt64(x: int) { -MAX_DURATION - 1 <= x <= MAX_DURATION }

  function Min(a: int, b: int): int { if a < b then a else b }

  function Pow2(n: nat): (p: nat)
    ensures p >= 1
    ensures n >= 1 ==> p % 2 == 0
  {
    if n == 0 then 1 else 2 * Pow2(n - 1)
  }

  /** The exact delay before retry `k + 1`, without any width limit. */
  function Doubled(base: int, k: nat): int { base * Pow2(k) }

  /** The exact sum of the first `n` delays. */
  function DoubledSum(base: int, n: nat): int { base * (Pow2(n) - 1) }

  lemma DoubledStep(base: int, k: nat)
    ensures Doubled(base, 0) == base && DoubledSum(base, 0) == 0
    ensures Doubled(base, k + 1) == 2 * Doubled(base, k)
    ensures DoubledSum(base, k + 1) == DoubledSum(base, k) + Doubled(base, k)
  {
    assert base * (2 * Pow2(k)) == 2 * (base * Pow2(k));
    assert base * (2 * Pow2(k) - 1) == base * (Pow2(k) - 1) + base * Pow2(k);
  }

  lemma {:induction false} DoubledGrows(base: int, k: nat, m: nat)
    requires base > 0 && k <= m
    ensures base <= Doubled(base, k) <= Doubled(base, m)
    ensures 0 <= DoubledSum(base, k) <= DoubledSum(base, m)
    ensures k < m ==> Doubled(base, k) < Doubled(base, m)
    decreases m
  {
    if m > 0 {
      DoubledStep(base, m - 1);
      if k < m { DoubledGrows(base, k, m - 1); } else { DoubledGrows(base, m - 1, m - 1); }
    }
  }

  function Sum(values: seq<int>): int {
    if values == [] then 0 else Sum(values[..|values| - 1]) + Max0(values[|values| - 1])
  }

  function Max0(x: int): int { if x > 0 then x else 0 }

  lemma {:induction false} SumGrows(values: seq<int>, i: nat)
    requires i <= |values|
    ensures 0 <= Sum(values[..i]) <= Sum(values)
    decreases |values| - i, i
  {
    if i < |values| {
      assert values[..i + 1][..i] == values[..i];
      SumGrows(values, i + 1);
    } else {
      assert values[..i] == values;
    }
    if i > 0 {
      SumNonNegative(values[..i]);
    }
  }

  lemma {:induction false} SumNonNegative(values: seq<int>)
    ensures Sum(values) >= 0
  {
    if values != [] { SumNonNegative(values[..|values| - 1]); }
  }

  /** The sum of the positive values, capped instead of wrapping around. */
  method SaturatingAdd(values: seq<int>) returns (total: int)
    requires forall i | 0 <= i < |values| :: IsInt64(values[i])
    ensures total == Min(Sum(values), MAX_DURATION) && total >= 0
  {
    total := 0;
    var i := 0;
    while i < |values|
      invariant 0 <= i <= |values|
      invariant total == Sum(values[..i]) && 0 <= total <= MAX_DURATION
    {
      var v := values[i];
      assert values[..i + 1][..i] == values[..i];
      SumGrows(values, i + 1);
      i := i + 1;
      if v <= 0 { continue; }
      if total > MAX_DURATION - v { return MAX_DURATION; }
      total := total + v;
    }
    assert values[..i] == values;
  }

  lemma DivisionGuard(d: int, n: int)
    requires d > 0 && n > 0
    ensures d > MAX_DURATION / n <==> d * n > MAX_DURATION
  {
    var q := MAX_DURATION / n;
    assert q * n <= MAX_DURATION < q * n + n;
    if d > q {
      assert d * n >= (q + 1) * n;
    } else {
      assert d * n <= q * n;
    }
  }

  /** `d * n`, capped instead of wrapping around; the guard never divides wrongly at the edge. */
  function MultiplyDuration(d: int, n: int): (r: int)
    ensures r == if d <= 0 || n <= 0 then 0 else Min(d * n, MAX_DURATION)
  {
    if d <= 0 || n <= 0 then 0
    else
      DivisionGuard(d, n);
      if d > MAX_DURATION / n then MAX_DURATION else d * n
  }

  method RetryBackoffTotal(base: int, attempts: int) returns (total: int)
    requires IsInt64(base)
    ensures total == if attempts <= 1 || base <= 0 then 0 else Min(DoubledSum(base, attempts - 1), MAX_DURATION)
  {
    if attempts <= 1 || base <= 0 { return 0; }
    total := 0;
    var backoff := base;
    DoubledStep(base, 0);
    var i := 1;
    while i < attempts
      invariant 1 <= i <= attempts
      invariant backoff == Min(Doubled(base, i - 1), MAX_DURATION) && backoff > 0
      invariant total == Min(DoubledSum(base, i - 1), MAX_DURATION) && total >= 0
    {
      DoubledStep(base, i - 1);
      DoubledGrows(base, i - 1, i);
      var before := total;
      total := SaturatingAdd([total, backoff]);
      assert [before, backoff][..1] == [before] && [before][..0] == [];
      assert Sum([before, backoff]) == Sum([before]) + backoff && Sum([before]) == before;
      if backoff > MAX_DURATION / 2 { backoff := MAX_DURATION; } else { backoff := backoff * 2; }
      i := i + 1;
    }
  }

  /** The doubling loop that ACS and SES share. */
  method DoublingLoop(base: int, attempt: int) returns (backoff: int)
    requires 0 < base <= MAX_DURATION && attempt > 1
    ensures backoff == Min(Doubled(base, attempt - 1), MAX_DURATION)
  {
    backoff := base;
    DoubledStep(base, 0);
    var i := 1;
    while i < attempt
      invariant 1 <= i <= attempt
      invariant backoff == Doubled(base, i - 1) && 0 < backoff <= MAX_DURATION
    {
      DoubledStep(base, i - 1);
      if backoff > MAX_DURATION / 2 {
        DoubledGrows(base, i, attempt - 1);
        return MAX_DURATION;
      }
      backoff := backoff * 2;
      i := i + 1;
    }
  }

  /** ACS: the wait after failed attempt number `attempt`. */
  method RetryBackoff(base: int, attempt: int) returns (backoff: int)
    requires IsInt64(base)
    ensures backoff == if attempt <= 1 || base <= 0 then base else Min(Doubled(base, attempt - 1), MAX_DURATION)
  {
    if attempt <= 1 || base <= 0 { return base; }
    backoff := DoublingLoop(base, attempt);
  }

  const DEFAULT_RETRY_BASE_DELAY: int := SECOND

  /** SES: the wait the AWS SDK is told to make. */
  method BackoffDelay(base: int, attempt: int) returns (backoff: int)
    requires IsInt64(base)
    ensures backoff == if base <= 0 then 1_000_000_000
                       else if attempt <= 1 then base else Min(Doubled(base, attempt - 1), MAX_DURATION)
  {
    if base <= 0 { return DEFAULT_RETRY_BASE_DELAY; }
    if attempt <= 1 { return base; }
    backoff := DoublingLoop(base, attempt);
  }

  /** A product in 64-bit two's complement. */
  function Wrap64(x: int): (r: int)
    ensures IsInt64(r)
    ensures IsInt64(x) ==> r == x
    ensures (r - x) % 0x1_0000_0000_0000_0000 == 0
  {
    var m := x % 0x1_0000_0000_0000_0000;
    if m <= MAX_DURATION then m else m - 0x1_0000_0000_0000_0000
  }

  /** The worker's wait after a failed submission: one unchecked shift-and-multiply. */
  function SubmitRetryDelay(base: int, attempt: int): (r: int) {
    var shift := if attempt < 0 then 0 else if attempt > 30 then 30 else attempt;
    Wrap64(Doubled(base, shift))
  }

  /** It is the product as 64 bits hold it; the shift stays between 0 and 30. */
  lemma RetryDelayIs(base: int, attempt: int)
    ensures var d, exact := SubmitRetryDelay(base, attempt), base * Pow2(if attempt < 0 then 0 else Min(attempt, 30));
            IsInt64(d) && (d - exact) % 0x1_0000_0000_0000_0000 == 0
  {
    hide Pow2;
  }

  /** The worker's wait agrees with the capped doubling of ACS and SES exactly when nothing is cut off. */
  lemma WorkerDelayAgreesIff(base: int, attempt: nat)
    requires 0 < base <= MAX_DURATION
    ensures SubmitRetryDelay(base, attempt) == Min(Doubled(base, attempt), MAX_DURATION)
            <==> attempt <= 30 && Doubled(base, attempt) <= MAX_DURATION
  {
    var shift: nat := if attempt > 30 then 30 else attempt;
    DoubledGrows(base, shift, attempt);
    DoubledStep(base, 0);
    if shift > 0 {
      DoubledStep(base, shift - 1);
    }
  }

  /** A wait that overflows can come out negative, or zero. */
  lemma WorkerDelayCanBeNegative()
    ensures SubmitRetryDelay(MAX_DURATION / 2 + 1, 1) < 0
    ensures SubmitRetryDelay(MAX_DURATION / 4 + 1, 2) < 0
    ensures SubmitRetryDelay(0x4000_0000_0000_0000, 2) == 0
  {
    assert Pow2(1) == 2 && Pow2(2) == 4;
  }

  /** The time the whole retry loop can take at most, by exact arithmetic. */
  function WorstCase(httpTimeout: int, base: int, attempts: int): int
    requires attempts >= 1
  {
    httpTimeout * attempts + DoubledSum(base, attempts - 1)
  }

  method RuntimeSendTimeout(httpTimeout: int, base: int, attempts: int) returns (budget: int)
    requires IsInt64(httpTimeout) && IsInt64(base)
    ensures 2_000_000_000 <= budget <= MAX_DURATION
    ensures httpTimeout > 0 && base > 0 && attempts >= 1 ==>
              budget == Min(WorstCase(httpTimeout, base, attempts) + 2_000_000_000, MAX_DURATION)
  {
    var transport := MultiplyDuration(httpTimeout, attempts);
    var backoff := RetryBackoffTotal(base, attempts);
    if httpTimeout > 0 && base > 0 && attempts >= 1 {
      assert httpTimeout * attempts > 0;
      DoubledStep(base, 0);
      DoubledGrows(base, 0, attempts - 1);
    }
    if base > 0 && attempts > 1 {
      DoubledGrows(base, 0, attempts - 1);
    }
    budget := SaturatingAdd([transport, backoff, 2 * SECOND]);
    SumOfThree(transport, backoff, 2 * SECOND);
  }

  lemma SumOfThree(a: int, b: int, c: int)
    ensures Sum([a, b, c]) == Max0(a) + Max0(b) + Max0(c)
  {
    assert [a, b, c][..2] == [a, b] && [a, b][..1] == [a] && [a][..0] == [];
    assert Sum([a]) == Max0(a) && Sum([a, b]) == Sum([a]) + Max0(b);
  }

  // ---- the ACS submit loop ----

  datatype SendFailure = SendFailure(retryable: bool)
  datatype AttemptOutcome = Accepted | Rejected(failure: SendFailure)

  /** One HTTP attempt: how long it took, what came back, and whether the wait after it was cut short. */
  datatype Attempt = Attempt(took: int, outcome: AttemptOutcome, canceledAfter: bool, waited: int)

  datatype SendResult = Running(operationID: string) | Failure(retryable: bool)

  ghost predicate Plausible(answers: seq<Attempt>, httpTimeout: int) {
    forall i | 0 <= i < |answers| :: 0 <= answers[i].took <= httpTimeout && 0 <= answers[i].waited
  }

  /** Every attempt runs into the HTTP timeout, may be retried, and is not canceled. */
  ghost predicate AllTimeOut(answers: seq<Attempt>, httpTimeout: int) {
    forall i | 0 <= i < |answers| ::
      answers[i].took == httpTimeout && answers[i].outcome == Rejected(SendFailure(true)) && !answers[i].canceledAfter
  }

  /** No single wait of the loop is cut down to the largest duration. */
  predicate Uncapped(base: int, attempts: int) {
    attempts >= 2 ==> Doubled(base, attempts - 2) <= MAX_DURATION
  }

  /** The loop goes on after attempt `k`: it failed, may be retried, was not the last, and nobody canceled the wait. */
  predicate GoesOn(a: Attempt, k: int, retryAttempts: int) {
    a.outcome.Rejected? && a.outcome.failure.retryable && k < retryAttempts && !a.canceledAfter
  }

  /** The time of the first `k` requests. */
  function Requests(answers: seq<Attempt>, k: nat): int
    requires k <= |answers|
  {
    if k == 0 then 0 else Requests(answers, k - 1) + answers[k - 1].took
  }

  /** The first `k` waits, each twice the one before, none longer than the largest duration. */
  function Waits(base: int, k: nat): int {
    if k == 0 then 0 else Waits(base, k - 1) + Min(base * Pow2(k - 1), MAX_DURATION)
  }

  /** What is left of the wait after attempt `k` when it was canceled. */
  function CutWait(a: Attempt, base: int, k: nat, retryAttempts: int): int {
    if k > 0 && a.outcome.Rejected? && a.outcome.failure.retryable && k < retryAttempts
    then Min(a.waited, Min(base * Pow2(k - 1), MAX_DURATION)) else 0
  }

  /** What the last answer means. */
  function Verdict(a: Attempt, k: int, retryAttempts: int, operationID: string): SendResult {
    if a.outcome.Accepted? then Running(operationID)
    else Failure(a.outcome.failure.retryable && k == retryAttempts)
  }

  /**
   `Submit` of the ACS provider: one request after the other until an answer settles it; `spent` is the time taken by
   requests and waits.
   */
  method AcsSubmit(operationID: string, answers: seq<Attempt>, httpTimeout: int, base: int, retryAttempts: int)
    returns (result: SendResult, requests: nat, spent: int)
    requires 0 < base <= MAX_DURATION && 1 <= retryAttempts <= |answers| && httpTimeout > 0
    requires Plausible(answers, httpTimeout)
    ensures 1 <= requests <= retryAttempts
    ensures forall i | 0 <= i < requests - 1 :: GoesOn(answers[i], i + 1, retryAttempts)
    ensures !GoesOn(answers[requests - 1], requests, retryAttempts)
    ensures result == Verdict(answers[requests - 1], requests, retryAttempts, Trim(operationID))
    ensures spent == Requests(answers, requests) + Waits(base, requests - 1)
                     + CutWait(answers[requests - 1], base, requests, retryAttempts)
    ensures 0 <= spent <= WorstCase(httpTimeout, base, retryAttempts)
    ensures AllTimeOut(answers, httpTimeout) && Uncapped(base, retryAttempts) ==>
              spent == WorstCase(httpTimeout, base, retryAttempts) && result == Failure(true)
    ensures AllTimeOut(answers, httpTimeout) && !Uncapped(base, retryAttempts) ==>
              spent > MAX_DURATION && result == Failure(true)
  {
    hide Trim, WorstCase, Uncapped, Pow2;
    var op := Trim(operationID);
    requests, spent := 0, 0;
    var attempt := 1;
    while attempt <= retryAttempts
      invariant 1 <= attempt <= retryAttempts
      invariant requests == attempt - 1
      invariant spent == Requests(answers, requests) + Waits(base, requests)
      invariant forall i | 0 <= i < requests :: GoesOn(answers[i], i + 1, retryAttempts)
    {
      var a := answers[attempt - 1];
      spent, requests := spent + a.took, requests + 1;
      if a.outcome.Accepted? {
        SpentIsBounded(answers, httpTimeout, base, retryAttempts, requests, spent);
        return Running(op), requests, spent;
      }
      if !a.outcome.failure.retryable || attempt == retryAttempts {
        SpentIsBounded(answers, httpTimeout, base, retryAttempts, requests, spent);
        return Failure(a.outcome.failure.retryable), requests, spent;
      }
      var backoff := RetryBackoff(base, attempt);
      DoubledStep(base, attempt - 1);
      if a.canceledAfter {
        spent := spent + Min(a.waited, backoff);
        SpentIsBounded(answers, httpTimeout, base, retryAttempts, requests, spent);
        return Failure(false), requests, spent;
      }
      spent := spent + backoff;
      attempt := attempt + 1;
    }
    assert false;
  }

  /** A permanent failure is reported exactly for a permanent answer, or for a wait that was canceled. */
  lemma PermanentIff(a: Attempt, k: int, retryAttempts: int, operationID: string)
    requires !GoesOn(a, k, retryAttempts) && k <= retryAttempts
    ensures Verdict(a, k, retryAttempts, operationID) == Failure(false) <==>
              && a.outcome.Rejected?
              && (!a.outcome.failure.retryable || (a.canceledAfter && k < retryAttempts))
  {}

  lemma {:induction false} RequestsBound(answers: seq<Attempt>, httpTimeout: int, k: nat)
    requires Plausible(answers, httpTimeout) && k <= |answers|
    ensures 0 <= Requests(answers, k) <= httpTimeout * k
    ensures (forall i | 0 <= i < k :: answers[i].took == httpTimeout) ==> Requests(answers, k) == httpTimeout * k
  {
    if k > 0 {
      RequestsBound(answers, httpTimeout, k - 1);
      assert httpTimeout * k == httpTimeout * (k - 1) + httpTimeout;
    }
  }

  lemma {:induction false} WaitsBound(base: int, k: nat)
    requires base > 0
    ensures 0 <= Waits(base, k) <= DoubledSum(base, k)
    ensures k == 0 || Doubled(base, k - 1) <= MAX_DURATION ==> Waits(base, k) == DoubledSum(base, k)
    ensures k > 0 && Doubled(base, k - 1) > MAX_DURATION ==> Waits(base, k) >= MAX_DURATION
  {
    if k > 0 {
      WaitsBound(base, k - 1);
      DoubledStep(base, k - 1);
      if k > 1 { DoubledGrows(base, k - 2, k - 1); } else { DoubledStep(base, 0); }
    } else {
      DoubledStep(base, 0);
    }
  }

  /** No run takes longer than the worst case; one in which every request times out takes just as long, or too long. */
  lemma SpentIsBounded(answers: seq<Attempt>, httpTimeout: int, base: int, retryAttempts: int, requests: nat,
                       spent: int)
    requires 0 < base <= MAX_DURATION && 1 <= requests <= retryAttempts <= |answers| && httpTimeout > 0
    requires Plausible(answers, httpTimeout)
    requires forall i | 0 <= i < requests - 1 :: GoesOn(answers[i], i + 1, retryAttempts)
    requires !GoesOn(answers[requests - 1], requests, retryAttempts)
    requires spent == Requests(answers, requests) + Waits(base, requests - 1)
                      + CutWait(answers[requests - 1], base, requests, retryAttempts)
    ensures 0 <= spent <= WorstCase(httpTimeout, base, retryAttempts)
    ensures AllTimeOut(answers, httpTimeout) ==> requests == retryAttempts
    ensures AllTimeOut(answers, httpTimeout) && Uncapped(base, retryAttempts) ==>
              spent == WorstCase(httpTimeout, base, retryAttempts)
    ensures AllTimeOut(answers, httpTimeout) && !Uncapped(base, retryAttempts) ==> spent > MAX_DURATION
  {
    hide Doubled, DoubledSum, Requests, Waits, Pow2, CutWait;
    RequestsBound(answers, httpTimeout, requests);
    WaitsBound(base, requests - 1);
    CutBound(answers[requests - 1], base, requests, retryAttempts);
    DoubledGrows(base, requests - 1, retryAttempts - 1);
    if requests < retryAttempts { DoubledGrows(base, requests, retryAttempts - 1); }
    TimesGrow(httpTimeout, requests, retryAttempts);
    if AllTimeOut(answers, httpTimeout) {
      assert GoesOn(answers[requests - 1], requests, retryAttempts) <==> requests < retryAttempts;
      NoCut(answers[requests - 1], base, requests, retryAttempts);
    }
  }

  lemma TimesGrow(t: int, m: nat, n: nat)
    requires t > 0 && 1 <= m <= n
    ensures t <= t * m <= t * n
  {
    assert t * n - t * m == t * (n - m) >= 0 && t * m - t == t * (m - 1) >= 0;
  }

  lemma NoCut(a: Attempt, base: int, k: nat, retryAttempts: int)
    requires k >= retryAttempts
    ensures CutWait(a, base, k, retryAttempts) == 0
  {}

  lemma CutBound(a: Attempt, base: int, k: nat, retryAttempts: int)
    requires base > 0 && k > 0 && a.waited >= 0
    ensures 0 <= CutWait(a, base, k, retryAttempts)
    ensures DoubledSum(base, k - 1) + CutWait(a, base, k, retryAttempts) <=
              if k < retryAttempts then DoubledSum(base, k) else DoubledSum(base, k - 1)
  {
    DoubledStep(base, k - 1);
    DoubledGrows(base, k - 1, k);
  }

  /**
   The factory hands one HTTP timeout, base delay and attempt count both to the budget and to the provider.
   Every run of the submit loop then ends two seconds before the budget does, exactly when the exact sum fits
   in a duration: when it does not fit, the run in which every request times out breaks the promise.
   */
  method SubmitUnderBudget(operationID: string, answers: seq<Attempt>, httpTimeout: int, base: int, attempts: int)
    returns (budget: int, result: SendResult, spent: int)
    requires 0 < base <= MAX_DURATION && 1 <= attempts <= |answers| && 0 < httpTimeout <= MAX_DURATION
    requires Plausible(answers, httpTimeout)
    ensures 2 * SECOND <= budget <= MAX_DURATION
    ensures WorstCase(httpTimeout, base, attempts) + 2 * SECOND <= MAX_DURATION ==> spent <= budget - 2 * SECOND
    ensures AllTimeOut(answers, httpTimeout) ==> result == Failure(true)
    ensures AllTimeOut(answers, httpTimeout) ==>
              (spent <= budget - 2 * SECOND <==> WorstCase(httpTimeout, base, attempts) + 2 * SECOND <= MAX_DURATION)
  {
    budget := RuntimeSendTimeout(httpTimeout, base, attempts);
    var requests;
    result, requests, spent := AcsSubmit(operationID, answers, httpTimeout, base, attempts);
    if attempts >= 2 {
      DoubledStep(base, attempts - 2);
      DoubledGrows(base, attempts - 2, attempts - 2);
      assert httpTimeout * attempts >= 0;
    }
  }
}
