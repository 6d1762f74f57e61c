/** How long a failed upload waits: exponential backoff with jitter, and the Retry-After header. */
module RetryPolicy {
  import opened Numbers

  const BACKOFF_BASE_MS: nat := 5000
  const BACKOFF_MAX_MS: nat := 3600000
  const RETRY_AFTER_MAX_MS: nat := 86400000
  const MAX_FAILURE_COUNT: nat := 30
  const MAX_HEADER_LENGTH: nat := 128

  function Pow2(n: nat): (p: nat)
    ensures p >= 1
  {
    if n == 0 then 1 else 2 * Pow2(n - 1)
  }

  /** The host rounds halves upwards. */
  function Round(x: real): int {
    (x + 0.5).Floor
  }

  function Nominal(failureCount: nat): (n: nat)
    ensures BACKOFF_BASE_MS <= n <= BACKOFF_MAX_MS
  {
    var exponent := Min(MAX_FAILURE_COUNT - 1, Max(0, failureCount - 1));
    Min(BACKOFF_MAX_MS, BACKOFF_BASE_MS * Pow2(exponent))
  }

  function Jittered(nominal: nat, random: real): real {
    nominal as real * (0.5 + random)
  }

  function Backoff(failureCount: nat, random: real): int {
    Max(1, Min(BACKOFF_MAX_MS, Round(Jittered(Nominal(failureCount), random))))
  }

  lemma {:induction false} JitterRange(nominal: nat, random: real)
    requires 0.0 <= random < 1.0
    ensures nominal as real * 0.5 <= Jittered(nominal, random) <= nominal as real * 1.5
  {
    var n := nominal as real;
    assert n * random >= 0.0;
    assert n * random <= n * 1.0;
    assert Jittered(nominal, random) == n * 0.5 + n * random;
  }

  /** Whatever the jitter and the failure count, the wait lies between half the base and the cap. */
  lemma {:induction false} BackoffRange(failureCount: nat, random: real)
    requires 0.0 <= random < 1.0
    ensures BACKOFF_BASE_MS / 2 <= Backoff(failureCount, random) <= BACKOFF_MAX_MS
    ensures 2 * Backoff(failureCount, random) >= Nominal(failureCount)
  {
    JitterRange(Nominal(failureCount), random);
  }

  lemma {:induction false} PowMonotone(a: nat, b: nat)
    requires a <= b
    ensures Pow2(a) <= Pow2(b)
  {
    if a < b {
      PowMonotone(a, b - 1);
    }
  }

  /** More failures never shorten the wait before jitter. */
  lemma {:induction false} NominalMonotone(a: nat, b: nat)
    requires a <= b
    ensures Nominal(a) <= Nominal(b)
  {
    PowMonotone(Min(MAX_FAILURE_COUNT - 1, Max(0, a - 1)), Min(MAX_FAILURE_COUNT - 1, Max(0, b - 1)));
  }

  /** One more failure doubles the wait before jitter, until the cap is reached. */
  lemma {:induction false} NominalDoubles(failureCount: nat)
    requires 1 <= failureCount < MAX_FAILURE_COUNT
    ensures Nominal(failureCount + 1) == Min(BACKOFF_MAX_MS, 2 * Nominal(failureCount))
  {
    assert Pow2(failureCount) == 2 * Pow2(failureCount - 1);
  }

  predicate Digit(c: char) {
    '0' <= c <= '9'
  }

  predicate Control(c: char) {
    c as int <= 31 || c as int == 127
  }

  function Decimal(s: string): nat
    requires forall c :: c in s ==> Digit(c)
  {
    if s == [] then 0
    else
      assert Digit(s[|s| - 1]);
      10 * Decimal(s[..|s| - 1]) + (s[|s| - 1] as int - '0' as int)
  }

  predicate AllDigits(s: string) {
    |s| > 0 && forall c :: c in s ==> Digit(c)
  }

  /** What the host makes of the header: its whitespace test and its date parser. */
  datatype Host = Host(space: char -> bool, parseDate: string -> Option<int>)

  predicate Acceptable(header: string, now: nat, host: Host) {
    && now <= MAX_SAFE_INTEGER
    && 0 < |header| <= MAX_HEADER_LENGTH
    && !host.space(header[0]) && !host.space(header[|header| - 1])
    && (forall c :: c in header ==> !Control(c))
  }

  /** The delay a Retry-After header asks for, in milliseconds; None when the header is unusable. */
  function RetryAfter(header: Option<string>, now: nat, host: Host): (delay: Option<nat>)
    ensures delay.Some? ==> delay.value <= RETRY_AFTER_MAX_MS
  {
    if header.None? || !Acceptable(header.value, now, host) then None
    else if AllDigits(header.value) then
      var seconds := Decimal(header.value);
      if seconds > MAX_SAFE_INTEGER then Some(RETRY_AFTER_MAX_MS)
      else Some(Min(RETRY_AFTER_MAX_MS, seconds * 1000))
    else match host.parseDate(header.value)
      case None => None
      case Some(deadline) => Some(Min(RETRY_AFTER_MAX_MS, Max(0, deadline - now)))
  }

  /** A header of digits is never refused for its size: it means its number of seconds, capped at a day. */
  lemma {:induction false} SecondsAreCapped(header: string, now: nat, host: Host)
    requires AllDigits(header) && Acceptable(header, now, host)
    ensures RetryAfter(Some(header), now, host) == Some(Min(RETRY_AFTER_MAX_MS, 1000 * Decimal(header)))
  {
  }

  /** How an upload attempt ended when it did not succeed. */
  datatype SendFailure = Network | Http(status: nat, retryAfter: Option<string>)

  function RetryAt(now: nat, failureCount: nat, random: real, failure: SendFailure, host: Host): nat {
    var backoff := Backoff(failureCount, random);
    var delay := if failure.Http? then RetryAfter(failure.retryAfter, now, host) else None;
    SafeAdd(now, Max(backoff, if delay.Some? then delay.value else 0))
  }

  /** Every release waits at least half the base delay and at most a day, unless the clock is at its end. */
  lemma {:induction false} RetryAtRange(now: nat, failureCount: nat, random: real, failure: SendFailure, host: Host)
    requires now <= MAX_SAFE_INTEGER && 0.0 <= random < 1.0
    ensures var at := RetryAt(now, failureCount, random, failure, host);
            && 0 < at <= MAX_SAFE_INTEGER
            && at - now <= RETRY_AFTER_MAX_MS
            && (at - now >= BACKOFF_BASE_MS / 2 || at == MAX_SAFE_INTEGER)
  {
    BackoffRange(failureCount, random);
  }

  /** A usable header is honoured: the wait is never shorter than what the server asked for. */
  lemma {:induction false} ServerDelayHonoured(now: nat, failureCount: nat, random: real, status: nat, header: string, host: Host)
    requires now + RETRY_AFTER_MAX_MS <= MAX_SAFE_INTEGER && 0.0 <= random < 1.0
    ensures var asked := RetryAfter(Some(header), now, host);
            var at := RetryAt(now, failureCount, random, Http(status, Some(header)), host);
            asked.Some? ==> at >= now + asked.value
  {
    BackoffRange(failureCount, random);
  }

  /** The batch limit after a failure: halved when the server found the batch too large. */
  function NextBatchLimit(batchLimit: nat, sent: nat, failure: SendFailure): nat {
    if failure.Http? && failure.status == 413 then Max(1, Min(batchLimit, sent) / 2) else batchLimit
  }

  /** Never below one, never growing, and strictly smaller on each 413 until it is one. */
  lemma {:induction false} BatchLimitShrinks(batchLimit: nat, sent: nat, failure: SendFailure)
    requires batchLimit >= 1
    ensures var next := NextBatchLimit(batchLimit, sent, failure);
            && 1 <= next <= batchLimit
            && (failure.Http? && failure.status == 413 && batchLimit > 1 ==> next < batchLimit)
  {
  }

  /** After enough 413 answers a scope sends one event at a time, however many events each attempt held. */
  lemma {:induction false} BatchLimitReachesOne(batchLimit: nat, sent: seq<nat>)
    requires batchLimit >= 1 && |sent| >= batchLimit - 1
    ensures LimitAfter(batchLimit, sent) == 1
    decreases |sent|
  {
    if sent == [] {
    } else {
      var next := NextBatchLimit(batchLimit, sent[0], Http(413, None));
      BatchLimitShrinks(batchLimit, sent[0], Http(413, None));
      BatchLimitReachesOne(next, sent[1..]);
    }
  }

  function LimitAfter(batchLimit: nat, sent: seq<nat>): nat
    decreases |sent|
  {
    if sent == [] then batchLimit
    else LimitAfter(NextBatchLimit(batchLimit, sent[0], Http(413, None)), sent[1..])
  }
}
