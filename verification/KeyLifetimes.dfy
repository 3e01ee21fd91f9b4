/**
 How long the producers' keys live.  Instants are nanoseconds, as the producers
 hold them; Redis and the queue scores count whole milliseconds, seconds in a key's
 lifetime.
 */
module KeyLifetimes {
  import opened Wrappers
  import opened Integers

  const MILLI := 1_000_000

  /** `timestamp_millis` */
  function Millis(instant: int): int {
    instant / MILLI
  }

  /** `num_milliseconds` of a difference: it drops the fraction. */
  function WholeMillis(nanos: int): int {
    if 0 <= nanos then nanos / MILLI else -(-nanos / MILLI)
  }

  function SaturatingAdd(a: int, b: nat): int {
    if a + b > I64_MAX then I64_MAX else a + b
  }

  /** The lifetime of an idempotency key in seconds, None when the call is refused. */
  function IdempotencyTtl(configured: int, enqueued: int, scheduled: int): Option<int> {
    if configured <= 0 then None
    else
      var deferral := WholeMillis(scheduled - enqueued);
      var seconds := SaturatingAdd(deferral, 999) / 1000;
      Some(if 0 < deferral && configured < seconds then seconds else configured)
  }

  /** The lifetime is the configured one, or the seconds that the deferral begins if there
      are more of them. */
  lemma TtlIsConfiguredOrDeferral(configured: int, enqueued: int, scheduled: int)
    requires WholeMillis(scheduled - enqueued) + 999 <= I64_MAX
    ensures IdempotencyTtl(configured, enqueued, scheduled).None? <==> configured <= 0
    ensures 0 < configured ==>
            var ttl := IdempotencyTtl(configured, enqueued, scheduled).value;
            var deferral := WholeMillis(scheduled - enqueued);
            && configured <= ttl
            && (deferral <= 1000 * configured ==> ttl == configured)
            && (1000 * configured < deferral ==> deferral <= 1000 * ttl < deferral + 1000)
  {}

  /** When a key set at `instant` for `ttl` seconds goes, in Redis milliseconds. */
  function GoneAt(instant: int, ttl: int): int {
    Millis(instant) + 1000 * ttl
  }

  /** The deferral fills whole seconds up to a fraction of a millisecond that its
      truncation loses. */
  predicate LosesFraction(configured: int, enqueued: int, scheduled: int) {
    var deferral := WholeMillis(scheduled - enqueued);
    0 < deferral && configured * 1000 <= deferral && deferral % 1000 == 0 && scheduled % MILLI < enqueued % MILLI
  }

  /** The idempotency key outlives the scheduled time, whenever the script runs,
      exactly when no fraction of a millisecond was lost. */
  lemma IdempotencyKeyCoversDeferral(configured: int, enqueued: int, scheduled: int)
    requires 0 < configured && WholeMillis(scheduled - enqueued) + 999 <= I64_MAX
    ensures var ttl := IdempotencyTtl(configured, enqueued, scheduled);
            (forall at :: enqueued <= at ==> Millis(scheduled) <= GoneAt(at, ttl.value)) <==>
            !LosesFraction(configured, enqueued, scheduled)
  {
    var ttl := IdempotencyTtl(configured, enqueued, scheduled).value;
    MillisOfDifference(enqueued, scheduled);
    forall at | enqueued <= at ensures GoneAt(enqueued, ttl) <= GoneAt(at, ttl) {
      assert enqueued / MILLI <= at / MILLI;
    }
    assert Millis(scheduled) <= GoneAt(enqueued, ttl) <==> !LosesFraction(configured, enqueued, scheduled);
    if LosesFraction(configured, enqueued, scheduled) {
      assert !(Millis(scheduled) <= GoneAt(enqueued, ttl));
    }
  }

  /** Even then it falls short by one millisecond at most. */
  lemma IdempotencyKeyNearlyCovers(configured: int, enqueued: int, scheduled: int, at: int)
    requires 0 < configured && WholeMillis(scheduled - enqueued) + 999 <= I64_MAX && enqueued <= at
    ensures Millis(scheduled) - 1 <= GoneAt(at, IdempotencyTtl(configured, enqueued, scheduled).value)
  {}

  lemma MillisOfDifference(enqueued: int, scheduled: int)
    ensures enqueued <= scheduled ==>
              Millis(scheduled) - Millis(enqueued) ==
              WholeMillis(scheduled - enqueued) + if scheduled % MILLI < enqueued % MILLI then 1 else 0
    ensures scheduled < enqueued ==> Millis(scheduled) <= Millis(enqueued) && WholeMillis(scheduled - enqueued) <= 0
  {}

  // ---------- rate limit and debounce windows

  const BILLION := 1_000_000_000
  const PRECISION := 0x20_0000_0000_0000 as real

  /** `nanos as f64 / 1e9`, rounded: between 0 and 1, and 0 only for 0. */
  ghost predicate IsQuotient(nanos: nat, q: real) {
    && 0.0 <= q <= 1.0 && (q == 0.0 <==> nanos == 0)
    && -1.0 <= (q - nanos as real / BILLION as real) * PRECISION <= 1.0
  }

  /** `secs as f64 + q`, rounded to the nearest float: below 2^53 whole seconds are
      floats themselves, and a sum is off by no more than its 2^53rd part. */
  ghost predicate IsSum(secs: nat, q: real, f: real) {
    && secs as real <= f <= secs as real + 1.0 && (q == 0.0 ==> f == secs as real)
    && -(secs as real + 1.0) <= (f - secs as real - q) * PRECISION <= secs as real + 1.0
  }

  /** `as_secs_f64` of a window in nanoseconds, of fewer than 2^53 seconds. */
  ghost predicate IsSeconds(window: nat, f: real) {
    exists q :: IsQuotient(window % BILLION, q) && IsSum(window / BILLION, q, f)
  }

  /** `ceil() as i64` */
  function WindowTtl(f: real): int {
    -(-f).Floor
  }

  /** The window has a fraction of a second that the float has lost. */
  predicate RoundedAway(window: nat, f: real) {
    window % BILLION != 0 && f == (window / BILLION) as real
  }

  /** A window's key lives at least as long as the window exactly when the float keeps
      its fraction of a second; it is within a second of the window in any case. */
  lemma WindowIsCovered(window: nat, f: real)
    requires IsSeconds(window, f)
    ensures window <= WindowTtl(f) * BILLION <==> !RoundedAway(window, f)
    ensures WindowTtl(f) * BILLION < window + BILLION && window < (WindowTtl(f) + 1) * BILLION
  {
    var secs := window / BILLION;
    assert WindowTtl(f) == if f == secs as real then secs else secs + 1;
  }

  /** Windows of fewer than 2^23 - 1 seconds (97 days) keep it, and only the empty one is refused. */
  lemma EverydayWindowIsCovered(window: nat, f: real)
    requires IsSeconds(window, f) && window / BILLION < 0x7F_FFFF
    ensures !RoundedAway(window, f)
    ensures WindowTtl(f) <= 0 <==> window == 0
  {}

  /** A nanosecond beyond 2^24 seconds need not: the key may go before the window ends. */
  lemma LongWindowMayFallShort()
    ensures var window, f := 0x100_0000 * BILLION + 1, 0x100_0000 as real;
            IsSeconds(window, f) && WindowTtl(f) * BILLION < window
  {
    var window, f := 0x100_0000 * BILLION + 1, 0x100_0000 as real;
    var q := 1.0 / BILLION as real;
    assert IsQuotient(window % BILLION, q) && IsSum(window / BILLION, q, f);
    WindowIsCovered(window, f);
  }

  /** A debounce key covers its job's scheduled time to the millisecond unless the float
      has lost a fraction: the window is rounded up before any millisecond is dropped. */
  lemma DebounceKeyCovers(window: nat, f: real, enqueued: int, at: int)
    requires enqueued <= at && IsSeconds(window, f)
    ensures !RoundedAway(window, f) ==> Millis(enqueued + window) <= GoneAt(at, WindowTtl(f))
  {
    WindowIsCovered(window, f);
    if !RoundedAway(window, f) {
      assert enqueued + window <= at + WindowTtl(f) * 1000 * MILLI;
    }
  }
}
