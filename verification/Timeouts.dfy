/** Durations in Go's 64-bit nanoseconds, and the two places where the service turns them into whole seconds. */
module Timeouts {
  import opened TigerBeetle
  import opened Ledger

  const INT64_MIN: int := -0x8000_0000_0000_0000
  const INT64_MAX: int := 0x7fff_ffff_ffff_ffff

  /** `time.Time.Sub` saturates. */
  function Saturate(d: int): int {
    if d < INT64_MIN then INT64_MIN else if d > INT64_MAX then INT64_MAX else d
  }

  /** Duration arithmetic wraps. */
  function Wrap(d: int): int {
    (d - INT64_MIN) % UINT64 + INT64_MIN
  }

  /** Go's integer division truncates toward zero. */
  function Truncated(d: int, unit: nat): int
    requires unit > 0
  {
    if d >= 0 then d / unit else -((-d) / unit)
  }

  /** A conversion to uint32 keeps the low 32 bits. */
  function ToUint32(n: int): nat {
    n % UINT32
  }

  // ----- The configured authorization timeout -----

  predicate AcceptedTimeout(timeout: int) {
    SECOND <= timeout <= (UINT32 - 1) * SECOND
  }

  /** The constructor rounds the timeout up to whole seconds. */
  function RoundedTimeout(timeout: int): int {
    Wrap(Truncated(Wrap(timeout + SECOND - 1), SECOND) * SECOND)
  }

  /** The timeout field of a new authorization. */
  function StoredTimeout(authorizationTimeout: int): nat {
    ToUint32(Truncated(authorizationTimeout, SECOND))
  }

  /** Every accepted timeout is rounded up by less than a second, fits the 32-bit field, and the expiry computed from
      the configuration equals the one computed later from the stored field. */
  lemma RoundingIsExact(timeout: int, timestamp: nat)
    requires AcceptedTimeout(timeout)
    ensures timeout <= RoundedTimeout(timeout) < timeout + SECOND
    ensures 1 <= StoredTimeout(RoundedTimeout(timeout)) < UINT32
    ensures timestamp + RoundedTimeout(timeout) == Expiry(timestamp, StoredTimeout(RoundedTimeout(timeout)))
  {
  }

  // ----- The timeout of an increment -----

  /** Absolute expiry, in nanoseconds, of a hold stamped at `timestamp`. */
  function Expiry(timestamp: nat, timeout: nat): int {
    timestamp + timeout * SECOND
  }

  function Remaining(expiry: int, now: int): int {
    Saturate(expiry - now)
  }

  /** The seconds an increment asks for when `remaining` of the original's life is left. */
  function DerivedTimeout(remaining: int, original: nat): nat {
    var seconds := ToUint32(Truncated(Wrap(remaining + SECOND - 1), SECOND));
    if seconds > original then original else seconds
  }

  /** The least whole number of seconds covering `d`. */
  function CeilSeconds(d: nat): nat {
    (d + SECOND - 1) / SECOND
  }

  /** So many seconds after `start` is no earlier than `until`. */
  predicate Reaching(start: int, seconds: nat, until: int) {
    start + seconds * SECOND >= until
  }

  lemma CeilIsLeast(start: int, until: int, n: nat)
    requires start <= until
    ensures Reaching(start, n, until) <==> n >= CeilSeconds(until - start)
  {
  }

  /** With a clock at or after the original's timestamp, an increment asks for the least whole number of seconds
      covering the rest of the original's life: at least one, at most the original's timeout, nothing truncated. */
  lemma DerivedTimeoutIsExact(timestamp: nat, timeout: nat, now: int)
    requires 0 < timeout < UINT32 && timestamp <= now < Expiry(timestamp, timeout)
    ensures DerivedTimeout(Remaining(Expiry(timestamp, timeout), now), timeout)
         == CeilSeconds(Expiry(timestamp, timeout) - now)
    ensures 1 <= DerivedTimeout(Remaining(Expiry(timestamp, timeout), now), timeout) <= timeout
    ensures forall n: nat :: Reaching(now, n, Expiry(timestamp, timeout))
                        <==> n >= DerivedTimeout(Remaining(Expiry(timestamp, timeout), now), timeout)
  {
    forall n: nat
      ensures Reaching(now, n, Expiry(timestamp, timeout)) <==> n >= CeilSeconds(Expiry(timestamp, timeout) - now)
    {
      CeilIsLeast(now, Expiry(timestamp, timeout), n);
    }
    hide Reaching;
  }

  /** An increment that the ledger stamps no earlier than the clock reading outlives the original, by less than one
      second plus the lag between the two. */
  lemma IncrementOutlivesOriginal(timestamp: nat, timeout: nat, now: int, stamp: nat)
    requires 0 < timeout < UINT32 && timestamp <= now < Expiry(timestamp, timeout) && now <= stamp
    ensures var end := Expiry(stamp, DerivedTimeout(Remaining(Expiry(timestamp, timeout), now), timeout));
              Expiry(timestamp, timeout) <= end < Expiry(timestamp, timeout) + SECOND + (stamp - now)
  {
  }

  /** With such a clock the hold is extended unless the reading is a whole number of seconds after the original's
      timestamp and the ledger stamps the increment at that very nanosecond. */
  lemma ExtensionWhenOrdered(timestamp: nat, timeout: nat, now: int, stamp: nat)
    requires 0 < timeout < UINT32 && timestamp <= now < Expiry(timestamp, timeout) && now <= stamp
    ensures var end := Expiry(stamp, DerivedTimeout(Remaining(Expiry(timestamp, timeout), now), timeout));
              end > Expiry(timestamp, timeout) <==> stamp > now || (now - timestamp) % SECOND != 0
  {
    DerivedTimeoutIsExact(timestamp, timeout, now);
    hide DerivedTimeout, Remaining, Reaching;
  }

  /** For instance an hour's hold, incremented one nanosecond after it was stamped, ends one nanosecond later. */
  lemma HourIsExtended(timestamp: nat)
    ensures Expiry(timestamp, 3600) == timestamp + 3_600_000_000_000
    ensures var now := timestamp + 1;
              Expiry(now, DerivedTimeout(Remaining(Expiry(timestamp, 3600), now), 3600)) == Expiry(timestamp, 3600) + 1
  {
  }

  // ----- Any clock reading before the expiry -----

  /** Whole seconds in the magnitude of INT64_MIN, and what is left over. */
  const WRAPPED_SECONDS: int := (-INT64_MIN) / SECOND
  const WRAPPED_REST: int := (-INT64_MIN) % SECOND

  /** The seconds left after the conversion to 32 bits, for any clock reading before the expiry. Rounding up cannot
      overflow 64 bits unless less than a second is missing to the largest duration; then the sum wraps to INT64_MIN plus
      `excess`, whose quotient toward zero is negative. */
  function ReadSeconds(expiry: int, now: int): nat
    requires now < expiry
  {
    var remaining := if expiry - now > INT64_MAX then INT64_MAX else expiry - now;
    var excess := remaining + SECOND - 1 - (INT64_MAX + 1);
    if excess < 0 then CeilSeconds(remaining) % UINT32
    else if excess <= WRAPPED_REST then ToUint32(-WRAPPED_SECONDS)
    else ToUint32(-(WRAPPED_SECONDS - 1))
  }

  lemma WrapOnce(d: int)
    requires 0 < d <= INT64_MAX + SECOND - 1
    ensures Wrap(d) == if d <= INT64_MAX then d else d - UINT64
  {
  }

  lemma DerivedTimeoutIsRead(expiry: int, now: int, timeout: nat)
    requires now < expiry
    ensures DerivedTimeout(Remaining(expiry, now), timeout)
         == (if ReadSeconds(expiry, now) < timeout then ReadSeconds(expiry, now) else timeout)
  {
    WrapOnce(Remaining(expiry, now) + SECOND - 1);
    hide Wrap;
  }

  /** A hold stamped at `stamp` has not ended before `until`, or not even at `until`. A hold without a timeout never ends. */
  predicate LastsUntil(stamp: nat, timeout: nat, until: int) {
    timeout == 0 || Expiry(stamp, timeout) >= until
  }

  predicate LastsBeyond(stamp: nat, timeout: nat, until: int) {
    timeout == 0 || Expiry(stamp, timeout) > until
  }

  /** For any clock reading, an increment lasts as long as its original if and only if the reading leaves no seconds, so
      that the hold never ends, or it is stamped no earlier and the seconds left, counted from its stamp, reach the
      original's expiry. */
  lemma CoverageIsExact(timestamp: nat, timeout: nat, now: int, stamp: nat)
    requires 0 < timeout && now < Expiry(timestamp, timeout)
    ensures var expiry := Expiry(timestamp, timeout);
              LastsUntil(stamp, DerivedTimeout(Remaining(expiry, now), timeout), expiry)
              <==> ReadSeconds(expiry, now) == 0 || (timestamp <= stamp && Expiry(stamp, ReadSeconds(expiry, now)) >= expiry)
  {
    DerivedTimeoutIsRead(Expiry(timestamp, timeout), now, timeout);
    hide ReadSeconds, DerivedTimeout, Remaining;
  }

  /** And it outlasts its original if and only if the reading leaves no seconds, or it is stamped later and the seconds
      left go past the original's expiry. */
  lemma ExtensionIsExact(timestamp: nat, timeout: nat, now: int, stamp: nat)
    requires 0 < timeout && now < Expiry(timestamp, timeout)
    ensures var expiry := Expiry(timestamp, timeout);
              LastsBeyond(stamp, DerivedTimeout(Remaining(expiry, now), timeout), expiry)
              <==> ReadSeconds(expiry, now) == 0 || (timestamp < stamp && Expiry(stamp, ReadSeconds(expiry, now)) > expiry)
  {
    DerivedTimeoutIsRead(Expiry(timestamp, timeout), now, timeout);
    hide ReadSeconds, DerivedTimeout, Remaining;
  }

  /** What a caller can check beforehand: the conversion loses nothing, or leaves at least the original's timeout. */
  predicate ConversionIsHarmless(expiry: int, timeout: nat, now: int) {
    now < expiry ==>
      || CeilSeconds(expiry - now) < UINT32
      || (expiry - now <= INT64_MAX - SECOND + 1 && CeilSeconds(expiry - now) % UINT32 >= timeout)
  }

  /** With a clock that is not ahead of the stamp, however far behind, a harmless conversion is enough. */
  lemma HarmlessConversionCovers(timestamp: nat, timeout: nat, now: int, stamp: nat)
    requires now < Expiry(timestamp, timeout) && ConversionIsHarmless(Expiry(timestamp, timeout), timeout, now)
    requires timestamp <= stamp && now <= stamp
    ensures Expiry(stamp, ReadSeconds(Expiry(timestamp, timeout), now)) >= Expiry(timestamp, timeout)
  {
  }

  /** With any clock reading before the expiry, including one behind the original's timestamp, the derived timeout is
      the smaller of the covering seconds and the original's timeout exactly when the conversion to 32 bits either
      loses nothing or still leaves at least the original's timeout. */
  lemma DerivedTimeoutWhen(expiry: int, timeout: nat, now: int)
    requires 0 < timeout < UINT32 && 0 < expiry - now <= INT64_MAX - SECOND + 1
    ensures var seconds := CeilSeconds(expiry - now);
              DerivedTimeout(Remaining(expiry, now), timeout) == (if seconds < timeout then seconds else timeout)
              <==> seconds < UINT32 || seconds % UINT32 >= timeout
  {
  }

  /** Still further behind, the sum itself wraps: the 64-bit overflow leaves one of two fixed values. */
  lemma DerivedTimeoutWhenWrapped(expiry: int, timeout: nat, now: int)
    requires 0 < timeout < UINT32 && INT64_MAX - SECOND + 1 < expiry - now
    ensures DerivedTimeout(Remaining(expiry, now), timeout) == timeout
       <==> timeout <= (if expiry - now + SECOND - 1 - (INT64_MAX + 1) <= WRAPPED_REST
                        then ToUint32(-WRAPPED_SECONDS) else ToUint32(-(WRAPPED_SECONDS - 1)))
  {
  }

  /** The family that fails: the longest timeout and a clock one second behind the ledger ask for no timeout at all. */
  lemma ClockBehindLosesTimeout(timestamp: nat)
    ensures DerivedTimeout(Remaining(Expiry(timestamp, UINT32 - 1), timestamp - SECOND), UINT32 - 1) == 0
  {
  }
}
