/** Retry delays and the settings that make them well defined
    (internal/reconcile/service.go, internal/config/validate.go). */
module Backoff {
  import opened Common

  /** time.Duration: nanoseconds in 64 bits. Arithmetic on it is checked for
      overflow. */
  newtype Duration = d: int | -0x8000_0000_0000_0000 <= d < 0x8000_0000_0000_0000

  datatype Settings = Settings(pollInterval: Duration, retryInitial: Duration, retryMax: Duration)

  datatype SettingsError = NotPositive | InitialExceedsMax

  ghost predicate ValidSettings(s: Settings) {
    s.pollInterval > 0 && 0 < s.retryInitial <= s.retryMax
  }

  method ValidateReconcile(s: Settings) returns (error: Option<SettingsError>)
    ensures error.None? <==> ValidSettings(s)
    ensures error == Some(NotPositive) <==> s.pollInterval <= 0 || s.retryInitial <= 0 || s.retryMax <= 0
    ensures error == Some(InitialExceedsMax) ==> 0 < s.retryMax < s.retryInitial
  {
    if s.pollInterval <= 0 || s.retryInitial <= 0 || s.retryMax <= 0 {
      return Some(NotPositive);
    }
    if s.retryInitial > s.retryMax {
      return Some(InitialExceedsMax);
    }
    return None;
  }

  function Pow2(n: nat): nat {
    if n == 0 then 1 else 2 * Pow2(n - 1)
  }

  function Min(a: int, b: int): int { if a <= b then a else b }

  /** Doubling from initial, capped at maximum. */
  function Delay(initial: int, maximum: int, failures: nat): int {
    Min(initial * Pow2(failures), maximum)
  }

  lemma {:induction false} Pow2Grows(m: nat, n: nat)
    requires m <= n
    ensures 1 <= Pow2(m) <= Pow2(n)
  {
    if m < n {
      Pow2Grows(m, n - 1);
    } else if n > 0 {
      Pow2Grows(m - 1, n - 1);
    }
  }

  /** Once half the cap is exceeded, every later delay is the cap. */
  lemma CappedFrom(initial: int, maximum: int, i: nat, n: nat, delay: int)
    requires 0 < initial && 0 < maximum && i < n && delay == initial * Pow2(i)
    requires delay >= maximum || delay > maximum / 2
    ensures Delay(initial, maximum, n) == maximum
  {
    Pow2Grows(i + 1, n);
    TimesGrows(initial, 2 * Pow2(i), Pow2(n));
  }

  lemma TimesGrows(a: int, x: int, y: int)
    requires 0 <= a && x <= y
    ensures a * x <= a * y
  {
  }

  /** retryDelay. The doubling never leaves 64 bits. */
  method RetryDelay(initial: Duration, maximum: Duration, previousFailures: nat) returns (delay: Duration)
    requires 0 < initial && 0 < maximum
    ensures delay as int == Delay(initial as int, maximum as int, previousFailures)
  {
    delay := initial;
    for i := 0 to previousFailures
      invariant 0 < delay && delay as int == initial as int * Pow2(i)
    {
      if delay >= maximum || delay > maximum / 2 {
        CappedFrom(initial as int, maximum as int, i, previousFailures, delay as int);
        return maximum;
      }
      delay := delay * 2;
    }
    return if delay <= maximum then delay else maximum;
  }

  /** With valid settings the first delay is the initial one, each later one twice
      the one before, up to the cap; delays never shrink. */
  lemma DelaysClimbToTheCap(initial: int, maximum: int, n: nat)
    requires 0 < initial <= maximum
    ensures initial <= Delay(initial, maximum, n) <= Delay(initial, maximum, n + 1) <= maximum
    ensures Delay(initial, maximum, 0) == initial
    ensures Delay(initial, maximum, n + 1) == Min(2 * Delay(initial, maximum, n), maximum)
  {
    Pow2Grows(0, n);
    Pow2Grows(n, n + 1);
    assert initial * 1 <= initial * Pow2(n) <= initial * Pow2(n + 1);
    assert initial * Pow2(n + 1) == 2 * (initial * Pow2(n));
  }
}
