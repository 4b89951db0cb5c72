/** The lease lifetime, in Go's wrapping 64-bit nanosecond durations. */
module LeaseTtl {

  const SECOND := 1_000_000_000
  const MIN_DURATION := -0x8000_0000_0000_0000
  const MAX_DURATION := 0x7FFF_FFFF_FFFF_FFFF

  /** `time.Duration`. */
  type Duration = d: int | MIN_DURATION <= d <= MAX_DURATION witness 0

  /** Two's-complement wrap-around of an intermediate result. */
  function Wrap(x: int): (d: Duration)
    ensures MIN_DURATION <= x <= MAX_DURATION ==> d == x
  {
    (x - MIN_DURATION) % 0x1_0000_0000_0000_0000 + MIN_DURATION
  }

  /** Go's `/`, which truncates towards zero. */
  function Quo(x: int, y: int): int
    requires y > 1
  {
    if x >= 0 then x / y else -((-x) / y)
  }

  /** `Duration.Truncate` of a positive duration. */
  function Truncate(d: Duration, unit: Duration): Duration
    requires d >= 0 && unit > 0
  {
    d - d % unit
  }

  /** The rounding sum, evaluated left to right: add a second, then take one off. */
  function Padded(ttl: Duration): Duration {
    Wrap(Wrap(ttl + SECOND) - 1)
  }

  /** `normalizeAssignmentClaimLeaseTTL`. */
  function Normalize(ttl: Duration): Duration {
    if ttl <= 0 then 0
    else if ttl > MAX_DURATION - (SECOND - 1) then Truncate(MAX_DURATION, SECOND)
    else Wrap(Quo(Padded(ttl), SECOND) * SECOND)
  }

  /** On the rounding branch the first addition overflows for exactly one lifetime, the
      largest that takes the branch; subtracting one wraps it back, so the sum is right. */
  lemma OneOverflow(ttl: Duration)
    requires 0 < ttl <= MAX_DURATION - (SECOND - 1)
    ensures Wrap(ttl + SECOND) != ttl + SECOND <==> ttl == MAX_DURATION - (SECOND - 1)
    ensures Padded(ttl) == ttl + SECOND - 1
  {
  }

  lemma QuotientBounds(x: int)
    requires x >= 0
    ensures 0 <= x / SECOND
    ensures x - SECOND < (x / SECOND) * SECOND <= x
    ensures ((x / SECOND) * SECOND) % SECOND == 0
  {
  }

  /** A whole number of seconds that fits in a duration. */
  predicate WholeSeconds(d: int) {
    d % SECOND == 0 && 0 < d <= MAX_DURATION
  }

  /** Two whole numbers of seconds less than a second apart are equal. */
  lemma MultiplesApart(a: int, b: int)
    requires WholeSeconds(a) && WholeSeconds(b) && a < b
    ensures a + SECOND <= b
  {
  }

  /** For every positive lifetime the result is the least whole number of seconds that is
      not below it, if one fits in 63 bits, and otherwise the greatest that fits. */
  lemma NormalizeIsLeastFit(ttl: Duration)
    requires ttl > 0
    ensures WholeSeconds(Normalize(ttl))
    ensures forall d: int :: WholeSeconds(d) && ttl <= d ==> Normalize(ttl) <= d
    ensures Normalize(ttl) < ttl ==> forall d: int :: WholeSeconds(d) ==> d <= Normalize(ttl)
    ensures Normalize(ttl) < ttl + SECOND
  {
    var r := Normalize(ttl);
    if ttl <= MAX_DURATION - (SECOND - 1) {
      OneOverflow(ttl);
      QuotientBounds(ttl + SECOND - 1);
      forall d: int | WholeSeconds(d) && ttl <= d
        ensures r <= d
      {
        if d < r { MultiplesApart(d, r); }
      }
    } else {
      forall d: int | WholeSeconds(d)
        ensures d <= r
      {
        if r < d { MultiplesApart(r, d); }
      }
    }
  }

  /** Hence the effective lifetime is at least one second; normalizing is monotone and
      idempotent; and the whole seconds advertised to workers give it back exactly. */
  lemma NormalizeProperties(ttl: Duration, ttl': Duration)
    requires 0 < ttl <= ttl'
    ensures SECOND <= Normalize(ttl) <= Normalize(ttl')
    ensures Normalize(Normalize(ttl)) == Normalize(ttl)
    ensures Quo(Normalize(ttl), SECOND) * SECOND == Normalize(ttl)
  {
    NormalizeIsLeastFit(ttl);
    NormalizeIsLeastFit(ttl');
    var r, r' := Normalize(ttl), Normalize(ttl');
    assert WholeSeconds(r) && WholeSeconds(r');
    NormalizeIsLeastFit(r);
  }
}
