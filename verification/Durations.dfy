/** The two duration formulas: the Python entity's and the row trigger's, on exact microseconds. */
module Durations {
  import opened Basics

  /** Ceiling of d / k. */
  function Ceil(d: int, k: int): (q: int)
    requires k > 0
    ensures k * (q - 1) < d <= k * q
  {
    -((-d) / k)
  }

  /** Python's `round`: to the nearest integer, ties to the even one. */
  function RoundHalfEven(d: int, k: int): int
    requires k > 0
  {
    var q, rest := d / k, d % k;
    if 2 * rest < k || (2 * rest == k && q % 2 == 0) then q else q + 1
  }

  function Max(a: int, b: int): int {
    if a >= b then a else b
  }

  // JobRun.complete: elapsed is at least one millisecond.
  function PyElapsed(d: Time): Time { Max(1000, d) }
  function PyMilliseconds(d: Time): int { Max(1, RoundHalfEven(PyElapsed(d), 1000)) }
  function PySeconds(d: Time): int { Max(1, Ceil(PyElapsed(d), SECOND)) }

  // set_job_run_duration_seconds: the trigger overwrites whatever the application wrote.
  function SqlMilliseconds(d: Time): int { Max(1, Ceil(d, 1000)) }
  function SqlSeconds(d: Time): int { Max(1, Ceil(d, SECOND)) }

  /** Rounding is to the nearest integer, and between two equally near ones to the even one. */
  lemma RoundHalfEvenIsNearest(d: int, k: int)
    requires k > 0
    ensures -k <= 2 * (d - k * RoundHalfEven(d, k)) <= k
    ensures 2 * (d - k * RoundHalfEven(d, k)) == k || 2 * (d - k * RoundHalfEven(d, k)) == -k ==>
              RoundHalfEven(d, k) % 2 == 0
  {
    assert d == k * (d / k) + d % k;
    assert k * (d / k + 1) == k * (d / k) + k;
  }

  lemma ScaleMonotone(k: int, a: int, b: int)
    requires k > 0
    ensures a <= b ==> k * a <= k * b
  {
    if a <= b {
      assert k * b == k * a + k * (b - a);
    }
  }

  /** An integer is pinned down by the multiple of k just at or above it. */
  lemma CeilUnique(d: int, k: int, q: int)
    requires k > 0
    requires k * (q - 1) < d <= k * q
    ensures q == Ceil(d, k)
  {
    var c := Ceil(d, k);
    ScaleMonotone(k, q, c - 1);
    ScaleMonotone(k, c, q - 1);
  }

  lemma CeilMonotone(d: int, e: int, k: int)
    requires k > 0 && d <= e
    ensures Ceil(d, k) <= Ceil(e, k)
  {
    ScaleMonotone(k, Ceil(e, k), Ceil(d, k) - 1);
  }

  /** For every elapsed time, also zero and negative ones: the trigger stores the milliseconds of the
      entity or one more, both store the same seconds, and seconds and milliseconds fit together. */
  lemma DurationsAgree(d: Time)
    ensures PyMilliseconds(d) <= SqlMilliseconds(d) <= PyMilliseconds(d) + 1
    ensures PySeconds(d) == SqlSeconds(d)
    ensures 1000 * (PySeconds(d) - 1) <= PyMilliseconds(d) <= 1000 * PySeconds(d)
    ensures 1000 * (SqlSeconds(d) - 1) < SqlMilliseconds(d) <= 1000 * SqlSeconds(d)
    ensures SqlSeconds(d) == Ceil(SqlMilliseconds(d), 1000)
  {
    RoundHalfEvenIsNearest(PyElapsed(d), 1000);
    if d <= 1000 {
      assert RoundHalfEven(1000, 1000) == 1;
    }
    CeilUnique(SqlMilliseconds(d), 1000, SqlSeconds(d));
  }

  /** A longer run never reports a shorter duration, in any of the four columns. */
  lemma DurationsMonotone(d: Time, e: Time)
    requires d <= e
    ensures PyMilliseconds(d) <= PyMilliseconds(e) && PySeconds(d) <= PySeconds(e)
    ensures SqlMilliseconds(d) <= SqlMilliseconds(e) && SqlSeconds(d) <= SqlSeconds(e)
  {
    CeilMonotone(d, e, 1000);
    CeilMonotone(d, e, SECOND);
    CeilMonotone(PyElapsed(d), PyElapsed(e), SECOND);
  }
}
