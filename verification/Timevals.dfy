/** `struct timeval` and the millisecond difference the slot manager ages its slots by. */
module Timevals {
  datatype Timeval = Timeval(sec: int, usec: int)

  /** What `gettimeofday` returns. */
  predicate Normal(t: Timeval) {
    0 <= t.usec < 1_000_000
  }

  /** Integer division as C does it, toward zero. */
  function TruncDiv(a: int, b: int): int
    requires b > 0
  {
    if a >= 0 then a / b else -((-a) / b)
  }

  /** `timeval_diff`: y - x in milliseconds. */
  function TimevalDiff(x: Timeval, y: Timeval): int {
    (y.sec - x.sec) * 1000 + TruncDiv(y.usec - x.usec, 1000)
  }

  /** The time as a count of microseconds. */
  function Micros(t: Timeval): int {
    t.sec * 1_000_000 + t.usec
  }

  /** Less than one millisecond from the exact difference. */
  lemma DiffError(x: Timeval, y: Timeval)
    requires Normal(x) && Normal(y)
    ensures -1000 < 1000 * TimevalDiff(x, y) - (Micros(y) - Micros(x)) < 1000
  {
  }

  /**
    The side of the error: rounded down when no microseconds are borrowed, up
    when they are. Together the two determine the value.
   */
  lemma DiffTruncates(x: Timeval, y: Timeval)
    requires Normal(x) && Normal(y)
    ensures var e := Micros(y) - Micros(x);
            && (y.usec >= x.usec ==> 0 <= e - 1000 * TimevalDiff(x, y) < 1000)
            && (y.usec <= x.usec ==> 0 <= 1000 * TimevalDiff(x, y) - e < 1000)
  {
  }

  /** In microseconds, ten thousand truncated milliseconds are ten seconds, or more than 9.999 if some are borrowed. */
  lemma TenThousandReached(x: Timeval, y: Timeval)
    requires Normal(x) && Normal(y)
    ensures TimevalDiff(x, y) >= 10_000 <==>
            var e := Micros(y) - Micros(x);
            e >= 10_000_000 || (e > 9_999_000 && y.usec < x.usec)
  {
    DiffTruncates(x, y);
  }

  lemma DiffAntisymmetric(x: Timeval, y: Timeval)
    ensures TimevalDiff(y, x) == -TimevalDiff(x, y)
  {
  }

  lemma DiffMonotone(x: Timeval, y: Timeval, z: Timeval)
    requires Normal(x) && Normal(y) && Normal(z) && Micros(y) <= Micros(z)
    ensures TimevalDiff(x, y) <= TimevalDiff(x, z)
  {
  }

  lemma DiffAdditive(x: Timeval, y: Timeval, z: Timeval)
    requires Normal(x) && Normal(y) && Normal(z)
    ensures -2 <= TimevalDiff(x, y) + TimevalDiff(y, z) - TimevalDiff(x, z) <= 2
  {
  }

  /** Ten seconds later the truncated difference has reached the threshold. */
  lemma TenSecondsSuffice(x: Timeval, y: Timeval)
    requires Normal(x) && Normal(y)
    ensures Micros(y) >= Micros(x) + 10_000_000 ==> TimevalDiff(x, y) >= 10_000
  {
  }
}
