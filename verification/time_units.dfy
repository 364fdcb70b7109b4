/** The part of java.util.concurrent.TimeUnit the client relies on: converting a
    duration held in a Java `long` to milliseconds. Coarser units multiply and
    saturate at the bounds of `long`; finer units divide, truncating toward zero. */
module TimeUnits {

  const LongMax: int := 0x7fff_ffff_ffff_ffff
  const LongMin: int := -0x8000_0000_0000_0000

  predicate IsLong(x: int) { LongMin <= x <= LongMax }

  datatype TimeUnit = Nanoseconds | Microseconds | Milliseconds | Seconds | Minutes | Hours | Days {
    /** True for the units of one millisecond or longer. */
    predicate AtLeastMillis() { !Nanoseconds? && !Microseconds? }
  }

  /** Java's `/` on `long`: the quotient truncated toward zero. */
  function TruncDiv(a: int, b: int): (q: int)
    requires b > 0
    ensures a >= 0 ==> 0 <= q * b <= a < (q + 1) * b
    ensures a < 0 ==> (q - 1) * b < a <= q * b <= 0
  {
    if a >= 0 then
      DivBounds(a, b);
      a / b
    else
      DivBounds(-a, b);
      -((-a) / b)
  }

  lemma DivBounds(a: nat, b: int)
    requires b > 0
    ensures 0 <= (a / b) * b <= a < (a / b + 1) * b
  {
    var q, r := a / b, a % b;
    assert a == q * b + r && 0 <= r < b;
    assert (q + 1) * b == q * b + b;
    assert q >= 0;
  }

  lemma MulMono(x: int, y: int, m: int)
    requires x <= y && m > 0
    ensures x * m <= y * m
  {
    assert y * m - x * m == (y - x) * m;
  }

  /** Multiplication by a positive factor that saturates instead of overflowing. */
  function Scale(d: int, m: int): (r: int)
    requires m > 0 && IsLong(d)
    ensures IsLong(r)
    ensures IsLong(d * m) ==> r == d * m
    ensures !IsLong(d * m) ==> r == (if d > 0 then LongMax else LongMin)
  {
    var bound := LongMax / m;
    DivBounds(LongMax, m);
    if d > bound then
      MulMono(bound + 1, d, m);
      LongMax
    else if d < -bound then
      MulMono(d, -bound - 1, m);
      LongMin
    else
      MulMono(d, bound, m);
      MulMono(-bound, d, m);
      d * m
  }

  /** TimeUnit.toMillis(d): exact for whole units while the result fits a
      long, saturating beyond; sub-millisecond units truncate. */
  function ToMillis(d: int, unit: TimeUnit): (r: int)
    requires IsLong(d)
    ensures IsLong(r)
    ensures unit.AtLeastMillis() && d > 0 ==> r >= d
    ensures unit == Milliseconds ==> r == d
    ensures unit == Seconds && IsLong(d * 1_000) ==> r == d * 1_000
    ensures unit == Seconds && !IsLong(d * 1_000) ==> r == (if d > 0 then LongMax else LongMin)
    ensures unit == Microseconds && d >= 0 ==> r * 1_000 <= d < (r + 1) * 1_000
  {
    match unit
    case Nanoseconds => TruncDiv(d, 1_000_000)
    case Microseconds => TruncDiv(d, 1_000)
    case Milliseconds => d
    case Seconds => Scale(d, 1_000)
    case Minutes => Scale(d, 60_000)
    case Hours => Scale(d, 3_600_000)
    case Days => Scale(d, 86_400_000)
  }
}
