/** The pricing helper `calculateNights`: whole nights between two instants, rounded up. */
module Nights {

  /** One day in milliseconds, `1000 * 3600 * 24`. */
  const MsPerDay: int := 1000 * 3600 * 24

  /** Ceiling of `a / d` for a positive divisor, exact on all integers (the source's
      `Math.ceil` of a floating-point quotient). The result is the unique `q` with
      `(q - 1) * d < a <= q * d`. */
  function CeilDiv(a: int, d: int): (q: int)
    requires d > 0
    ensures (q - 1) * d < a <= q * d
  {
    if a % d == 0 then a / d else a / d + 1
  }

  lemma {:induction false} MulMonotone(x: int, y: int, d: int)
    requires x <= y && d > 0
    ensures x * d <= y * d
  {
    assert y * d - x * d == (y - x) * d;
  }

  /** The bracket `(q - 1) * d < a <= q * d` determines `q`. */
  lemma {:induction false} CeilDivUnique(a: int, d: int, q: int)
    requires d > 0
    requires (q - 1) * d < a <= q * d
    ensures q == CeilDiv(a, d)
  {
    var c := CeilDiv(a, d);
    if q < c {
      MulMonotone(q, c - 1, d);
    } else if c < q {
      MulMonotone(c, q - 1, d);
    }
  }

  /** `calculateNights(checkIn, checkOut)` over millisecond timestamps. No order is checked. */
  function CalculateNights(checkIn: int, checkOut: int): (n: int)
    ensures (n - 1) * MsPerDay < checkOut - checkIn <= n * MsPerDay
  {
    CeilDiv(checkOut - checkIn, MsPerDay)
  }

  /** A stay that ends after it starts lasts at least one night, however short. */
  lemma NightsPositive(checkIn: int, checkOut: int)
    requires checkOut > checkIn
    ensures CalculateNights(checkIn, checkOut) >= 1
  {
    var n := CalculateNights(checkIn, checkOut);
    if n <= 0 {
      MulMonotone(n, 0, MsPerDay);
    }
  }

  /** A span of exactly `k` days is `k` nights. */
  lemma ExactDays(checkIn: int, k: int)
    ensures CalculateNights(checkIn, checkIn + k * MsPerDay) == k
  {
    CeilDivUnique(k * MsPerDay, MsPerDay, k);
  }

  /** Equal instants give zero nights: the helper does not reject them itself. */
  lemma SameInstantIsZero(t: int)
    ensures CalculateNights(t, t) == 0
  {
    ExactDays(t, 0);
  }

  /** Any positive span up to one day is one night. */
  lemma PartialDayIsOneNight(checkIn: int, checkOut: int)
    requires checkIn < checkOut <= checkIn + MsPerDay
    ensures CalculateNights(checkIn, checkOut) == 1
  {
    CeilDivUnique(checkOut - checkIn, MsPerDay, 1);
  }

  /** Holding check-in fixed, a later check-out never gives fewer nights. */
  lemma NightsMonotone(checkIn: int, checkOut1: int, checkOut2: int)
    requires checkOut1 <= checkOut2
    ensures CalculateNights(checkIn, checkOut1) <= CalculateNights(checkIn, checkOut2)
  {
    var n1 := CalculateNights(checkIn, checkOut1);
    var n2 := CalculateNights(checkIn, checkOut2);
    if n2 < n1 {
      MulMonotone(n2, n1 - 1, MsPerDay);
    }
  }

  /** 2024-01-10T00:00Z to 2024-01-13T00:00Z is three nights. */
  lemma TenthToThirteenth()
    ensures CalculateNights(1704844800000, 1705104000000) == 3
  {
    ExactDays(1704844800000, 3);
  }
}
