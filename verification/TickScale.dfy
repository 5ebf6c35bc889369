/** Scaling Mach ticks to nanoseconds: the 128-bit form of sdk/go/clock.go, the split form of
    sdk/cpp/src/platform.cpp, and the exact quotient both compute. */
module TickScale {
  import opened Common

  type uint32 = x: int | 0 <= x < TWO_TO_32
  type uint64 = x: int | 0 <= x < TWO_TO_64

  /** The rounded-down quotient when it exists and fits a signed 64-bit duration. */
  ghost function Exact(ticks: uint64, numerator: uint32, denominator: uint32): Option<int> {
    if numerator == 0 || denominator == 0 || ticks * numerator / denominator > MAX_INT64 then None
    else Some(ticks * numerator / denominator)
  }

  function ScaleMachTicks(ticks: uint64, numerator: uint32, denominator: uint32): Option<int> {
    if numerator == 0 || denominator == 0 then None
    else
      var hi, lo := ticks * numerator / TWO_TO_64, ticks * numerator % TWO_TO_64;
      if hi >= denominator then None
      else
        var nanoseconds := (hi * TWO_TO_64 + lo) / denominator;
        if nanoseconds > MAX_INT64 then None else Some(nanoseconds)
  }

  /** Every product and sum is taken modulo 2^64, as std::uint64_t arithmetic is. */
  function MachTicksToNanoseconds(ticks: uint64, numerator: uint32, denominator: uint32): Option<int> {
    if numerator == 0 || denominator == 0 then None
    else
      var wholeTicks, remainder := ticks / denominator, ticks % denominator;
      if wholeTicks > MAX_UINT64 / numerator then None
      else Joined(wholeTicks * numerator % TWO_TO_64, remainder * numerator % TWO_TO_64 / denominator)
  }

  function Joined(whole: int, fraction: int): Option<int> {
    if whole > (MAX_INT64 - fraction) % TWO_TO_64 then None else Some((whole + fraction) % TWO_TO_64)
  }

  lemma AtLeast(n: nat, d: nat, k: nat)
    requires d > 0
    ensures n / d >= k <==> n >= d * k
  {
    var q, r := n / d, n % d;
    assert n == d * q + r;
    if q >= k {
      assert d * q >= d * k;
    } else {
      assert d * (q + 1) <= d * k;
    }
  }

  lemma SplitQuotient(w: nat, r: nat, n: nat, d: nat)
    requires d > 0
    ensures (w * d + r) * n / d == w * n + r * n / d
  {
    var f, g := r * n / d, r * n % d;
    calc {
      (w * d + r) * n;
      w * d * n + r * n;
      { assert w * d * n == d * (w * n); }
      d * (w * n + f) + g;
    }
    QuotientOf(w * n + f, g, d);
  }

  lemma QuotientOf(q: nat, r: nat, d: nat)
    requires r < d
    ensures (d * q + r) / d == q
  {
    AtLeast(d * q + r, d, q);
    AtLeast(d * q + r, d, q + 1);
    assert d * (q + 1) == d * q + d;
  }

  lemma Bound(a: nat, b: nat, c: nat, d: nat)
    requires a <= c && b <= d
    ensures a * b <= c * d
  {
    assert a * b <= c * b <= c * d;
  }

  lemma ScaleIsExact(ticks: uint64, numerator: uint32, denominator: uint32)
    ensures ScaleMachTicks(ticks, numerator, denominator) == Exact(ticks, numerator, denominator)
  {
    if numerator != 0 && denominator != 0 {
      var product := ticks * numerator;
      AtLeast(product, denominator, TWO_TO_64);
      AtLeast(product, TWO_TO_64, denominator);
      assert product == product / TWO_TO_64 * TWO_TO_64 + product % TWO_TO_64;
    }
  }

  lemma SplitIsExact(ticks: uint64, numerator: uint32, denominator: uint32)
    ensures MachTicksToNanoseconds(ticks, numerator, denominator) == Exact(ticks, numerator, denominator)
  {
    if numerator != 0 && denominator != 0 {
      var wholeTicks, remainder := ticks / denominator, ticks % denominator;
      hide Joined;
      var whole, fraction := wholeTicks * numerator, remainder * numerator / denominator;
      SplitParts(ticks, numerator, denominator, wholeTicks, remainder);
      AtLeast(MAX_UINT64, numerator, wholeTicks);
      if wholeTicks <= MAX_UINT64 / numerator {
        Unwrapped(whole);
        Unwrapped(remainder * numerator);
        JoinedIsSum(whole, fraction);
      } else {
        assert whole > MAX_UINT64;
      }
    }
  }

  /** The quotient is the whole part plus the fraction, and neither product of the fraction overflows. */
  lemma SplitParts(ticks: uint64, numerator: uint32, denominator: uint32, wholeTicks: nat, remainder: nat)
    requires denominator > 0 && wholeTicks == ticks / denominator && remainder == ticks % denominator
    ensures ticks * numerator / denominator == wholeTicks * numerator + remainder * numerator / denominator
    ensures remainder * numerator < TWO_TO_64 && remainder * numerator / denominator < TWO_TO_32
  {
    assert ticks == wholeTicks * denominator + remainder;
    SplitQuotient(wholeTicks, remainder, numerator, denominator);
    Bound(remainder, numerator, TWO_TO_32 - 1, TWO_TO_32 - 1);
    SmallFraction(remainder, numerator, denominator);
  }

  lemma SmallFraction(remainder: nat, numerator: uint32, denominator: uint32)
    requires remainder < denominator
    ensures remainder * numerator / denominator <= numerator
  {
    AtLeast(remainder * numerator, denominator, numerator + 1);
    Bound(remainder, numerator, denominator, numerator);
    assert denominator * (numerator + 1) == denominator * numerator + denominator;
  }

  lemma JoinedIsSum(whole: uint64, fraction: nat)
    requires fraction < TWO_TO_32
    ensures Joined(whole, fraction) == if whole + fraction > MAX_INT64 then None else Some(whole + fraction)
  {
    Unwrapped(MAX_INT64 - fraction);
    if whole + fraction <= MAX_INT64 { Unwrapped(whole + fraction); }
  }

  lemma Unwrapped(a: nat)
    requires a < TWO_TO_64
    ensures a % TWO_TO_64 == a
  {}

  /** The two forms agree on every input. */
  lemma ScalersAgree(ticks: uint64, numerator: uint32, denominator: uint32)
    ensures ScaleMachTicks(ticks, numerator, denominator) == MachTicksToNanoseconds(ticks, numerator, denominator)
  {
    ScaleIsExact(ticks, numerator, denominator);
    SplitIsExact(ticks, numerator, denominator);
  }
}
