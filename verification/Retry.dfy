/** The connection loop used by every constructor and by both storage pings: up to a uint8 number
    of attempts, sleeping after each failure for a delay that doubles in a 64-bit integer. */
module Retry {
  import opened Decimal
  import opened Wrappers

  const TWO63: int := 0x8000_0000_0000_0000
  const TWO64: int := 0x1_0000_0000_0000_0000
  const MINUTE: int := 60_000_000_000
  const DEFAULT_BACKOFF: int := 2_000_000_000

  type UInt8 = x: int | 0 <= x < 256

  datatype OptionError = ValueRequired | Invalid

  /** A backoff is taken as it is exactly if it is positive and at most a minute. */
  function WithBackoff(d: Int64): (r: Result<Int64, OptionError>)
    ensures r == Ok(d) <==> 0 < d <= 60_000_000_000
    ensures r.Ok? ==> r == Ok(d)
    ensures r == Err(ValueRequired) <==> d == 0
  {
    if d == 0 then Err(ValueRequired)
    else if d < 0 || d > MINUTE then Err(Invalid)
    else Ok(d)
  }

  /** A retry bound is taken as it is exactly if it fits in eight bits. */
  function WithMaxRetries(i: int): (r: Result<UInt8, OptionError>)
    ensures 0 <= i <= 255 ==> r == Ok(i)
    ensures !(0 <= i <= 255) ==> r == Err(Invalid)
  {
    if i > 255 || i < 0 then Err(Invalid) else Ok(i)
  }

  function Pow2(k: nat): (p: nat)
    ensures p >= 1
  {
    if k == 0 then 1 else 2 * Pow2(k - 1)
  }

  /** The value a signed 64-bit variable holds after an operation whose exact result is x. */
  function Wrap(x: int): (r: Int64)
    ensures -TWO63 <= x < TWO63 <==> r == x
  {
    (x + TWO63) % TWO64 - TWO63
  }

  /** The delay slept after failure number k when the exact product is reduced only once. */
  function Delay(backoff: Int64, k: nat): Int64 {
    Wrap(backoff * Pow2(k))
  }

  lemma WrapIsCongruent(x: int, y: int, q: int)
    requires x == y + q * TWO64
    ensures Wrap(x) == Wrap(y)
  {
    var a, b := (x + TWO63) / TWO64, (y + TWO63) / TWO64;
    var p, r := (x + TWO63) % TWO64, (y + TWO63) % TWO64;
    assert x + TWO63 == a * TWO64 + p && y + TWO63 == b * TWO64 + r;
    assert p - r == (q + b - a) * TWO64;
  }

  /** Doubling the wrapped delay in place is doubling the exact one and wrapping once. */
  lemma DoublingWraps(backoff: Int64, k: nat)
    ensures Wrap(2 * Delay(backoff, k)) == Delay(backoff, k + 1)
  {
    var x := backoff * Pow2(k);
    var q := (x + TWO63) / TWO64;
    assert x == Wrap(x) + q * TWO64;
    assert backoff * Pow2(k + 1) == 2 * x by {
      assert backoff * (2 * Pow2(k)) == 2 * (backoff * Pow2(k));
    }
    WrapIsCongruent(2 * x, 2 * Wrap(x), 2 * q);
  }

  /** What the loop leaves behind: an error left over, a connection, the attempts made. */
  datatype Verdict = Verdict(failed: bool, connected: bool, attempts: nat)

  /** The loop from attempt i on, with the error the attempts before it left over. */
  function Attempt(succeeds: nat -> bool, i: nat, maxRetries: UInt8, failed: bool): Verdict
    decreases maxRetries - i
  {
    if i >= maxRetries then Verdict(failed, false, i)
    else if succeeds(i) then Verdict(false, true, i + 1)
    else Attempt(succeeds, i + 1, maxRetries, true)
  }

  /** The loop over what each attempt would return, with the delays slept, in order. */
  method Connect(succeeds: nat -> bool, maxRetries: UInt8, backoff: Int64)
    returns (failed: bool, connected: bool, attempts: nat, sleeps: seq<Int64>)
    ensures Verdict(failed, connected, attempts) == Attempt(succeeds, 0, maxRetries, false)
    ensures |sleeps| == if connected then attempts - 1 else attempts
    ensures forall k :: 0 <= k < |sleeps| ==> !succeeds(k) && sleeps[k] == Delay(backoff, k)
  {
    failed, connected, attempts, sleeps := false, false, 0, [];
    var delay: int := backoff;
    var i := 0;
    while i < maxRetries
      invariant 0 <= i <= maxRetries && attempts == i && |sleeps| == i && !connected
      invariant delay == Delay(backoff, i)
      invariant Attempt(succeeds, 0, maxRetries, false) == Attempt(succeeds, i, maxRetries, failed)
      invariant forall k :: 0 <= k < i ==> !succeeds(k) && sleeps[k] == Delay(backoff, k)
    {
      failed := !succeeds(i);
      attempts := i + 1;
      if !failed {
        connected := true;
        break;
      }
      sleeps := sleeps + [delay];
      DoublingWraps(backoff, i);
      delay := Wrap(2 * delay);
      i := i + 1;
    }
  }

  /** The loop stops at the first success; only if there is none does it use up the bound, and
      then it has an error to report exactly if it tried at all. */
  lemma {:induction false} AttemptMeans(succeeds: nat -> bool, i: nat, maxRetries: UInt8, failed: bool)
    requires i <= maxRetries
    ensures var v := Attempt(succeeds, i, maxRetries, failed);
            && (v.connected <==> exists k: nat :: i <= k < maxRetries && succeeds(k))
            && (v.connected ==> !v.failed && i < v.attempts <= maxRetries && succeeds(v.attempts - 1)
                                && forall k: nat :: i <= k < v.attempts - 1 ==> !succeeds(k))
            && (!v.connected ==> v.attempts == maxRetries && (v.failed <==> failed || i < maxRetries))
    decreases maxRetries - i
  {
    if i < maxRetries && !succeeds(i) {
      AttemptMeans(succeeds, i + 1, maxRetries, true);
    }
  }

  /** "No error" means "connected", whatever the attempts return, exactly when retries are allowed:
      with a bound of zero the loop makes no attempt and leaves neither error nor connection. */
  lemma NoErrorMeansConnectedIffRetries(maxRetries: UInt8)
    ensures maxRetries > 0 <==> forall succeeds :: var v := Attempt(succeeds, 0, maxRetries, false);
                                                   v.failed || v.connected
  {
    if maxRetries == 0 {
      assert Attempt((k: nat) => false, 0, 0, false) == Verdict(false, false, 0);
    } else {
      forall succeeds: nat -> bool
        ensures var v := Attempt(succeeds, 0, maxRetries, false); v.failed || v.connected
      {
        AttemptMeans(succeeds, 0, maxRetries, false);
      }
    }
  }

  // -------------------------------------------------------- the delays

  lemma {:induction false} Pow2Adds(a: nat, b: nat)
    ensures Pow2(a + b) == Pow2(a) * Pow2(b)
  {
    if a > 0 {
      Pow2Adds(a - 1, b);
      assert a + b - 1 == a - 1 + b;
      assert 2 * (Pow2(a - 1) * Pow2(b)) == 2 * Pow2(a - 1) * Pow2(b);
    }
  }

  lemma {:induction false} Pow2Grows(a: nat, b: nat)
    requires a <= b
    ensures Pow2(a) <= Pow2(b)
  {
    if a < b {
      Pow2Grows(a, b - 1);
    }
  }

  lemma Pow2Values()
    ensures Pow2(11) == 2048 && Pow2(12) == 4096
    ensures Pow2(27) == 0x800_0000 && Pow2(28) == 0x1000_0000
    ensures Pow2(32) == 0x1_0000_0000 && Pow2(33) == 0x2_0000_0000 && Pow2(64) == TWO64
  {
    assert Pow2(9) == 512 && Pow2(11) == 2048;
    Pow2Adds(9, 9);
    Pow2Adds(18, 9);
    Pow2Adds(27, 1);
    Pow2Adds(28, 4);
    Pow2Adds(32, 1);
    Pow2Adds(28, 28);
    Pow2Adds(56, 8);
    assert Pow2(8) == 256 && Pow2(4) == 16 && Pow2(1) == 2;
  }

  lemma ProductBounds(d: int, e: int, p: nat, q: nat)
    requires 1 <= d <= e && 1 <= p <= q
    ensures 1 <= d * p <= e * q
  {
    assert d * p <= d * q <= e * q;
  }

  /** The remainder decides divisibility by any positive number. */
  lemma DividesIff(p: nat, q: int, x: int)
    requires p >= 1
    ensures x == q * p ==> x % p == 0
    ensures x % p == 0 ==> x == (x / p) * p
  {
    var t, r := x / p, x % p;
    assert x == t * p + r;
    if x == q * p {
      assert r == (q - t) * p;
      if q > t { ProductBounds(1, q - t, p, p); } else if q < t { ProductBounds(1, t - q, p, p); }
    }
  }

  lemma ProductGrows(d: int, p: nat, q: nat)
    requires 1 <= p <= q
    ensures if d < 0 then d * q <= d * p < 0 else 0 <= d * p <= d * q
  {
    if d > 0 { ProductBounds(d, d, p, q); } else if d < 0 { ProductBounds(-d, -d, p, q); }
  }

  /** The delay is the one signed 64-bit number that differs from the product by a multiple of 2^64. */
  lemma DelayIsReduced(d: Int64, k: nat, v: Int64)
    ensures v == Delay(d, k) <==> (d * Pow2(k) - v) % 0x1_0000_0000_0000_0000 == 0
  {
    var x := d * Pow2(k);
    DividesIff(TWO64, (x + TWO63) / TWO64, x - Wrap(x));
    if (x - v) % TWO64 == 0 {
      WrapIsCongruent(x, v, (x - v) / TWO64);
    }
  }

  /** The k-th delay is exact if and only if the product fits in 64 bits, for any backoff, and then
      so are all before it; a positive backoff otherwise sleeps less. */
  lemma {:induction false} DelayIsExactIff(d: Int64, k: nat)
    ensures Delay(d, k) == d * Pow2(k) <==> -TWO63 <= d * Pow2(k) < TWO63
    ensures Delay(d, k) == d * Pow2(k) ==> forall j: nat :: j <= k ==> Delay(d, j) == d * Pow2(j)
    ensures Delay(d, k) != d * Pow2(k) ==> if d > 0 then Delay(d, k) < d * Pow2(k) else Delay(d, k) > d * Pow2(k)
  {
    var x := d * Pow2(k);
    assert Wrap(x) == x <==> -TWO63 <= x < TWO63;
    if Wrap(x) == x {
      forall j: nat | j <= k
        ensures Delay(d, j) == d * Pow2(j)
      {
        Pow2Grows(j, k);
        ProductGrows(d, Pow2(j), Pow2(k));
      }
    }
  }

  /** The delays that are exact for every backoff the options accept are the first 28: */
  lemma AcceptedDelaysAreExact(k: nat)
    ensures k <= 27 <==> forall d: Int64 :: WithBackoff(d).Ok? ==> Delay(d, k) == d * Pow2(k)
  {
    Pow2Values();
    if k <= 27 {
      forall d: Int64 | WithBackoff(d).Ok?
        ensures Delay(d, k) == d * Pow2(k)
      {
        Pow2Grows(k, 27);
        ProductBounds(d, MINUTE, Pow2(k), Pow2(27));
      }
    } else {
      Pow2Grows(28, k);
      ProductBounds(MINUTE, MINUTE, Pow2(28), Pow2(k));
      assert WithBackoff(MINUTE).Ok? && Delay(MINUTE, k) != MINUTE * Pow2(k);
    }
  }

  /** with the largest one, delay 28 is not only wrong but negative. */
  lemma MinuteOverflows()
    ensures WithBackoff(MINUTE).Ok? && Delay(MINUTE, 28) != MINUTE * Pow2(28) && Delay(MINUTE, 28) < 0
  {
    Pow2Values();
  }

  /** The default backoff is exact for the first 33 delays, far beyond its ten retries. */
  lemma DefaultDelaysAreExact(k: nat)
    ensures k <= 32 <==> Delay(DEFAULT_BACKOFF, k) == DEFAULT_BACKOFF * Pow2(k)
  {
    Pow2Values();
    if k <= 32 {
      Pow2Grows(k, 32);
      ProductBounds(DEFAULT_BACKOFF, DEFAULT_BACKOFF, Pow2(k), Pow2(32));
    } else {
      Pow2Grows(33, k);
      ProductBounds(DEFAULT_BACKOFF, DEFAULT_BACKOFF, Pow2(33), Pow2(k));
    }
  }

  lemma WrapIsZeroIff(x: int)
    ensures Wrap(x) == 0 <==> x % TWO64 == 0
  {
    var q, r := x / TWO64, x % TWO64;
    assert x == q * TWO64 + r;
    WrapIsCongruent(x, r, q);
    assert Wrap(r) == if r < TWO63 then r else r - TWO64;
  }

  lemma FactorsCancel(d: int, r: nat, p: nat)
    requires r >= 1 && p >= 1
    ensures r * p >= 1 && ((d * p) % (r * p) == 0 <==> d % r == 0)
  {
    ProductBounds(1, r, 1, p);
    DividesIff(r * p, d / r, d * p);
    DividesIff(r, (d * p) / (r * p), d);
    if d % r == 0 {
      assert d * p == (d / r) * (r * p) by { assert ((d / r) * r) * p == (d / r) * (r * p); }
    }
  }

  lemma MultipleOfFactor(x: int, q: int, a: nat, b: nat)
    requires b >= 1 && x == q * (a * b)
    ensures x % b == 0
  {
    assert q * (a * b) == (q * a) * b;
    DividesIff(b, q * a, x);
  }

  lemma FactorsFromIndex64(d: int, k: nat)
    requires k >= 64
    ensures (d * Pow2(k)) % TWO64 == 0
  {
    Pow2Values();
    Pow2Adds(k - 64, 64);
    MultipleOfFactor(d * Pow2(k), d, Pow2(k - 64), TWO64);
  }

  /** A delay is zero, and the loop does not pause, if and only if 2^64 divides the product: the
      backoff has at least 64 - k factors of two. */
  lemma DelayVanishesIff(d: Int64, k: nat)
    ensures Delay(d, k) == 0 <==> k >= 64 || d % Pow2(64 - k) == 0
  {
    WrapIsZeroIff(d * Pow2(k));
    if k >= 64 {
      FactorsFromIndex64(d, k);
    } else {
      Pow2Values();
      Pow2Adds(64 - k, k);
      FactorsCancel(d, Pow2(64 - k), Pow2(k));
    }
  }

  /** With the largest accepted backoff, delays vanish from index 53 on, within the retries accepted. */
  lemma MinuteVanishes(k: nat)
    ensures WithMaxRetries(255).Ok? && (Delay(MINUTE, k) == 0 <==> k >= 53)
  {
    DelayVanishesIff(MINUTE, k);
    Pow2Values();
    if 53 <= k < 64 {
      Pow2Adds(k - 53, 64 - k);
      MultipleOfFactor(MINUTE, 29_296_875, Pow2(k - 53), Pow2(64 - k));
    } else if k < 53 && MINUTE % Pow2(64 - k) == 0 {
      Pow2Adds(52 - k, 12);
      DividesIff(Pow2(64 - k), 0, MINUTE);
      MultipleOfFactor(MINUTE, MINUTE / Pow2(64 - k), Pow2(52 - k), 4096);
    }
  }

  function Total(ds: seq<Int64>): int {
    if ds == [] then 0 else Total(ds[..|ds| - 1]) + ds[|ds| - 1]
  }

  /** One more delay after an exact sum; products of the powers before stay below. */
  lemma Distributes(d: int, p: int)
    ensures d * (p - 1) + d * p == d * (2 * p - 1)
    ensures d * (2 * p) == 2 * (d * p)
  {
  }

  /** The delays of n failures add up to backoff * (2^n - 1) if and only if the last of them is
      exact; otherwise a positive backoff sleeps less. */
  lemma {:induction false} TotalSleep(d: Int64, sleeps: seq<Int64>)
    requires forall k :: 0 <= k < |sleeps| ==> sleeps[k] == Delay(d, k)
    ensures var n, exact := |sleeps|, d * (Pow2(|sleeps|) - 1);
            && (Total(sleeps) == exact <==> n == 0 || -TWO63 <= d * Pow2(n - 1) < TWO63)
            && (Total(sleeps) != exact ==> if d > 0 then Total(sleeps) < exact else Total(sleeps) > exact)
  {
    var n := |sleeps|;
    if n > 0 {
      TotalSleep(d, sleeps[..n - 1]);
      DelayIsExactIff(d, n - 1);
      Distributes(d, Pow2(n - 1));
      if n > 1 { Distributes(d, Pow2(n - 2)); }
    }
  }

  /** The delays slept after n failures. */
  function Sleeps(d: Int64, n: nat): seq<Int64> {
    seq(n, k requires 0 <= k => Delay(d, k))
  }

  lemma TotalIsExactIff(d: Int64, n: nat)
    ensures Total(Sleeps(d, n)) == d * (Pow2(n) - 1) <==> n == 0 || Delay(d, n - 1) == d * Pow2(n - 1)
  {
    TotalSleep(d, Sleeps(d, n));
    if n > 0 { DelayIsExactIff(d, n - 1); }
  }

  /** The totals that are exact for every backoff the options accept are those of up to 28 failures. */
  lemma {:induction false} AcceptedTotalIsExact(n: nat)
    ensures n <= 28 <==> forall d: Int64 :: WithBackoff(d).Ok? ==> Total(Sleeps(d, n)) == d * (Pow2(n) - 1)
  {
    if n > 0 { AcceptedDelaysAreExact(n - 1); }
    if n <= 28 {
      forall d: Int64 | WithBackoff(d).Ok?
        ensures Total(Sleeps(d, n)) == d * (Pow2(n) - 1)
      {
        TotalIsExactIff(d, n);
      }
    } else {
      var d: Int64 :| WithBackoff(d).Ok? && Delay(d, n - 1) != d * Pow2(n - 1);
      TotalIsExactIff(d, n);
    }
  }
}
