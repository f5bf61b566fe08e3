/** Decimal text of 64-bit integers, as the standard library prints and parses it. */
module Decimal {
  import opened Wrappers

  type Int64 = x: int | -0x8000_0000_0000_0000 <= x < 0x8000_0000_0000_0000

  predicate IsDigit(c: char) {
    '0' <= c <= '9'
  }

  predicate AllDigits(s: string) {
    forall i :: 0 <= i < |s| ==> IsDigit(s[i])
  }

  function DigitOf(n: nat): (c: char)
    requires n < 10
    ensures IsDigit(c) && c as int - '0' as int == n
  {
    '0' + n as char
  }

  function FormatNat(n: nat): (s: string)
    ensures s != ""
  {
    if n < 10 then [DigitOf(n)] else FormatNat(n / 10) + [DigitOf(n % 10)]
  }

  function Magnitude(n: int): nat {
    if n < 0 then -n else n
  }

  /** Printing in base 10: a minus sign for negative numbers, no leading zeros. */
  function FormatInt(n: Int64): (s: string)
    ensures s != ""
  {
    if n < 0 then "-" + FormatNat(Magnitude(n)) else FormatNat(n)
  }

  function ValueOf(s: string): nat
    requires AllDigits(s)
  {
    if s == "" then 0 else 10 * ValueOf(s[..|s| - 1]) + (s[|s| - 1] as int - '0' as int)
  }

  /** Unsigned: digits only, at least one, below 2^64. */
  function ParseUint(s: string): Option<nat> {
    if s != "" && AllDigits(s) && ValueOf(s) < 0x1_0000_0000_0000_0000 then Some(ValueOf(s)) else None
  }

  /** Signed: an optional sign before digits, and a value that fits 64 bits. */
  function ParseInt(s: string): Option<Int64> {
    if s == "" then None
    else
      var signed := s[0] == '-' || s[0] == '+';
      var digits := if signed then s[1..] else s;
      if digits == "" || !AllDigits(digits) then None
      else
        var value: int := ValueOf(digits);
        var v := if s[0] == '-' then -value else value;
        if -0x8000_0000_0000_0000 <= v < 0x8000_0000_0000_0000 then Some(v) else None
  }

  lemma {:induction false} FormatNatReads(n: nat)
    ensures AllDigits(FormatNat(n)) && ValueOf(FormatNat(n)) == n
  {
    if n >= 10 {
      FormatNatReads(n / 10);
      var s := FormatNat(n);
      assert s[..|s| - 1] == FormatNat(n / 10);
    } else {
      var s := FormatNat(n);
      assert s[..0] == "";
    }
  }

  /** Every 64-bit integer, the smallest included, is read back exactly as printed. */
  lemma IntRoundTrip(n: Int64)
    ensures ParseInt(FormatInt(n)) == Some(n)
  {
    if n < 0 {
      FormatNatReads(Magnitude(n));
      assert FormatInt(n)[1..] == FormatNat(Magnitude(n));
    } else {
      FormatNatReads(n);
      assert IsDigit(FormatNat(n)[0]);
    }
  }

  /** The two texts the storage skips: no number prints as the first, only zero as the second. */
  lemma SkippedTexts(n: Int64)
    ensures FormatInt(n) != ""
    ensures FormatInt(n) == "0" <==> n == 0
  {
    IntRoundTrip(n);
    IntRoundTrip(0);
    assert FormatInt(0) == "0";
  }

  // ------------------------------------------------- what decimal text means

  function Pow10(k: nat): (p: nat)
    ensures p >= 1
  {
    if k == 0 then 1 else 10 * Pow10(k - 1)
  }

  /** The value of a text by position: every digit times the power of ten of its place. */
  function Positional(s: string): int
    requires forall i :: 0 <= i < |s| ==> '0' <= s[i] <= '9'
  {
    if s == "" then 0 else (s[0] as int - '0' as int) * Pow10(|s| - 1) + Positional(s[1..])
  }

  lemma TimesTen(d: int, p: int)
    ensures d * (10 * p) == 10 * (d * p)
  {
  }

  /** One more digit at the end shifts all others by one place. */
  lemma {:induction false} PositionalAppends(s: string, c: char)
    requires AllDigits(s) && IsDigit(c)
    ensures Positional(s + [c]) == 10 * Positional(s) + (c as int - '0' as int)
  {
    var t := s + [c];
    if s == "" {
      assert t[1..] == "" && Pow10(0) == 1;
    } else {
      PositionalAppends(s[1..], c);
      assert t[1..] == s[1..] + [c];
      assert Pow10(|t| - 1) == 10 * Pow10(|s| - 1);
      TimesTen(s[0] as int - '0' as int, Pow10(|s| - 1));
    }
  }

  /** Reading digit by digit, as the parser does, gives the value by position. */
  lemma {:induction false} ValueIsPositional(s: string)
    requires AllDigits(s)
    ensures ValueOf(s) == Positional(s)
    decreases |s|
  {
    if s != "" {
      var init, c := s[..|s| - 1], s[|s| - 1];
      ValueIsPositional(init);
      PositionalAppends(init, c);
      assert s == init + [c];
    }
  }

  /** An unsigned text is read exactly when it is digits only, at least one, and its value by
      position is below 2^64; that value is then the number. */
  lemma ParseUintMeans(s: string)
    ensures ParseUint(s).Some? <==>
              s != "" && (forall i :: 0 <= i < |s| ==> '0' <= s[i] <= '9') && Positional(s) < 0x1_0000_0000_0000_0000
    ensures ParseUint(s).Some? ==> ParseUint(s).value == Positional(s)
  {
    if AllDigits(s) { ValueIsPositional(s); }
  }

  /** A signed text is read exactly when it is such digits after at most one sign and the value,
      negated after a minus sign, fits in 64 bits. */
  lemma ParseIntMeans(s: string)
    ensures s == "" ==> ParseInt(s).None?
    ensures s != "" ==>
              var digits := if s[0] in {'-', '+'} then s[1..] else s;
              if digits == "" || exists i :: 0 <= i < |digits| && !('0' <= digits[i] <= '9') then ParseInt(s).None?
              else
                var v: int := if s[0] == '-' then -Positional(digits) else Positional(digits);
                ParseInt(s) == if -0x8000_0000_0000_0000 <= v <= 0x7fff_ffff_ffff_ffff then Some(v) else None
  {
    if s != "" {
      var digits := if s[0] in {'-', '+'} then s[1..] else s;
      if AllDigits(digits) { ValueIsPositional(digits); }
    }
  }

  /** The text of digits with this value by position and no leading zero, of which there is one. */
  ghost predicate StandsFor(s: string, n: int) {
    s != "" && (forall i :: 0 <= i < |s| ==> '0' <= s[i] <= '9') && Positional(s) == n && (s[0] == '0' ==> s == "0")
  }

  lemma {:induction false} FormatNatMeans(n: nat)
    ensures StandsFor(FormatNat(n), n)
  {
    FormatNatReads(n);
    ValueIsPositional(FormatNat(n));
    NoLeadingZero(n);
  }

  lemma {:induction false} NoLeadingZero(n: nat)
    ensures FormatNat(n)[0] == '0' <==> n == 0
  {
    if n >= 10 { NoLeadingZero(n / 10); }
  }

  /** A signed number prints as the digits of its magnitude, after a minus sign if it is negative. */
  lemma FormatIntMeans(n: Int64)
    ensures n < 0 ==> FormatInt(n)[0] == '-' && StandsFor(FormatInt(n)[1..], Magnitude(n))
    ensures n >= 0 ==> StandsFor(FormatInt(n), n)
  {
    FormatNatMeans(Magnitude(n));
    if n < 0 { assert FormatInt(n)[1..] == FormatNat(Magnitude(n)); }
  }

  /** Every unsigned 64-bit number is read back as printed, and no larger one is. */
  lemma UintRoundTrip(n: nat)
    ensures ParseUint(FormatNat(n)) == if n < 0x1_0000_0000_0000_0000 then Some(n) else None
  {
    FormatNatReads(n);
  }
}
