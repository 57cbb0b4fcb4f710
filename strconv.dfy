/**
 * The parts of Go's `strconv` package and integer conversions that the handlers rely on:
 * `strconv.Atoi` on a path parameter (64-bit `int`) and the conversion `uint64(id)`.
 */
module Strconv {
  import opened Wrappers

  const TwoTo63: int := 0x8000_0000_0000_0000
  const TwoTo64: int := 0x1_0000_0000_0000_0000
  const MinInt64: int := -TwoTo63
  const MaxInt64: int := TwoTo63 - 1

  /** Go's `uint64`. */
  type UInt64 = x: int | 0 <= x < 0x1_0000_0000_0000_0000

  /** Go's `int` on a 64-bit platform. */
  predicate IsInt64(n: int) {
    MinInt64 <= n <= MaxInt64
  }

  predicate IsDigit(c: char) {
    '0' <= c <= '9'
  }

  predicate AllDigits(s: string) {
    forall i :: 0 <= i < |s| ==> IsDigit(s[i])
  }

  function DigitValue(c: char): nat
    requires IsDigit(c)
  {
    c as int - '0' as int
  }

  function DigitChar(d: nat): char
    requires d < 10
  {
    ('0' as int + d) as char
  }

  /** The value of a string of decimal digits, read most significant digit first. */
  function DecimalValue(s: string): nat
    requires AllDigits(s)
  {
    if s == [] then 0 else DecimalValue(s[..|s| - 1]) * 10 + DigitValue(s[|s| - 1])
  }

  /** The digits after an optional leading `+` or `-`. */
  function Unsigned(s: string): string
    requires |s| > 0
  {
    if s[0] == '-' || s[0] == '+' then s[1..] else s
  }

  /**
   * `strconv.Atoi(s)` for a 64-bit `int`: an optional sign followed by at least one decimal
   * digit (no underscores, no spaces, no base prefix), whose value fits in 64 bits. Every
   * other input is a syntax or range error, written None.
   */
  function Atoi(s: string): (r: Option<int>)
    ensures r.Some? ==> IsInt64(r.value)
    ensures r.Some? ==> |s| > 0 && |Unsigned(s)| > 0 && AllDigits(Unsigned(s))
  {
    if |s| == 0 then None
    else
      var digits := Unsigned(s);
      if |digits| == 0 || !AllDigits(digits) then None
      else
        var v: int := if s[0] == '-' then -(DecimalValue(digits) as int) else DecimalValue(digits);
        if IsInt64(v) then Some(v) else None
  }

  /** Decimal digits of a natural number, without leading zeros. */
  function NatToDecimal(n: nat): string
  {
    if n < 10 then [DigitChar(n)] else NatToDecimal(n / 10) + [DigitChar(n % 10)]
  }

  /** `strconv.Itoa`: the canonical decimal form, with `-` for negative numbers. */
  function Itoa(n: int): string
  {
    if n < 0 then "-" + NatToDecimal(-n) else NatToDecimal(n)
  }

  /**
   * Go's conversion `uint64(n)` of a 64-bit `int`: the two's-complement bits are
   * reinterpreted, so a negative number wraps around to `n + 2^64`.
   */
  function ToUint64(n: int): (r: UInt64)
    requires IsInt64(n)
    ensures 0 <= n ==> r == n
    ensures n < 0 ==> r == n + TwoTo64
  {
    n % TwoTo64
  }

  lemma {:induction false} NatToDecimalIsDecimal(n: nat)
    ensures |NatToDecimal(n)| > 0 && AllDigits(NatToDecimal(n))
    ensures DecimalValue(NatToDecimal(n)) == n
    ensures NatToDecimal(n)[0] != '-' && NatToDecimal(n)[0] != '+'
  {
    if n >= 10 {
      NatToDecimalIsDecimal(n / 10);
      var s := NatToDecimal(n);
      assert s == NatToDecimal(n / 10) + [DigitChar(n % 10)];
      assert s[..|s| - 1] == NatToDecimal(n / 10);
    }
  }

  /** Atoi reads back every 64-bit integer that Itoa writes. */
  lemma AtoiItoa(n: int)
    requires IsInt64(n)
    ensures Atoi(Itoa(n)) == Some(n)
  {
    if n < 0 {
      NatToDecimalIsDecimal(-n);
      assert Unsigned(Itoa(n)) == NatToDecimal(-n);
    } else {
      NatToDecimalIsDecimal(n);
    }
  }

  /** A string of digits with no sign is read as its decimal value, leading zeros included. */
  lemma AtoiDigits(s: string)
    requires |s| > 0 && AllDigits(s) && DecimalValue(s) <= MaxInt64
    ensures Atoi(s) == Some(DecimalValue(s))
  {
  }

  /** Any character other than a digit, past an optional leading sign, is rejected. */
  lemma AtoiRejects(s: string, i: nat)
    requires i < |s|
    requires !IsDigit(s[i]) && (i == 0 ==> s[0] != '-' && s[0] != '+')
    ensures Atoi(s) == None
  {
  }

  /** The empty string and a lone sign are rejected. */
  lemma AtoiRejectsEmptyAndSign()
    ensures Atoi("") == None && Atoi("-") == None && Atoi("+") == None
  {
  }

  /** An unsigned digit string above 2^63-1 is a range error. */
  lemma {:induction false} AtoiRange(s: string)
    requires |s| > 0 && AllDigits(s) && DecimalValue(s) > MaxInt64
    ensures Atoi(s) == None
  {
  }

  /**
   * A leading `+` changes nothing, and a leading `-` negates the digits' value, which is
   * accepted down to -2^63 and is a range error below it. Leading zeros are allowed after
   * either sign, so "+5" reads as 5 and "-05" as -5.
   */
  lemma AtoiSigned(d: string)
    requires |d| > 0 && AllDigits(d)
    ensures Atoi("+" + d) == Atoi(d)
    ensures Atoi("-" + d) == if DecimalValue(d) <= TwoTo63 then Some(-(DecimalValue(d) as int)) else None
  {
    var plus, minus := "+" + d, "-" + d;
    assert plus[0] == '+' && plus[1..] == d;
    assert minus[0] == '-' && minus[1..] == d;
    assert Unsigned(d) == d by { assert IsDigit(d[0]); }
    var v := DecimalValue(d) as int;
    assert Atoi(minus) == if IsInt64(-v) then Some(-v) else None;
    assert IsInt64(-v) <==> v <= TwoTo63;
  }

  /** The ends of the 64-bit range: -2^63 is read, and one past either end is rejected. */
  lemma AtoiBounds()
    ensures Atoi("-" + NatToDecimal(TwoTo63)) == Some(MinInt64)
    ensures Atoi("-" + NatToDecimal(TwoTo63 + 1)) == None
    ensures Atoi(NatToDecimal(TwoTo63)) == None
    ensures Atoi(NatToDecimal(MaxInt64)) == Some(MaxInt64)
  {
    NatToDecimalIsDecimal(TwoTo63);
    NatToDecimalIsDecimal(TwoTo63 + 1);
    NatToDecimalIsDecimal(MaxInt64);
    AtoiSigned(NatToDecimal(TwoTo63));
    AtoiSigned(NatToDecimal(TwoTo63 + 1));
  }

  /** Non-canonical inputs the handlers accept as ids. */
  lemma AtoiNonCanonical()
    ensures Atoi("+5") == Some(5)
    ensures Atoi("-05") == Some(-5)
    ensures Atoi("007") == Some(7)
  {
    AtoiSigned("5");
    AtoiSigned("05");
    assert DecimalValue("007") == 7 by {
      assert "007"[..2] == "00" && "00"[..1] == "0" && "0"[..0] == "";
    }
    AtoiDigits("007");
    assert "+5" == "+" + "5";
    assert "-05" == "-" + "05";
  }

  /**
   * Distinct parsed ids (64-bit values) never collide after the conversion to uint64. Distinct
   * strings with the same value, such as "5" and "05", do reach the service as the same id.
   */
  lemma ToUint64Injective(m: int, n: int)
    requires IsInt64(m) && IsInt64(n) && m != n
    ensures ToUint64(m) != ToUint64(n)
  {
  }
}
