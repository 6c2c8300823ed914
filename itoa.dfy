/**
 * The text that avr-libc's `itoa(value, buf, 10)` writes, as bytes.
 * On the AVR an `int` is 16 bits wide, so an `unsigned int` argument of
 * 0x8000 or more is read as a negative number and gets a leading '-'.
 */
module Itoa {

  const ZERO: bv8 := 0x30   // '0'
  const NINE: bv8 := 0x39   // '9'
  const MINUS: bv8 := 0x2D  // '-'

  predicate IsDigit(b: bv8) {
    ZERO <= b <= NINE
  }

  function DigitValue(b: bv8): (d: nat)
    requires IsDigit(b)
    ensures d < 10
  {
    (b - ZERO) as int
  }

  function DigitChar(d: nat): (b: bv8)
    requires d < 10
    ensures IsDigit(b) && DigitValue(b) == d
  {
    [0x30, 0x31, 0x32, 0x33, 0x34, 0x35, 0x36, 0x37, 0x38, 0x39][d]
  }

  predicate AllDigits(s: seq<bv8>) {
    forall i :: 0 <= i < |s| ==> IsDigit(s[i])
  }

  /** Decimal text of `n`, most significant digit first. */
  function Decimal(n: nat): (s: seq<bv8>)
    ensures 1 <= |s|
    decreases n
  {
    if n < 10 then [DigitChar(n)] else Decimal(n / 10) + [DigitChar(n % 10)]
  }

  /** The decimal text is the shortest one: digits only, no leading zero. */
  lemma {:induction false} DecimalShape(n: nat)
    ensures AllDigits(Decimal(n))
    ensures |Decimal(n)| > 1 ==> Decimal(n)[0] != ZERO
    decreases n
  {
    if n >= 10 {
      DecimalShape(n / 10);
      assert Decimal(n)[0] == Decimal(n / 10)[0];
    }
  }

  /** The number a digit string denotes, most significant digit first. */
  function ValueOf(s: seq<bv8>): nat
    requires AllDigits(s)
    decreases |s|
  {
    if s == [] then 0 else ValueOf(s[..|s| - 1]) * 10 + DigitValue(s[|s| - 1])
  }

  /** Reading back the decimal text of `n` gives `n`. */
  lemma {:induction false} ValueOfDecimal(n: nat)
    ensures AllDigits(Decimal(n)) && ValueOf(Decimal(n)) == n
    decreases n
  {
    DecimalShape(n);
    var s := Decimal(n);
    if n >= 10 {
      ValueOfDecimal(n / 10);
      assert s[..|s| - 1] == Decimal(n / 10);
    }
  }

  lemma {:induction false} ValueOfLeadingNonZero(s: seq<bv8>)
    requires |s| >= 1 && AllDigits(s) && s[0] != ZERO
    ensures ValueOf(s) >= 1
    decreases |s|
  {
    if |s| > 1 {
      ValueOfLeadingNonZero(s[..|s| - 1]);
    }
  }

  /** Every canonical digit string is the decimal text of its value. */
  lemma {:induction false} DecimalOfValue(s: seq<bv8>)
    requires |s| >= 1 && AllDigits(s)
    requires |s| > 1 ==> s[0] != ZERO
    ensures Decimal(ValueOf(s)) == s
    decreases |s|
  {
    var front, d := s[..|s| - 1], DigitValue(s[|s| - 1]);
    if |s| > 1 {
      ValueOfLeadingNonZero(front);
      assert |front| > 1 ==> front[0] == s[0];
      DecimalOfValue(front);
      var v := ValueOf(s);
      assert v / 10 == ValueOf(front) && v % 10 == d;
      assert DigitChar(d) == s[|s| - 1];
    } else {
      assert DigitChar(d) == s[0];
    }
  }

  function Pow10(k: nat): (p: nat)
    ensures p >= 1
  {
    if k == 0 then 1 else 10 * Pow10(k - 1)
  }

  /** A number below 10^k has at most k decimal digits. */
  lemma {:induction false} DecimalLength(n: nat, k: nat)
    requires 1 <= k && n < Pow10(k)
    ensures |Decimal(n)| <= k
    decreases k
  {
    if n >= 10 {
      assert k >= 1 && Pow10(k) == 10 * Pow10(k - 1);
      assert n / 10 < Pow10(k - 1);
      DecimalLength(n / 10, k - 1);
      assert |Decimal(n)| == |Decimal(n / 10)| + 1;
    }
  }

  /** The C `unsigned int` of the AVR: 16 bits. */
  type UInt16 = x: int | 0 <= x < 0x1_0000

  /** The characters `itoa` writes for the AVR `int` reading of `data`. */
  function IntText(data: UInt16): (s: seq<bv8>)
    ensures 1 <= |s| <= 6
  {
    var magnitude := if data < 0x8000 then data else 0x1_0000 - data;
    FitsInFiveDigits(magnitude);
    if data < 0x8000 then Decimal(data) else [MINUS] + Decimal(magnitude)
  }

  /**
   * A value below 0x8000 is written as its decimal text; a larger one, which
   * the AVR reads as `data - 65536`, as '-' and the decimal text of
   * `65536 - data`. Either way the digits read back to the magnitude.
   */
  lemma IntTextDigits(data: UInt16)
    ensures data < 0x8000 ==>
              IntText(data) == Decimal(data) && AllDigits(IntText(data)) && ValueOf(IntText(data)) == data
    ensures data >= 0x8000 ==>
              var s := IntText(data);
              && s[0] == MINUS && s[1..] == Decimal(0x1_0000 - data)
              && AllDigits(s[1..]) && ValueOf(s[1..]) == 0x1_0000 - data
  {
    var magnitude := if data < 0x8000 then data else 0x1_0000 - data;
    ValueOfDecimal(magnitude);
    if data >= 0x8000 {
      assert IntText(data)[1..] == Decimal(magnitude);
    }
  }

  lemma FitsInFiveDigits(n: nat)
    requires n <= 0x8000
    ensures |Decimal(n)| <= 5
  {
    assert Pow10(5) == 100000 by {
      assert Pow10(1) == 10 && Pow10(2) == 100 && Pow10(3) == 1000 && Pow10(4) == 10000;
    }
    DecimalLength(n, 5);
  }
}
