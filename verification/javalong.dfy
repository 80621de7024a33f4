/** Java's 64-bit `long`: its range, two's-complement wrap-around, and the
    decimal text written by `String.valueOf(long)`. */
module JavaLong {
  import opened Wrappers

  const MinLong: int := -0x8000_0000_0000_0000
  const MaxLong: int := 0x7FFF_FFFF_FFFF_FFFF
  const Modulus: int := 0x1_0000_0000_0000_0000

  /** The values a Java `long` can hold. */
  type Long = x: int | MinLong <= x <= MaxLong

  /** The `long` that a Java addition or multiplication yields for the
      mathematical value `x`: the unique value in range congruent to `x`. */
  function Wrap(x: int): (r: Long)
    ensures MinLong <= x <= MaxLong ==> r == x
    ensures (x - r) % Modulus == 0
  {
    var m := (x - MinLong) % Modulus;
    assert MinLong <= x <= MaxLong ==> m == x - MinLong;
    m + MinLong
  }

  predicate IsDigit(c: char) {
    '0' <= c <= '9'
  }

  predicate AllDigits(s: string) {
    forall i :: 0 <= i < |s| ==> IsDigit(s[i])
  }

  /** Decimal text as `String.valueOf` writes it: non-empty, digits only, and
      no leading zero unless the number is zero itself. */
  predicate IsCanonical(s: string) {
    |s| > 0 && AllDigits(s) && (s[0] == '0' ==> |s| == 1)
  }

  function DigitChar(d: int): (c: char)
    requires 0 <= d < 10
    ensures IsDigit(c)
  {
    ('0' as int + d) as char
  }

  function DigitValue(c: char): int
    requires IsDigit(c)
  {
    c as int - '0' as int
  }

  /** The decimal digits of a natural number. */
  function NatToDecimal(n: nat): (s: string)
    ensures IsCanonical(s)
    decreases n
  {
    if n < 10 then [DigitChar(n)] else NatToDecimal(n / 10) + [DigitChar(n % 10)]
  }

  /** The number a string of decimal digits denotes (leading zeros allowed). */
  function DecimalValue(s: string): nat
    requires AllDigits(s)
  {
    if |s| == 0 then 0
    else DecimalValue(s[..|s| - 1]) * 10 + DigitValue(s[|s| - 1])
  }

  /** `String.valueOf(long)`: a minus sign for negative values, then digits. */
  function ToString(x: int): (s: string)
    ensures x >= 0 ==> IsCanonical(s) && DecimalValue(s) == x
    ensures x < 0 ==> |s| > 1 && s[0] == '-' && IsCanonical(s[1..]) && DecimalValue(s[1..]) == -x
  {
    var d: nat := if x < 0 then -(x as int) else x;
    DecimalValueOfNatToDecimal(d);
    if x < 0 then
      var s := "-" + NatToDecimal(d);
      assert s[1..] == NatToDecimal(d);
      s
    else NatToDecimal(d)
  }

  /** Reading a `long` back from its text: an optional minus sign, then one or
      more digits; text that is not a number in `long` range reads as absent. */
  function Parse(s: string): (r: Option<Long>)
    ensures r.Some? ==> |s| > 0
  {
    var negative := |s| > 0 && s[0] == '-';
    var digits := if negative then s[1..] else s;
    if |digits| == 0 || !AllDigits(digits) then None
    else
      var v: int := if negative then -(DecimalValue(digits) as int) else DecimalValue(digits);
      if MinLong <= v <= MaxLong then Some(v) else None
  }

  lemma {:induction false} DecimalValueOfNatToDecimal(n: nat)
    ensures DecimalValue(NatToDecimal(n)) == n
    decreases n
  {
    var s := NatToDecimal(n);
    if n >= 10 {
      var t := NatToDecimal(n / 10);
      assert s[..|s| - 1] == t;
      DecimalValueOfNatToDecimal(n / 10);
    }
  }

  lemma {:induction false} DecimalValuePositive(s: string)
    requires |s| > 0 && AllDigits(s) && s[0] != '0'
    ensures DecimalValue(s) > 0
    decreases |s|
  {
    if |s| > 1 {
      DecimalValuePositive(s[..|s| - 1]);
    }
  }

  /** Canonical decimal text is exactly what `NatToDecimal` writes. */
  lemma {:induction false} NatToDecimalOfDecimalValue(s: string)
    requires IsCanonical(s)
    ensures NatToDecimal(DecimalValue(s)) == s
    decreases |s|
  {
    var v := DecimalValue(s);
    if |s| == 1 {
      assert s[..0] == [] && DecimalValue(s[..0]) == 0;
      assert v == DigitValue(s[0]);
      assert DigitChar(v) == s[0];
    } else {
      var t := s[..|s| - 1];
      DecimalValuePositive(t);
      assert v / 10 == DecimalValue(t) && v % 10 == DigitValue(s[|s| - 1]);
      NatToDecimalOfDecimalValue(t);
      assert DigitChar(v % 10) == s[|s| - 1];
      assert s == t + [s[|s| - 1]];
    }
  }

  /** The observation id and the persisted retry deadline both rely on this:
      the decimal text of a `long` reads back as that `long`. */
  lemma ParseToString(x: Long)
    ensures Parse(ToString(x)) == Some(x)
  {
    var d: nat := if x < 0 then -(x as int) else x;
    DecimalValueOfNatToDecimal(d);
    if x < 0 {
      assert ToString(x)[1..] == NatToDecimal(d);
    }
  }

  /** Distinct `long` values have distinct decimal texts. */
  lemma ToStringInjective(x: Long, y: Long)
    requires ToString(x) == ToString(y)
    ensures x == y
  {
    ParseToString(x);
    ParseToString(y);
  }
}
