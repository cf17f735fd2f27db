/** The helpers of utils.py: reading a statistic as an int or a float, and
    rendering durations and rates as text. */
module Utils {
  import opened Wrappers
  import opened Strings
  import opened Numerals

  /** A Python number as `number` returns it: an int or a float (floats are
      kept as exact reals). */
  datatype Num = Int(i: int) | Float(f: real)

  function ToReal(n: Num): real
  {
    match n
    case Int(i) => i as real
    case Float(f) => f
  }

  /** `number(text)`: `float(text)` when the text holds a point, otherwise
      `int(text)`; None where that conversion raises ValueError. */
  function Number(text: string): (r: Option<Num>)
    ensures r.Some? ==> (r.value.Float? <==> '.' in text)
    ensures '.' !in text ==> r == (match ParseInt(text) case None => None case Some(i) => Some(Int(i)))
  {
    if '.' in text then
      match ParseFloat(text)
      case None => None
      case Some(f) => Some(Float(f))
    else
      match ParseInt(text)
      case None => None
      case Some(i) => Some(Int(i))
  }

  lemma NoPointInDigits(s: string)
    requires AllDigits(s)
    ensures '.' !in s
  {
  }

  /** `number` reads back the decimal text of any int as that int. */
  lemma NumberOfIntText(i: int)
    ensures Number(IntToString(i)) == Some(Int(i))
  {
    var n: nat := if i < 0 then -i else i;
    NoPointInDigits(NatToString(n));
    if i < 0 {
      assert '.' !in "-" + NatToString(n);
    }
    ParseIntOfIntToString(i);
  }

  /** `number` reads digits, a point and digits as the exact decimal, and
      as a float. */
  lemma NumberOfDecimalText(a: string, b: string)
    requires AllDigits(a) && AllDigits(b) && |a| + |b| > 0
    ensures Number(a + "." + b) == Some(Float(DecimalValue(a, b)))
  {
    var t := a + "." + b;
    assert t[|a|] == '.';
    ParseFloatDecimal(false, a, b);
    assert SignText(false) + t == t;
  }

  /** A text with no point that is not an optionally signed run of digits
      makes `number` raise. */
  lemma NumberRejects(text: string)
    requires '.' !in text && SignedDigits(Strip(text)).None?
    ensures Number(text).None?
  {
  }

  /** `str_sec(number)`: `number` milliseconds as seconds with two decimals,
      followed by " sec". */
  function StrSec(n: Num): (s: string)
    ensures |s| >= 4 && s[|s| - 4..] == " sec"
  {
    FormatFixed(ToReal(n) / 1000.0, 2) + " sec"
  }

  /** The digits StrSec writes, read as an integer, are the milliseconds
      divided by ten, rounded: hundredths of a second. */
  lemma StrSecRead(n: Num)
    ensures var s := StrSec(n);
      var k := Rounded(ToReal(n) / 1000.0, 2);
      ReadFixed(s[..|s| - 4], 2) == Some((ToReal(n) < 0.0, k))
  {
    var x := ToReal(n) / 1000.0;
    var s := StrSec(n);
    assert s[..|s| - 4] == FormatFixed(x, 2);
    FormatFixedRead(x, 2);
  }

  /** The integer StrSec shows is within one half of the milliseconds
      divided by ten. */
  lemma StrSecAccuracy(n: Num)
    ensures -0.5 <= Rounded(ToReal(n) / 1000.0, 2) as real - Abs(ToReal(n)) / 10.0 <= 0.5
  {
    var x := ToReal(n);
    var k := Rounded(x / 1000.0, 2);
    assert Pow10(2) == 100;
    ScaledAbs(x, k as real);
  }

  lemma ScaledAbs(x: real, k: real)
    requires -0.5 <= k - Abs(x / 1000.0) * 100.0 <= 0.5
    ensures -0.5 <= k - Abs(x) / 10.0 <= 0.5
  {
  }

  /** `str_number(number, accuracy, unit)`: an int with no decimals is
      written with `str`, anything else as a float with `accuracy` decimals;
      `unit` follows. */
  function StrNumber(n: Num, accuracy: nat, unit: string): (s: string)
    ensures |s| >= |unit| && s[|s| - |unit|..] == unit
  {
    if n.Int? && accuracy == 0 then IntToString(n.i) + unit
    else FormatFixed(ToReal(n), accuracy) + unit
  }

  /** What StrNumber writes before the unit reads back: an int with no
      decimals as itself, anything else as the sign and the magnitude
      scaled by 10^accuracy and rounded. */
  lemma StrNumberRead(n: Num, accuracy: nat, unit: string)
    ensures var s := StrNumber(n, accuracy, unit);
      var body := s[..|s| - |unit|];
      if n.Int? && accuracy == 0 then ParseInt(body) == Some(n.i)
      else ReadFixed(body, accuracy) == Some((ToReal(n) < 0.0, Rounded(ToReal(n), accuracy)))
  {
    var s := StrNumber(n, accuracy, unit);
    if n.Int? && accuracy == 0 {
      assert s[..|s| - |unit|] == IntToString(n.i);
      ParseIntOfIntToString(n.i);
    } else {
      assert s[..|s| - |unit|] == FormatFixed(ToReal(n), accuracy);
      FormatFixedRead(ToReal(n), accuracy);
    }
  }
}
