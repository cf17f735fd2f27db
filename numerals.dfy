/** Python's conversions between numbers and text: `int(str)`,
    `float(str)`, `str(int)`, `int(float)` and fixed-point formatting
    `'{:.Nf}'`, on unbounded integers and exact reals. */
module Numerals {
  import opened Wrappers
  import opened Strings

  function DigitValue(c: char): (d: nat)
    requires IsDigit(c)
    ensures d < 10
  {
    (c as int) - ('0' as int)
  }

  function DigitChar(d: nat): (c: char)
    requires d < 10
    ensures IsDigit(c) && DigitValue(c) == d
  {
    (('0' as int) + d) as char
  }

  predicate AllDigits(s: string)
  {
    forall i :: 0 <= i < |s| ==> IsDigit(s[i])
  }

  /** The value of a string of decimal digits, most significant first. */
  function DigitsValue(s: string): nat
    requires AllDigits(s)
    decreases |s|
  {
    if s == "" then 0 else DigitsValue(s[..|s| - 1]) * 10 + DigitValue(s[|s| - 1])
  }

  function Pow10(n: nat): (p: nat)
    ensures p >= 1
  {
    if n == 0 then 1 else 10 * Pow10(n - 1)
  }

  /** The value of a concatenation: the digits of `a` are shifted left by
      the length of `b`. */
  lemma {:induction false} DigitsValueConcat(a: string, b: string)
    requires AllDigits(a) && AllDigits(b)
    ensures AllDigits(a + b)
    ensures DigitsValue(a + b) == DigitsValue(a) * Pow10(|b|) + DigitsValue(b)
    decreases |b|
  {
    var s := a + b;
    assert AllDigits(s) by {
      forall i | 0 <= i < |s| ensures IsDigit(s[i]) {
        if i >= |a| { assert s[i] == b[i - |a|]; }
      }
    }
    if b == "" {
      assert s == a;
    } else {
      var b' := b[..|b| - 1];
      assert s[..|s| - 1] == a + b';
      DigitsValueConcat(a, b');
      ShiftDigit(DigitsValue(a), Pow10(|b'|), DigitsValue(b'), DigitValue(b[|b| - 1]));
    }
  }

  lemma ShiftDigit(x: int, p: int, y: int, d: int)
    ensures (x * p + y) * 10 + d == x * (10 * p) + (y * 10 + d)
  {
  }

  /** Leading zeros do not change the value. */
  lemma LeadingZero(s: string)
    requires AllDigits(s)
    ensures AllDigits("0" + s) && DigitsValue("0" + s) == DigitsValue(s)
  {
    DigitsValueConcat("0", s);
    assert DigitsValue("0") == DigitsValue("") * 10 + DigitValue('0');
  }

  /** Python's `str(n)` for a natural number: decimal digits without
      leading zeros. */
  function NatToString(n: nat): (r: string)
    ensures IsDigits(r)
    decreases n
  {
    if n < 10 then [DigitChar(n)] else NatToString(n / 10) + [DigitChar(n % 10)]
  }

  /** NatToString denotes its argument and starts with a zero only when it is
      the single digit of zero. */
  lemma {:induction false} NatToStringValue(n: nat)
    ensures DigitsValue(NatToString(n)) == n
    ensures NatToString(n)[0] == '0' ==> n == 0
    decreases n
  {
    var r := NatToString(n);
    if n >= 10 {
      var q := NatToString(n / 10);
      NatToStringValue(n / 10);
      assert r[..|r| - 1] == q;
      assert r[0] == q[0];
    }
  }

  /** Python's `str(i)` for an integer. */
  function IntToString(i: int): (r: string)
  {
    if i < 0 then "-" + NatToString(-i) else NatToString(i)
  }

  /** An optionally signed run of digits: the text `int()` accepts once the
      surrounding whitespace is gone. */
  function SignedDigits(t: string): Option<int>
  {
    if |t| > 0 && (t[0] == '+' || t[0] == '-') then
      var d := t[1..];
      if IsDigits(d) then Some(if t[0] == '-' then -(DigitsValue(d) as int) else DigitsValue(d)) else None
    else if IsDigits(t) then Some(DigitsValue(t))
    else None
  }

  /** Python's `int(text)` for a string: surrounding whitespace, an optional
      sign and at least one decimal digit; None where Python raises
      ValueError. */
  function ParseInt(text: string): (r: Option<int>)
    ensures r.Some? ==> Strip(text) != ""
  {
    SignedDigits(Strip(text))
  }

  lemma DigitNotSpace(c: char)
    requires IsDigit(c) || c == '-' || c == '.'
    ensures !IsSpace(c)
  {
  }

  /** `int` reads back what `str` writes. */
  lemma ParseIntOfIntToString(i: int)
    ensures ParseInt(IntToString(i)) == Some(i)
  {
    var s := IntToString(i);
    var n: nat := if i < 0 then -i else i;
    var digits := NatToString(n);
    NatToStringValue(n);
    DigitNotSpace(digits[|digits| - 1]);
    if i < 0 {
      assert s == "-" + digits;
      DigitNotSpace('-');
      assert s[1..] == digits;
    } else {
      DigitNotSpace(digits[0]);
    }
    StripUnchanged(s);
  }

  /** `int` of a plain string of digits is its value. */
  lemma ParseIntDigits(s: string)
    requires IsDigits(s)
    ensures ParseInt(s) == Some(DigitsValue(s))
  {
    DigitNotSpace(s[0]);
    DigitNotSpace(s[|s| - 1]);
    StripUnchanged(s);
  }

  /** The first position of `c` in `s`, or |s|. */
  function IndexOf(s: string, c: char): (k: nat)
    ensures k <= |s|
    ensures k < |s| ==> s[k] == c
    ensures forall i :: 0 <= i < k ==> s[i] != c
    decreases |s|
  {
    if s == "" then 0 else if s[0] == c then 0 else 1 + IndexOf(s[1..], c)
  }

  /** The first position of an exponent marker 'e' or 'E', or |s|. */
  function IndexOfExponent(s: string): (k: nat)
    ensures k <= |s|
    ensures k < |s| ==> s[k] == 'e' || s[k] == 'E'
    ensures forall i :: 0 <= i < k ==> s[i] != 'e' && s[i] != 'E'
    decreases |s|
  {
    if s == "" then 0 else if s[0] == 'e' || s[0] == 'E' then 0 else 1 + IndexOfExponent(s[1..])
  }

  /** The value of the digits `a` '.' `b`. */
  function DecimalValue(a: string, b: string): real
    requires AllDigits(a) && AllDigits(b)
  {
    DigitsValue(a) as real + Shift(DigitsValue(b) as real, -|b|)
  }

  /** A decimal mantissa: digits with at most one point and at least one
      digit. */
  function Mantissa(m: string): Option<real>
  {
    var p := IndexOf(m, '.');
    if p == |m| then
      if IsDigits(m) then Some(DigitsValue(m) as real) else None
    else
      var a, b := m[..p], m[p + 1..];
      if AllDigits(a) && AllDigits(b) && |a| + |b| > 0 then Some(DecimalValue(a, b)) else None
  }

  /** `m` times ten to the power `x`. */
  function Shift(m: real, x: int): real
    decreases if x >= 0 then x else -x
  {
    if x == 0 then m else if x > 0 then Shift(m, x - 1) * 10.0 else Shift(m, x + 1) / 10.0
  }

  /** The value of an unsigned decimal literal with an optional exponent. */
  function UnsignedFloat(u: string): Option<real>
  {
    var e := IndexOfExponent(u);
    match Mantissa(u[..e])
    case None => None
    case Some(m) =>
      if e == |u| then Some(m)
      else
        match SignedDigits(u[e + 1..])
        case None => None
        case Some(x) => Some(Shift(m, x))
  }

  function Negate(o: Option<real>): Option<real>
  {
    match o
    case None => None
    case Some(m) => Some(-m)
  }

  /** An unsigned literal with an optional leading sign. */
  function SignedFloat(t: string): Option<real>
  {
    if |t| > 0 && (t[0] == '+' || t[0] == '-') then
      match UnsignedFloat(t[1..])
      case None => None
      case Some(m) => Some(if t[0] == '-' then -m else m)
    else UnsignedFloat(t)
  }

  /** A leading minus when `neg` holds. */
  function SignText(neg: bool): string
  {
    if neg then "-" else ""
  }

  function Signed(neg: bool, m: real): real
  {
    if neg then -m else m
  }

  /** Python's `float(text)` on finite decimal literals (with optional sign
      and exponent), evaluated exactly; None where Python raises ValueError. */
  function ParseFloat(text: string): Option<real>
  {
    SignedFloat(Strip(text))
  }

  lemma NoExponentInDigits(s: string)
    requires AllDigits(s)
    ensures IndexOfExponent(s) == |s| && IndexOf(s, '.') == |s|
  {
  }

  lemma IndexOfAt(s: string, c: char, j: nat)
    requires j < |s| && s[j] == c
    requires forall i :: 0 <= i < j ==> s[i] != c
    ensures IndexOf(s, c) == j
  {
  }

  /** Mantissa of digits, a point and digits. */
  lemma MantissaDecimal(a: string, b: string)
    requires AllDigits(a) && AllDigits(b) && |a| + |b| > 0
    ensures Mantissa(a + "." + b) == Some(DecimalValue(a, b))
  {
    var m := a + "." + b;
    forall i | 0 <= i < |a| ensures m[i] != '.' { assert m[i] == a[i]; }
    IndexOfAt(m, '.', |a|);
    assert m[..|a|] == a && m[|a| + 1..] == b;
  }

  lemma NoMarkerNoExponent(s: string)
    requires forall i :: 0 <= i < |s| ==> s[i] != 'e' && s[i] != 'E'
    ensures IndexOfExponent(s) == |s|
  {
  }

  lemma NoExponentInDecimal(a: string, b: string)
    requires AllDigits(a) && AllDigits(b)
    ensures IndexOfExponent(a + "." + b) == |a + "." + b|
  {
    var m := a + "." + b;
    forall i | 0 <= i < |m| ensures m[i] != 'e' && m[i] != 'E' {
      if i < |a| { assert m[i] == a[i]; } else if i > |a| { assert m[i] == b[i - |a| - 1]; }
    }
    NoMarkerNoExponent(m);
  }

  lemma UnsignedDecimal(a: string, b: string)
    requires AllDigits(a) && AllDigits(b) && |a| + |b| > 0
    ensures UnsignedFloat(a + "." + b) == Some(DecimalValue(a, b))
  {
    var u := a + "." + b;
    NoExponentInDecimal(a, b);
    MantissaDecimal(a, b);
    assert u[..|u|] == u;
  }

  lemma UnsignedInteger(s: string)
    requires IsDigits(s)
    ensures UnsignedFloat(s) == Some(DigitsValue(s) as real)
  {
    NoExponentInDigits(s);
    assert s[..|s|] == s;
  }

  /** A number shown with an optional minus has no surrounding whitespace. */
  lemma SignedTextStripped(neg: bool, u: string)
    requires u != [] && (u[0] == '.' || IsDigit(u[0])) && (u[|u| - 1] == '.' || IsDigit(u[|u| - 1]))
    ensures Strip(SignText(neg) + u) == SignText(neg) + u
  {
    var t := SignText(neg) + u;
    DigitNotSpace(u[|u| - 1]);
    assert t[|t| - 1] == u[|u| - 1];
    if neg {
      assert t[0] == '-';
      DigitNotSpace('-');
    } else {
      DigitNotSpace(u[0]);
    }
    StripUnchanged(t);
  }

  lemma SignedFloatMinus(u: string)
    requires u != [] && u[0] != '+' && u[0] != '-'
    ensures SignedFloat("-" + u) == Negate(UnsignedFloat(u))
  {
    var t := "-" + u;
    assert t[1..] == u;
  }

  lemma SignedFloatPlain(u: string)
    requires u != [] && u[0] != '+' && u[0] != '-'
    ensures SignedFloat(u) == UnsignedFloat(u)
  {
  }

  /** The text `float` reads for a number shown with an optional minus. */
  lemma ParseFloatSigned(neg: bool, u: string, m: real)
    requires u != [] && (u[0] == '.' || IsDigit(u[0])) && (u[|u| - 1] == '.' || IsDigit(u[|u| - 1]))
    requires UnsignedFloat(u) == Some(m)
    ensures ParseFloat(SignText(neg) + u) == Some(Signed(neg, m))
  {
    var t := SignText(neg) + u;
    SignedTextStripped(neg, u);
    assert ParseFloat(t) == SignedFloat(t);
    if neg {
      assert t == "-" + u;
      SignedFloatMinus(u);
    } else {
      assert t == u;
      SignedFloatPlain(u);
    }
  }

  lemma DecimalEnds(a: string, b: string)
    requires AllDigits(a) && AllDigits(b)
    ensures var u := a + "." + b;
      u != [] && (u[0] == '.' || IsDigit(u[0])) && (u[|u| - 1] == '.' || IsDigit(u[|u| - 1]))
  {
    var u := a + "." + b;
    if a != [] { assert u[0] == a[0]; }
    if b != [] { assert u[|u| - 1] == b[|b| - 1]; }
  }

  /** A decimal literal, optionally preceded by '-', is read as that
      exact number. */
  lemma ParseFloatDecimal(neg: bool, a: string, b: string)
    requires AllDigits(a) && AllDigits(b) && |a| + |b| > 0
    ensures ParseFloat(SignText(neg) + (a + "." + b)) == Some(Signed(neg, DecimalValue(a, b)))
  {
    DecimalEnds(a, b);
    UnsignedDecimal(a, b);
    ParseFloatSigned(neg, a + "." + b, DecimalValue(a, b));
  }

  /** A signed run of digits, read by `float`, is its integer value. */
  lemma ParseFloatInteger(neg: bool, s: string)
    requires IsDigits(s)
    ensures ParseFloat(SignText(neg) + s) == Some(Signed(neg, DigitsValue(s) as real))
  {
    var m := DigitsValue(s) as real;
    assert IsDigit(s[0]) && IsDigit(s[|s| - 1]);
    UnsignedInteger(s);
    ParseFloatSigned(neg, s, m);
  }

  /** Python's `int(x)` for a float: truncation toward zero. */
  function Trunc(x: real): (r: int)
    ensures x >= 0.0 ==> 0.0 <= x - r as real < 1.0
    ensures x < 0.0 ==> 0.0 <= r as real - x < 1.0
  {
    if x >= 0.0 then x.Floor else -((-x).Floor)
  }

  function Abs(x: real): real
  {
    if x < 0.0 then -x else x
  }

  /** Rounding to the nearest integer, ties to the even neighbour. */
  function RoundHalfEven(y: real): (k: nat)
    requires y >= 0.0
    ensures -0.5 <= k as real - y <= 0.5
    ensures (k as real - y == 0.5 || y - k as real == 0.5) ==> k % 2 == 0
  {
    var f := y.Floor;
    var frac := y - f as real;
    if frac > 0.5 || (frac == 0.5 && f % 2 == 1) then f + 1 else f
  }

  /** `s` with zeros added in front until it is at least `width` long. */
  function PadZeros(s: string, width: nat): (r: string)
    requires AllDigits(s)
    ensures |r| >= width && |r| >= |s| && AllDigits(r) && DigitsValue(r) == DigitsValue(s)
    decreases width - |s|
  {
    if |s| >= width then s
    else
      LeadingZero(s);
      PadZeros("0" + s, width)
  }

  /** `digits` with a point put before the last `places` of them, or
      unchanged when `places` is zero. */
  function Pointed(digits: string, places: nat): string
    requires |digits| >= places
  {
    var n := |digits| - places;
    if places == 0 then digits else digits[..n] + "." + digits[n..]
  }

  /** `k` scaled down by 10^places, written with exactly `places` decimals. */
  function FixedDigits(k: nat, places: nat): string
  {
    Pointed(PadZeros(NatToString(k), places + 1), places)
  }

  /** |x| · 10^places, rounded half to even. */
  function Rounded(x: real, places: nat): (k: nat)
    ensures -0.5 <= k as real - Abs(x) * Pow10(places) as real <= 0.5
  {
    RoundHalfEven(Abs(x) * Pow10(places) as real)
  }

  /** Python's `'{:.Nf}'.format(x)` with N = `places`, rounding the exact
      value of `x` half to even. */
  function FormatFixed(x: real, places: nat): string
  {
    SignText(x < 0.0) + FixedDigits(Rounded(x, places), places)
  }

  /** Digits with a point put before the last `places` of them. */
  lemma PointedShape(digits: string, places: nat)
    requires AllDigits(digits) && 0 < places < |digits|
    ensures var n := |digits| - places;
      var t := digits[..n] + "." + digits[n..];
      var p := |t| - places - 1;
      |t| >= places + 2 && t[p] == '.' && AllDigits(t[..p]) && AllDigits(t[p + 1..])
      && DigitsValue(t[..p] + t[p + 1..]) == DigitsValue(digits)
  {
    var n := |digits| - places;
    var t := digits[..n] + "." + digits[n..];
    PointSplit(digits, n);
    AllDigitsSlices(digits, n);
    assert |t| - places - 1 == n;
    assert t[..n] + t[n + 1..] == digits;
  }

  lemma AllDigitsSlices(s: string, n: nat)
    requires AllDigits(s) && n <= |s|
    ensures AllDigits(s[..n]) && AllDigits(s[n..])
  {
    assert forall i :: 0 <= i < n ==> s[..n][i] == s[i];
    assert forall i :: 0 <= i < |s| - n ==> s[n..][i] == s[n + i];
  }

  lemma PointSplit(digits: string, n: nat)
    requires AllDigits(digits) && 0 < n < |digits|
    ensures var t := digits[..n] + "." + digits[n..];
      t[n] == '.' && t[..n] == digits[..n] && t[n + 1..] == digits[n..]
      && t[..n] + t[n + 1..] == digits
  {
    var t := digits[..n] + "." + digits[n..];
    assert t[..n] == digits[..n];
    assert t[n + 1..] == digits[n..];
  }

  /** Digits, and, when `places` > 0, a point followed by exactly `places`
      digits; all the digits read as one integer. */
  function ReadUnsigned(u: string, places: nat): Option<nat>
  {
    if places == 0 then
      if IsDigits(u) then Some(DigitsValue(u)) else None
    else if |u| < places + 2 then None
    else
      var p := |u| - places - 1;
      if u[p] == '.' && AllDigits(u[..p]) && AllDigits(u[p + 1..])
      then Some(DigitsValue(u[..p] + u[p + 1..]))
      else None
  }

  /** Reads text of the form FormatFixed writes: an optional minus before
      what ReadUnsigned accepts. Yields the sign and the integer. */
  function ReadFixed(t: string, places: nat): Option<(bool, nat)>
  {
    var neg := |t| > 0 && t[0] == '-';
    match ReadUnsigned(if neg then t[1..] else t, places)
    case None => None
    case Some(k) => Some((neg, k))
  }

  /** ReadUnsigned reads back what FixedDigits writes. */
  lemma ReadUnsignedDigits(k: nat, places: nat)
    ensures ReadUnsigned(FixedDigits(k, places), places) == Some(k)
    ensures FixedDigits(k, places) != [] && IsDigit(FixedDigits(k, places)[0])
  {
    NatToStringValue(k);
    PointedRead(PadZeros(NatToString(k), places + 1), places);
  }

  /** ReadUnsigned reads back the value of the digits Pointed punctuates. */
  lemma PointedRead(digits: string, places: nat)
    requires AllDigits(digits) && |digits| > places
    ensures var t := Pointed(digits, places);
      ReadUnsigned(t, places) == Some(DigitsValue(digits)) && t != [] && IsDigit(t[0])
  {
    if places == 0 {
      assert Pointed(digits, places) == digits;
    } else {
      var n := |digits| - places;
      assert Pointed(digits, places) == digits[..n] + "." + digits[n..];
      PointedReadFraction(digits, places);
    }
  }

  lemma PointedReadFraction(digits: string, places: nat)
    requires AllDigits(digits) && 0 < places < |digits|
    ensures var n := |digits| - places;
      var t := digits[..n] + "." + digits[n..];
      ReadUnsigned(t, places) == Some(DigitsValue(digits)) && IsDigit(t[0])
  {
    var n := |digits| - places;
    var t := digits[..n] + "." + digits[n..];
    PointedShape(digits, places);
    assert t[0] == digits[0];
  }

  lemma ReadFixedSign(neg: bool, d: string, places: nat)
    requires d != [] && IsDigit(d[0])
    ensures ReadFixed(SignText(neg) + d, places)
      == match ReadUnsigned(d, places) case None => None case Some(k) => Some((neg, k))
  {
    var t := SignText(neg) + d;
    if neg { assert t[0] == '-' && t[1..] == d; } else { assert t == d; }
  }

  lemma ReadFixedDigits(neg: bool, k: nat, places: nat)
    ensures ReadFixed(SignText(neg) + FixedDigits(k, places), places) == Some((neg, k))
  {
    ReadUnsignedDigits(k, places);
    ReadFixedSign(neg, FixedDigits(k, places), places);
  }

  /** ReadFixed recovers from FormatFixed's text the sign of `x` and |x|
      scaled by 10^places and rounded; by Rounded's contract that integer is
      within one half of |x| * 10^places. */
  lemma {:induction false} FormatFixedRead(x: real, places: nat)
    ensures ReadFixed(FormatFixed(x, places), places) == Some((x < 0.0, Rounded(x, places)))
  {
    ReadFixedDigits(x < 0.0, Rounded(x, places), places);
  }
}
