/** The part of Go's `strconv` package that module sync relies on: rendering a
    64-bit integer in base 10 (`strconv.FormatInt(i, 10)`), together with its
    inverse, so that the id strings passed to the remote calls can be shown to
    denote exactly the ids they were built from. */
module Strconv {

  /** Go's `int64`. */
  newtype int64 = x: int | -0x8000_0000_0000_0000 <= x < 0x8000_0000_0000_0000

  datatype Option<T> = None | Some(value: T)

  predicate IsDigit(c: char) {
    '0' <= c <= '9'
  }

  predicate AllDigits(s: string) {
    forall i :: 0 <= i < |s| ==> IsDigit(s[i])
  }

  function DigitChar(d: nat): (c: char)
    requires d < 10
    ensures IsDigit(c) && DigitValue(c) == d
  {
    ('0' as int + d) as char
  }

  function DigitValue(c: char): (d: nat)
    requires IsDigit(c)
    ensures d < 10
  {
    c as int - '0' as int
  }

  /** The decimal digits of `n`, most significant first, without leading zeros. */
  function Digits(n: nat): (s: string)
    ensures 1 <= |s| && AllDigits(s)
    ensures s[0] == '0' <==> n == 0
    ensures |s| == 1 <==> n < 10
    decreases n
  {
    if n < 10 then [DigitChar(n)] else Digits(n / 10) + [DigitChar(n % 10)]
  }

  /** The value of a string of decimal digits (the empty string reads as 0). */
  function DigitsValue(s: string): nat
    requires AllDigits(s)
  {
    if s == [] then 0 else 10 * DigitsValue(s[..|s| - 1]) + DigitValue(s[|s| - 1])
  }

  /** `strconv.FormatInt(i, 10)`: a minus sign for negative values, then the
      digits of the magnitude. The digit shape is FormatIntIsCanonical, the
      value ParseFormatInt. */
  function FormatInt(i: int64): (s: string)
    ensures 1 <= |s|
    ensures s[0] == '-' <==> i < 0
  {
    if i < 0 then "-" + Digits(-(i as int)) else Digits(i as int)
  }

  /** What FormatInt renders is canonical decimal text: nonempty, a minus sign
      exactly for negative values, then digits with no leading zero except in "0". */
  lemma FormatIntIsCanonical(i: int64)
    ensures var s := FormatInt(i);
            1 <= |s|
            && (s[0] == '-' <==> i < 0)
            && (i < 0 ==> 2 <= |s| && AllDigits(s[1..]) && s[1] != '0')
            && (i >= 0 ==> AllDigits(s) && (s[0] == '0' <==> |s| == 1 && i == 0))
  {
  }

  /** A nonempty string of decimal digits, read as a number. Text without a
      leading zero (or "0" itself) is exactly what Digits renders for its value. */
  function ParseNat(s: string): (r: Option<nat>)
    ensures r.Some? ==> 1 <= |s| && (s[0] != '0' || |s| == 1 ==> Digits(r.value) == s)
  {
    if 1 <= |s| && AllDigits(s) then
      DigitsOfDigitsValue(s);
      Some(DigitsValue(s))
    else None
  }

  /** Base-10 parsing in the manner of `strconv.ParseInt(s, 10, 64)`, without
      its range check and without its optional leading '+': an optional minus
      sign followed by at least one digit. */
  function ParseInt(s: string): Option<int> {
    if 1 <= |s| && s[0] == '-' then
      match ParseNat(s[1..])
      case Some(n) => Some(-(n as int))
      case None => None
    else
      match ParseNat(s)
      case Some(n) => Some(n as int)
      case None => None
  }

  lemma {:induction false} DigitsValueOfDigits(n: nat)
    ensures DigitsValue(Digits(n)) == n
    decreases n
  {
    if n >= 10 {
      var s := Digits(n);
      assert s[..|s| - 1] == Digits(n / 10);
      DigitsValueOfDigits(n / 10);
    }
  }

  /** Canonical digit text is what Digits renders for its value. */
  lemma {:induction false} DigitsOfDigitsValue(s: string)
    requires 1 <= |s| && AllDigits(s)
    ensures s[0] != '0' || |s| == 1 ==> Digits(DigitsValue(s)) == s
    decreases |s|
  {
    if s[0] == '0' && |s| > 1 {
      return;
    }
    var d := DigitValue(s[|s| - 1]);
    var p := s[..|s| - 1];
    if |s| == 1 {
      assert DigitsValue(p) == 0;
      assert DigitChar(d) == s[0];
    } else {
      DigitsOfDigitsValue(p);
      var v := DigitsValue(p);
      assert v != 0 by { assert Digits(v)[0] == p[0] == s[0]; }
      assert (10 * v + d) / 10 == v && (10 * v + d) % 10 == d;
      assert DigitChar(d) == s[|s| - 1];
      assert s == p + [s[|s| - 1]];
    }
  }

  /** Parsing what FormatInt rendered gives back the number. */
  lemma ParseFormatInt(i: int64)
    ensures ParseInt(FormatInt(i)) == Some(i as int)
  {
    var s := FormatInt(i);
    if i < 0 {
      var m := -(i as int);
      assert s[1..] == Digits(m);
      DigitsValueOfDigits(m);
      assert ParseNat(s[1..]) == Some(m);
    } else {
      DigitsValueOfDigits(i as int);
      assert ParseNat(s) == Some(i as int);
    }
  }

  /** Distinct ids are rendered as distinct strings. */
  lemma FormatIntInjective(a: int64, b: int64)
    requires FormatInt(a) == FormatInt(b)
    ensures a == b
  {
    ParseFormatInt(a);
    ParseFormatInt(b);
  }

  lemma FormatIntExamples()
    ensures FormatInt(0) == "0"
    ensures FormatInt(10) == "10"
    ensures FormatInt(-42) == "-42"
  {
  }
}
