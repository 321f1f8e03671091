/**
 Decimal numerals as the pages produce and read them: `Number.prototype.toString`
 on integers, and `parseInt` with no radix on the text of a form field.
 */
module Numerals {
  import opened Values

  predicate IsDigit(c: char) {
    '0' <= c <= '9'
  }

  predicate AllDigits(s: string) {
    forall k :: 0 <= k < |s| ==> IsDigit(s[k])
  }

  /** The white space `parseInt` skips before the numeral (the ASCII part of it). */
  predicate IsSpace(c: char) {
    c == ' ' || c == '\t' || c == '\n' || c == '\r' || c as int == 11 || c as int == 12
  }

  function DigitValue(c: char): nat
    requires IsDigit(c)
  {
    c as int - '0' as int
  }

  function DigitChar(d: nat): (c: char)
    requires d < 10
    ensures IsDigit(c) && DigitValue(c) == d
  {
    (d + '0' as int) as char
  }

  function Pow10(k: nat): (p: nat)
    ensures p >= 1
  {
    if k == 0 then 1 else 10 * Pow10(k - 1)
  }

  /** The number a string of digits denotes, most significant digit first. */
  function DigitsValue(s: string): nat
    requires AllDigits(s)
    decreases |s|
  {
    if |s| == 0 then 0 else DigitsValue(s[..|s| - 1]) * 10 + DigitValue(s[|s| - 1])
  }

  /** Appending a digit shifts the value one place and adds the digit. */
  lemma DigitsValueSnoc(s: string, c: char)
    requires AllDigits(s) && IsDigit(c)
    ensures AllDigits(s + [c])
    ensures DigitsValue(s + [c]) == DigitsValue(s) * 10 + DigitValue(c)
  {
    assert (s + [c])[..|s|] == s;
  }

  /** A numeral of `k` digits denotes less than 10^k. */
  lemma {:induction false} DigitsValueBound(s: string)
    requires AllDigits(s)
    ensures DigitsValue(s) < Pow10(|s|)
    decreases |s|
  {
    if |s| > 0 {
      DigitsValueBound(s[..|s| - 1]);
    }
  }

  /** Leading zeros do not change the value of a numeral. */
  lemma {:induction false} LeadingZeros(z: string, s: string)
    requires forall k :: 0 <= k < |z| ==> z[k] == '0'
    requires AllDigits(s)
    ensures AllDigits(z + s)
    ensures DigitsValue(z + s) == DigitsValue(s)
    decreases |s|
  {
    if |s| == 0 {
      assert z + s == z;
      AllZeros(z);
    } else {
      var init := s[..|s| - 1];
      assert z + s == (z + init) + [s[|s| - 1]];
      LeadingZeros(z, init);
      DigitsValueSnoc(z + init, s[|s| - 1]);
    }
  }

  lemma {:induction false} AllZeros(z: string)
    requires forall k :: 0 <= k < |z| ==> z[k] == '0'
    ensures AllDigits(z) && DigitsValue(z) == 0
    decreases |z|
  {
    if |z| > 0 {
      AllZeros(z[..|z| - 1]);
    }
  }

  /**
   `n.toString()` for a non-negative integer: the shortest decimal numeral of
   `n`. It has no leading zero, and its length is the number of decimal digits
   of `n`.
   */
  function DecimalString(n: nat): (s: string)
    ensures |s| >= 1 && AllDigits(s)
    ensures DigitsValue(s) == n
    ensures n < Pow10(|s|)
    ensures |s| == 1 || (s[0] != '0' && Pow10(|s| - 1) <= n)
    decreases n
  {
    if n < 10 then
      [DigitChar(n)]
    else
      var head := DecimalString(n / 10);
      var c := DigitChar(n % 10);
      DigitsValueSnoc(head, c);
      assert |head| == 1 ==> head[0] != '0' && Pow10(0) <= n / 10;
      head + [c]
  }

  /** `n.toString()` for any integer: a minus sign before the digits of a negative number. */
  function IntToString(n: int): (s: string)
    ensures |s| >= 1
    ensures n >= 0 ==> s == DecimalString(n)
    ensures n < 0 ==> s[0] == '-' && s[1..] == DecimalString(-n)
  {
    if n < 0 then "-" + DecimalString(-n) else DecimalString(n)
  }

  /** The text after any leading white space. */
  function SkipSpace(s: string): (r: string)
    ensures |r| <= |s| && r == s[|s| - |r|..]
    ensures forall k :: 0 <= k < |s| - |r| ==> IsSpace(s[k])
    ensures |r| == 0 || !IsSpace(r[0])
    decreases |s|
  {
    if |s| > 0 && IsSpace(s[0]) then SkipSpace(s[1..]) else s
  }

  /** The longest run of digits at the start of `s`. */
  function DigitPrefix(s: string): (r: string)
    ensures |r| <= |s| && r == s[..|r|]
    ensures AllDigits(r)
    ensures |r| == |s| || !IsDigit(s[|r|])
    decreases |s|
  {
    if |s| > 0 && IsDigit(s[0]) then [s[0]] + DigitPrefix(s[1..]) else []
  }

  /**
   `parseInt(s)`: white space is skipped, one sign is read, then the longest
   run of digits. No digit there gives `NaN`, modelled as `None`; whatever
   follows the digits (a decimal point, letters) is ignored.
   */
  function ParseInt(s: string): (r: Option<int>)
    ensures r.None? <==> |Unsigned(SkipSpace(s))| == 0 || !IsDigit(Unsigned(SkipSpace(s))[0])
    ensures r.Some? ==>
      r.value == (if SkipSpace(s)[0] == '-' then -(DigitsValue(DigitPrefix(Unsigned(SkipSpace(s)))) as int)
                  else DigitsValue(DigitPrefix(Unsigned(SkipSpace(s)))))
  {
    var t := SkipSpace(s);
    ReadSignedMeaning(t);
    ReadSigned(t)
  }

  /** The text after one leading sign, if there is one. */
  function Unsigned(t: string): string {
    if |t| > 0 && (t[0] == '-' || t[0] == '+') then t[1..] else t
  }

  /** An optional sign and a run of digits, read back in terms of the text. */
  lemma ReadSignedMeaning(t: string)
    ensures ReadSigned(t).None? <==> |Unsigned(t)| == 0 || !IsDigit(Unsigned(t)[0])
    ensures ReadSigned(t).Some? ==> |t| > 0
    ensures ReadSigned(t).Some? ==>
      ReadSigned(t).value == (if t[0] == '-' then -(DigitsValue(DigitPrefix(Unsigned(t))) as int)
                              else DigitsValue(DigitPrefix(Unsigned(t))))
  {
    var u := Unsigned(t);
    ReadDigitsMeaning(u);
  }

  lemma ReadDigitsMeaning(u: string)
    ensures ReadDigits(u).None? <==> |u| == 0 || !IsDigit(u[0])
    ensures ReadDigits(u).Some? ==> ReadDigits(u).value == DigitsValue(DigitPrefix(u))
  {
    if |u| > 0 && IsDigit(u[0]) {
      assert |DigitPrefix(u)| > 0;
    }
  }

  /** An optional sign and then a run of digits. */
  function ReadSigned(t: string): Option<int> {
    if |t| > 0 && t[0] == '-' then
      match ReadDigits(t[1..])
      case None => None
      case Some(v) => Some(-(v as int))
    else if |t| > 0 && t[0] == '+' then
      ReadDigits(t[1..])
    else
      ReadDigits(t)
  }

  /** The value of the digits at the start of `u`, if it starts with one. */
  function ReadDigits(u: string): Option<int> {
    var digits := DigitPrefix(u);
    if |digits| == 0 then None else Some(DigitsValue(digits))
  }

  /** A run of digits followed by a non-digit (or nothing) is the digit prefix. */
  lemma DigitPrefixStops(a: string, b: string)
    requires AllDigits(a)
    requires |b| == 0 || !IsDigit(b[0])
    ensures DigitPrefix(a + b) == a
  {
    var r := DigitPrefix(a + b);
    assert (a + b)[..|a|] == a;
  }

  /** Text that does not start with white space is read as it stands. */
  lemma ParseIntNoSpace(t: string)
    requires |t| > 0 && !IsSpace(t[0])
    ensures ParseInt(t) == ReadSigned(t)
  {
    assert SkipSpace(t) == t;
  }

  /** A minus sign negates what the digits after it read as. */
  lemma ReadSignedMinus(t: string, d: int)
    requires |t| > 0 && t[0] == '-' && ReadDigits(t[1..]) == Some(d)
    ensures ReadSigned(t) == Some(-d)
  {
  }

  /** A run of digits, followed by a non-digit or nothing, reads as its value. */
  lemma ReadDigitsStops(digits: string, rest: string, u: string)
    requires AllDigits(digits) && |digits| > 0
    requires |rest| == 0 || !IsDigit(rest[0])
    requires u == digits + rest
    ensures ReadDigits(u) == Some(DigitsValue(digits))
  {
    DigitPrefixStops(digits, rest);
  }

  /** Text starting with a digit carries no sign. */
  lemma ReadSignedDigit(t: string)
    requires |t| > 0 && IsDigit(t[0])
    ensures ReadSigned(t) == ReadDigits(t)
  {
  }

  /**
   `parseInt` reads back what `toString` wrote, also when the numeral is
   followed by text that does not start with a digit ("3.5" reads as 3).
   */
  lemma ParseIntOfNumeral(n: int, rest: string)
    requires |rest| == 0 || !IsDigit(rest[0])
    ensures ParseInt(IntToString(n) + rest) == Some(n)
  {
    var numeral := IntToString(n);
    var t := numeral + rest;
    if n < 0 {
      SignedNumeral(numeral, DecimalString(-n), rest, t);
      ParseIntSigned(DecimalString(-n), rest, t);
    } else {
      ParseIntUnsigned(DecimalString(n), rest, t);
    }
  }

  /** A minus sign, then digits, then the rest: the sign comes off the front of the whole text. */
  lemma SignedNumeral(numeral: string, digits: string, rest: string, t: string)
    requires |numeral| > 0 && numeral[0] == '-' && numeral[1..] == digits
    requires t == numeral + rest
    ensures |t| > 0 && t[0] == '-' && t[1..] == digits + rest
  {
    assert t[1..] == numeral[1..] + rest;
  }

  lemma ParseIntUnsigned(digits: string, rest: string, t: string)
    requires AllDigits(digits) && |digits| > 0
    requires |rest| == 0 || !IsDigit(rest[0])
    requires t == digits + rest
    ensures ParseInt(t) == Some(DigitsValue(digits))
  {
    assert t[0] == digits[0];
    ParseIntNoSpace(t);
    ReadSignedDigit(t);
    ReadDigitsStops(digits, rest, t);
  }

  lemma ParseIntSigned(digits: string, rest: string, t: string)
    requires AllDigits(digits) && |digits| > 0
    requires |rest| == 0 || !IsDigit(rest[0])
    requires |t| > 0 && t[0] == '-' && t[1..] == digits + rest
    ensures ParseInt(t) == Some(-(DigitsValue(digits) as int))
  {
    ReadSignedNumeral(digits, rest, t);
    ParseIntNoSpace(t);
  }

  lemma ReadSignedNumeral(digits: string, rest: string, t: string)
    requires AllDigits(digits) && |digits| > 0
    requires |rest| == 0 || !IsDigit(rest[0])
    requires |t| > 0 && t[0] == '-' && t[1..] == digits + rest
    ensures ReadSigned(t) == Some(-(DigitsValue(digits) as int))
  {
    ReadDigitsStops(digits, rest, t[1..]);
    ReadSignedMinus(t, DigitsValue(digits));
  }

  /** Text without any digit is not a number: `parseInt` gives `NaN`. */
  lemma ParseIntNoDigits(s: string)
    requires forall k :: 0 <= k < |s| ==> !IsDigit(s[k])
    ensures ParseInt(s) == None
  {
  }
}
