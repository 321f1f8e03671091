/**
 How a document's sequence number is shown: a type prefix (`SO-` for sales
 orders, `INV-` for invoices) followed by the number's decimal digits,
 left-padded with '0' to at least five characters.
 */
module Numbering {
  import opened Numerals

  const OrderPrefix: string := "SO-"
  const InvoicePrefix: string := "INV-"
  const Width: nat := 5

  /** `s.padStart(width, c)`: copies of `c` in front of `s` until it is `width` long. */
  function PadStart(s: string, width: nat, c: char): (r: string)
    ensures |r| == if |s| >= width then |s| else width
    ensures r[|r| - |s|..] == s
    ensures forall k :: 0 <= k < |r| - |s| ==> r[k] == c
  {
    if |s| >= width then s else seq(width - |s|, _ => c) + s
  }

  /** `prefix + number.toString().padStart(5, '0')` */
  function DisplayNumber(prefix: string, number: nat): (shown: string)
    ensures |shown| >= |prefix| + Width
    ensures shown[..|prefix|] == prefix
    ensures AllDigits(shown[|prefix|..]) && DigitsValue(shown[|prefix|..]) == number
  {
    var body := PadStart(DecimalString(number), Width, '0');
    PaddedValue(number);
    assert (prefix + body)[|prefix|..] == body;
    prefix + body
  }

  /** The padded numeral is all digits and still denotes the number. */
  lemma PaddedValue(number: nat)
    ensures AllDigits(PadStart(DecimalString(number), Width, '0'))
    ensures DigitsValue(PadStart(DecimalString(number), Width, '0')) == number
  {
    var numeral := DecimalString(number);
    var body := PadStart(numeral, Width, '0');
    var zeros := body[..|body| - |numeral|];
    assert body == zeros + numeral;
    LeadingZeros(zeros, numeral);
  }

  /** Padding stops at five characters, and numbers from 100000 on are not padded at all. */
  lemma PaddedLength(number: nat)
    ensures |PadStart(DecimalString(number), Width, '0')| == Width <==> number < 100000
    ensures number >= 100000 ==> PadStart(DecimalString(number), Width, '0') == DecimalString(number)
  {
    var numeral := DecimalString(number);
    assert Pow10(Width) == 100000;
    if |numeral| > Width {
      Pow10Monotone(Width, |numeral| - 1);
    } else {
      Pow10Monotone(|numeral|, Width);
    }
  }

  /**
   The displayed text is the prefix followed by at least five digits that
   denote the number; exactly five when the number is below 100000, and
   the plain numeral, unpadded, from 100000 on.
   */
  lemma DisplayNumberDigits(prefix: string, number: nat)
    ensures var shown := DisplayNumber(prefix, number);
      && shown[..|prefix|] == prefix
      && AllDigits(shown[|prefix|..])
      && DigitsValue(shown[|prefix|..]) == number
      && |shown[|prefix|..]| >= Width
      && (|shown[|prefix|..]| == Width <==> number < 100000)
      && (number >= 100000 ==> shown[|prefix|..] == DecimalString(number))
  {
    var body := PadStart(DecimalString(number), Width, '0');
    var shown := DisplayNumber(prefix, number);
    assert shown[..|prefix|] == prefix;
    assert shown[|prefix|..] == body;
    PaddedValue(number);
    PaddedLength(number);
  }

  lemma {:induction false} Pow10Monotone(a: nat, b: nat)
    requires a <= b
    ensures Pow10(a) <= Pow10(b)
    decreases b - a
  {
    if a < b {
      Pow10Monotone(a + 1, b);
    }
  }

  /** Different numbers are never shown alike under the same prefix. */
  lemma DisplayNumberInjective(prefix: string, a: nat, b: nat)
    requires DisplayNumber(prefix, a) == DisplayNumber(prefix, b)
    ensures a == b
  {
    DisplayNumberDigits(prefix, a);
    DisplayNumberDigits(prefix, b);
  }

  /** Sales orders and invoices never share a displayed number. */
  lemma PrefixesSeparateDocuments(a: nat, b: nat)
    ensures DisplayNumber(OrderPrefix, a) != DisplayNumber(InvoicePrefix, b)
  {
    assert DisplayNumber(OrderPrefix, a)[0..2] == "SO";
    assert DisplayNumber(InvoicePrefix, b)[0..2] == "IN";
  }
}
