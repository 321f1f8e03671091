/**
 Document totals. Every line contributes an amount in paise and a tax rate in
 hundredths of a percent; the subtotal sums the amounts, the tax is worked out
 line by line and then summed, and the total adds the two. Nothing is rounded:
 the pages compute tax in floating point and never round it, which exact
 rationals model without drift.
 */
module Totals {
  import Lists

  /** What one line contributes to its document. */
  datatype Charge = Charge(amount: int, taxRate: int)

  datatype DocumentTotals = DocumentTotals(subTotal: int, taxAmount: real, total: real)

  /** `amount * taxRate / 100` with the rate given in hundredths of a percent. */
  function LineTax(amount: int, taxRate: int): (t: real)
    ensures t * 10000.0 == (amount * taxRate) as real
  {
    (amount * taxRate) as real / 10000.0
  }

  /** `lines.reduce((sum, l) => sum + amount(l), 0)` */
  function SubTotal<T>(lines: seq<T>, charge: T -> Charge): (r: int)
    ensures |lines| == 0 ==> r == 0
    ensures (forall k :: 0 <= k < |lines| ==> charge(lines[k]).amount >= 0) ==> r >= 0
    decreases |lines|
  {
    if |lines| == 0 then 0
    else SubTotal(lines[..|lines| - 1], charge) + charge(lines[|lines| - 1]).amount
  }

  /** `lines.reduce((sum, l) => sum + amount(l) * taxRate(l) / 100, 0)`: tax per line, then summed. */
  function TaxAmount<T>(lines: seq<T>, charge: T -> Charge): (r: real)
    ensures |lines| == 0 ==> r == 0.0
    ensures (forall k :: 0 <= k < |lines| ==> charge(lines[k]).amount >= 0 && charge(lines[k]).taxRate >= 0) ==> r >= 0.0
    decreases |lines|
  {
    if |lines| == 0 then 0.0
    else
      var last := charge(lines[|lines| - 1]);
      TaxAmount(lines[..|lines| - 1], charge) + LineTax(last.amount, last.taxRate)
  }

  function Compute<T>(lines: seq<T>, charge: T -> Charge): (t: DocumentTotals)
    ensures t.total == t.subTotal as real + t.taxAmount
    ensures |lines| == 0 ==> t == DocumentTotals(0, 0.0, 0.0)
  {
    var sub := SubTotal(lines, charge);
    var tax := TaxAmount(lines, charge);
    DocumentTotals(sub, tax, sub as real + tax)
  }

  /** Totals of two runs of lines add up. */
  lemma {:induction false} ConcatAdds<T>(a: seq<T>, b: seq<T>, charge: T -> Charge)
    ensures SubTotal(a + b, charge) == SubTotal(a, charge) + SubTotal(b, charge)
    ensures TaxAmount(a + b, charge) == TaxAmount(a, charge) + TaxAmount(b, charge)
    decreases |b|
  {
    if |b| > 0 {
      var init := b[..|b| - 1];
      assert (a + b)[..|a + b| - 1] == a + init;
      assert (a + b)[|a + b| - 1] == b[|b| - 1];
      ConcatAdds(a, init, charge);
    } else {
      assert a + b == a;
    }
  }

  /** An appended line adds exactly its own amount and its own tax. */
  lemma AppendAdds<T>(lines: seq<T>, x: T, charge: T -> Charge)
    ensures var before, after := Compute(lines, charge), Compute(Lists.Append(lines, x), charge);
      && after.subTotal == before.subTotal + charge(x).amount
      && after.taxAmount == before.taxAmount + LineTax(charge(x).amount, charge(x).taxRate)
  {
    assert Lists.Append(lines, x)[..|lines|] == lines;
  }

  /** A removed line takes away exactly its own amount and its own tax. */
  lemma RemoveSubtracts<T>(lines: seq<T>, i: int, charge: T -> Charge)
    requires 0 <= i < |lines|
    ensures var before, after := Compute(lines, charge), Compute(Lists.RemoveAt(lines, i), charge);
      && after.subTotal == before.subTotal - charge(lines[i]).amount
      && after.taxAmount == before.taxAmount - LineTax(charge(lines[i]).amount, charge(lines[i]).taxRate)
  {
    SplitAround(lines, i, charge);
  }

  /** The totals of a list are those of the list without line `i`, plus line `i`'s own. */
  lemma SplitAround<T>(lines: seq<T>, i: int, charge: T -> Charge)
    requires 0 <= i < |lines|
    ensures var rest, x := lines[..i] + lines[i + 1..], charge(lines[i]);
      && SubTotal(lines, charge) == SubTotal(rest, charge) + x.amount
      && TaxAmount(lines, charge) == TaxAmount(rest, charge) + LineTax(x.amount, x.taxRate)
  {
    var a, x, b := lines[..i], lines[i], lines[i + 1..];
    assert lines == (a + [x]) + b;
    ConcatAdds(a + [x], b, charge);
    ConcatAdds(a, [x], charge);
    ConcatAdds(a, b, charge);
    SingleLine(x, charge);
  }

  /** A single line's totals are its own amount and its own tax. */
  lemma SingleLine<T>(x: T, charge: T -> Charge)
    ensures SubTotal([x], charge) == charge(x).amount
    ensures TaxAmount([x], charge) == LineTax(charge(x).amount, charge(x).taxRate)
  {
    assert [x][..0] == [];
  }

  /** The order of the lines does not matter: any rearrangement has the same totals. */
  lemma {:induction false} PermutationInvariant<T>(a: seq<T>, b: seq<T>, charge: T -> Charge)
    requires multiset(a) == multiset(b)
    ensures Compute(a, charge) == Compute(b, charge)
    decreases |a|
  {
    if |a| == 0 {
      assert |b| == |multiset(b)| == 0;
    } else {
      var j := MatchLast(a, b);
      var init, rest := a[..|a| - 1], b[..j] + b[j + 1..];
      PermutationInvariant(init, rest, charge);
      assert a == init + [a[|a| - 1]];
      RemoveSubtracts(b, j, charge);
    }
  }

  /**
   In two rearrangements of each other, the last element of one sits at some
   position of the other, and what remains on both sides is again a rearrangement.
   */
  lemma MatchLast<T>(a: seq<T>, b: seq<T>) returns (j: int)
    requires multiset(a) == multiset(b) && |a| > 0
    ensures 0 <= j < |b| && b[j] == a[|a| - 1]
    ensures multiset(a[..|a| - 1]) == multiset(b[..j] + b[j + 1..])
  {
    var x, init := a[|a| - 1], a[..|a| - 1];
    assert a == init + [x];
    j := IndexOf(b, x);
    RemovedMultiset(b, j);
    CancelOne(multiset(init), multiset(b[..j] + b[j + 1..]), x);
  }

  /** An element of a list's multiset sits at some position of the list. */
  lemma IndexOf<T>(b: seq<T>, x: T) returns (j: int)
    requires x in multiset(b)
    ensures 0 <= j < |b| && b[j] == x
  {
    j :| 0 <= j < |b| && b[j] == x;
  }

  /** Taking the same element out of two equal multisets leaves equal multisets. */
  lemma CancelOne<T>(m: multiset<T>, n: multiset<T>, x: T)
    requires m + multiset{x} == n + multiset{x}
    ensures m == n
  {
    forall y
      ensures m[y] == n[y]
    {
      assert (m + multiset{x})[y] == (n + multiset{x})[y];
    }
  }

  lemma RemovedMultiset<T>(b: seq<T>, j: int)
    requires 0 <= j < |b|
    ensures multiset(b[..j] + b[j + 1..]) + multiset{b[j]} == multiset(b)
  {
    assert b == b[..j] + [b[j]] + b[j + 1..];
  }

  /**
   Two lists whose lines contribute the same charges, position by position,
   have the same totals, whatever else their lines carry.
   */
  lemma {:induction false} SameChargesSameTotals<A, B>(a: seq<A>, fa: A -> Charge, b: seq<B>, fb: B -> Charge)
    requires |a| == |b|
    requires forall k :: 0 <= k < |a| ==> fa(a[k]) == fb(b[k])
    ensures Compute(a, fa) == Compute(b, fb)
    decreases |a|
  {
    if |a| > 0 {
      SameChargesSameTotals(a[..|a| - 1], fa, b[..|b| - 1], fb);
    }
  }

  /**
   With one tax rate on every line, summing the per-line taxes gives the tax
   of the subtotal.
   */
  lemma {:induction false} UniformRateTax<T>(lines: seq<T>, charge: T -> Charge, rate: int)
    requires forall k :: 0 <= k < |lines| ==> charge(lines[k]).taxRate == rate
    ensures TaxAmount(lines, charge) == LineTax(SubTotal(lines, charge), rate)
    decreases |lines|
  {
    if |lines| > 0 {
      var init := lines[..|lines| - 1];
      UniformRateTax(init, charge, rate);
      var a := SubTotal(init, charge);
      var b := charge(lines[|lines| - 1]).amount;
      assert (a + b) * rate == a * rate + b * rate;
    }
  }
}
