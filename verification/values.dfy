/**
 Small value types shared by the three pages: optional values, form fields that
 may be left blank, and the JavaScript coercions the pages rely on.
 */
module Values {

  /** A value that may be missing (`null` or `undefined` on the JavaScript side). */
  datatype Option<T> = None | Some(value: T) {

    /** JavaScript's `x || fallback` for a value whose present form is never falsy. */
    function GetOr(fallback: T): (r: T)
      ensures Some? ==> r == value
      ensures None? ==> r == fallback
    {
      match this
      case Some(v) => v
      case None => fallback
    }
  }

  /** A form text box: either left empty (`''`) or holding a value. */
  datatype Field<T> = Blank | Filled(value: T)

  /**
   JavaScript's `s || undefined` on a string form field: the empty string is
   dropped from the payload, any other string is sent unchanged.
   */
  function NonEmpty(s: string): (r: Option<string>)
    ensures r.None? <==> s == ""
    ensures r.Some? ==> r.value == s
  {
    if s == "" then None else Some(s)
  }

  /**
   `parseInt` applied to the numeral a number box holds: the integer part,
   truncated toward zero.
   */
  function Trunc(q: real): (n: int)
    ensures 0.0 <= q ==> 0 <= n && n as real <= q < n as real + 1.0
    ensures q < 0.0 ==> n <= 0 && n as real - 1.0 < q <= n as real
  {
    if q >= 0.0 then q.Floor else -((-q).Floor)
  }

  /**
   `min` on a date input: `a` is the date `b` or a later one. Date inputs hold
   `YYYY-MM-DD`, whose character-by-character order is the calendar order.
   */
  predicate DateNotBefore(a: string, b: string) {
    if |b| == 0 then true
    else if |a| == 0 then false
    else if a[0] != b[0] then a[0] > b[0]
    else DateNotBefore(a[1..], b[1..])
  }

  /** Every date is not before itself, so a due date may fall on the issue date. */
  lemma {:induction false} DateNotBeforeItself(a: string)
    ensures DateNotBefore(a, a)
  {
    if |a| > 0 {
      DateNotBeforeItself(a[1..]);
    }
  }

  /**
   The range constraints of a line editor's number boxes, which the browser
   checks on submit: the quantity a whole number from 1 (`min="1"` and the
   default step of 1), the price from 0, and the tax rate from 0 to 100
   percent (10000 hundredths). An empty price or rate box passes.
   */
  predicate EditorInRange(quantity: real, unitPrice: Field<int>, taxRate: Field<int>) {
    && 1.0 <= quantity && quantity == quantity.Floor as real
    && (unitPrice.Filled? ==> 0 <= unitPrice.value)
    && (taxRate.Filled? ==> 0 <= taxRate.value <= 10000)
  }
}
