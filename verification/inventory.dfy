/**
 The inventory page's item form: how an edit prefills it from a catalog item,
 how a submit normalises it into a create or update request, and how it is
 cleared.
 */
module Inventory {
  import opened Values
  import opened Numerals
  import opened Catalog

  /**
   The item form. Price and tax rate are number boxes that are empty or hold
   a value (the price in paise); the quantity box is kept as its text.
   */
  datatype ItemForm = ItemForm(
    name: string,
    description: string,
    unitPrice: Field<int>,
    taxRate: Field<int>,
    quantity: string,
    hsnOrSacCode: string)

  /** The form and the catalog item being edited, if any. */
  datatype Page = Page(form: ItemForm, editing: Option<InventoryItem>)

  /**
   The request body. A price box left empty is sent as `null` (`None`); an
   empty code is left out (`None`).
   */
  datatype ItemPayload = ItemPayload(
    name: string,
    description: string,
    unitPrice: Option<int>,
    taxRate: int,
    quantity: int,
    hsnOrSacCode: Option<string>)

  datatype Mutation = Create(data: ItemPayload) | Update(id: string, data: ItemPayload)

  /** `resetForm`: every field empty, and nothing being edited. */
  function ResetForm(): (p: Page)
    ensures p.editing.None?
    ensures p.form.name == "" && p.form.description == "" && p.form.quantity == "" && p.form.hsnOrSacCode == ""
    ensures p.form.unitPrice.Blank? && p.form.taxRate.Blank?
  {
    Page(ItemForm("", "", Blank, Blank, "", ""), None)
  }

  /** `parseInt(quantity) || 0`: text that does not start with an integer counts as 0. */
  function QuantityOf(text: string): (n: int)
    ensures ParseInt(text).None? ==> n == 0
    ensures ParseInt(text).Some? ==> n == ParseInt(text).value
  {
    ParseInt(text).GetOr(0)
  }

  /**
   The payload a submit builds from the form: name and description as typed,
   an empty rate as 0, the quantity as parsed (0 when it does not parse), and
   the code only when it is not empty.
   */
  function Normalise(form: ItemForm): (p: ItemPayload)
    ensures p.name == form.name && p.description == form.description
    ensures p.unitPrice.None? <==> form.unitPrice.Blank?
    ensures form.unitPrice.Filled? ==> p.unitPrice == Some(form.unitPrice.value)
    ensures form.taxRate.Blank? ==> p.taxRate == 0
    ensures form.taxRate.Filled? ==> p.taxRate == form.taxRate.value
    ensures p.quantity == QuantityOf(form.quantity)
    ensures p.hsnOrSacCode.None? <==> form.hsnOrSacCode == ""
    ensures p.hsnOrSacCode.Some? ==> p.hsnOrSacCode.value == form.hsnOrSacCode
  {
    ItemPayload(
      form.name,
      form.description,
      match form.unitPrice
        case Blank => None
        case Filled(price) => Some(price),
      match form.taxRate
        case Blank => 0
        case Filled(rate) => rate,
      QuantityOf(form.quantity),
      NonEmpty(form.hsnOrSacCode))
  }

  /** A quantity box that is empty, or holds no digit at all, submits 0. */
  lemma NoDigitsSubmitZero(text: string)
    requires forall k :: 0 <= k < |text| ==> !IsDigit(text[k])
    ensures QuantityOf(text) == 0
  {
    ParseIntNoDigits(text);
  }

  /** `handleSubmit`: an update of the edited item when one is being edited, otherwise a create. */
  function Submit(page: Page): (m: Mutation)
    ensures m.Update? <==> page.editing.Some?
    ensures m.Update? ==> m.id == page.editing.value.id
    ensures m.data == Normalise(page.form)
  {
    match page.editing
    case Some(item) => Update(item.id, Normalise(page.form))
    case None => Create(Normalise(page.form))
  }

  /**
   The constraints the browser checks before it lets the form submit: a
   name, a price from 0, a rate from 0 to 100 percent when one is given,
   and a quantity box that is empty or holds a whole number from 0.
   */
  predicate FormValid(form: ItemForm) {
    && form.name != ""
    && form.unitPrice.Filled? && 0 <= form.unitPrice.value
    && (form.taxRate.Filled? ==> 0 <= form.taxRate.value <= 10000)
    && (form.quantity == "" || (IsDigit(form.quantity[0]) && AllDigits(form.quantity)))
  }

  /**
   Pressing the save button: the browser stops a form that breaks its
   constraints, and otherwise `handleSubmit` runs. What is sent then always
   has a name, a price and no negative quantity.
   */
  function Press(page: Page): (r: Option<Mutation>)
    ensures r.None? <==> !FormValid(page.form)
    ensures r.Some? ==> r.value == Submit(page)
    ensures r.Some? ==>
      && r.value.data.name != ""
      && r.value.data.unitPrice.Some? && r.value.data.unitPrice.value >= 0
      && 0 <= r.value.data.taxRate <= 10000
      && r.value.data.quantity >= 0
  {
    if FormValid(page.form) then
      WholeQuantityNotNegative(page.form.quantity);
      Some(Submit(page))
    else None
  }

  /** A quantity box the browser accepts never submits a negative quantity. */
  lemma WholeQuantityNotNegative(q: string)
    requires q == "" || (IsDigit(q[0]) && AllDigits(q))
    ensures QuantityOf(q) >= 0
  {
    if q != "" {
      assert SkipSpace(q) == q;
    }
  }

  /**
   `handleEdit`: the form shows the item's values; a missing description or
   code shows as `''`, a missing rate as an empty box, and a missing quantity
   as `'0'`. A present quantity is shown as a numeral that reads back as it.
   */
  function Edit(item: InventoryItem): (p: Page)
    ensures p.editing == Some(item)
    ensures p.form.name == item.name
    ensures p.form.description == item.description.GetOr("")
    ensures p.form.unitPrice == Filled(item.unitPrice)
    ensures p.form.taxRate.Blank? <==> item.taxRate.None?
    ensures p.form.taxRate.Filled? ==> p.form.taxRate.value == item.taxRate.value
    ensures item.quantity.None? ==> p.form.quantity == "0"
    ensures item.quantity.Some? ==> ParseInt(p.form.quantity) == item.quantity
    ensures p.form.hsnOrSacCode == CatalogCode(item)
  {
    var n := item.quantity.GetOr(0);
    NumeralReadsBack(n);
    var quantity := if item.quantity.Some? then IntToString(n) else "0";
    Page(
      ItemForm(item.name, item.description.GetOr(""), PrefillPrice(item), PrefillTaxRate(item), quantity, CatalogCode(item)),
      Some(item))
  }

  /** A numeral on its own reads back as its number. */
  lemma NumeralReadsBack(n: int)
    ensures ParseInt(IntToString(n)) == Some(n)
  {
    ParseIntOfNumeral(n, "");
    assert IntToString(n) + "" == IntToString(n);
  }

  /**
   Saving an edit without changing anything updates the same item with its
   own values, except that a missing rate or quantity is written as 0 and an
   empty code stays left out.
   */
  lemma EditThenSubmitWritesBack(item: InventoryItem)
    ensures var m := Submit(Edit(item));
      && m == Update(item.id, m.data)
      && m.data.name == item.name
      && m.data.description == item.description.GetOr("")
      && m.data.unitPrice == Some(item.unitPrice)
      && m.data.taxRate == item.taxRate.GetOr(0)
      && m.data.quantity == item.quantity.GetOr(0)
      && (m.data.hsnOrSacCode.None? <==> item.hsnOrSacCode.None? || item.hsnOrSacCode.value == "")
      && (m.data.hsnOrSacCode.Some? ==> item.hsnOrSacCode == m.data.hsnOrSacCode)
  {
    if item.quantity.None? {
      assert Edit(item).form.quantity == "0" == IntToString(0);
      NumeralReadsBack(0);
    }
  }

  /**
   On a just-cleared form `handleSubmit` would build a create request with no
   name, no price, rate 0, quantity 0 and no code; the browser stops the
   submit before that, since name and price are required.
   */
  lemma ResetThenSubmitCreatesDefaults()
    ensures Submit(ResetForm()) == Create(ItemPayload("", "", None, 0, 0, None))
    ensures Press(ResetForm()).None?
  {
    NoDigitsSubmitZero("");
  }
}
