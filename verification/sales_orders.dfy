/**
 The sales-order page: drafting an order line by line, its running totals,
 what it submits, and which status actions it offers for listed orders.
 */
module SalesOrders {
  import opened Values
  import opened Catalog
  import Lists
  import Totals
  import Badges

  /** A drafted line. `amount` is stored with the line; `name` is for display only. */
  datatype OrderLine = OrderLine(
    inventoryItemId: string,
    quantity: int,
    unitPrice: int,
    taxRate: int,
    hsnOrSacCode: string,
    amount: int,
    name: string)

  /**
   The line editor. `quantity` is the number its box holds; price, tax rate
   and code are blank or hold what the user typed (a price in paise).
   */
  datatype LineEntry = LineEntry(
    inventoryItemId: string,
    quantity: real,
    unitPrice: Field<int>,
    taxRate: Field<int>,
    hsnOrSacCode: string)

  /** The editor as it starts, and as every successful add leaves it. */
  const BlankEntry: LineEntry := LineEntry("", 1.0, Blank, Blank, "")

  datatype OrderForm = OrderForm(
    customerId: string,
    notes: string,
    terms: string,
    placeOfSupply: string,
    items: seq<OrderLine>)

  /** The page's drafting state: the order form and the line editor. */
  datatype Draft = Draft(form: OrderForm, entry: LineEntry)

  /** The stored amount is the line's quantity times its unit price. */
  predicate AmountConsistent(l: OrderLine) {
    l.amount == l.quantity * l.unitPrice
  }

  /** Every drafted line keeps its stored amount consistent. */
  predicate Consistent(form: OrderForm) {
    forall k :: 0 <= k < |form.items| ==> AmountConsistent(form.items[k])
  }

  /**
   The line an add creates from the editor and the chosen catalog item. The
   amount is computed from the parsed quantity (see `AmountAsWritten` for the
   page's own formula).
   */
  function ResolveLine(entry: LineEntry, item: InventoryItem): (l: OrderLine)
    ensures l.inventoryItemId == entry.inventoryItemId && l.name == item.name
    ensures l.quantity == Trunc(entry.quantity)
    ensures entry.unitPrice.Filled? ==> l.unitPrice == entry.unitPrice.value
    ensures entry.unitPrice.Blank? ==> l.unitPrice == item.unitPrice
    ensures entry.taxRate.Filled? ==> l.taxRate == entry.taxRate.value
    ensures entry.taxRate.Blank? ==> l.taxRate == CatalogTaxRate(item)
    ensures entry.hsnOrSacCode != "" ==> l.hsnOrSacCode == entry.hsnOrSacCode
    ensures entry.hsnOrSacCode == "" ==> l.hsnOrSacCode == CatalogCode(item)
    ensures AmountConsistent(l)
  {
    var quantity := Trunc(entry.quantity);
    var unitPrice := ResolveUnitPrice(entry.unitPrice, item);
    OrderLine(
      entry.inventoryItemId,
      quantity,
      unitPrice,
      ResolveTaxRate(entry.taxRate, item),
      ResolveCode(entry.hsnOrSacCode, item),
      quantity * unitPrice,
      item.name)
  }

  /**
   The page computes the amount from the editor's raw quantity
   (`currentItem.quantity * unitPrice`), while the line stores
   `parseInt(currentItem.quantity)`.
   */
  function AmountAsWritten(entered: real, unitPrice: int): real {
    entered * unitPrice as real
  }

  /** A fractional quantity makes the page's amount disagree with the stored quantity. */
  lemma AmountAsWrittenCounterexample()
    ensures Trunc(2.5) == 2
    ensures AmountAsWritten(2.5, 10000) == 25000.0
    ensures (Trunc(2.5) * 10000) as real == 20000.0
  {
  }

  /**
   The page's amount agrees with quantity × unit price exactly when the
   entered quantity is whole or the price is zero.
   */
  lemma AmountAsWrittenAgreesIffWhole(entered: real, unitPrice: int)
    ensures AmountAsWritten(entered, unitPrice) == (Trunc(entered) * unitPrice) as real
        <==> (unitPrice == 0 || entered == Trunc(entered) as real)
  {
    var t := Trunc(entered) as real;
    var p := unitPrice as real;
    assert AmountAsWritten(entered, unitPrice) - (Trunc(entered) * unitPrice) as real == (entered - t) * p;
    if unitPrice != 0 && entered != t {
      assert (entered - t) * p != 0.0;
    }
  }

  /**
   `handleAddItem`: with no item chosen, or an id the catalog does not list,
   nothing changes; otherwise exactly one line is appended after the existing
   ones, the rest of the form is untouched, and the editor is cleared.
   */
  function AddItem(d: Draft, inventory: seq<InventoryItem>): (r: Draft)
    ensures Selected(inventory, d.entry.inventoryItemId).None? ==> r == d
    ensures Selected(inventory, d.entry.inventoryItemId).Some? ==>
      var item := Selected(inventory, d.entry.inventoryItemId).value;
      && |r.form.items| == |d.form.items| + 1
      && (forall k :: 0 <= k < |d.form.items| ==> r.form.items[k] == d.form.items[k])
      && r.form.items[|d.form.items|] == ResolveLine(d.entry, item)
      && r.form.(items := d.form.items) == d.form
      && r.entry == BlankEntry
  {
    match Selected(inventory, d.entry.inventoryItemId)
    case None => d
    case Some(item) =>
      Draft(d.form.(items := Lists.Append(d.form.items, ResolveLine(d.entry, item))), BlankEntry)
  }

  /**
   `handleRemoveItem`: the line at `index` goes, the others keep their order;
   an index that is not a position of the list changes nothing.
   */
  function RemoveItem(form: OrderForm, index: int): (r: OrderForm)
    ensures r.(items := form.items) == form
    ensures Consistent(form) ==> Consistent(r)
    ensures !(0 <= index < |form.items|) ==> r == form
    ensures 0 <= index < |form.items| ==>
      && |r.items| == |form.items| - 1
      && (forall k :: 0 <= k < index ==> r.items[k] == form.items[k])
      && (forall k :: index <= k < |r.items| ==> r.items[k] == form.items[k + 1])
  {
    if 0 <= index < |form.items| then Lists.RemoveAtShifts(form.items, index); form.(items := Lists.RemoveAt(form.items, index))
    else form.(items := Lists.RemoveAt(form.items, index))
  }

  /** Removing the line just added restores the form as it was. */
  lemma RemoveUndoesAdd(d: Draft, inventory: seq<InventoryItem>)
    requires Selected(inventory, d.entry.inventoryItemId).Some?
    ensures RemoveItem(AddItem(d, inventory).form, |d.form.items|) == d.form
  {
    var item := Selected(inventory, d.entry.inventoryItemId).value;
    Lists.RemoveAfterAppend(d.form.items, ResolveLine(d.entry, item));
  }

  /** Adding and removing lines keep every stored amount consistent. */
  lemma EditsKeepAmountsConsistent(d: Draft, inventory: seq<InventoryItem>, index: int)
    requires Consistent(d.form)
    ensures Consistent(AddItem(d, inventory).form)
    ensures Consistent(RemoveItem(d.form, index))
  {
    var r := AddItem(d, inventory).form;
    if Selected(inventory, d.entry.inventoryItemId).Some? {
      forall k | 0 <= k < |r.items|
        ensures AmountConsistent(r.items[k])
      {
        if k < |d.form.items| {
          assert r.items[k] == d.form.items[k];
        }
      }
    }
    var s := RemoveItem(d.form, index);
    if 0 <= index < |d.form.items| {
      forall k | 0 <= k < |s.items|
        ensures AmountConsistent(s.items[k])
      {
        if k >= index {
          assert s.items[k] == d.form.items[k + 1];
        } else {
          assert s.items[k] == d.form.items[k];
        }
      }
    }
  }

  /**
   `handleInventoryItemChange`: picking a listed item fills the editor with
   its catalog price, tax rate (or an empty box) and code (or `''`); an id the
   catalog does not list leaves the editor as it was.
   */
  function SelectItem(entry: LineEntry, inventory: seq<InventoryItem>, id: string): (r: LineEntry)
    ensures Lists.Find(inventory, ItemId, id).None? ==> r == entry
    ensures Lists.Find(inventory, ItemId, id).Some? ==>
      var item := Lists.Find(inventory, ItemId, id).value;
      && r.inventoryItemId == id
      && r.quantity == entry.quantity
      && r.unitPrice == Filled(item.unitPrice)
      && (r.taxRate.Blank? <==> item.taxRate.None?)
      && (r.taxRate.Filled? ==> r.taxRate.value == item.taxRate.value)
      && r.hsnOrSacCode == CatalogCode(item)
  {
    match Lists.Find(inventory, ItemId, id)
    case None => entry
    case Some(item) =>
      entry.(inventoryItemId := id, unitPrice := PrefillPrice(item),
             taxRate := PrefillTaxRate(item), hsnOrSacCode := PrefillCode(item))
  }

  /**
   Picking a listed item and adding it without touching the editor appends a
   line that snapshots the catalog: its price, its rate (or 0), its code (or
   `''`), with the amount for the entered quantity.
   */
  lemma SelectThenAddSnapshotsCatalog(d: Draft, inventory: seq<InventoryItem>, id: string)
    requires id != ""
    requires Lists.Find(inventory, ItemId, id).Some?
    ensures var item := Lists.Find(inventory, ItemId, id).value;
      var r := AddItem(d.(entry := SelectItem(d.entry, inventory, id)), inventory);
      var l := r.form.items[|d.form.items|];
      && |r.form.items| == |d.form.items| + 1
      && l.inventoryItemId == id
      && l.unitPrice == item.unitPrice
      && l.taxRate == CatalogTaxRate(item)
      && l.hsnOrSacCode == CatalogCode(item)
      && l.quantity == Trunc(d.entry.quantity)
      && l.amount == Trunc(d.entry.quantity) * item.unitPrice
      && l.name == item.name
  {
    var item := Lists.Find(inventory, ItemId, id).value;
    var e := SelectItem(d.entry, inventory, id);
    assert Selected(inventory, id) == Some(item);
    PrefillResolvesToCatalog(item);
  }

  /** What a line contributes according to its stored amount (`calculateTotal`). */
  function StoredCharge(l: OrderLine): Totals.Charge {
    Totals.Charge(l.amount, l.taxRate)
  }

  /** What a line contributes by quantity × unit price. */
  function PricedCharge(l: OrderLine): Totals.Charge {
    Totals.Charge(l.quantity * l.unitPrice, l.taxRate)
  }

  /**
   `calculateTotal`: the subtotal sums the stored amounts, the tax is each
   stored amount times its rate, summed, and the total adds the two.
   */
  function OrderTotals(items: seq<OrderLine>): (t: Totals.DocumentTotals)
    ensures t.total == t.subTotal as real + t.taxAmount
    ensures |items| == 0 ==> t == Totals.DocumentTotals(0, 0.0, 0.0)
  {
    Totals.Compute(items, StoredCharge)
  }

  /** While stored amounts are consistent, the totals are those of quantity × unit price. */
  lemma OrderTotalsArePriced(items: seq<OrderLine>)
    requires forall k :: 0 <= k < |items| ==> AmountConsistent(items[k])
    ensures OrderTotals(items) == Totals.Compute(items, PricedCharge)
  {
    Totals.SameChargesSameTotals(items, StoredCharge, items, PricedCharge);
  }

  /** A submitted line: the stored amount and the display name are dropped. */
  datatype PayloadLine = PayloadLine(
    inventoryItemId: string,
    quantity: int,
    unitPrice: int,
    taxRate: int,
    hsnOrSacCode: string)

  /** The body of the create request; empty text fields are left out (`None`). */
  datatype OrderPayload = OrderPayload(
    customerId: string,
    notes: Option<string>,
    terms: Option<string>,
    placeOfSupply: Option<string>,
    items: seq<PayloadLine>)

  datatype SubmitError = NoItems

  datatype Submission = Refused(error: SubmitError) | Sent(payload: OrderPayload)

  function ToPayloadLine(l: OrderLine): PayloadLine {
    PayloadLine(l.inventoryItemId, l.quantity, l.unitPrice, l.taxRate, l.hsnOrSacCode)
  }

  /**
   `handleSubmit`: an order without lines is refused; otherwise every line is
   sent, in order, with its identity, quantity, price, rate and code.
   */
  function Submit(form: OrderForm): (r: Submission)
    ensures r.Refused? <==> |form.items| == 0
    ensures r.Sent? ==>
      && r.payload.customerId == form.customerId
      && r.payload.notes == NonEmpty(form.notes)
      && r.payload.terms == NonEmpty(form.terms)
      && r.payload.placeOfSupply == NonEmpty(form.placeOfSupply)
      && |r.payload.items| == |form.items|
      && forall k :: 0 <= k < |form.items| ==>
           var sent, line := r.payload.items[k], form.items[k];
           && sent.inventoryItemId == line.inventoryItemId
           && sent.quantity == line.quantity
           && sent.unitPrice == line.unitPrice
           && sent.taxRate == line.taxRate
           && sent.hsnOrSacCode == line.hsnOrSacCode
  {
    if |form.items| == 0 then Refused(NoItems)
    else
      Sent(OrderPayload(
        form.customerId,
        NonEmpty(form.notes),
        NonEmpty(form.terms),
        NonEmpty(form.placeOfSupply),
        seq(|form.items|, k requires 0 <= k < |form.items| => ToPayloadLine(form.items[k]))))
  }

  /**
   The constraints the browser checks before it lets the form submit: a
   customer chosen, and the line editor's boxes in range.
   */
  predicate FormValid(d: Draft) {
    && d.form.customerId != ""
    && EditorInRange(d.entry.quantity, d.entry.unitPrice, d.entry.taxRate)
  }

  /**
   Pressing the create button: the browser stops a form that breaks its
   constraints, and otherwise `handleSubmit` runs, so an order is only ever
   sent for a chosen customer.
   */
  function Press(d: Draft): (r: Option<Submission>)
    ensures r.None? <==> !FormValid(d)
    ensures r.Some? ==> r.value == Submit(d.form)
    ensures r.Some? && r.value.Sent? ==> r.value.payload.customerId != ""
  {
    if FormValid(d) then Some(Submit(d.form)) else None
  }

  /** Whether the create button can be pressed: not while a request is in flight, and not without lines. */
  function SubmitEnabled(form: OrderForm, busy: bool): (r: bool)
    ensures busy ==> !r
    ensures !busy ==> (r <==> Submit(form).Sent?)
  {
    !(busy || |form.items| == 0)
  }

  function PayloadCharge(l: PayloadLine): Totals.Charge {
    Totals.Charge(l.quantity * l.unitPrice, l.taxRate)
  }

  /**
   The totals shown while drafting are the totals of what is submitted,
   priced by quantity × unit price, as long as the stored amounts are consistent.
   */
  lemma SubmittedTotalsMatchDisplay(form: OrderForm)
    requires Consistent(form)
    requires Submit(form).Sent?
    ensures Totals.Compute(Submit(form).payload.items, PayloadCharge) == OrderTotals(form.items)
  {
    OrderTotalsArePriced(form.items);
    Totals.SameChargesSameTotals(form.items, PricedCharge, Submit(form).payload.items, PayloadCharge);
  }

  /** The badge table of the sales-order page. */
  const OrderBadges: map<string, string> :=
    map["PENDING" := Badges.Yellow, "ACCEPTED" := Badges.Green, "REJECTED" := Badges.Red]

  /** `getStatusBadge`: one colour per known status, gray for anything else. */
  function StatusBadge(status: string): (r: string)
    ensures r == Badges.Yellow <==> status == "PENDING"
    ensures r == Badges.Green <==> status == "ACCEPTED"
    ensures r == Badges.Red <==> status == "REJECTED"
    ensures r == Badges.Gray <==> status !in {"PENDING", "ACCEPTED", "REJECTED"}
  {
    Badges.Badge(OrderBadges, status)
  }

  /** A sales order as the list shows it. */
  datatype SalesOrder = SalesOrder(id: string, orderNumber: nat, customerId: string, status: string)

  datatype Action = View | Accept | Reject

  /** The buttons a listed order shows: always View; Accept and Reject only while PENDING. */
  function Actions(status: string): (r: set<Action>)
    ensures View in r
    ensures Accept in r <==> status == "PENDING"
    ensures Reject in r <==> status == "PENDING"
  {
    if status == "PENDING" then {View, Accept, Reject} else {View}
  }

  /** A status change the page asks the server for: `PATCH /sales-order/{id}/status/{verb}`. */
  datatype StatusUpdate = StatusUpdate(id: string, verb: string)

  /**
   Clicking a button of a listed order. Only a shown Accept or Reject button
   asks for a status change, so the page never asks to move an order that is
   not PENDING.
   */
  function Click(order: SalesOrder, action: Action): (r: Option<StatusUpdate>)
    ensures r.Some? <==> action != View && action in Actions(order.status)
    ensures r.Some? ==> order.status == "PENDING" && r.value.id == order.id
    ensures r.Some? ==> (r.value.verb == "accept" <==> action == Accept)
    ensures r.Some? ==> (r.value.verb == "reject" <==> action == Reject)
  {
    if order.status != "PENDING" then None
    else
      match action
      case View => None
      case Accept => Some(StatusUpdate(order.id, "accept"))
      case Reject => Some(StatusUpdate(order.id, "reject"))
  }
}
