/**
 The invoice page: an invoice is either drafted line by line ("direct") or
 raised from an accepted sales order ("from order"). Covers the line editor,
 the totals it shows, the order picker, what it submits, and the status
 actions it offers for listed invoices.
 */
module Invoices {
  import opened Values
  import opened Catalog
  import Lists
  import Totals
  import Badges
  import SalesOrders

  /** A drafted invoice line; `name` is for display only. */
  datatype InvoiceLine = InvoiceLine(
    inventoryItemId: string,
    quantity: int,
    unitPrice: int,
    taxRate: int,
    name: string)

  /** The line editor: the number its quantity box holds, and price and rate boxes. */
  datatype LineEntry = LineEntry(
    inventoryItemId: string,
    quantity: real,
    unitPrice: Field<int>,
    taxRate: Field<int>)

  const BlankEntry: LineEntry := LineEntry("", 1.0, Blank, Blank)

  datatype Kind = Direct | FromOrder

  /** Dates are the text of the date inputs (`YYYY-MM-DD`). */
  datatype InvoiceForm = InvoiceForm(
    customerId: string,
    salesOrderId: string,
    issueDate: string,
    dueDate: string,
    notes: string,
    terms: string,
    items: seq<InvoiceLine>)

  /** The page's drafting state: which kind of invoice, the form, and the line editor. */
  datatype Draft = Draft(kind: Kind, form: InvoiceForm, entry: LineEntry)

  /**
   `resetForm`: a direct invoice with nothing chosen and no lines. The page
   reads the clock for the default dates; here they are parameters.
   */
  function ResetForm(issueDate: string, dueDate: string): (d: Draft)
    ensures d.kind == Direct && d.entry == BlankEntry
    ensures d.form.issueDate == issueDate && d.form.dueDate == dueDate
    ensures |d.form.items| == 0 && d.form.customerId == "" && d.form.salesOrderId == ""
    ensures d.form.notes == "" && d.form.terms == ""
  {
    Draft(Direct, InvoiceForm("", "", issueDate, dueDate, "", "", []), BlankEntry)
  }

  /** The line an add creates from the editor and the chosen catalog item. */
  function ResolveLine(entry: LineEntry, item: InventoryItem): (l: InvoiceLine)
    ensures l.inventoryItemId == entry.inventoryItemId && l.name == item.name
    ensures l.quantity == Trunc(entry.quantity)
    ensures entry.unitPrice.Filled? ==> l.unitPrice == entry.unitPrice.value
    ensures entry.unitPrice.Blank? ==> l.unitPrice == item.unitPrice
    ensures entry.taxRate.Filled? ==> l.taxRate == entry.taxRate.value
    ensures entry.taxRate.Blank? ==> l.taxRate == CatalogTaxRate(item)
  {
    InvoiceLine(
      entry.inventoryItemId,
      Trunc(entry.quantity),
      ResolveUnitPrice(entry.unitPrice, item),
      ResolveTaxRate(entry.taxRate, item),
      item.name)
  }

  /**
   `handleAddItem`: with no item chosen, or an id the catalog does not list,
   nothing changes; otherwise exactly one line is appended after the existing
   ones, the rest of the form is untouched, and the editor is cleared.
   */
  function AddItem(d: Draft, inventory: seq<InventoryItem>): (r: Draft)
    ensures Selected(inventory, d.entry.inventoryItemId).None? ==> r == d
    ensures Selected(inventory, d.entry.inventoryItemId).Some? ==>
      var item := Selected(inventory, d.entry.inventoryItemId).value;
      && r.kind == d.kind
      && |r.form.items| == |d.form.items| + 1
      && (forall k :: 0 <= k < |d.form.items| ==> r.form.items[k] == d.form.items[k])
      && r.form.items[|d.form.items|] == ResolveLine(d.entry, item)
      && r.form.(items := d.form.items) == d.form
      && r.entry == BlankEntry
  {
    match Selected(inventory, d.entry.inventoryItemId)
    case None => d
    case Some(item) =>
      d.(form := d.form.(items := Lists.Append(d.form.items, ResolveLine(d.entry, item))), entry := BlankEntry)
  }

  /**
   `handleRemoveItem`: the line at `index` goes, the others keep their order;
   an index that is not a position of the list changes nothing.
   */
  function RemoveItem(form: InvoiceForm, index: int): (r: InvoiceForm)
    ensures r.(items := form.items) == form
    ensures !(0 <= index < |form.items|) ==> r == form
    ensures 0 <= index < |form.items| ==>
      && |r.items| == |form.items| - 1
      && (forall k :: 0 <= k < index ==> r.items[k] == form.items[k])
      && (forall k :: index <= k < |r.items| ==> r.items[k] == form.items[k + 1])
  {
    if 0 <= index < |form.items| then Lists.RemoveAtShifts(form.items, index); form.(items := Lists.RemoveAt(form.items, index))
    else form.(items := Lists.RemoveAt(form.items, index))
  }

  /** Removing the line just added restores the form as it was. */
  lemma RemoveUndoesAdd(d: Draft, inventory: seq<InventoryItem>)
    requires Selected(inventory, d.entry.inventoryItemId).Some?
    ensures RemoveItem(AddItem(d, inventory).form, |d.form.items|) == d.form
  {
    var item := Selected(inventory, d.entry.inventoryItemId).value;
    Lists.RemoveAfterAppend(d.form.items, ResolveLine(d.entry, item));
  }

  /**
   `handleInventoryItemChange`: picking a listed item fills the editor with
   its catalog price and tax rate (or an empty box); an id the catalog does
   not list leaves the editor as it was.
   */
  function SelectItem(entry: LineEntry, inventory: seq<InventoryItem>, id: string): (r: LineEntry)
    ensures Lists.Find(inventory, ItemId, id).None? ==> r == entry
    ensures Lists.Find(inventory, ItemId, id).Some? ==>
      var item := Lists.Find(inventory, ItemId, id).value;
      && r.inventoryItemId == id
      && r.quantity == entry.quantity
      && r.unitPrice == Filled(item.unitPrice)
      && (r.taxRate.Blank? <==> item.taxRate.None?)
      && (r.taxRate.Filled? ==> r.taxRate.value == item.taxRate.value)
  {
    match Lists.Find(inventory, ItemId, id)
    case None => entry
    case Some(item) =>
      entry.(inventoryItemId := id, unitPrice := PrefillPrice(item), taxRate := PrefillTaxRate(item))
  }

  /**
   Picking a listed item and adding it without touching the editor appends a
   line carrying the catalog price and the catalog rate (or 0).
   */
  lemma SelectThenAddSnapshotsCatalog(d: Draft, inventory: seq<InventoryItem>, id: string)
    requires id != ""
    requires Lists.Find(inventory, ItemId, id).Some?
    ensures var item := Lists.Find(inventory, ItemId, id).value;
      var r := AddItem(d.(entry := SelectItem(d.entry, inventory, id)), inventory);
      var l := r.form.items[|d.form.items|];
      && |r.form.items| == |d.form.items| + 1
      && l.inventoryItemId == id
      && l.unitPrice == item.unitPrice
      && l.taxRate == CatalogTaxRate(item)
      && l.quantity == Trunc(d.entry.quantity)
      && l.name == item.name
  {
    var item := Lists.Find(inventory, ItemId, id).value;
    assert Selected(inventory, id) == Some(item);
    PrefillResolvesToCatalog(item);
  }

  /** What an invoice line contributes: quantity × unit price, at its rate. */
  function LineCharge(l: InvoiceLine): Totals.Charge {
    Totals.Charge(l.quantity * l.unitPrice, l.taxRate)
  }

  /**
   `calculateDirectTotal`: the subtotal of quantity × unit price, the tax of
   each line summed, and their sum.
   */
  function DirectTotals(items: seq<InvoiceLine>): (t: Totals.DocumentTotals)
    ensures t.total == t.subTotal as real + t.taxAmount
    ensures |items| == 0 ==> t == Totals.DocumentTotals(0, 0.0, 0.0)
  {
    Totals.Compute(items, LineCharge)
  }

  /** The invoice line for the same goods as an order line: the stored amount and the code are dropped. */
  function InvoiceLineOf(l: SalesOrders.OrderLine): InvoiceLine {
    InvoiceLine(l.inventoryItemId, l.quantity, l.unitPrice, l.taxRate, l.name)
  }

  /**
   The totals a sales order shows from its stored amounts are the direct
   totals of the same lines on an invoice, as long as every stored amount is
   quantity × unit price.
   */
  lemma OrderTotalsMatchDirectTotals(items: seq<SalesOrders.OrderLine>)
    requires forall k :: 0 <= k < |items| ==> SalesOrders.AmountConsistent(items[k])
    ensures SalesOrders.OrderTotals(items)
         == DirectTotals(seq(|items|, k requires 0 <= k < |items| => InvoiceLineOf(items[k])))
  {
    var lines := seq(|items|, k requires 0 <= k < |items| => InvoiceLineOf(items[k]));
    Totals.SameChargesSameTotals(items, SalesOrders.StoredCharge, lines, LineCharge);
  }

  /** An invoice as the list shows it; `items` may be missing. */
  datatype Invoice = Invoice(id: string, invoiceNumber: nat, status: string, items: Option<seq<InvoiceLine>>)

  /** Quantity × unit price summed from the first line on. */
  function LinesValue(items: seq<InvoiceLine>): int
    decreases |items|
  {
    if |items| == 0 then 0 else items[0].quantity * items[0].unitPrice + LinesValue(items[1..])
  }

  /**
   `calculateInvoiceTotal`, the amount the list shows for an invoice: 0 when
   it has no lines (or none were sent), otherwise the value of its lines.
   */
  function ListedTotal(items: Option<seq<InvoiceLine>>): (r: int)
    ensures items.None? ==> r == 0
    ensures items.Some? ==> r == DirectTotals(items.value).subTotal
  {
    match items
    case None => 0
    case Some(lines) => LinesValueIsSubTotal(lines); LinesValue(lines)
  }

  /** The list's running sum agrees with the subtotal the draft shows. */
  lemma {:induction false} LinesValueIsSubTotal(items: seq<InvoiceLine>)
    ensures LinesValue(items) == Totals.SubTotal(items, LineCharge)
    decreases |items|
  {
    if |items| > 0 {
      LinesValueIsSubTotal(items[1..]);
      assert items == [items[0]] + items[1..];
      Totals.ConcatAdds([items[0]], items[1..], LineCharge);
      assert [items[0]][..0] == [];
    }
  }

  /** `acceptedSalesOrders`: the orders the picker offers. */
  function AcceptedOrders(orders: seq<SalesOrders.SalesOrder>): (r: seq<SalesOrders.SalesOrder>)
    ensures |r| <= |orders|
    ensures forall k :: 0 <= k < |r| ==> r[k].status == "ACCEPTED" && r[k] in orders
    ensures forall k :: 0 <= k < |orders| && orders[k].status == "ACCEPTED" ==> orders[k] in r
    decreases |orders|
  {
    if |orders| == 0 then []
    else
      var rest := AcceptedOrders(orders[1..]);
      if orders[0].status == "ACCEPTED" then [orders[0]] + rest else rest
  }

  function OrderId(order: SalesOrders.SalesOrder): string {
    order.id
  }

  /**
   `handleSalesOrderChange`: choosing an order records it and takes over its
   customer; an id that matches no listed order changes nothing. The lookup
   runs over every listed order, not only the accepted ones.
   */
  function SalesOrderChange(form: InvoiceForm, orders: seq<SalesOrders.SalesOrder>, id: string): (r: InvoiceForm)
    ensures Lists.Find(orders, OrderId, id).None? ==> r == form
    ensures Lists.Find(orders, OrderId, id).Some? ==>
      && r.salesOrderId == id
      && r.customerId == Lists.Find(orders, OrderId, id).value.customerId
      && r.(salesOrderId := form.salesOrderId, customerId := form.customerId) == form
  {
    match Lists.Find(orders, OrderId, id)
    case None => form
    case Some(order) => form.(salesOrderId := id, customerId := order.customerId)
  }

  /** The customer picker is locked while an order-based invoice has an order chosen. */
  predicate CustomerLocked(kind: Kind, form: InvoiceForm) {
    kind == FromOrder && form.salesOrderId != ""
  }

  datatype PayloadLine = PayloadLine(inventoryItemId: string, quantity: int, unitPrice: int, taxRate: int)

  /**
   The body of the create request. An order-based invoice names its order and
   sends no lines; a direct one sends its lines and no order.
   */
  datatype InvoicePayload = InvoicePayload(
    customerId: string,
    issueDate: string,
    dueDate: string,
    notes: Option<string>,
    terms: Option<string>,
    salesOrderId: Option<string>,
    items: Option<seq<PayloadLine>>)

  datatype SubmitError = NoSalesOrder | NoItems

  datatype Submission = Refused(error: SubmitError) | Sent(payload: InvoicePayload)

  function ToPayloadLine(l: InvoiceLine): PayloadLine {
    PayloadLine(l.inventoryItemId, l.quantity, l.unitPrice, l.taxRate)
  }

  /**
   `handleSubmit`: an order-based invoice needs a chosen order, a direct one
   at least one line. What is sent carries the customer, the dates and the
   non-empty texts, and then either the order or every line, in order.
   */
  function Submit(kind: Kind, form: InvoiceForm): (r: Submission)
    ensures kind == FromOrder ==> (r.Refused? <==> form.salesOrderId == "")
    ensures kind == Direct ==> (r.Refused? <==> |form.items| == 0)
    ensures kind == FromOrder && r.Refused? ==> r.error == NoSalesOrder
    ensures kind == Direct && r.Refused? ==> r.error == NoItems
    ensures r.Sent? ==>
      && r.payload.customerId == form.customerId
      && r.payload.issueDate == form.issueDate
      && r.payload.dueDate == form.dueDate
      && r.payload.notes == NonEmpty(form.notes)
      && r.payload.terms == NonEmpty(form.terms)
    ensures r.Sent? && kind == FromOrder ==>
      r.payload.salesOrderId == Some(form.salesOrderId) && r.payload.items.None?
    ensures r.Sent? && kind == Direct ==>
      && r.payload.salesOrderId.None?
      && r.payload.items.Some?
      && |r.payload.items.value| == |form.items|
      && forall k :: 0 <= k < |form.items| ==>
           var sent, line := r.payload.items.value[k], form.items[k];
           && sent.inventoryItemId == line.inventoryItemId
           && sent.quantity == line.quantity
           && sent.unitPrice == line.unitPrice
           && sent.taxRate == line.taxRate
  {
    var base := InvoicePayload(form.customerId, form.issueDate, form.dueDate,
      NonEmpty(form.notes), NonEmpty(form.terms), None, None);
    match kind
    case FromOrder =>
      if form.salesOrderId == "" then Refused(NoSalesOrder)
      else Sent(base.(salesOrderId := Some(form.salesOrderId)))
    case Direct =>
      if |form.items| == 0 then Refused(NoItems)
      else Sent(base.(items := Some(seq(|form.items|, k requires 0 <= k < |form.items| => ToPayloadLine(form.items[k])))))
  }

  /**
   Whether the create button can be pressed: not while a request is in flight,
   and not for a direct invoice without lines.
   */
  function SubmitEnabled(kind: Kind, form: InvoiceForm, busy: bool): (r: bool)
    ensures busy ==> !r
    ensures !busy && kind == Direct ==> (r <==> Submit(kind, form).Sent?)
    ensures !busy && kind == FromOrder ==> r
  {
    !(busy || (kind == Direct && |form.items| == 0))
  }

  /**
   The constraints the browser checks before it lets the form submit: a
   customer, unless the picker is locked to the chosen order's customer (a
   disabled control is not checked); the sales order on an order-based
   invoice; both dates, the due date not before the issue date; and, on a
   direct invoice, the line editor's boxes in range. The editor is not shown
   for an order-based invoice, so its boxes are not checked then, whatever
   they still hold.
   */
  predicate FormValid(d: Draft) {
    && (CustomerLocked(d.kind, d.form) || d.form.customerId != "")
    && (d.kind == FromOrder ==> d.form.salesOrderId != "")
    && d.form.issueDate != "" && d.form.dueDate != ""
    && DateNotBefore(d.form.dueDate, d.form.issueDate)
    && (d.kind == Direct ==> EditorInRange(d.entry.quantity, d.entry.unitPrice, d.entry.taxRate))
  }

  /**
   Pressing the create button: the browser stops a form that breaks its
   constraints, and otherwise `handleSubmit` runs. Its missing-order refusal
   is then never reached, and whatever is sent has both dates in order.
   */
  function Press(d: Draft): (r: Option<Submission>)
    ensures r.None? <==> !FormValid(d)
    ensures r.Some? ==> r.value == Submit(d.kind, d.form)
    ensures r.Some? && d.kind == FromOrder ==> r.value.Sent?
    ensures r.Some? && r.value.Sent? ==>
      && r.value.payload.issueDate != "" && r.value.payload.dueDate != ""
      && DateNotBefore(r.value.payload.dueDate, r.value.payload.issueDate)
    ensures r.Some? && d.kind == Direct ==> r.value.Sent? ==> r.value.payload.customerId != ""
  {
    if FormValid(d) then Some(Submit(d.kind, d.form)) else None
  }

  /**
   An order-based invoice with its order and both dates in order is sent,
   whatever the hidden line editor still holds from direct mode.
   */
  lemma HiddenEditorNotChecked(d: Draft)
    requires d.kind == FromOrder && d.form.salesOrderId != ""
    requires d.form.issueDate != "" && d.form.dueDate != ""
    requires DateNotBefore(d.form.dueDate, d.form.issueDate)
    ensures Press(d).Some? && Press(d).value.Sent?
    ensures Press(d).value.payload.salesOrderId == Some(d.form.salesOrderId)
  {
  }

  /**
   A freshly reset form cannot be submitted until a line is added, and the
   browser stops it before that for want of a customer.
   */
  lemma ResetFormRefused(issueDate: string, dueDate: string)
    ensures var d := ResetForm(issueDate, dueDate);
      && Submit(d.kind, d.form) == Refused(NoItems)
      && !SubmitEnabled(d.kind, d.form, false)
      && Press(d).None?
  {
  }

  /**
   Choosing an order the picker offers and submitting sends an invoice for
   that accepted order and its customer, with the customer picker locked,
   provided listed orders have distinct, non-empty ids.
   */
  lemma ChosenOrderIsSent(form: InvoiceForm, orders: seq<SalesOrders.SalesOrder>, k: nat)
    requires k < |AcceptedOrders(orders)|
    requires forall a, b :: 0 <= a < b < |orders| ==> orders[a].id != orders[b].id
    requires forall a :: 0 <= a < |orders| ==> orders[a].id != ""
    ensures var order := AcceptedOrders(orders)[k];
      var chosen := SalesOrderChange(form, orders, order.id);
      && order.status == "ACCEPTED"
      && CustomerLocked(FromOrder, chosen)
      && Submit(FromOrder, chosen).Sent?
      && Submit(FromOrder, chosen).payload.salesOrderId == Some(order.id)
      && Submit(FromOrder, chosen).payload.customerId == order.customerId
  {
    var order := AcceptedOrders(orders)[k];
    var j :| 0 <= j < |orders| && orders[j] == order;
    Lists.FindUnique(orders, OrderId, j);
  }

  /** The badge table of the invoice page; CANCELLED is listed with the gray classes. */
  const InvoiceBadges: map<string, string> :=
    map["PENDING" := Badges.Yellow, "PAID" := Badges.Green, "OVERDUE" := Badges.Red, "CANCELLED" := Badges.Gray]

  /** `getStatusBadge`: one colour per known status; CANCELLED and anything unknown are gray. */
  function StatusBadge(status: string): (r: string)
    ensures r == Badges.Yellow <==> status == "PENDING"
    ensures r == Badges.Green <==> status == "PAID"
    ensures r == Badges.Red <==> status == "OVERDUE"
    ensures r == Badges.Gray <==> status !in {"PENDING", "PAID", "OVERDUE"}
  {
    Badges.Badge(InvoiceBadges, status)
  }

  datatype Action = View | MarkPaid

  /** The buttons a listed invoice shows: always View; Mark as Paid only while PENDING. */
  function Actions(status: string): (r: set<Action>)
    ensures View in r
    ensures MarkPaid in r <==> status == "PENDING"
  {
    if status == "PENDING" then {View, MarkPaid} else {View}
  }

  /** A status change the page asks the server for: `PATCH /invoice/{id}/status/{verb}`. */
  datatype StatusUpdate = StatusUpdate(id: string, verb: string)

  /** Clicking a button of a listed invoice: only a shown Mark as Paid asks for a change. */
  function Click(invoice: Invoice, action: Action): (r: Option<StatusUpdate>)
    ensures r.Some? <==> action == MarkPaid && action in Actions(invoice.status)
    ensures r.Some? ==> invoice.status == "PENDING" && r.value == StatusUpdate(invoice.id, "paid")
  {
    if action == MarkPaid && invoice.status == "PENDING" then Some(StatusUpdate(invoice.id, "paid")) else None
  }
}
