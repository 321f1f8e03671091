# Document-building rules of the invoicing front end

This project models the rules in three pages of the invoicing front end:

- **Sales orders** (`frontend/src/pages/SalesOrders.jsx`). A sales order is drafted line by line. The page shows its running totals and submits it. A listed order offers Accept and Reject only while it is PENDING.
- **Invoices** (`frontend/src/pages/Invoices.jsx`). An invoice is either drafted line by line ("direct") or raised from an ACCEPTED sales order ("from order"). The page shows the direct totals and the list total, and offers Mark as Paid only while the invoice is PENDING.
- **Inventory** (`frontend/src/pages/Inventory.jsx`). An edit prefills the item form from a catalog item. A submit normalises the form into a create or an update request.

Each React state setter is modelled as a pure function from the old page state to the new one.

## Value representation

- **Money** is an `int` in paise.
- **Tax rates** are an `int` in hundredths of a percent, so 1800 is 18%.
- **Line tax** is `amount × rate / 10000` as an exact `real`. The pages never round tax, and exact rationals keep that without floating-point drift.
- **Editor boxes.** A text box that is empty or holds a value is a `Field<T>` (`Blank | Filled`). For the page's strings, `x ? … : …` and `x !== '' ? … : …` coincide, so an explicit 0 typed as a price or a rate overrides the catalog.
- **Line-editor quantity.** The box is the number its text denotes, a `real`. `parseInt` of it is truncation toward zero (`Values.Trunc`).
- **Inventory quantity.** This box is kept as text and parsed with a model of `parseInt`: leading white space, one optional sign, then the longest run of digits. Text without digits gives `NaN`, which becomes 0.
- **`s || undefined`** is `Values.NonEmpty`, and **`x || fallback`** on an optional catalog field is `Option.GetOr`.
- **Statuses** are the server's strings. Badges and actions are functions of the string. An unknown status gets the gray badge and only View, as on the page, except for the names of `Object.prototype` members (see "Left out").
- **Document numbers** are shown as a prefix (`SO-` or `INV-`) and the decimal numeral left-padded with `'0'` to at least five characters (module `Numbering`).

## Where the written description and the code differ

The model follows the code:

- **Empty totals.** The code's totals of an empty list are 0; they do not fail.
- **Rounding.** No per-line rounding happens anywhere in the code.
- **Quantity.** The pages' own code never checks that a line quantity is at least 1. The editor box's `min="1"` stops a submit while that box holds less than 1, and on the invoice page only for a direct invoice, since the editor is not shown for an order-based one. It is never applied to lines already added, because Add Item is a `type="button"` that the browser does not validate.
- **Status transitions.** The only enforcement present is which buttons are shown. Status transitions, number allocation and concurrency are server concerns and do not appear in these files.
- **Conversion.** Raising an invoice from an order sends the order's id instead of lines, with the customer, the dates, the notes and the terms. The conversion itself happens on the server.

## Model

| member | source | states |
|---|---|---|
| Values.Trunc | frontend/src/pages/Invoices.jsx:103 | `parseInt` of the quantity box: the whole part toward zero, within one of the entry and never on the far side of zero |
| Values.DateNotBeforeItself | frontend/src/pages/Invoices.jsx:412 | the due date's `min` of the issue date admits a due date on the issue date itself |
| Values.NonEmpty | frontend/src/pages/SalesOrders.jsx:149-151 | `s \|\| undefined`: absent exactly when the text is empty, otherwise the text itself |
| Lists.Append | frontend/src/pages/Invoices.jsx:112 | `[...items, line]`: one longer, the earlier lines unchanged and in order, the new line last |
| Lists.RemoveAt | frontend/src/pages/Invoices.jsx:123-128 | filtering out index `i`: in range, the list without position `i`; out of range, the list unchanged |
| Lists.RemoveAtShifts | frontend/src/pages/SalesOrders.jsx:119-124 | after removing index `i`, the list is one shorter, lines before `i` stay put and later ones move up one place |
| Lists.RemoveAfterAppend | frontend/src/pages/Invoices.jsx:110-128 | removing the position just appended gives back the original list |
| Lists.FindFirst | frontend/src/pages/Invoices.jsx:88 | `find`: the first position whose key matches, and none exactly when no element matches |
| Lists.Find | frontend/src/pages/Invoices.jsx:131-132 | the element `find` returns is the first listed element with the id, and there is none iff no element has the id |
| Lists.FindUnique | frontend/src/pages/Invoices.jsx:143 | when ids are distinct, looking up an element's id returns that element |
| Catalog.Selected | frontend/src/pages/Invoices.jsx:85-91 | no item when the editor's id is empty or matches no catalog entry (both directions); otherwise the first catalog entry with that id |
| Catalog.CatalogTaxRate | frontend/src/pages/Invoices.jsx:99 | a missing catalog rate counts as 0, a present one as itself |
| Catalog.CatalogCode | frontend/src/pages/SalesOrders.jsx:99 | a missing catalog code counts as `''`, a present one as itself |
| Catalog.ResolveUnitPrice | frontend/src/pages/Invoices.jsx:93-95 | a filled price box (0 included) wins, a blank one takes the catalog price |
| Catalog.ResolveTaxRate | frontend/src/pages/Invoices.jsx:97-99 | a filled rate box wins even when it holds 0; a blank one takes the catalog rate, or 0 |
| Catalog.ResolveCode | frontend/src/pages/SalesOrders.jsx:99 | the typed code when non-empty, else the catalog code, else `''` |
| Catalog.EnteredValuesIgnoreCatalog | frontend/src/pages/SalesOrders.jsx:84-99 | a typed price, rate or code resolves to itself whatever catalog item it is combined with |
| Catalog.PrefillPrice | frontend/src/pages/SalesOrders.jsx:132 | picking an item fills the price box with the catalog price |
| Catalog.PrefillTaxRate | frontend/src/pages/SalesOrders.jsx:133 | picking an item leaves the rate box empty exactly when the catalog has no rate, and otherwise fills in that rate |
| Catalog.PrefillCode | frontend/src/pages/SalesOrders.jsx:134 | picking an item fills the code box with the catalog code, or `''` when there is none |
| Catalog.PrefillResolvesToCatalog | frontend/src/pages/SalesOrders.jsx:126-137 | what picking an item writes into the editor resolves back to that item's catalog price, rate (or 0) and code (or `''`) |
| Badges.Badge | frontend/src/pages/Invoices.jsx:186-194 | a status the page's table lists gets its classes, any other status the gray default (the inherited `Object.prototype` names excepted, see Left out) |
| Totals.LineTax | frontend/src/pages/Invoices.jsx:211 | a line's tax times 100 × 100 is amount × rate: exact, unrounded |
| Totals.SubTotal | frontend/src/pages/Invoices.jsx:210 | no lines sum to 0, and lines whose amounts are not negative never sum below 0 |
| Totals.TaxAmount | frontend/src/pages/Invoices.jsx:211 | no lines carry no tax, and amounts and rates that are not negative never give negative tax |
| Totals.Compute | frontend/src/pages/Invoices.jsx:209-213 | total is subtotal plus tax, and no lines give all three totals 0 |
| Totals.ConcatAdds | frontend/src/pages/Invoices.jsx:210-211 | subtotal and tax of two runs of lines are the sums of each run's |
| Totals.AppendAdds | frontend/src/pages/Invoices.jsx:110-113 | appending a line raises the subtotal by exactly its amount and the tax by exactly its own tax |
| Totals.RemoveSubtracts | frontend/src/pages/Invoices.jsx:123-128 | removing a line lowers the subtotal by exactly its amount and the tax by exactly its own tax |
| Totals.PermutationInvariant | frontend/src/pages/Invoices.jsx:209-213 | any rearrangement of the lines has the same totals |
| Totals.MatchLast | frontend/src/pages/Invoices.jsx:209-213 | in two rearrangements of each other, the last line of one is somewhere in the other and the rest are again rearrangements |
| Totals.RemovedMultiset | frontend/src/pages/Invoices.jsx:123-128 | the lines left after a removal plus the removed line are the original lines as a multiset |
| Totals.SameChargesSameTotals | frontend/src/pages/SalesOrders.jsx:181-185 | lists whose lines contribute the same amount and rate position by position have equal totals |
| Totals.UniformRateTax | frontend/src/pages/Invoices.jsx:211 | with one rate on every line, the per-line taxes sum to the tax of the subtotal |
| Numerals.DecimalString | frontend/src/pages/Invoices.jsx:257 | `toString` of a natural number: digits only, no leading zero, denoting the number |
| Numerals.IntToString | frontend/src/pages/Inventory.jsx:80 | `toString` of any integer: the numeral, with a minus sign before a negative one |
| Numerals.ParseInt | frontend/src/pages/Inventory.jsx:62 | `parseInt`: after white space and one optional sign, no digit gives `NaN`; otherwise the value of the run of digits there, negated after a minus sign |
| Numerals.ParseIntOfNumeral | frontend/src/pages/Inventory.jsx:62 | `parseInt` reads a number's own numeral back as that number, whatever non-digit text follows |
| Numerals.ParseIntNoDigits | frontend/src/pages/Inventory.jsx:62 | text without any digit does not parse |
| Numbering.PadStart | frontend/src/pages/SalesOrders.jsx:225 | `padStart`: the text ends with the original and is at least the width, filled in front with the pad character |
| Numbering.DisplayNumber | frontend/src/pages/SalesOrders.jsx:225 | the shown number starts with the prefix, and the rest is at least five digits that denote the number |
| Numbering.DisplayNumberDigits | frontend/src/pages/Invoices.jsx:257 | the shown number is the prefix, then at least five digits that denote the number; exactly five below 100000, and the plain numeral from 100000 on |
| Numbering.DisplayNumberInjective | frontend/src/pages/SalesOrders.jsx:225 | two different numbers are never shown alike under one prefix |
| Numbering.PrefixesSeparateDocuments | frontend/src/pages/Invoices.jsx:257 | an order number and an invoice number are never shown alike |
| SalesOrders.ResolveLine | frontend/src/pages/SalesOrders.jsx:94-103 | an added line takes the editor's item id, the quantity truncated toward zero, a filled price or rate box (0 included) over the catalog's, the catalog rate or 0 otherwise, a typed code over the catalog code (or `''`), and the catalog name; and it stores amount = quantity × unit price (corrected; see Findings) |
| SalesOrders.AmountAsWrittenCounterexample | frontend/src/pages/SalesOrders.jsx:92-96 | quantity 2.5 at price 10000 gives amount 25000 while the line stores quantity 2 |
| SalesOrders.AmountAsWrittenAgreesIffWhole | frontend/src/pages/SalesOrders.jsx:92-96 | the page's amount equals stored quantity × price exactly when the entry is whole or the price is 0 |
| SalesOrders.AddItem | frontend/src/pages/SalesOrders.jsx:75-117 | no item or an unknown id changes nothing; otherwise one line is appended, earlier lines and the rest of the form stay, and the editor is cleared |
| SalesOrders.RemoveItem | frontend/src/pages/SalesOrders.jsx:119-124 | in range, one line fewer and the rest in order; out of range, unchanged; other form fields untouched; lines whose stored amounts were consistent stay consistent |
| SalesOrders.RemoveUndoesAdd | frontend/src/pages/SalesOrders.jsx:105-124 | removing the line just added restores the form |
| SalesOrders.EditsKeepAmountsConsistent | frontend/src/pages/SalesOrders.jsx:92-124 | adding and removing lines keep every stored amount equal to quantity × unit price |
| SalesOrders.SelectItem | frontend/src/pages/SalesOrders.jsx:126-137 | an unlisted id leaves the editor as it was; a listed one takes the id, keeps the quantity, and fills in the catalog price, the rate (empty box iff the catalog has none) and the code (or `''`) |
| SalesOrders.SelectThenAddSnapshotsCatalog | frontend/src/pages/SalesOrders.jsx:84-103 | picking an item and adding it appends a line with the catalog price, rate (or 0), code (or `''`), name, and the amount for the entered quantity |
| SalesOrders.OrderTotals | frontend/src/pages/SalesOrders.jsx:181-185 | total is subtotal plus tax; an empty order totals 0 |
| SalesOrders.OrderTotalsArePriced | frontend/src/pages/SalesOrders.jsx:181-185 | while stored amounts are consistent, the totals equal those priced by quantity × unit price |
| SalesOrders.Submit | frontend/src/pages/SalesOrders.jsx:139-162 | refused iff there are no lines; otherwise the customer, the non-empty texts and every line's id, quantity, price, rate and code, in order |
| SalesOrders.Press | frontend/src/pages/SalesOrders.jsx:294-374 | the browser lets the form submit iff a customer is chosen and the editor's boxes are in range; then `handleSubmit` runs, so an order sent always names a customer |
| SalesOrders.SubmitEnabled | frontend/src/pages/SalesOrders.jsx:501 | the create button is enabled exactly when not busy and a submit would be sent |
| SalesOrders.SubmittedTotalsMatchDisplay | frontend/src/pages/SalesOrders.jsx:147-159 | the totals of the lines sent equal the totals shown while drafting |
| SalesOrders.StatusBadge | frontend/src/pages/SalesOrders.jsx:164-171 | PENDING, ACCEPTED and REJECTED each have their own colour (iff), every other status is gray (the inherited `Object.prototype` names excepted, see Left out) |
| SalesOrders.Actions | frontend/src/pages/SalesOrders.jsx:250-267 | View always; Accept and Reject iff the order is PENDING |
| SalesOrders.Click | frontend/src/pages/SalesOrders.jsx:250-267 | a status change is requested iff a shown Accept or Reject is clicked, for that order, with the matching verb |
| Invoices.ResetForm | frontend/src/pages/Invoices.jsx:65-82 | a direct invoice with no lines, no customer, no order, empty notes and terms, a cleared editor and the given dates |
| Invoices.ResetFormRefused | frontend/src/pages/Invoices.jsx:377-584 | a freshly reset form is refused for lack of lines, its button is disabled, and the browser already stops it for want of a customer |
| Invoices.ResolveLine | frontend/src/pages/Invoices.jsx:101-108 | an added line takes the editor's item id, the quantity truncated toward zero, a filled price or rate box (0 included) over the catalog's, the catalog rate or 0 otherwise, and the catalog name |
| Invoices.AddItem | frontend/src/pages/Invoices.jsx:84-121 | no item or an unknown id changes nothing; otherwise one line is appended, earlier lines, kind and form stay, and the editor is cleared |
| Invoices.RemoveItem | frontend/src/pages/Invoices.jsx:123-128 | in range, one line fewer and the rest in order; out of range, unchanged; other form fields untouched |
| Invoices.RemoveUndoesAdd | frontend/src/pages/Invoices.jsx:110-128 | removing the line just added restores the form |
| Invoices.SelectItem | frontend/src/pages/Invoices.jsx:130-140 | an unlisted id leaves the editor as it was; a listed one takes the id, keeps the quantity, and fills in the catalog price and the rate (empty box iff the catalog has none) |
| Invoices.SelectThenAddSnapshotsCatalog | frontend/src/pages/Invoices.jsx:93-108 | picking an item and adding it appends a line with the catalog price, rate (or 0) and name |
| Invoices.DirectTotals | frontend/src/pages/Invoices.jsx:209-213 | total is subtotal plus tax; no lines give all three 0 |
| Invoices.OrderTotalsMatchDirectTotals | frontend/src/pages/SalesOrders.jsx:181-185 | with consistent stored amounts, an order's totals are the invoice direct totals of the same lines |
| Invoices.ListedTotal | frontend/src/pages/Invoices.jsx:204-207 | 0 for missing lines, otherwise the direct subtotal: the list total never includes tax |
| Invoices.LinesValueIsSubTotal | frontend/src/pages/Invoices.jsx:204-207 | the list's running sum over the lines equals the subtotal of the draft |
| Invoices.AcceptedOrders | frontend/src/pages/Invoices.jsx:216 | the picker offers listed orders only, all ACCEPTED, and every ACCEPTED order |
| Invoices.SalesOrderChange | frontend/src/pages/Invoices.jsx:142-151 | choosing a listed order records it and its customer and nothing else; an unknown id changes nothing |
| Invoices.Submit | frontend/src/pages/Invoices.jsx:153-184 | from-order refused iff no order is chosen, direct refused iff no lines; from-order sends the order and no lines, direct sends every line's id, quantity, price and rate and no order |
| Invoices.Press | frontend/src/pages/Invoices.jsx:353-479 | the browser lets the form submit iff a customer is chosen or locked to the order, an order-based invoice has its order, both dates are given with the due date not before the issue date, and, for a direct invoice only, the editor's boxes are in range; then `handleSubmit` runs and never meets its missing-order refusal |
| Invoices.HiddenEditorNotChecked | frontend/src/pages/Invoices.jsx:418-545 | an order-based invoice with its order and ordered dates is sent whatever the line editor, shown only for direct invoices, holds |
| Invoices.SubmitEnabled | frontend/src/pages/Invoices.jsx:584 | never while busy; for a direct invoice, enabled iff a submit would be sent; always for a from-order one |
| Invoices.ChosenOrderIsSent | frontend/src/pages/Invoices.jsx:357-367 | choosing an offered order and submitting sends that ACCEPTED order with its customer, and locks the customer picker |
| Invoices.StatusBadge | frontend/src/pages/Invoices.jsx:186-194 | PENDING, PAID and OVERDUE each have their own colour (iff); CANCELLED and anything else are gray (the inherited `Object.prototype` names excepted, see Left out) |
| Invoices.Actions | frontend/src/pages/Invoices.jsx:285-293 | View always; Mark as Paid iff the invoice is PENDING |
| Invoices.Click | frontend/src/pages/Invoices.jsx:285-293 | a change to `paid` is requested iff the shown Mark as Paid of a PENDING invoice is clicked, for that invoice |
| Inventory.ResetForm | frontend/src/pages/Inventory.jsx:51-54 | every field empty and nothing being edited |
| Inventory.QuantityOf | frontend/src/pages/Inventory.jsx:62 | the parsed quantity, or 0 when the text does not parse |
| Inventory.NoDigitsSubmitZero | frontend/src/pages/Inventory.jsx:62 | an empty box or text without digits submits quantity 0 |
| Inventory.Normalise | frontend/src/pages/Inventory.jsx:58-64 | name and description as typed; an empty price sent as null; an empty rate as 0; the parsed quantity; the code only when non-empty |
| Inventory.Submit | frontend/src/pages/Inventory.jsx:56-71 | an update of the edited item's id iff an item is being edited, otherwise a create, with the normalised data |
| Inventory.Press | frontend/src/pages/Inventory.jsx:190-242 | the browser lets the form submit iff there is a name, a price from 0, a rate from 0 to 100% if any, and an empty or whole non-negative quantity; what is then sent has a name, a price and no negative quantity |
| Inventory.Edit | frontend/src/pages/Inventory.jsx:73-84 | the form shows the item; a missing description or code is `''`, a missing rate an empty box, a missing quantity `'0'`, and a present quantity reads back as itself |
| Inventory.NumeralReadsBack | frontend/src/pages/Inventory.jsx:80 | the numeral the form shows for a quantity parses back to that quantity |
| Inventory.EditThenSubmitWritesBack | frontend/src/pages/Inventory.jsx:56-84 | saving an unchanged edit updates that item with its own values, a missing rate or quantity as 0, and an empty or missing code left out |
| Inventory.ResetThenSubmitCreatesDefaults | frontend/src/pages/Inventory.jsx:51-64 | on a cleared form `handleSubmit` would build a create with no name, no price, rate 0, quantity 0 and no code; the browser's required checks stop the submit first |

## Left out

- React hooks, react-query queries and mutations, and the HTTP calls are I/O. The model returns the request a submit or click would make (`Submission`, `Mutation`, `StatusUpdate`) instead of sending it.
- Rupee-to-paise conversion (`Math.round(parseFloat(x) * 100)`), the `(price / 100).toString()` prefill and `formatCurrency` are floating-point text conversions. Typed prices are taken as integer paise, and the prefill writes the catalog price itself.
- Tax rates are `parseFloat` in the code, so any fraction of a percent is possible. The model takes rates in hundredths of a percent.
- The tax sum is computed in binary floating point by the page. The model's exact sum ignores its rounding error.
- Default dates come from `Date.now()`. `Invoices.ResetForm` takes them as parameters.
- `Modal`, the tables, and `alert`/`window.confirm` are UI. A refusal is modelled as `Refused(error)`. The inventory page's delete only asks for confirmation and then issues a delete request, so it is left out.
- `backend/src/components/Sidebar.jsx` is navigation UI and is not part of this model.
- Server-side status transitions, number allocation, the order-to-invoice conversion and concurrency do not appear in these files. The model covers only the buttons the pages show.
- Values.Trunc: an empty quantity box (`NaN`), exponent-notation entries such as `1e3`, and entries with a leading point such as `.5` or `-.5` (where `parseInt` gives `NaN`, not 0) are not modelled. The entry is the plain decimal number it denotes, and its whole part is what is stored.
- Numerals.IntToString, Numerals.ParseIntOfNumeral, Inventory.Edit and Inventory.NumeralReadsBack: integers are unbounded here, while the page holds them as doubles. From 10^21 on, `toString` writes exponent form (`1e+21`), and `parseInt` of a numeral above 2^53 rounds to the nearest double. So the read-back holds on the page only for magnitudes below 2^53.
- Totals.Compute: sums of amounts are exact here. The page's sums are exact only while they stay below 2^53 paise.
- Badges.Badge: the page indexes a plain object, so a status naming an inherited `Object.prototype` member (`constructor`, `toString`, `valueOf`, `hasOwnProperty`, `__proto__` and the like) finds that member, which is truthy, and the page uses its text as the class. The model gives such a status the gray classes.
- SalesOrders.StatusBadge: the same `Object.prototype` names (`constructor`, `toString` and the like) are not gray on the page but are gray here.
- Invoices.StatusBadge: the same `Object.prototype` names (`constructor`, `toString` and the like) are not gray on the page but are gray here.
- Invoices.Press, SalesOrders.Press and Inventory.Press: the browser's constraint checks are modelled as the `required`, `min` and `max` attributes, and the quantities' default whole-number step. Date inputs are taken to hold well-formed `YYYY-MM-DD` text. The inventory quantity box is taken to hold plain digits. Browsers also accept `1.0`, `1e2` or `-0` there, which this model rejects. The price and rate `step="0.01"` always holds for integer paise and hundredths.
- Invoices.Submit, SalesOrders.Submit and Inventory.Submit model `handleSubmit` alone, on any form. The browser checks run before it, in the `Press` members, so some inputs these accept (no customer, no dates, an inventory item without a name or price) never reach it on the page.
- Numerals.ParseInt: white space beyond ASCII space, tab, line feed, carriage return, vertical tab and form feed is not skipped. A `0x` prefix is not read as hexadecimal. Neither can come from a number input.
- The customer list, the customer picker's own `onChange`, and the view modal only display data, and are not modelled.

## Findings

| source | as written | input that shows it | evidently intended | confidence | as-written member | corrected member |
|---|---|---|---|---|---|---|
| frontend/src/pages/SalesOrders.jsx:92-96 | the stored `amount` is the raw quantity entry times the price, but the stored `quantity` is `parseInt` of that entry | quantity `2.5`, price 10000 paise: amount 25000 is stored with quantity 2, so the subtotal (sum of amounts) disagrees with quantity × price and with the invoice direct totals of the same lines | amount = stored quantity × unit price | not executed | SalesOrders.AmountAsWrittenCounterexample | SalesOrders.ResolveLine |

`SalesOrders.AmountAsWrittenAgreesIffWhole` shows the two agree exactly for whole entries (or a zero price). The model's `AddItem` uses the corrected `ResolveLine`. `SalesOrders.EditsKeepAmountsConsistent` proves that the invariant amount = quantity × unit price survives every add and remove. `Invoices.OrderTotalsMatchDirectTotals` then makes the order's totals agree with the invoice's.
