/**
 The inventory catalog as the document pages see it, and the snapshot rules
 both pages apply when a line is added: what the line editor holds wins over
 the catalog, except where the editor was left blank.
 */
module Catalog {
  import opened Values
  import Lists

  /**
   An inventory item as the server lists it. Prices are in paise, tax rates in
   hundredths of a percent (1800 is 18%). The optional fields may be missing.
   */
  datatype InventoryItem = InventoryItem(
    id: string,
    name: string,
    description: Option<string>,
    unitPrice: int,
    taxRate: Option<int>,
    quantity: Option<int>,
    hsnOrSacCode: Option<string>)

  function ItemId(item: InventoryItem): string {
    item.id
  }

  /**
   The item the line editor refers to: nothing when no item is chosen (the id
   is `''`), otherwise the first catalog entry carrying that id, if any.
   */
  function Selected(inventory: seq<InventoryItem>, id: string): (r: Option<InventoryItem>)
    ensures r.Some? ==> id != "" && r.value in inventory && r.value.id == id
    ensures r.None? <==> id == "" || forall k :: 0 <= k < |inventory| ==> inventory[k].id != id
    ensures r.Some? ==>
      exists k :: 0 <= k < |inventory| && inventory[k] == r.value && forall j :: 0 <= j < k ==> inventory[j].id != id
  {
    if id == "" then None else Lists.Find(inventory, ItemId, id)
  }

  /** `item.taxRate || 0`: a missing catalog rate counts as zero. */
  function CatalogTaxRate(item: InventoryItem): (r: int)
    ensures item.taxRate.Some? ==> r == item.taxRate.value
    ensures item.taxRate.None? ==> r == 0
  {
    item.taxRate.GetOr(0)
  }

  /** `item.hsnOrSacCode || ''`: a missing catalog code counts as the empty code. */
  function CatalogCode(item: InventoryItem): (r: string)
    ensures item.hsnOrSacCode.Some? ==> r == item.hsnOrSacCode.value
    ensures item.hsnOrSacCode.None? ==> r == ""
  {
    item.hsnOrSacCode.GetOr("")
  }

  /** The unit price a new line takes: the editor's price when one is entered, else the catalog's. */
  function ResolveUnitPrice(entered: Field<int>, item: InventoryItem): (r: int)
    ensures entered.Filled? ==> r == entered.value
    ensures entered.Blank? ==> r == item.unitPrice
  {
    match entered
    case Filled(p) => p
    case Blank => item.unitPrice
  }

  /**
   The tax rate a new line takes: the editor's rate whenever the box is not
   empty, so an explicit 0 is kept; otherwise the catalog rate, or 0.
   */
  function ResolveTaxRate(entered: Field<int>, item: InventoryItem): (r: int)
    ensures entered.Filled? ==> r == entered.value
    ensures entered.Blank? ==> r == CatalogTaxRate(item)
  {
    match entered
    case Filled(rate) => rate
    case Blank => CatalogTaxRate(item)
  }

  /** The HSN/SAC code a new line takes: the editor's code if non-empty, else the catalog's, else `''`. */
  function ResolveCode(entered: string, item: InventoryItem): (r: string)
    ensures entered != "" ==> r == entered
    ensures entered == "" ==> r == CatalogCode(item)
  {
    if entered != "" then entered else CatalogCode(item)
  }

  /**
   A value typed into the editor does not depend on the catalog at all: two
   catalog items, however different, resolve a filled field to the same value.
   */
  lemma EnteredValuesIgnoreCatalog(price: int, rate: int, code: string, a: InventoryItem, b: InventoryItem)
    requires code != ""
    ensures ResolveUnitPrice(Filled(price), a) == ResolveUnitPrice(Filled(price), b) == price
    ensures ResolveTaxRate(Filled(rate), a) == ResolveTaxRate(Filled(rate), b) == rate
    ensures ResolveCode(code, a) == ResolveCode(code, b) == code
  {
  }

  /** What picking an item writes into the editor's price box (its catalog price). */
  function PrefillPrice(item: InventoryItem): (f: Field<int>)
    ensures f.Filled? && f.value == item.unitPrice
  {
    Filled(item.unitPrice)
  }

  /** `item.taxRate?.toString() || ''`: the catalog rate, or an empty box when there is none. */
  function PrefillTaxRate(item: InventoryItem): (f: Field<int>)
    ensures f.Blank? <==> item.taxRate.None?
    ensures f.Filled? ==> f.value == item.taxRate.value
  {
    match item.taxRate
    case Some(rate) => Filled(rate)
    case None => Blank
  }

  /** `item.hsnOrSacCode || ''` */
  function PrefillCode(item: InventoryItem): (code: string)
    ensures item.hsnOrSacCode.None? ==> code == ""
    ensures item.hsnOrSacCode.Some? ==> code == item.hsnOrSacCode.value
  {
    CatalogCode(item)
  }

  /**
   Picking an item and adding it untouched snapshots exactly the catalog
   values: the prefill and the resolution rules agree.
   */
  lemma PrefillResolvesToCatalog(item: InventoryItem)
    ensures ResolveUnitPrice(PrefillPrice(item), item) == item.unitPrice
    ensures ResolveTaxRate(PrefillTaxRate(item), item) == CatalogTaxRate(item)
    ensures ResolveCode(PrefillCode(item), item) == CatalogCode(item)
  {
  }
}
