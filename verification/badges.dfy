/**
 Status badges. Each document page keeps a table from status to colour
 classes and shows the gray classes for a status its table does not list.
 */
module Badges {
  const Yellow: string := "bg-yellow-100 text-yellow-800"
  const Green: string := "bg-green-100 text-green-800"
  const Red: string := "bg-red-100 text-red-800"
  /** Also the fallback for a status a page does not know. */
  const Gray: string := "bg-gray-100 text-gray-800"

  /** `badges[status] || gray`: the listed classes, or gray for an unlisted status. */
  function Badge(table: map<string, string>, status: string): (r: string)
    ensures status in table ==> r == table[status]
    ensures status !in table ==> r == Gray
  {
    if status in table then table[status] else Gray
  }
}
