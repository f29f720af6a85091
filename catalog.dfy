/** The product catalogue as the cart and order endpoints see it, and the
    sort rule of the product listing. */
module Catalog {
  import opened Common

  type ProductId = string

  /** The fields of a catalogue product that the modelled endpoints read:
      its name and price. Every seeded price is a whole number of rupees, so
      prices are integers. */
  datatype Product = Product(name: string, price: int)

  type Products = map<ProductId, Product>

  /** Fields the product listing may be sorted by. */
  const SortableFields: seq<string> := ["price", "rating", "created_at", "name"]

  const DefaultSortField := "created_at"

  /** The field the product listing sorts by: the requested one when it is
      whitelisted, `created_at` otherwise (also when no field was given). */
  function SortField(sortBy: Option<string>): (field: string)
    ensures field in SortableFields
    ensures sortBy.Some? && sortBy.value in SortableFields ==> field == sortBy.value
    ensures sortBy.None? || sortBy.value !in SortableFields ==> field == DefaultSortField
  {
    if sortBy.Some? && sortBy.value in SortableFields then sortBy.value else DefaultSortField
  }

  /** The sort direction in the database's convention: -1 (descending) for
      `rating` and `created_at`, 1 (ascending) for every other field. */
  function SortDirection(field: string): (direction: int)
    ensures direction == 1 || direction == -1
    ensures direction == -1 <==> field == "rating" || field == "created_at"
  {
    if field in ["rating", "created_at"] then -1 else 1
  }

  /** The default listing shows the newest products first; a price or name
      listing is ascending; a rejected field falls back to newest first. */
  lemma ListingOrder(sortBy: Option<string>)
    ensures sortBy.None? ==> SortDirection(SortField(sortBy)) == -1
    ensures sortBy == Some("price") || sortBy == Some("name") ==> SortDirection(SortField(sortBy)) == 1
    ensures sortBy.Some? && sortBy.value !in SortableFields ==> SortField(sortBy) == "created_at" && SortDirection(SortField(sortBy)) == -1
  {
  }
}
