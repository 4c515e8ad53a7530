/**
 * Catalogue entities shared by the cart, checkout and navigation models.
 * Prices are integers (for instance euro cents) so that every total is exact.
 */
module Catalog {
  import opened Wrappers

  datatype Category = Category(id: int, name: string)

  /**
   * A product of the catalogue. `category` is optional because the
   * navigation code tolerates a product without one.
   */
  datatype Product = Product(
    id: int,
    title: string,
    price: int,
    category: Option<Category>,
    images: seq<string>
  )
}
