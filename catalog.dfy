/** The product record the storefront reads from the document store. */
module Catalog {
  import opened Wrappers

  /** One customer review; only its rating is used. */
  datatype Review = Review(rating: real)

  /**
   * A product's `brand` field: either a bare label or a record exposing an
   * optional `name`.
   */
  datatype Brand = BrandLabel(text: string) | BrandRecord(name: Option<string>)

  /**
   * A catalogue product. Prices, discounts (a percentage) and `createdAt`
   * (a timestamp) are integers; `productType` and `brand` may be absent.
   */
  datatype Product = Product(
    id: string,
    title: string,
    price: int,
    discount: int,
    status: string,
    productType: Option<string>,
    parent: string,
    children: string,
    brand: Option<Brand>,
    featured: bool,
    createdAt: int,
    reviews: seq<Review>)

  /** JavaScript truthiness of an optional string: present and non-empty. */
  predicate Truthy(s: Option<string>) {
    s.Some? && s.value != ""
  }
}
