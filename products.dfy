/**
 * The catalogue record shared by the cart and the product list.
 * Prices and ratings are Kotlin `Double`s in the app; only `+`, `*` and
 * comparisons are applied to them, so they are modelled as `real`.
 */
module Products {
  datatype Rating = Rating(rate: real, count: int)

  datatype Product = Product(
    id: int,
    title: string,
    price: real,
    description: string,
    category: string,
    image: string,
    rating: Rating)
}
