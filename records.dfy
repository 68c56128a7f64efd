/**
 The product record that the record store hands to the statistics route and to
 the dashboard components, and the JavaScript value rules they share.
 */
module Records {

  datatype Option<+T> = None | Some(value: T)

  /** One product record. Money is exact (`real`); quantities are unbounded
      integers, because nothing between the store and the statistics route
      enforces `0 <= soldQuantity <= quantity`. `day` is the `YYYY-MM-DD`
      prefix of the record's creation timestamp, taken as given. */
  datatype Product = Product(
    costPrice: real,
    sellingPrice: Option<real>,
    quantity: int,
    soldQuantity: int,
    status: string,
    day: string)

  /** JavaScript truthiness of a nullable price: `null` and `0` are both falsy. */
  predicate HasPrice(price: Option<real>)
  {
    price.Some? && price.value != 0.0
  }

  /** The expression `price || 0`. */
  function PriceOrZero(price: Option<real>): real
  {
    if HasPrice(price) then price.value else 0.0
  }
}
