/** The records the cart store works on. The product record belongs to the
    catalogue; the cart reads only its id, its list price and its optional
    discounted price. Prices are whole currency units. */
module Types {

  datatype Option<+T> = None | Some(value: T)

  /** A catalogue product as the cart sees it. */
  datatype Product = Product(id: string, price: int, discountPrice: Option<int>)

  /** One line of the cart: a product and how many of it are wanted. */
  datatype CartEntry = CartEntry(product: Product, quantity: int)
}
