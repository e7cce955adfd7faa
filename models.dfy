/** Shared value types of the product-management system: the optional and
    result wrappers used by every operation, and the two records exchanged
    between the HTTP service and the browser client (a product and a cart
    item). Prices are whole numbers throughout, as in the `products` table,
    whose `price` column is an integer. */
module Models {

  /** A value that may be absent (Python's `None`, TypeScript's `null`). */
  datatype Option<T> = None | Some(value: T) {
    /** The carried value, or `default` when there is none. */
    function GetOr(default: T): T
    {
      match this
      case Some(v) => v
      case None => default
    }
  }

  /** Either the value an operation produced or the error it raised. */
  datatype Result<T, E> = Success(value: T) | Failure(error: E)

  /** A product as the service returns it and the client holds it:
      ProductResponseDTO on the server, the Product interface in the client. */
  datatype Product = Product(
    id: int,
    name: string,
    price: int,
    description: Option<string>,
    stock: int)

  /** One line of the shopping cart as the client holds it. */
  datatype CartItem = CartItem(
    id: int,
    productId: int,
    productName: string,
    productPrice: int,
    quantity: int,
    totalPrice: int)
}
