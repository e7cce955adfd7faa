/** The product detail page: the four-way stock badge and the stock value
    of the product on display. */
module ProductDetail {
  import opened Models

  /** The badge shown next to the stock figure. */
  datatype StockStatus = StockStatus(text: string, className: string)

  const InStock := StockStatus("\U{2713} In Stock", "high")
  const LowStock := StockStatus("\U{26A0} Low Stock", "medium")
  const VeryLowStock := StockStatus("\U{26A0} Very Low Stock", "low")
  const OutOfStock := StockStatus("\U{2717} Out of Stock", "out")

  /** Position of a badge class in the order out < low < medium < high. */
  function Rank(className: string): int
  {
    if className == "high" then 3
    else if className == "medium" then 2
    else if className == "low" then 1
    else 0
  }

  /** `getStockStatus`: above 50 is in stock, above 10 is low, above 0 is
      very low, anything else is out of stock. */
  function GetStockStatus(stock: int): (s: StockStatus)
    ensures s.className == "high" <==> stock > 50
    ensures s.className == "medium" <==> 10 < stock <= 50
    ensures s.className == "low" <==> 0 < stock <= 10
    ensures s.className == "out" <==> stock <= 0
    ensures s in {InStock, LowStock, VeryLowStock, OutOfStock}
  {
    if stock > 50 then InStock
    else if stock > 10 then LowStock
    else if stock > 0 then VeryLowStock
    else OutOfStock
  }

  /** More stock never gives a lower badge. */
  lemma GetStockStatusMonotone(a: int, b: int)
    requires a <= b
    ensures Rank(GetStockStatus(a).className) <= Rank(GetStockStatus(b).className)
  {
  }

  /** `getTotalValue`: price times stock of the loaded product, 0 while no
      product is loaded. */
  function GetTotalValue(product: Option<Product>): (v: int)
    ensures product.None? ==> v == 0
    ensures product.Some? ==> v == product.value.price * product.value.stock
  {
    match product
    case None => 0
    case Some(p) => p.price * p.stock
  }

  /** For a product with a positive price, the stock value is positive
      exactly when the badge is not "out of stock". */
  lemma TotalValueMatchesBadge(p: Product)
    requires p.price > 0
    ensures GetTotalValue(Some(p)) > 0 <==> GetStockStatus(p.stock).className != "out"
  {
    if p.stock > 0 {
      ProductSign(p.price, p.stock);
    } else {
      ProductSign(p.price, -p.stock);
      assert p.price * p.stock == -(p.price * -p.stock);
    }
  }

  /** A positive factor keeps the sign of the other one. */
  lemma ProductSign(a: int, b: int)
    requires a > 0
    ensures b > 0 ==> a * b > 0
    ensures b >= 0 ==> a * b >= 0
  {
  }

  /** For a product with a non-negative price, more stock never gives a
      smaller stock value. */
  lemma TotalValueMonotone(p: Product, stock: int)
    requires p.price >= 0
    requires p.stock <= stock
    ensures GetTotalValue(Some(p)) <= GetTotalValue(Some(p.(stock := stock)))
  {
    assert p.price * stock - p.price * p.stock == p.price * (stock - p.stock);
    assert p.price * (stock - p.stock) >= 0;
  }
}
