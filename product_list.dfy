/** The product list page: the three-way stock class shown on each row. */
module ProductList {
  import ProductDetail

  /** Position of a class in the order low < medium < high. */
  function Rank(level: string): int
  {
    if level == "high" then 2 else if level == "medium" then 1 else 0
  }

  /** `getStockStatus`: above 50 is high, above 10 is medium, anything
      else, zero and negative stock included, is low. */
  function GetStockStatus(stock: int): (level: string)
    ensures level == "high" <==> stock > 50
    ensures level == "medium" <==> 10 < stock <= 50
    ensures level == "low" <==> stock <= 10
  {
    if stock > 50 then "high"
    else if stock > 10 then "medium"
    else "low"
  }

  /** More stock never gives a lower class. */
  lemma GetStockStatusMonotone(a: int, b: int)
    requires a <= b
    ensures Rank(GetStockStatus(a)) <= Rank(GetStockStatus(b))
  {
  }

  /** The list page and the detail page agree exactly when there is stock;
      at zero or below the detail page says "out" and the list says "low". */
  lemma AgreesWithDetail(stock: int)
    ensures GetStockStatus(stock) == ProductDetail.GetStockStatus(stock).className <==> stock > 0
    ensures stock <= 0 ==> GetStockStatus(stock) == "low" && ProductDetail.GetStockStatus(stock).className == "out"
  {
  }
}
