# Product catalog and cart: a Dafny model

This project models the logic of a small product-management system. It has
two halves.

- **The HTTP service** (`03_python_fastapi_project/main.py`) keeps a
  `products` table. Its five route handlers create, list, get, update and
  delete rows. The model treats the table as a map from product id to a
  stored row (`Catalog.Row`). Each handler is one atomic step on that map,
  written as a method of the class `Catalog.ProductTable`.
- **The browser client** (an Angular app) has three parts:
  - The cart service keeps the cart items and their count. It is the class
    `CartState.CartService`: a `seq` of items plus a count field. Its
    invariant `Valid()` says the count is the total quantity.
  - The cart panel reads the service's list (the same object, not a copy)
    and has an expanded/collapsed flag. It is the class
    `CartPanel.CartComponent`.
  - The product pages classify stock into badges. These are pure functions
    in `ProductDetail` and `ProductList`.

Shared records are in `Models`: the product as the service returns it (the
same shape the client's `Product` interface has), the cart item, `Option`
and `Result`.

The main properties proved:

- Frame conditions for the table: create adds exactly one row under a
  fresh id; delete removes exactly one row; update rewrites exactly one row.
  Every other row is left alone.
- An omitted stock is stored as 0 on create.
- Update works as a field-wise merge. Only present fields overwrite; an
  update with no fields is the identity; applying an update twice is the
  same as once; a stored description can never be cleared.
- Get, update and delete return 404 NotFound, with the source's detail
  text, when the id is absent. The table is then unchanged.
- List returns one view per stored row, in some order.
- The cart's add is an upsert by product. It keeps at most one item per
  product.
- Remove filters by cart-item id and keeps the order of the rest.
- After every change the service's count is the total quantity, and the
  panel's total always equals it.
- Both stock classifiers are given as exact thresholds and are monotone.
  The two pages agree exactly when stock is positive.

Some things a product catalog with a cart might be expected to do are not
in the code, so the model does not have them:

- There is no server-side cart and no stock reservation. `main.py` has only
  the product routes and the root route. The `Product` table in
  `03_python_fastapi_project/database.py:24-31` has no `reserved_stock`
  column, and there is no cart table.
- Deleting a product therefore removes only its row. Nothing cascades.
- Listing products never fails. With no rows it returns an empty list.
  Only get, update and delete can answer 404.

Files: `models.dfy`, `catalog.dfy`, `cart_service.dfy`, `cart_component.dfy`,
`product_detail.dfy`, `product_list.dfy`.

## Model

| member | source | states |
|---|---|---|
| `Catalog.ProductTable.constructor` | 03_python_fastapi_project/database.py:24-31 | the table starts empty and the id counter starts at 1 |
| `Catalog.ProductTable.Create` | 03_python_fastapi_project/main.py:81-101 | the new id was not in the table before; the keys grow by exactly that id; every existing row is unchanged; the new row carries the request's name, price and description, and its stock is the request's stock or 0 when omitted; the response is the view of the stored row |
| `Catalog.ProductTable.GetAll` | 03_python_fastapi_project/main.py:64-79 | one view per stored row: as many views as rows, their ids are exactly the table's keys and pairwise distinct, and each view has that row's fields; the order is not fixed |
| `Catalog.ProductTable.Get` | 03_python_fastapi_project/main.py:133-147 | succeeds exactly when the id is stored, with the stored fields; otherwise NotFound "Product not found by ID" |
| `Catalog.ProductTable.Update` | 03_python_fastapi_project/main.py:103-131 | absent id: NotFound "Product not found" and the table unchanged; present id: only that row changes, and it becomes the merge of the old row with the request; the response shows the new row |
| `Catalog.ProductTable.Delete` | 03_python_fastapi_project/main.py:149-158 | succeeds exactly when the id was stored; the keys lose exactly that id and every other row is unchanged; absent id: NotFound "Product not found by ID" and the table unchanged |
| `Catalog.ViewOf` | 03_python_fastapi_project/main.py:70-78 | reference definition of the response body built from a stored row: it carries the row's id, and the stored row can be read back from it unchanged, so no stored field is lost or altered |
| `Catalog.Merge` | 03_python_fastapi_project/main.py:112-119 | reference definition of the partial update: a present field overwrites, an absent one keeps the stored value; proved: the update leaves the row as it was exactly when every present field already equals the stored one |
| `Catalog.MergeNoChange` | 03_python_fastapi_project/main.py:112-119 | an update with every field absent leaves the row as it was |
| `Catalog.MergeIdempotent` | 03_python_fastapi_project/main.py:112-119 | applying the same update twice gives the same row as applying it once |
| `Catalog.MergeKeepsDescription` | 03_python_fastapi_project/main.py:116-117 | a stored description stays present after any update, and is unchanged when the request omits it, so it cannot be cleared |
| `Catalog.MergeCompose` | 03_python_fastapi_project/main.py:112-119 | two successive updates equal one update taking each field from the second when present, else from the first |
| `Catalog.UpdateThenGet` | 03_python_fastapi_project/main.py:103-147 | a get after a successful update returns exactly the response of the update; after a failed update the get fails too; a get of any other id returns the same before and after |
| `CartState.Sum` | 05_design/product-management-app/src/app/services/cart.service.ts:21 | reference definition of the total quantity of a list: 0 for an empty list, and never negative when no quantity is |
| `CartState.ReduceIsSum` | 05_design/product-management-app/src/app/services/cart.service.ts:46 | the source's left-to-right `reduce` over `quantity` from 0 gives the same total as `Sum`, for every list |
| `CartState.FindIndex` | 05_design/product-management-app/src/app/services/cart.service.ts:33 | the result is -1 exactly when no item has the product; otherwise it is an index holding the product with none before it |
| `CartState.Upsert` | 05_design/product-management-app/src/app/services/cart.service.ts:33-43 | when the first item for the product is at k, the result is the list with position k replaced by the new item; when no item has the product, the result is the list with the item appended |
| `CartState.UpsertKeepsUniqueProducts` | 05_design/product-management-app/src/app/services/cart.service.ts:33-42 | if no two items shared a product before an add, none do after |
| `CartState.UpsertSum` | 05_design/product-management-app/src/app/services/cart.service.ts:33-46 | after an add the total quantity has the replaced item's quantity swapped for the new one's, or the new quantity added when it was appended |
| `CartState.Filter` | 05_design/product-management-app/src/app/services/cart.service.ts:62 | no kept item has the id; an item is kept exactly when it was in the list with another id; the result is the list minus as many items as carried the id, in the original relative order |
| `CartState.FilterAbsent` | 05_design/product-management-app/src/app/services/cart.service.ts:62-64 | removing an id that no item has returns the list unchanged |
| `CartState.FilterUniqueSum` | 05_design/product-management-app/src/app/services/cart.service.ts:62-64 | removing the only item with an id lowers the total quantity by exactly that item's quantity |
| `CartState.CartService.constructor` | 05_design/product-management-app/src/app/services/cart.service.ts:14-15 | the cart starts empty with count 0 |
| `CartState.CartService.GetCart` | 05_design/product-management-app/src/app/services/cart.service.ts:17-24 | the fetched list replaces the held one wholesale, and the count is its total quantity |
| `CartState.CartService.AddToCart` | 05_design/product-management-app/src/app/services/cart.service.ts:26-55 | when an item for the product exists, the first such position holds the new item and the length and every other position are unchanged; otherwise the item is appended; at most one item per product is kept; the count is the new total |
| `CartState.CartService.RemoveFromCart` | 05_design/product-management-app/src/app/services/cart.service.ts:57-69 | the list becomes the filtered list; the count is its total; an id no item has leaves list and count unchanged |
| `CartState.CartService.ClearCart` | 05_design/product-management-app/src/app/services/cart.service.ts:71-78 | the list is empty and the count is 0 |
| `CartPanel.CartComponent.constructor` | 05_design/product-management-app/src/app/components/cart/cart.component.ts:16-17 | the panel shows the given service's list and starts collapsed |
| `CartPanel.CartComponent.ToggleCart` | 05_design/product-management-app/src/app/components/cart/cart.component.ts:31-33 | the expanded flag is negated |
| `CartPanel.CartComponent.ToggleCartTwice` | 05_design/product-management-app/src/app/components/cart/cart.component.ts:31-33 | toggling twice restores the flag |
| `CartPanel.CartComponent.GetTotalItems` | 05_design/product-management-app/src/app/components/cart/cart.component.ts:59-61 | the panel's total is 0 for an empty cart and equals the service's count whenever the service's invariant holds |
| `CartPanel.CartComponent.LoadCart` | 05_design/product-management-app/src/app/components/cart/cart.component.ts:23-29 | the fetched list becomes the service's list, and the panel total equals the count |
| `CartPanel.CartComponent.RemoveItem` | 05_design/product-management-app/src/app/components/cart/cart.component.ts:35-42 | the service's list is filtered by the id; when exactly one item had the id, the panel total falls by that item's quantity |
| `CartPanel.CartComponent.ClearCart` | 05_design/product-management-app/src/app/components/cart/cart.component.ts:44-53 | when confirmed, the cart is empty and the total is 0; when not, nothing changes |
| `ProductDetail.GetStockStatus` | 05_design/product-management-app/src/app/components/product-detail/product-detail.component.ts:50-55 | class `high` exactly when stock > 50, `medium` exactly when 10 < stock <= 50, `low` exactly when 0 < stock <= 10, `out` exactly when stock <= 0; the badge is one of the four text/class pairs |
| `ProductDetail.GetStockStatusMonotone` | 05_design/product-management-app/src/app/components/product-detail/product-detail.component.ts:50-55 | a larger stock never gives a lower class in the order out < low < medium < high |
| `ProductDetail.GetTotalValue` | 05_design/product-management-app/src/app/components/product-detail/product-detail.component.ts:57-60 | reference definition of the stock value: 0 when no product is loaded, otherwise price times stock |
| `ProductDetail.TotalValueMatchesBadge` | 05_design/product-management-app/src/app/components/product-detail/product-detail.component.ts:50-60 | for a product with a positive price, the stock value is positive exactly when the badge is not `out` |
| `ProductDetail.TotalValueMonotone` | 05_design/product-management-app/src/app/components/product-detail/product-detail.component.ts:57-60 | for a product with a non-negative price, more stock never gives a smaller stock value |
| `ProductList.GetStockStatus` | 05_design/product-management-app/src/app/components/product-list/product-list.component.ts:43-47 | `high` exactly when stock > 50, `medium` exactly when 10 < stock <= 50, `low` exactly when stock <= 10, zero and negatives included |
| `ProductList.GetStockStatusMonotone` | 05_design/product-management-app/src/app/components/product-list/product-list.component.ts:43-47 | a larger stock never gives a lower class in the order low < medium < high |
| `ProductList.AgreesWithDetail` | 05_design/product-management-app/src/app/components/product-list/product-list.component.ts:43-47 | the list class equals the detail class exactly when stock > 0; at stock <= 0 the list says `low` and the detail page says `out` |

## Left out

- Server-side stock reservation (`reserved_stock`), server cart routes, and deletes that cascade to cart items: none of these is in the code. `main.py` has only product routes, and the table definition has no such column or table.
- Catalog.ProductTable.Create: ids come from a counter kept above every stored id. This is the behaviour of a database sequence. Only freshness is claimed. The way SQLite reuses the largest id after that row is deleted is not modelled.
- Catalog.ProductTable.GetAll: the order of the views is left open, because the query has no ORDER BY.
- The welcome message of the root route (`main.py:60-62`): a constant with no logic.
- Floating point. Prices are whole numbers throughout, as in the integer `price` column. The `float(...)` conversion in responses, fractional prices, the cart's `totalPrice` and `getTotalPrice` are not modelled.
- Integer width. A database integer column and a JavaScript number have limits; the model's integers are unbounded. Non-integer or NaN stock values in the client are not modelled either.
- HTTP, async database sessions, commit and refresh, request validation (422), CORS, startup and table creation: the plumbing around each handler. Each handler is one atomic step.
- Failed requests in the client. The service updates its local state only in the success callback. The model's methods are those callbacks, and the server's answer is their parameter. A failed request only logs, so it changes nothing, and it has no method.
- The `confirm` dialog in the cart panel's clear: its answer is a parameter of `CartPanel.CartComponent.ClearCart`.
- Page loading, navigation and deletion on the product pages (`loadProduct`, `loadProducts`, `editProduct`, `deleteProduct`, `viewProduct`, `addNewProduct`, `goBack`, `ngOnInit`): HTTP calls, router navigation, dialogs and alerts, with no local logic beyond setting the loaded value.
- The product form (Angular validators), the database migration script, database engine and session setup, and the root app component: library wrappers, I/O or trivial.
