# Shopping cart and checkout of an Express/Mongoose shop server

The server keeps three stores: a product catalogue, one cart per user, and a list of
orders. Reading the cart and adding to it create the user's cart when there is none;
updating, removing and clearing answer NotFound without one. The cart routes merge a
product into an existing line or append a new line, overwrite a line's quantity, filter
a product out, or empty the cart, and they recompute the stored total each time. Checkout takes that
cart and does the following, in order:

1. checks every line against the stock;
2. snapshots the lines into an order with an `ORD-<timestamp>-<random>` number;
3. decrements each product's stock once per line;
4. empties the cart.

The catalogue list route builds a filter document from the query string and sorts and
pages the result. Single-product reads hide soft-deleted products, and delete only
clears `isActive`.

This project models these stores in Dafny.

- The `Shop` class (module `Store`) holds them as a `map` of products, a `map` of `Cart`
  objects and a `seq` of orders. Each route handler is a method; the handlers that change a
  store update it in place, and each says which carts the store holds afterwards: the
  old ones plus any it creates. The handlers that can fail return a `Result`; `GetCart` always answers a
  `CartState`. The errors are NotFound, InsufficientStock,
  OutOfStockFor(name), InvalidArgument, EmptyCart and Forbidden.
- The `Cart` class (module `CartModel`) holds the lines and the stored total, and
  `CalculateTotal` assigns the fold to the field.
- The routes' pure logic lives in functions, and the route methods are proved against
  it:
  - line lookup, merge/append, overwrite and filter (`CartModel`);
  - stock validation, the order snapshot, the order number and the stock decrements
    (`Orders`);
  - the list filter and sort flag (`Catalog`);
  - pagination arithmetic (`Paging`).

Prices are integer cents. The user id and role, the clock reading and the random
number's base-36 text are method parameters.

Each method is specified against the state it starts from. For example:

- `Add` ends in exactly the state `AddLine` describes. A missing or inactive product
  and short stock fail before any write. A failure of the line merge (the schema's
  `min: 1`) leaves only the cart that was created for it. The invariant "quantities at least 1, one line per product, stored total
  equals the sum" is kept.
- `Checkout`, on success, appends exactly one order. The order's lines are the cart's
  lines in order, at their own prices. Each product's stock is decremented exactly by its
  line's quantity and stays at least 0, other products are untouched, and the cart is
  emptied.
- On any checkout failure, nothing changes.

## Model

| member | source | states |
|---|---|---|
| CartModel.Total | models/Cart.js:38-40 | the reduce starts from 0, so an empty cart totals 0; TotalIsSum ties it to the sum taken from the front |
| CartModel.TotalConcat | models/Cart.js:38-40 | the reduce of price*quantity is additive over concatenated line lists |
| CartModel.TotalAppend | models/Cart.js:38-40 | pushing a line adds exactly its price times its quantity to the total |
| CartModel.TotalIsSum | models/Cart.js:38-40 | the left fold equals the sum of price*quantity taken from the front |
| CartModel.TotalUpdate | models/Cart.js:38-40 | replacing one line changes the total by the difference of the two line amounts |
| CartModel.Cart.constructor | models/Cart.js:21-32 | a new cart belongs to its user, has no lines and total 0, and is valid |
| CartModel.Cart.CalculateTotal | models/Cart.js:37-42 | stores the sum of price*quantity in totalAmount, returns that same value, and leaves the lines unchanged |
| CartModel.IndexOf | routes/cart.js:46-48 | findIndex: -1 exactly when no line has the product, otherwise the first line that has it |
| CartModel.QuantityOfDistinct | routes/cart.js:46-63 | with one line per product, a product's unit count is its line's quantity, or 0 |
| CartModel.QuantityOfUpdate | routes/cart.js:56 | overwriting one line moves only that line's product count |
| CartModel.Requested | routes/cart.js:29 | the body's quantity, or 1 when it has none |
| CartModel.AddLine | routes/cart.js:46-63 | a failure is only InsufficientStock or InvalidArgument; a success has the old number of lines or one more |
| CartModel.AddLineOutcome | routes/cart.js:50-63 | an add succeeds exactly when the product's new count lies in 1..stock; stock short of it is InsufficientStock, a count below 1 is InvalidArgument |
| CartModel.AddLineQuantities | routes/cart.js:50-63 | a successful add raises the added product's count by the requested quantity and leaves every other count alone |
| CartModel.AddLineShape | routes/cart.js:50-63 | a merged line keeps its price and gains the quantity; an appended line is the only new line, at the current price; other lines are untouched; one line per product and quantities at least 1 are kept |
| CartModel.AddLineTotal | routes/cart.js:50-66 | after an add the total grows by the quantity times the price of the product's line |
| CartModel.SetQuantity | routes/cart.js:102-110 | NotFound exactly when no line has the product; otherwise the same number of lines, with the product's line at the new quantity |
| CartModel.SetQuantityEffect | routes/cart.js:102-110 | update fails exactly when the product has no line; otherwise that product's count becomes q, other counts, every price and every other line stay |
| CartModel.Without | routes/cart.js:134-136 | the filtered lines are no more than the old ones and none of them is for the product |
| CartModel.WithoutMembers | routes/cart.js:134-136 | a line is kept exactly when it was in the cart and is for another product |
| CartModel.WithoutAbsent | routes/cart.js:134-136 | removing a product that has no line leaves the lines unchanged |
| CartModel.WithoutIdempotent | routes/cart.js:134-136 | removing twice is removing once |
| CartModel.WithoutConcat | routes/cart.js:134-136 | filtering distributes over concatenation |
| CartModel.WithoutSplit | routes/cart.js:134-136 | the filter deletes the one line for the product and keeps the lines around it in order |
| CartModel.WithoutDeletesLine | routes/cart.js:134-136 | in a cart with one line per product, remove deletes exactly the product's line and keeps the others in order |
| CartModel.WithoutEffect | routes/cart.js:134-136 | remove keeps quantities at least 1 and one line per product, zeroes the product's count and keeps every other count |
| CartModel.WithoutKeepsShape | routes/cart.js:134-136 | remove keeps quantities at least 1 and one line per product |
| CartModel.WithoutQuantity | routes/cart.js:134-136 | remove zeroes the removed product's count and keeps every other product's count |
| Catalog.BuildFilter | routes/products.js:23-31 | the filter always requires isActive; category and brand are set only to the query's non-empty values; a price range is present exactly when a bound is given and carries the given bounds |
| Catalog.FilterMeaning | routes/products.js:23-31 | the filter document the route builds selects exactly the active products of the given category and brand within the given inclusive price bounds |
| Catalog.Listed | routes/products.js:42-47 | a product is listed exactly when it is in the store and wanted by the query |
| Catalog.RetiredNotListed | routes/products.js:23 | a soft-deleted product is in no list, whatever the query |
| Catalog.SortOf | routes/products.js:18-19 | the direction is -1 exactly when order is absent or "desc", otherwise 1; the field is the query's sort, or createdAt when it has none |
| Paging.Skip | routes/products.js:40 | (page - 1) * limit: page 1 or limit 0 skips nothing, and the skip is negative exactly when page and limit lie on opposite sides of 1 and 0 |
| Paging.Pages | routes/products.js:54 | Math.ceil(total / limit): the least page count covering every record for a positive limit, a non-positive count for a negative limit, no number for a zero limit |
| Paging.PagesCountNonEmptyPages | routes/orders.js:80 | with a positive limit, page p starts before the last record exactly when p is at most the page count |
| Paging.Paginate | routes/products.js:40-56 | with the given page and limit or the route's defaults: InvalidArgument exactly when the skip is negative; otherwise the reported page, limit and total, the page count Pages(total, limit), and the skip Skip(page, limit), which is 0 on page 1 |
| Paging.ProductPagination | routes/products.js:10-56 | with no page and no limit in the query: page 1, 12 per page, Pages(total, 12) pages and nothing skipped; with only a page p of at least 1: 12 per page and (p - 1) * 12 skipped; the reported page and limit are the query's or the defaults |
| Paging.OrderPagination | routes/orders.js:79-97 | the same for both order lists with the default limit 10 (routes/orders.js:179 for the admin list) |
| Orders.InStock | routes/orders.js:22 | a line passes when its product resolves with at least the line's quantity in stock (used by FindShortLine and Checkout) |
| Orders.FindShortLine | routes/orders.js:21-27 | the first line whose product is missing or short of stock, or the number of lines when every line passes |
| Orders.StockError | routes/orders.js:22-25 | NotFound exactly when the line's product no longer resolves, otherwise an out-of-stock error naming the product |
| Orders.Snapshot | routes/orders.js:30-35 | the order items are the cart lines in order, with product id, current product name, and the line's own price and quantity |
| Orders.SnapshotIgnoresCatalogPrices | routes/orders.js:30-35 | the order items do not depend on catalogue prices, only on names |
| Orders.SnapshotTotal | routes/orders.js:30-47 | the order items sum to the cart's total |
| Orders.Decimal | routes/orders.js:38 | the decimal form of the clock reading is digits only, non-empty, with no leading zero |
| Orders.DecimalRoundTrip | routes/orders.js:38 | reading the decimal form back gives the clock reading |
| Orders.Substr | routes/orders.js:38 | substr(start, length): empty when start is past the end, otherwise exactly the characters from start up to start + length or the end of the text |
| Orders.Upper | routes/orders.js:38 | toUpperCase on ASCII text, which is all toString(36) produces: same length, each character upper-cased |
| Orders.OrderNumber | routes/orders.js:38 | the number starts with "ORD-", and its length lies between that of the prefix, the timestamp's digits and the dash, and that plus 5 |
| Orders.OrderNumberShape | routes/orders.js:38 | the order number is "ORD-", the timestamp's digits (which read back to it), a dash and at most 5 characters, upper-case base 36 when the random text is lower-case base 36 |
| Orders.DashAfterDigits | routes/orders.js:38 | after the digits the first dash is the separator |
| Orders.OrderNumberDeterminesTimestamp | routes/orders.js:38 | equal order numbers come from equal clock readings |
| Orders.Deduct | routes/orders.js:54-57 | the $inc of one product keeps the set of products |
| Orders.DeductAll | routes/orders.js:53-58 | the decrement loop keeps the set of products |
| Orders.DeductAllStock | routes/orders.js:53-58 | each product's stock drops by the units of it in the lines and nothing else about it changes |
| Orders.StockTaken | routes/orders.js:53-58 | the catalogue relation a checkout promises: each line's product down by that line's quantity and not below 0, every product without a line unchanged |
| Orders.DeductAllCart | routes/orders.js:53-58 | for one line per product that passed the stock check, each line's product loses exactly that line's quantity and stays at least 0; products without a line are unchanged |
| Store.Shop.constructor | models/Cart.js:21-27 | a shop over a catalogue with no carts and no orders satisfies the one-cart-per-user invariant |
| Store.Shop.FindOrCreate | routes/cart.js:40-44 | returns the user's stored cart, or stores and returns a fresh empty one; no other cart, product or order changes |
| Store.Shop.GetCart | routes/cart.js:9-20 | answers the user's cart, created empty on first access, and changes nothing else |
| Store.Shop.StoreLines | routes/cart.js:66 | writes the lines into the user's cart with their total and changes no other cart |
| Store.Shop.Add | routes/cart.js:27-67 | missing or inactive product is NotFound and stock short of the request is InsufficientStock, both before any write; otherwise the cart becomes AddLine's result with its total, or on failure only the lazily created empty cart remains; a success leaves the product's count in 1..stock |
| Store.Shop.MergeLine | routes/cart.js:40-67 | find or create the cart, then the state AddLine describes or, on failure, no change beyond the created cart |
| Store.Shop.ApplyLine | routes/cart.js:46-66 | on the stored cart's lines: AddLine's result, written back with its total only on success; a failure changes nothing |
| Store.Shop.MergeInto | routes/cart.js:46-63 | the merge into the product's line or the push of a new line, on a copy of the lines, computes exactly AddLine, succeeds exactly when the new count lies in 1..stock, and keeps quantities at least 1 and one line per product |
| Store.Shop.Update | routes/cart.js:80-112 | the checks in source order (quantity below 1, missing or inactive product, short stock, missing cart, no line) each fail and change nothing; otherwise the line's quantity is overwritten and the total recomputed |
| Store.Shop.Remove | routes/cart.js:125-139 | NotFound and no change without a cart; otherwise the lines become Without(lines) and the total their sum |
| Store.Shop.Clear | routes/cart.js:152-161 | NotFound and no change without a cart; otherwise the cart has no lines and total 0 and no other cart changes |
| Store.Shop.ResetCart | routes/orders.js:61-63 | the user's cart becomes empty with total 0 and no other cart changes |
| Store.Shop.DeductStock | routes/orders.js:53-58 | the loop leaves the catalogue DeductAll describes and changes no cart or order |
| Store.Shop.Checkout | routes/orders.js:10-63 | missing or empty cart is EmptyCart; it succeeds exactly when every line passes the stock check, and a failure names the first failing line and changes nothing; a success appends exactly one pending order with the snapshotted lines and the cart's total, decrements each line's product by its quantity (never below 0), leaves other products alone and empties the cart |
| Store.Shop.PlaceOrder | routes/orders.js:29-63 | the writes of a passed checkout: exactly one order with the snapshotted lines, the number and the cart's total appended, the catalogue in the StockTaken relation to the old one, the cart emptied and no other cart changed |
| Store.Shop.RecordOrder | routes/orders.js:41-50 | storing the order appends it and changes no product and no cart |
| Store.Shop.GetOrder | routes/orders.js:106-117 | NotFound for an unknown id; the order exactly when the requester owns it or is an admin, Forbidden otherwise |
| Store.Shop.GetProduct | routes/products.js:91-97 | the product exactly when it exists and is active, NotFound otherwise |
| Store.Shop.SoftDelete | routes/products.js:145-155 | NotFound for an unknown id; otherwise only isActive is cleared, the record stays, and the product is neither fetched nor listed afterwards |

## Left out

- HTTP status codes, the JSON envelope and `populate` are not modelled. A route that can fail answers a `Result`; `GetCart` answers a `CartState`.
- The authentication and admin middleware (`protect`, `admin`) is not part of this model. The requester's id and role are parameters, and the admin guard on delete is not checked.
- Persistence, and the `try`/`catch` that turns any thrown error into a 400, are not modelled. The model keeps three throw paths. A checkout line whose product no longer resolves is NotFound. The schema's `min: 1` rejecting a quantity when the cart is saved (routes/cart.js:67 and 74-75 of the add route) is InvalidArgument. A negative skip that the database refuses (caught at routes/products.js:59-61 and routes/orders.js:100-102) is InvalidArgument.
- Product ids are assumed canonical. The routes compare `item.product.toString()` with the request's id as text (routes/cart.js:47, 103, 135), while `findById` accepts other spellings of the same id. The one-line-per-product invariant (`Distinct`) therefore holds only when every request spells an id the same way.
- Paging.Paginate: a negative skip, which the database refuses, is answered as InvalidArgument. The conversion of a query-string page or limit to a number, NaN, and the database's own validation of the limit are not modelled.
- Prices and quantities are integers, not JavaScript numbers. Fractional prices, string quantities from a request body and NaN arithmetic are not modelled.
- Store.Shop.Update: the quantity is an integer. A missing `quantity` (undefined, which passes the `< 1` test) is not modelled.
- Schema validation on save is modelled only for the quantity's `min: 1`, checked before the lines are written. The other schema rules (required fields, types) are not modelled.
- Concurrency is not modelled: two checkouts racing on the same stock, and a crash between the order insert and the decrements.
- `Date.now()` and `Math.random()` are parameters. Nothing is claimed about order-number uniqueness beyond equal numbers implying equal clock readings.
- List responses are not modelled as slices. The model gives the selected set, the sort key and direction, skip and page count. `$text` search, the order of results and the `.skip`/`.limit` slicing are left to the database.
- The order listings (`/my-orders`, admin `/`) are modelled only by their pagination arithmetic. Their selection by user or status is a database query.
- The catalogue routes `/meta/categories` and `/meta/brands` (distinct values), product create and update with an arbitrary body, and order status and payment updates are not modelled. Each only passes a request body to the database.
- models/Order.js and models/Product.js are not part of this model. The order's "pending" status and payment status are assumed defaults, and the product fields are the ones the routes read.
- seed.js (sample data) and index.js (server wiring) are not modelled.
- Orders.OrderNumberShape: states at most 5 random characters. `substr(2, 5)` yields fewer when the random text is short, so exactly 5 is not claimed.
