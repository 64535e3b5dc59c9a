/** The pure parts of the checkout of routes/orders.js: the stock validation loop, the
    snapshot of cart lines into order items, the order number, and the stock that the
    per-line decrements leave behind. */
module Orders {
  import opened Wrappers
  import opened Errors
  import opened Catalog
  import opened CartModel

  /** An order line: a value copy of the product's id and name and of the cart line's
      price and quantity, so later catalogue edits do not reach it. */
  datatype OrderItem = OrderItem(product: ProductId, name: string, price: int, quantity: int)

  /** A stored order. The shipping address and payment method are passed through as
      given; status and payment status start at "pending". */
  datatype Order = Order(
    orderNumber: string,
    user: UserId,
    items: seq<OrderItem>,
    shippingAddress: string,
    paymentMethod: string,
    totalAmount: int,
    status: string,
    paymentStatus: string)

  const PENDING := "pending"

  // ---------------------------------------------------------------- stock validation

  /** A cart line passes the checkout's stock check: its product resolves and has at
      least the line's quantity in stock (soft-deleted products are not rejected here). */
  predicate InStock(products: map<ProductId, Product>, item: CartItem)
  {
    item.product in products && products[item.product].stock >= item.quantity
  }

  /** The checkout's `for` loop: the index of the first line that fails the stock check,
      or the number of lines when all pass. */
  method FindShortLine(products: map<ProductId, Product>, items: seq<CartItem>) returns (k: nat)
    ensures k <= |items|
    ensures forall j :: 0 <= j < k ==> InStock(products, items[j])
    ensures k < |items| ==> !InStock(products, items[k])
  {
    k := 0;
    while k < |items|
      invariant k <= |items|
      invariant forall j :: 0 <= j < k ==> InStock(products, items[j])
    {
      var item := items[k];
      if item.product !in products || products[item.product].stock < item.quantity {
        return;
      }
      k := k + 1;
    }
  }

  /** The error the checkout answers for a line that fails the stock check: a product
      that no longer resolves makes the route throw (NotFound here); otherwise the
      message names the product. */
  function StockError(products: map<ProductId, Product>, item: CartItem): (e: Error)
    requires !InStock(products, item)
    ensures e == NotFound <==> item.product !in products
    ensures e != NotFound ==> e == OutOfStockFor(products[item.product].name)
  {
    if item.product !in products then NotFound else OutOfStockFor(products[item.product].name)
  }

  // ---------------------------------------------------------------- snapshot

  predicate Resolves(products: map<ProductId, Product>, items: seq<CartItem>)
  {
    forall i :: 0 <= i < |items| ==> items[i].product in products
  }

  /** The order items built from the cart lines, in order: the product's id and current
      name, and the line's own price and quantity. */
  function Snapshot(items: seq<CartItem>, products: map<ProductId, Product>): (r: seq<OrderItem>)
    requires Resolves(products, items)
    ensures |r| == |items|
    ensures forall i :: 0 <= i < |items| ==>
              r[i] == OrderItem(items[i].product, products[items[i].product].name, items[i].price, items[i].quantity)
  {
    if items == [] then []
    else
      var item := items[0];
      [OrderItem(item.product, products[item.product].name, item.price, item.quantity)] + Snapshot(items[1..], products)
  }

  /** The order's prices come from the cart lines, not from the catalogue: two catalogues
      that agree on the names give the same order items, whatever their prices. */
  lemma SnapshotIgnoresCatalogPrices(items: seq<CartItem>, p1: map<ProductId, Product>, p2: map<ProductId, Product>)
    requires Resolves(p1, items) && Resolves(p2, items)
    requires forall i :: 0 <= i < |items| ==> p1[items[i].product].name == p2[items[i].product].name
    ensures Snapshot(items, p1) == Snapshot(items, p2)
  {
  }

  function OrderTotal(items: seq<OrderItem>): int
  {
    if items == [] then 0 else OrderTotal(items[..|items| - 1]) + items[|items| - 1].price * items[|items| - 1].quantity
  }

  /** The order items add up to the cart's total. */
  lemma {:induction false} SnapshotTotal(items: seq<CartItem>, products: map<ProductId, Product>)
    requires Resolves(products, items)
    ensures OrderTotal(Snapshot(items, products)) == Total(items)
  {
    if items != [] {
      var front := items[..|items| - 1];
      var s := Snapshot(items, products);
      SnapshotTotal(front, products);
      assert s[..|s| - 1] == Snapshot(front, products);
    }
  }

  // ---------------------------------------------------------------- order number

  predicate IsDigit(c: char)
  {
    '0' <= c <= '9'
  }

  predicate AllDigits(s: string)
  {
    forall i :: 0 <= i < |s| ==> IsDigit(s[i])
  }

  function DigitChar(d: nat): (c: char)
    requires d < 10
    ensures IsDigit(c) && c as int - '0' as int == d
  {
    ('0' as int + d) as char
  }

  /** The decimal form JavaScript prints for a non-negative integer: digits only,
      no leading zero. */
  function Decimal(n: nat): (r: string)
    ensures |r| >= 1 && AllDigits(r)
    ensures r[0] == '0' ==> n == 0
  {
    if n < 10 then [DigitChar(n)] else Decimal(n / 10) + [DigitChar(n % 10)]
  }

  function ParseDecimal(s: string): nat
    requires AllDigits(s)
  {
    if s == [] then 0 else ParseDecimal(s[..|s| - 1]) * 10 + (s[|s| - 1] as int - '0' as int)
  }

  /** Reading the decimal form back gives the number. */
  lemma {:induction false} DecimalRoundTrip(n: nat)
    ensures ParseDecimal(Decimal(n)) == n
  {
    if n >= 10 {
      DecimalRoundTrip(n / 10);
      var s := Decimal(n);
      assert s[..|s| - 1] == Decimal(n / 10);
    }
  }

  /** String.prototype.substr(start, length) for non-negative arguments. */
  function Substr(s: string, start: nat, length: nat): (r: string)
    ensures |r| <= length
    ensures start + length <= |s| ==> r == s[start..start + length]
    ensures forall i :: 0 <= i < |r| ==> start + i < |s| && r[i] == s[start + i]
    ensures start >= |s| ==> r == ""
    ensures start <= |s| ==> r == s[start..if start + length <= |s| then start + length else |s|]
  {
    if start >= |s| then "" else if start + length <= |s| then s[start..start + length] else s[start..]
  }

  function UpperChar(c: char): char
  {
    if 'a' <= c <= 'z' then (c as int - 32) as char else c
  }

  /** toUpperCase on the ASCII letters a base-36 string is made of. */
  function Upper(s: string): (r: string)
    ensures |r| == |s|
    ensures forall i :: 0 <= i < |s| ==> r[i] == UpperChar(s[i])
  {
    if s == [] then "" else [UpperChar(s[0])] + Upper(s[1..])
  }

  /** A character of an upper-case base-36 string. */
  predicate Base36Upper(c: char)
  {
    IsDigit(c) || 'A' <= c <= 'Z'
  }

  /** "ORD-" + Date.now() + "-" + Math.random().toString(36).substr(2, 5).toUpperCase(),
      with the clock reading and the random number's base-36 text as inputs. */
  function OrderNumber(timestamp: nat, randomBase36: string): (r: string)
    ensures 4 + |Decimal(timestamp)| + 1 <= |r| <= 4 + |Decimal(timestamp)| + 1 + 5
    ensures r[..4] == "ORD-"
  {
    "ORD-" + Decimal(timestamp) + "-" + Upper(Substr(randomBase36, 2, 5))
  }

  /** The order number starts with "ORD-", then the timestamp in decimal, a dash, and
      at most five characters, each an upper-case base-36 digit when the random
      number's text is lower-case base 36 after its "0." prefix. */
  lemma OrderNumberShape(timestamp: nat, randomBase36: string)
    ensures var r := OrderNumber(timestamp, randomBase36);
            var d := Decimal(timestamp);
            && r[..4] == "ORD-"
            && r[4..4 + |d|] == d && ParseDecimal(r[4..4 + |d|]) == timestamp
            && r[4 + |d|] == '-'
            && |r| <= 4 + |d| + 1 + 5
            && ((forall i :: 2 <= i < |randomBase36| ==> IsDigit(randomBase36[i]) || 'a' <= randomBase36[i] <= 'z') ==>
                  forall i :: 4 + |d| + 1 <= i < |r| ==> Base36Upper(r[i]))
  {
    DecimalRoundTrip(timestamp);
    var sub := Substr(randomBase36, 2, 5);
    NumberLayout(Decimal(timestamp), Upper(sub));
    if forall i :: 2 <= i < |randomBase36| ==> IsDigit(randomBase36[i]) || 'a' <= randomBase36[i] <= 'z' {
      UpperBase36(sub);
    }
  }

  /** Where the parts of an order number sit: the prefix, the digits, the dash and
      the random part. */
  lemma NumberLayout(d: string, u: string)
    ensures var r := "ORD-" + d + "-" + u;
            && |r| == 4 + |d| + 1 + |u|
            && r[..4] == "ORD-" && r[4..4 + |d|] == d && r[4 + |d|] == '-'
            && forall i :: 4 + |d| + 1 <= i < |r| ==> r[i] == u[i - (4 + |d| + 1)]
  {
    var r := "ORD-" + d + "-" + u;
    assert r[..4] == "ORD-";
    assert r[4..4 + |d|] == d;
  }

  /** Upper-casing lower-case base-36 text gives upper-case base-36 text. */
  lemma UpperBase36(s: string)
    requires forall i :: 0 <= i < |s| ==> IsDigit(s[i]) || 'a' <= s[i] <= 'z'
    ensures forall i :: 0 <= i < |Upper(s)| ==> Base36Upper(Upper(s)[i])
  {
  }

  /** The position of the first dash in a string, or its length when it has none. */
  function DashIndex(s: string): (k: nat)
    ensures k <= |s|
  {
    if s == [] || s[0] == '-' then 0 else 1 + DashIndex(s[1..])
  }

  /** After digits only, the first dash is the one that follows them. */
  lemma {:induction false} DashAfterDigits(d: string, rest: string)
    requires AllDigits(d)
    ensures DashIndex(d + "-" + rest) == |d|
  {
    if d != [] {
      assert (d + "-" + rest)[1..] == d[1..] + "-" + rest;
      DashAfterDigits(d[1..], rest);
    }
  }

  /** Digits followed by a dash: the digits are fixed by the string. */
  lemma DigitsBeforeDash(d1: string, u1: string, d2: string, u2: string)
    requires AllDigits(d1) && AllDigits(d2)
    requires d1 + "-" + u1 == d2 + "-" + u2
    ensures d1 == d2
  {
    DashAfterDigits(d1, u1);
    DashAfterDigits(d2, u2);
    assert (d1 + "-" + u1)[..|d1|] == d1;
    assert (d2 + "-" + u2)[..|d2|] == d2;
  }

  /** The digits are fixed by everything that follows the "ORD-" prefix. */
  lemma DigitsAfterPrefix(d1: string, u1: string, d2: string, u2: string)
    requires AllDigits(d1) && AllDigits(d2)
    requires "ORD-" + d1 + "-" + u1 == "ORD-" + d2 + "-" + u2
    ensures d1 == d2
  {
    assert ("ORD-" + d1 + "-" + u1)[4..] == d1 + "-" + u1;
    assert ("ORD-" + d2 + "-" + u2)[4..] == d2 + "-" + u2;
    DigitsBeforeDash(d1, u1, d2, u2);
  }

  /** The clock reading is fixed by everything that follows the "ORD-" prefix. */
  lemma TimestampAfterPrefix(t1: nat, u1: string, t2: nat, u2: string)
    requires "ORD-" + Decimal(t1) + "-" + u1 == "ORD-" + Decimal(t2) + "-" + u2
    ensures t1 == t2
  {
    DigitsAfterPrefix(Decimal(t1), u1, Decimal(t2), u2);
    DecimalRoundTrip(t1);
    DecimalRoundTrip(t2);
  }

  /** Two order numbers that are equal were made at the same clock reading: orders
      placed at different milliseconds never share a number. */
  lemma OrderNumberDeterminesTimestamp(t1: nat, r1: string, t2: nat, r2: string)
    requires OrderNumber(t1, r1) == OrderNumber(t2, r2)
    ensures t1 == t2
  {
    TimestampAfterPrefix(t1, Upper(Substr(r1, 2, 5)), t2, Upper(Substr(r2, 2, 5)));
  }

  // ---------------------------------------------------------------- stock decrement

  /** `findByIdAndUpdate(id, { $inc: { stock: -q } })`: a missing id is left alone. */
  function Deduct(products: map<ProductId, Product>, id: ProductId, q: int): (r: map<ProductId, Product>)
    ensures r.Keys == products.Keys
  {
    if id in products then products[id := products[id].(stock := products[id].stock - q)] else products
  }

  /** The catalogue after the checkout's decrement loop, one line after the other. */
  function DeductAll(products: map<ProductId, Product>, items: seq<CartItem>): (r: map<ProductId, Product>)
    ensures r.Keys == products.Keys
  {
    if items == [] then products
    else
      var last := items[|items| - 1];
      Deduct(DeductAll(products, items[..|items| - 1]), last.product, last.quantity)
  }

  /** Every product's stock goes down by the units of it the lines hold, and nothing
      else about any product changes. */
  lemma {:induction false} DeductAllStock(products: map<ProductId, Product>, items: seq<CartItem>, p: ProductId)
    requires p in products
    ensures DeductAll(products, items)[p] == products[p].(stock := products[p].stock - QuantityOf(items, p))
  {
    if items == [] {
    } else {
      var front, last := items[..|items| - 1], items[|items| - 1];
      DeductAllStock(products, front, p);
      assert items == front + [last];
      QuantityOfConcat(front, [last], p);
      QuantityOfSingle(last, p);
    }
  }

  /** The catalogue `after` is `before` with each line's product down by exactly that
      line's quantity and not below 0, and every product without a line unchanged. */
  predicate StockTaken(before: map<ProductId, Product>, after: map<ProductId, Product>, items: seq<CartItem>)
  {
    && (forall i :: 0 <= i < |items| ==>
          && items[i].product in before && items[i].product in after
          && after[items[i].product].stock == before[items[i].product].stock - items[i].quantity
          && after[items[i].product].stock >= 0)
    && (forall p :: p in before && QuantityOf(items, p) == 0 ==> p in after && after[p] == before[p])
  }

  /** For a cart with one line per product that passed the stock check, each line's
      product loses exactly that line's quantity and keeps a stock of at least 0;
      products without a line are unchanged. */
  lemma DeductAllCart(products: map<ProductId, Product>, items: seq<CartItem>)
    requires Distinct(items)
    requires forall i :: 0 <= i < |items| ==> InStock(products, items[i])
    ensures StockTaken(products, DeductAll(products, items), items)
  {
    var r := DeductAll(products, items);
    forall i | 0 <= i < |items|
      ensures r[items[i].product].stock == products[items[i].product].stock - items[i].quantity
    {
      var p := items[i].product;
      DeductAllStock(products, items, p);
      QuantityOfDistinct(items, p);
      assert IndexOf(items, p) == i;
    }
    forall p | p in products && QuantityOf(items, p) == 0 ensures r[p] == products[p] {
      DeductAllStock(products, items, p);
    }
  }
}
