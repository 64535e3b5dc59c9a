/** The cart aggregate: the line schema and `calculateTotal` of models/Cart.js, and the
    pure part of each cart route of routes/cart.js (find the line, merge or append,
    overwrite, filter out), on which the Shop's methods are proved. */
module CartModel {
  import opened Wrappers
  import opened Errors
  import opened Catalog

  type UserId = nat

  /** One cart line: the product, how many, and the product's price when the line was
      first added (integer cents). */
  datatype CartItem = CartItem(product: ProductId, quantity: int, price: int)

  function LineAmount(item: CartItem): int
  {
    item.price * item.quantity
  }

  /** `calculateTotal`'s reduce: a left fold of price * quantity from 0. */
  function Total(items: seq<CartItem>): (r: int)
    ensures items == [] ==> r == 0
  {
    if items == [] then 0 else Total(items[..|items| - 1]) + LineAmount(items[|items| - 1])
  }

  /** The same sum taken from the front: an independent statement of
      sum(price * quantity), used to show that the fold's direction does not matter. */
  function SumFromFront(items: seq<CartItem>): int
  {
    if items == [] then 0 else LineAmount(items[0]) + SumFromFront(items[1..])
  }

  /** The total is additive over concatenation. */
  lemma {:induction false} TotalConcat(a: seq<CartItem>, b: seq<CartItem>)
    ensures Total(a + b) == Total(a) + Total(b)
    decreases |b|
  {
    if b == [] {
      assert a + b == a;
    } else {
      var b' := b[..|b| - 1];
      assert (a + b)[..|a + b| - 1] == a + b';
      assert (a + b)[|a + b| - 1] == b[|b| - 1];
      TotalConcat(a, b');
    }
  }

  /** Appending a line adds exactly its price times its quantity. */
  lemma TotalAppend(items: seq<CartItem>, x: CartItem)
    ensures Total(items + [x]) == Total(items) + x.price * x.quantity
  {
    TotalConcat(items, [x]);
    assert Total([x]) == Total([]) + LineAmount(x) by {
      assert [x][..0] == [];
    }
  }

  /** The fold equals the sum from the front. */
  lemma {:induction false} TotalIsSum(items: seq<CartItem>)
    ensures Total(items) == SumFromFront(items)
  {
    if items != [] {
      assert items == [items[0]] + items[1..];
      TotalConcat([items[0]], items[1..]);
      TotalAppend([], items[0]);
      TotalIsSum(items[1..]);
    }
  }

  /** Replacing one line changes the total by the difference of the two line amounts. */
  lemma TotalUpdate(items: seq<CartItem>, k: nat, x: CartItem)
    requires k < |items|
    ensures Total(items[k := x]) == Total(items) - LineAmount(items[k]) + LineAmount(x)
  {
    assert items == items[..k] + [items[k]] + items[k + 1..];
    assert items[k := x] == items[..k] + [x] + items[k + 1..];
    TotalConcat(items[..k] + [items[k]], items[k + 1..]);
    TotalConcat(items[..k] + [x], items[k + 1..]);
    TotalAppend(items[..k], items[k]);
    TotalAppend(items[..k], x);
  }

  /** The schema's `min: 1` on every line's quantity. */
  predicate Positive(items: seq<CartItem>)
  {
    forall i :: 0 <= i < |items| ==> items[i].quantity >= 1
  }

  /** No product has two lines. */
  predicate Distinct(items: seq<CartItem>)
  {
    forall i, j :: 0 <= i < j < |items| ==> items[i].product != items[j].product
  }

  /** `findIndex` on the product: the first line for `p`, or -1. */
  function IndexOf(items: seq<CartItem>, p: ProductId): (k: int)
    ensures -1 <= k < |items|
    ensures k >= 0 ==> items[k].product == p && forall j :: 0 <= j < k ==> items[j].product != p
    ensures k == -1 <==> forall j :: 0 <= j < |items| ==> items[j].product != p
  {
    if items == [] then -1
    else if items[0].product == p then 0
    else
      var k := IndexOf(items[1..], p);
      if k == -1 then -1 else k + 1
  }

  /** How many units of product `p` the lines hold: the cart seen as a bag. */
  function QuantityOf(items: seq<CartItem>, p: ProductId): int
  {
    if items == [] then 0
    else (if items[0].product == p then items[0].quantity else 0) + QuantityOf(items[1..], p)
  }

  lemma {:induction false} QuantityOfConcat(a: seq<CartItem>, b: seq<CartItem>, p: ProductId)
    ensures QuantityOf(a + b, p) == QuantityOf(a, p) + QuantityOf(b, p)
  {
    if a != [] {
      assert (a + b)[1..] == a[1..] + b;
      QuantityOfConcat(a[1..], b, p);
    } else {
      assert a + b == b;
    }
  }

  lemma QuantityOfSingle(x: CartItem, p: ProductId)
    ensures QuantityOf([x], p) == if x.product == p then x.quantity else 0
  {
    assert [x][1..] == [];
  }

  /** In a cart without duplicate products, the bag count of a product is the
      quantity of its line, and 0 when it has none. */
  lemma {:induction false} QuantityOfDistinct(items: seq<CartItem>, p: ProductId)
    requires Distinct(items)
    ensures QuantityOf(items, p) == if IndexOf(items, p) >= 0 then items[IndexOf(items, p)].quantity else 0
  {
    if items != [] {
      QuantityOfDistinct(items[1..], p);
    }
  }

  /** Replacing one line moves the bag count of its product only. */
  lemma QuantityOfUpdate(items: seq<CartItem>, k: nat, x: CartItem, p: ProductId)
    requires k < |items|
    ensures QuantityOf(items[k := x], p) ==
            QuantityOf(items, p) - (if items[k].product == p then items[k].quantity else 0)
                                 + (if x.product == p then x.quantity else 0)
  {
    assert items == items[..k] + [items[k]] + items[k + 1..];
    assert items[k := x] == items[..k] + [x] + items[k + 1..];
    QuantityOfConcat(items[..k] + [items[k]], items[k + 1..], p);
    QuantityOfConcat(items[..k] + [x], items[k + 1..], p);
    QuantityOfConcat(items[..k], [items[k]], p);
    QuantityOfConcat(items[..k], [x], p);
    QuantityOfSingle(items[k], p);
    QuantityOfSingle(x, p);
  }

  /** The requested quantity of POST /add: 1 when the body has none. */
  function Requested(quantity: Option<int>): (q: int)
    ensures quantity.None? ==> q == 1
    ensures quantity.Some? ==> q == quantity.value
  {
    quantity.GetOr(1)
  }

  /** POST /add after the product and its stock for `q` units were checked: merge into
      the product's line (summing the quantities, keeping the line's price) or append a
      line at the product's current price. A quantity below 1 would fail the schema's
      `min: 1` when the cart is saved, so nothing changes. */
  function AddLine(items: seq<CartItem>, pid: ProductId, price: int, stock: int, q: int): (r: Result<seq<CartItem>, Error>)
    ensures r.Failure? ==> r.error == InsufficientStock || r.error == InvalidArgument
    ensures r.Success? ==> |items| <= |r.value| <= |items| + 1
  {
    var k := IndexOf(items, pid);
    if k > -1 then
      var newQuantity := items[k].quantity + q;
      if stock < newQuantity then Failure(InsufficientStock)
      else if newQuantity < 1 then Failure(InvalidArgument)
      else Success(items[k := items[k].(quantity := newQuantity)])
    else if q < 1 then Failure(InvalidArgument)
    else Success(items + [CartItem(pid, q, price)])
  }

  /** Adding succeeds exactly when the product's new count lies between 1 and the stock:
      stock short of it is InsufficientStock, a count below 1 is InvalidArgument. */
  lemma AddLineOutcome(items: seq<CartItem>, pid: ProductId, price: int, stock: int, q: int)
    requires Positive(items) && Distinct(items) && q <= stock
    ensures var n := QuantityOf(items, pid) + q;
            var r := AddLine(items, pid, price, stock, q);
            && (r.Success? <==> 1 <= n <= stock)
            && (stock < n ==> r == Failure(InsufficientStock))
            && (n <= stock && n < 1 ==> r == Failure(InvalidArgument))
  {
    QuantityOfDistinct(items, pid);
  }

  /** A successful add raises the bag count of the added product by `q` and leaves
      every other product's count alone. */
  lemma AddLineQuantities(items: seq<CartItem>, pid: ProductId, price: int, stock: int, q: int, p: ProductId)
    requires AddLine(items, pid, price, stock, q).Success?
    ensures QuantityOf(AddLine(items, pid, price, stock, q).value, p) ==
            QuantityOf(items, p) + (if p == pid then q else 0)
  {
    var k := IndexOf(items, pid);
    if k > -1 {
      QuantityOfUpdate(items, k, items[k].(quantity := items[k].quantity + q), p);
    } else {
      QuantityOfConcat(items, [CartItem(pid, q, price)], p);
      QuantityOfSingle(CartItem(pid, q, price), p);
    }
  }

  /** A successful add keeps every quantity at least 1 and every product on one line;
      an appended line is the only new line and carries the product's current price,
      while a merged line keeps its original price; every other line is untouched. */
  lemma AddLineShape(items: seq<CartItem>, pid: ProductId, price: int, stock: int, q: int)
    requires Positive(items) && Distinct(items)
    requires AddLine(items, pid, price, stock, q).Success?
    ensures var r := AddLine(items, pid, price, stock, q).value;
            && Positive(r) && Distinct(r)
            && (IndexOf(items, pid) == -1 ==> r == items + [CartItem(pid, q, price)])
            && (IndexOf(items, pid) >= 0 ==>
                  var k := IndexOf(items, pid);
                  |r| == |items| && r[k].price == items[k].price && r[k].quantity == items[k].quantity + q &&
                  forall j :: 0 <= j < |items| && j != k ==> r[j] == items[j])
  {
  }

  /** The total after a successful add grows by `q` times the price of the product's line. */
  lemma AddLineTotal(items: seq<CartItem>, pid: ProductId, price: int, stock: int, q: int)
    requires AddLine(items, pid, price, stock, q).Success?
    ensures var k := IndexOf(items, pid);
            Total(AddLine(items, pid, price, stock, q).value) ==
            Total(items) + q * (if k >= 0 then items[k].price else price)
  {
    var k := IndexOf(items, pid);
    if k > -1 {
      var x := items[k].(quantity := items[k].quantity + q);
      assert AddLine(items, pid, price, stock, q).value == items[k := x];
      TotalUpdate(items, k, x);
      Distribute(items[k].price, items[k].quantity, q);
    } else {
      assert AddLine(items, pid, price, stock, q).value == items + [CartItem(pid, q, price)];
      TotalAppend(items, CartItem(pid, q, price));
    }
  }

  lemma Distribute(p: int, a: int, q: int)
    ensures p * (a + q) == p * a + q * p
  {
  }

  /** PUT /update once the quantity and the product were checked: overwrite the
      quantity of the product's line; NotFound when it has none. */
  function SetQuantity(items: seq<CartItem>, pid: ProductId, q: int): (r: Result<seq<CartItem>, Error>)
    ensures r.Failure? <==> IndexOf(items, pid) == -1
    ensures r.Failure? ==> r.error == NotFound
    ensures r.Success? ==> |r.value| == |items| && r.value[IndexOf(items, pid)].quantity == q
  {
    var k := IndexOf(items, pid);
    if k == -1 then Failure(NotFound)
    else Success(items[k := items[k].(quantity := q)])
  }

  /** Update fails exactly when the product has no line, then sets that product's bag
      count to `q`, keeps every other count, the line's price and every other line. */
  lemma SetQuantityEffect(items: seq<CartItem>, pid: ProductId, q: int, p: ProductId)
    requires Positive(items) && Distinct(items) && q >= 1
    ensures var r := SetQuantity(items, pid, q);
            && (r.Failure? <==> QuantityOf(items, pid) == 0)
            && (r.Success? ==>
                  && Positive(r.value) && Distinct(r.value) && |r.value| == |items|
                  && QuantityOf(r.value, p) == (if p == pid then q else QuantityOf(items, p))
                  && (forall j :: 0 <= j < |items| && items[j].product != pid ==> r.value[j] == items[j])
                  && (forall j :: 0 <= j < |items| ==> r.value[j].price == items[j].price))
  {
    QuantityOfDistinct(items, pid);
    var k := IndexOf(items, pid);
    if k >= 0 {
      QuantityOfUpdate(items, k, items[k].(quantity := q), p);
      QuantityOfDistinct(items, p);
    }
  }

  /** DELETE /remove/:productId: keep, in order, the lines of every other product. */
  function Without(items: seq<CartItem>, p: ProductId): (r: seq<CartItem>)
    ensures |r| <= |items|
    ensures forall i :: 0 <= i < |r| ==> r[i].product != p
  {
    if items == [] then []
    else (if items[0].product == p then [] else [items[0]]) + Without(items[1..], p)
  }

  /** The lines kept are exactly the old lines of every other product. */
  lemma {:induction false} WithoutMembers(items: seq<CartItem>, p: ProductId)
    ensures forall x :: x in Without(items, p) <==> x in items && x.product != p
  {
    if items != [] {
      WithoutMembers(items[1..], p);
      assert items == [items[0]] + items[1..];
    }
  }

  /** A cart without the product is unchanged by removing it: remove is idempotent. */
  lemma {:induction false} WithoutAbsent(items: seq<CartItem>, p: ProductId)
    requires forall i :: 0 <= i < |items| ==> items[i].product != p
    ensures Without(items, p) == items
  {
    if items != [] {
      WithoutAbsent(items[1..], p);
      assert items == [items[0]] + items[1..];
    }
  }

  lemma WithoutIdempotent(items: seq<CartItem>, p: ProductId)
    ensures Without(Without(items, p), p) == Without(items, p)
  {
    WithoutAbsent(Without(items, p), p);
  }

  lemma {:induction false} WithoutConcat(a: seq<CartItem>, b: seq<CartItem>, p: ProductId)
    ensures Without(a + b, p) == Without(a, p) + Without(b, p)
  {
    if a == [] {
      assert a + b == b;
    } else {
      assert (a + b)[1..] == a[1..] + b;
      WithoutConcat(a[1..], b, p);
    }
  }

  /** Removing `p` from lines where only line k is for `p` deletes exactly that line. */
  lemma {:induction false} WithoutSplit(items: seq<CartItem>, k: nat, p: ProductId)
    requires k < |items| && items[k].product == p
    requires forall i :: 0 <= i < |items| && i != k ==> items[i].product != p
    ensures Without(items, p) == items[..k] + items[k + 1..]
  {
    var tail := items[1..];
    if k == 0 {
      WithoutAbsent(tail, p);
    } else {
      WithoutSplit(tail, k - 1, p);
      assert tail[..k - 1] + tail[k..] == items[1..k] + items[k + 1..];
      assert items[..k] == [items[0]] + items[1..k];
    }
  }

  /** In a cart without duplicates, removing a product that has a line deletes exactly
      that line and keeps the others in order. */
  lemma WithoutDeletesLine(items: seq<CartItem>, p: ProductId)
    requires Distinct(items) && IndexOf(items, p) >= 0
    ensures var k := IndexOf(items, p); Without(items, p) == items[..k] + items[k + 1..]
  {
    var k := IndexOf(items, p);
    forall i | 0 <= i < |items| && i != k ensures items[i].product != p {
      if i > k {
        assert items[k].product != items[i].product;
      }
    }
    WithoutSplit(items, k, p);
  }

  /** Remove keeps every line's quantity and the one-line-per-product rule, zeroes the
      removed product's count and keeps every other count. */
  lemma {:induction false} WithoutEffect(items: seq<CartItem>, p: ProductId, other: ProductId)
    requires Positive(items) && Distinct(items)
    ensures var r := Without(items, p);
            && Positive(r) && Distinct(r)
            && QuantityOf(r, other) == (if other == p then 0 else QuantityOf(items, other))
  {
    WithoutKeepsShape(items, p);
    WithoutQuantity(items, p, other);
  }

  /** Remove keeps every quantity at least 1 and every product on one line. */
  lemma {:induction false} WithoutKeepsShape(items: seq<CartItem>, p: ProductId)
    requires Positive(items) && Distinct(items)
    ensures Positive(Without(items, p)) && Distinct(Without(items, p))
  {
    if items != [] {
      WithoutKeepsShape(items[1..], p);
      var rest := Without(items[1..], p);
      if items[0].product != p {
        var r := [items[0]] + rest;
        assert Without(items, p) == r;
        assert r[0] == items[0] && r[1..] == rest;
        WithoutMembers(items[1..], p);
        forall j | 0 <= j < |rest| ensures rest[j].product != items[0].product {
          assert rest[j] in items[1..];
        }
      } else {
        assert Without(items, p) == rest;
      }
    }
  }

  /** Remove zeroes the removed product's count and keeps every other count. */
  lemma {:induction false} WithoutQuantity(items: seq<CartItem>, p: ProductId, other: ProductId)
    ensures QuantityOf(Without(items, p), other) == (if other == p then 0 else QuantityOf(items, other))
  {
    if items != [] {
      WithoutQuantity(items[1..], p, other);
      var head := if items[0].product == p then [] else [items[0]];
      QuantityOfConcat(head, Without(items[1..], p), other);
      if head != [] {
        QuantityOfSingle(items[0], other);
      }
    }
  }

  /** A cart document: one per user (`unique`), its lines and the stored total. */
  class Cart {
    const user: UserId
    var items: seq<CartItem>
    var totalAmount: int

    /** The state every saved cart is in: quantities at least 1, one line per product,
        and the stored total equal to the sum of its lines. */
    ghost predicate Valid()
      reads this
    {
      Positive(items) && Distinct(items) && totalAmount == Total(items)
    }

    /** A new cart: no lines and the schema's default total 0. */
    constructor (owner: UserId)
      ensures user == owner && items == [] && totalAmount == 0
      ensures Valid()
    {
      user := owner;
      items := [];
      totalAmount := 0;
    }

    /** Store the sum of price * quantity over the lines in `totalAmount` and return it;
        the lines are not touched. */
    method CalculateTotal() returns (t: int)
      modifies this
      ensures items == old(items)
      ensures totalAmount == Total(items) && t == totalAmount
    {
      totalAmount := Total(items);
      t := totalAmount;
    }
  }
}
