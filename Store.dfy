/** The three stores the routes work on (products, one cart per user, orders) and the
    route handlers of routes/cart.js, routes/orders.js and routes/products.js as methods
    that change them in place. The acting user's id and role are parameters. */
module Store {
  import opened Wrappers
  import opened Errors
  import opened Catalog
  import opened CartModel
  import opened Orders

  /** What a cart route answers with: the cart's lines and stored total. */
  datatype CartState = CartState(items: seq<CartItem>, totalAmount: int)

  const EMPTY_CART := CartState([], 0)

  const ADMIN_ROLE := "admin"

  class Shop {
    var products: map<ProductId, Product>
    var carts: map<UserId, Cart>
    var orders: seq<Order>

    /** Each user's cart belongs to that user (so no two users share a cart object and a
        user has at most one cart), and every stored cart is valid. */
    ghost predicate Valid()
      reads this, carts.Values
    {
      forall u :: u in carts ==> carts[u].user == u && carts[u].Valid()
    }

    /** The carts as values. */
    ghost function View(): map<UserId, CartState>
      reads this, carts.Values
    {
      map u | u in carts :: CartState(carts[u].items, carts[u].totalAmount)
    }

    /** The cart a route would find for `u`: the stored one, or a new empty one. */
    ghost function StateOf(u: UserId): CartState
      reads this, carts.Values
    {
      if u in carts then CartState(carts[u].items, carts[u].totalAmount) else EMPTY_CART
    }

    /** A shop over a given catalogue, with no carts and no orders yet. */
    constructor (catalogue: map<ProductId, Product>)
      ensures Valid()
      ensures products == catalogue && carts == map[] && orders == []
    {
      products := catalogue;
      carts := map[];
      orders := [];
    }

    // ------------------------------------------------------------ routes/cart.js

    /** `Cart.findOne({ user })`, creating an empty cart when there is none. */
    method FindOrCreate(u: UserId) returns (cart: Cart)
      requires Valid()
      modifies this
      ensures Valid()
      ensures forall c :: c in carts.Values ==> c in old(carts.Values) || fresh(c)
      ensures u in carts && cart == carts[u]
      ensures CartState(cart.items, cart.totalAmount) == old(StateOf(u))
      ensures products == old(products) && orders == old(orders)
      ensures u in old(carts) ==> carts == old(carts)
      ensures u !in old(carts) ==> fresh(cart) && carts == old(carts)[u := cart]
      ensures View() == old(View())[u := old(StateOf(u))]
    {
      if u in carts {
        cart := carts[u];
        assert View() == old(View())[u := old(StateOf(u))];
      } else {
        cart := new Cart(u);
        carts := carts[u := cart];
        assert View() == old(View())[u := old(StateOf(u))];
      }
    }

    /** GET /cart: the user's cart, created empty on first access. */
    method GetCart(u: UserId) returns (r: CartState)
      requires Valid()
      modifies this
      ensures Valid()
      ensures forall c :: c in carts.Values ==> c in old(carts.Values) || fresh(c)
      ensures products == old(products) && orders == old(orders)
      ensures r == old(StateOf(u))
      ensures View() == old(View())[u := r]
    {
      var cart := FindOrCreate(u);
      r := CartState(cart.items, cart.totalAmount);
    }

    /** Replace the lines of `u`'s cart (already in the store) and recompute its total. */
    method StoreLines(u: UserId, items: seq<CartItem>) returns (r: CartState)
      requires Valid() && u in carts
      requires Positive(items) && Distinct(items)
      modifies carts[u]
      ensures Valid()
      ensures r == CartState(items, Total(items))
      ensures View() == old(View())[u := r]
    {
      var cart := carts[u];
      cart.items := items;
      var _ := cart.CalculateTotal();
      r := CartState(cart.items, cart.totalAmount);
      OneCartWritten(u);
    }

    /** POST /cart/add. The product checks come first and change nothing; then the
        cart is found or created, the product's line is merged or appended, and the
        total recomputed. A failure after the cart was created leaves that empty cart. */
    method Add(u: UserId, pid: ProductId, quantity: Option<int>) returns (r: Result<CartState, Error>)
      requires Valid()
      modifies this, carts.Values
      ensures Valid()
      ensures forall c :: c in carts.Values ==> c in old(carts.Values) || fresh(c)
      ensures products == old(products) && orders == old(orders)
      ensures !Available(old(products), pid) ==> r == Failure(NotFound) && View() == old(View())
      ensures Available(old(products), pid) && old(products)[pid].stock < Requested(quantity) ==>
                r == Failure(InsufficientStock) && View() == old(View())
      ensures Available(old(products), pid) && Requested(quantity) <= old(products)[pid].stock ==>
                var product := old(products)[pid];
                var result := AddLine(old(StateOf(u)).items, pid, product.price, product.stock, Requested(quantity));
                && (result.Success? ==>
                      r == Success(CartState(result.value, Total(result.value))) && View() == old(View())[u := r.value])
                && (result.Failure? ==>
                      r == Failure(result.error) && View() == old(View())[u := old(StateOf(u))])
      ensures r.Success? ==>
                var n := QuantityOf(old(StateOf(u)).items, pid) + Requested(quantity);
                1 <= n <= old(products)[pid].stock && QuantityOf(r.value.items, pid) == n &&
                r.value.totalAmount == Total(r.value.items)
    {
      var q := Requested(quantity);
      if pid !in products || !products[pid].isActive {
        return Failure(NotFound);
      }
      var product := products[pid];
      if product.stock < q {
        return Failure(InsufficientStock);
      }
      r := MergeLine(u, pid, product.price, product.stock, q);
    }

    /** Lines 40-66 of POST /cart/add, once the product was found with stock for `q`:
        find or create the cart, merge or append, recompute the total. */
    method MergeLine(u: UserId, pid: ProductId, price: int, stock: int, q: int) returns (r: Result<CartState, Error>)
      requires Valid() && q <= stock
      modifies this, carts.Values
      ensures Valid()
      ensures forall c :: c in carts.Values ==> c in old(carts.Values) || fresh(c)
      ensures products == old(products) && orders == old(orders)
      ensures var result := AddLine(old(StateOf(u)).items, pid, price, stock, q);
              && (result.Success? ==>
                    r == Success(CartState(result.value, Total(result.value))) && View() == old(View())[u := r.value])
              && (result.Failure? ==>
                    r == Failure(result.error) && View() == old(View())[u := old(StateOf(u))])
      ensures r.Success? ==>
                var n := QuantityOf(old(StateOf(u)).items, pid) + q;
                1 <= n <= stock && QuantityOf(r.value.items, pid) == n
    {
      ghost var view0, before := View(), StateOf(u);
      var _ := FindOrCreate(u);
      r := ApplyLine(u, pid, price, stock, q);
      if r.Success? {
        UpdateTwice(view0, u, before, r.value);
      }
    }

    /** The merge or append on the lines of `u`'s stored cart, written back with its
        total only when it succeeds. */
    method ApplyLine(u: UserId, pid: ProductId, price: int, stock: int, q: int) returns (r: Result<CartState, Error>)
      requires Valid() && u in carts && q <= stock
      modifies carts[u]
      ensures Valid()
      ensures var result := AddLine(old(StateOf(u)).items, pid, price, stock, q);
              && (result.Success? ==>
                    r == Success(CartState(result.value, Total(result.value))) && View() == old(View())[u := r.value])
              && (result.Failure? ==> r == Failure(result.error) && View() == old(View()))
      ensures r.Success? ==>
                var n := QuantityOf(old(StateOf(u)).items, pid) + q;
                1 <= n <= stock && QuantityOf(r.value.items, pid) == n
    {
      var result := MergeInto(carts[u].items, pid, price, stock, q);
      if result.Failure? {
        return Failure(result.error);
      }
      var state := StoreLines(u, result.value);
      r := Success(state);
    }

    /** Two successive updates of one key leave only the second. */
    static lemma UpdateTwice<K, V>(m: map<K, V>, k: K, a: V, b: V)
      ensures m[k := a][k := b] == m[k := b]
    {
    }

    /** The edit of the cart's lines in POST /cart/add, made on a copy that ApplyLine
        stores only on success: the quantity of the product's line is raised, or a line
        is pushed. */
    static method MergeInto(items: seq<CartItem>, pid: ProductId, price: int, stock: int, q: int)
      returns (r: Result<seq<CartItem>, Error>)
      requires Positive(items) && Distinct(items) && q <= stock
      ensures r == AddLine(items, pid, price, stock, q)
      ensures r.Success? ==> Positive(r.value) && Distinct(r.value)
      ensures r.Success? ==> QuantityOf(r.value, pid) == QuantityOf(items, pid) + q
      ensures r.Success? <==> 1 <= QuantityOf(items, pid) + q <= stock
    {
      AddLineOutcome(items, pid, price, stock, q);
      if AddLine(items, pid, price, stock, q).Success? {
        AddLineShape(items, pid, price, stock, q);
        AddLineQuantities(items, pid, price, stock, q, pid);
      }
      var lines := items;
      var k := IndexOf(lines, pid);
      if k > -1 {
        var newQuantity := lines[k].quantity + q;
        if stock < newQuantity {
          return Failure(InsufficientStock);
        }
        if newQuantity < 1 {
          // the schema's `min: 1` rejects the save
          return Failure(InvalidArgument);
        }
        lines := lines[k := lines[k].(quantity := newQuantity)];
      } else {
        if q < 1 {
          // the schema's `min: 1` rejects the save
          return Failure(InvalidArgument);
        }
        lines := lines + [CartItem(pid, q, price)];
      }
      r := Success(lines);
    }

    /** PUT /cart/update: a quantity below 1, a missing or inactive product, stock short
        of the quantity, a missing cart and a product without a line are each an error
        that changes nothing; otherwise the line's quantity is overwritten. */
    method Update(u: UserId, pid: ProductId, quantity: int) returns (r: Result<CartState, Error>)
      requires Valid()
      modifies this, carts.Values
      ensures Valid()
      ensures carts == old(carts)
      ensures products == old(products) && orders == old(orders)
      ensures r.Failure? ==> View() == old(View())
      ensures quantity < 1 ==> r == Failure(InvalidArgument)
      ensures quantity >= 1 && !Available(old(products), pid) ==> r == Failure(NotFound)
      ensures quantity >= 1 && Available(old(products), pid) && old(products)[pid].stock < quantity ==>
                r == Failure(InsufficientStock)
      ensures quantity >= 1 && Available(old(products), pid) && quantity <= old(products)[pid].stock ==>
                if u !in old(carts) then r == Failure(NotFound)
                else
                  var result := SetQuantity(old(carts[u].items), pid, quantity);
                  && (result.Failure? ==> r == Failure(NotFound))
                  && (result.Success? ==>
                        r == Success(CartState(result.value, Total(result.value))) && View() == old(View())[u := r.value])
    {
      if quantity < 1 {
        return Failure(InvalidArgument);
      }
      if pid !in products || !products[pid].isActive {
        return Failure(NotFound);
      }
      if products[pid].stock < quantity {
        return Failure(InsufficientStock);
      }
      if u !in carts {
        return Failure(NotFound);
      }
      var items := carts[u].items;
      var k := IndexOf(items, pid);
      if k == -1 {
        return Failure(NotFound);
      }
      items := items[k := items[k].(quantity := quantity)];
      SetQuantityEffect(carts[u].items, pid, quantity, pid);
      var state := StoreLines(u, items);
      r := Success(state);
    }

    /** DELETE /cart/remove/:productId: drop every line of the product (none is fine)
        and recompute the total; NotFound when the user has no cart. */
    method Remove(u: UserId, pid: ProductId) returns (r: Result<CartState, Error>)
      requires Valid()
      modifies this, carts.Values
      ensures Valid()
      ensures carts == old(carts)
      ensures products == old(products) && orders == old(orders)
      ensures u !in old(carts) ==> r == Failure(NotFound) && View() == old(View())
      ensures u in old(carts) ==>
                var items := Without(old(carts[u].items), pid);
                r == Success(CartState(items, Total(items))) && View() == old(View())[u := r.value]
    {
      if u !in carts {
        return Failure(NotFound);
      }
      var items := Without(carts[u].items, pid);
      WithoutEffect(carts[u].items, pid, pid);
      var state := StoreLines(u, items);
      r := Success(state);
    }

    /** DELETE /cart/clear: no lines and a total of 0; NotFound when there is no cart. */
    method Clear(u: UserId) returns (r: Result<CartState, Error>)
      requires Valid()
      modifies this, carts.Values
      ensures Valid()
      ensures carts == old(carts)
      ensures products == old(products) && orders == old(orders)
      ensures u !in old(carts) ==> r == Failure(NotFound) && View() == old(View())
      ensures u in old(carts) ==> r == Success(EMPTY_CART) && View() == old(View())[u := EMPTY_CART]
    {
      if u !in carts {
        return Failure(NotFound);
      }
      ResetCart(u);
      r := Success(EMPTY_CART);
    }

    /** `cart.items = []; cart.totalAmount = 0`, as clear and checkout both do. */
    method ResetCart(u: UserId)
      requires Valid() && u in carts
      modifies carts[u]
      ensures Valid()
      ensures View() == old(View())[u := EMPTY_CART]
    {
      var cart := carts[u];
      cart.items := [];
      cart.totalAmount := 0;
      OneCartWritten(u);
    }

    /** After a write to the cart object of `u` alone, the carts as values differ from
        the earlier ones at `u` only: no other user shares that object. */
    twostate lemma OneCartWritten(u: UserId)
      requires old(Valid()) && u in old(carts) && carts == old(carts)
      requires forall o :: o in old(carts.Values) && o != old(carts[u]) ==> unchanged(o)
      ensures View() == old(View())[u := StateOf(u)]
    {
      forall v | v in carts && v != u ensures unchanged(carts[v]) {
        assert carts[v] in old(carts.Values);
        assert old(carts[v].user) == v;
      }
      assert View() == old(View())[u := StateOf(u)];
    }

    // ------------------------------------------------------------ routes/orders.js

    /** The stock-decrement loop of the checkout: one `$inc` per cart line. */
    method DeductStock(lines: seq<CartItem>)
      requires Valid()
      modifies this
      ensures Valid()
      ensures products == DeductAll(old(products), lines)
      ensures carts == old(carts) && orders == old(orders) && View() == old(View())
    {
      var i := 0;
      while i < |lines|
        invariant 0 <= i <= |lines|
        invariant products == DeductAll(old(products), lines[..i])
        invariant carts == old(carts) && orders == old(orders)
      {
        assert lines[..i + 1][..i] == lines[..i];
        products := Deduct(products, lines[i].product, lines[i].quantity);
        i := i + 1;
      }
      assert lines[..i] == lines;
    }

    /** POST /orders. A missing or empty cart is EmptyCart; a line whose product is
        short of stock (or gone) stops the checkout before anything is written. On
        success one order is appended, with the lines snapshotted in order and the
        cart's stored total; every line's product loses that line's quantity; the cart
        is emptied. */
    method Checkout(u: UserId, shippingAddress: string, paymentMethod: string, timestamp: nat, randomBase36: string)
      returns (r: Result<Order, Error>)
      requires Valid()
      modifies this, carts.Values
      ensures Valid()
      ensures carts == old(carts)
      ensures r.Failure? ==> products == old(products) && orders == old(orders) && View() == old(View())
      ensures old(StateOf(u)).items == [] ==> r == Failure(EmptyCart)
      ensures var lines := old(StateOf(u)).items;
              lines != [] ==>
                (r.Success? <==> forall i :: 0 <= i < |lines| ==> InStock(old(products), lines[i]))
      ensures var lines := old(StateOf(u)).items;
              lines != [] && r.Failure? ==>
                exists k :: 0 <= k < |lines| && !InStock(old(products), lines[k]) &&
                  (forall j :: 0 <= j < k ==> InStock(old(products), lines[j])) &&
                  r.error == StockError(old(products), lines[k])
      ensures r.Success? ==>
                var lines := old(StateOf(u)).items;
                && Resolves(old(products), lines)
                && r.value == Order(OrderNumber(timestamp, randomBase36), u, Snapshot(lines, old(products)),
                                    shippingAddress, paymentMethod, old(StateOf(u)).totalAmount, PENDING, PENDING)
                && r.value.totalAmount == OrderTotal(r.value.items)
                && orders == old(orders) + [r.value]
                && products == DeductAll(old(products), lines)
                && StockTaken(old(products), products, lines)
                && View() == old(View())[u := EMPTY_CART]
    {
      if u !in carts || |carts[u].items| == 0 {
        return Failure(EmptyCart);
      }
      var lines := carts[u].items;
      var k := FindShortLine(products, lines);
      if k < |lines| {
        return Failure(StockError(products, lines[k]));
      }
      assert View() == old(View());
      var order := PlaceOrder(u, shippingAddress, paymentMethod, timestamp, randomBase36);
      r := Success(order);
    }

    /** The writes of a checkout whose stock check passed: snapshot and store the
        order, decrement the stock line by line, empty the cart. */
    method PlaceOrder(u: UserId, shippingAddress: string, paymentMethod: string, timestamp: nat, randomBase36: string)
      returns (order: Order)
      requires Valid() && u in carts
      requires forall i :: 0 <= i < |carts[u].items| ==> InStock(products, carts[u].items[i])
      modifies this, carts[u]
      ensures Valid()
      ensures carts == old(carts)
      ensures var lines := old(carts[u].items);
              && Resolves(old(products), lines)
              && order == Order(OrderNumber(timestamp, randomBase36), u, Snapshot(lines, old(products)),
                                shippingAddress, paymentMethod, old(carts[u].totalAmount), PENDING, PENDING)
              && order.totalAmount == OrderTotal(order.items)
              && orders == old(orders) + [order]
              && products == DeductAll(old(products), lines)
              && StockTaken(old(products), products, lines)
      ensures View() == old(View())[u := EMPTY_CART]
    {
      var cart := carts[u];
      var lines := cart.items;
      SnapshotTotal(lines, products);
      DeductAllCart(products, lines);
      var orderItems := Snapshot(lines, products);
      var orderNumber := OrderNumber(timestamp, randomBase36);
      order := Order(orderNumber, u, orderItems, shippingAddress, paymentMethod, cart.totalAmount, PENDING, PENDING);
      RecordOrder(order);
      DeductStock(lines);
      ResetCart(u);
    }

    /** `order.save()`: append the order and change nothing else. */
    method RecordOrder(order: Order)
      requires Valid()
      modifies this
      ensures Valid()
      ensures orders == old(orders) + [order]
      ensures products == old(products) && carts == old(carts) && View() == old(View())
    {
      orders := orders + [order];
    }

    /** GET /orders/:id: NotFound for an unknown id; the order when the requester owns
        it or is an admin; Forbidden otherwise. */
    method GetOrder(id: nat, requester: UserId, role: string) returns (r: Result<Order, Error>)
      ensures id >= |orders| ==> r == Failure(NotFound)
      ensures id < |orders| ==> (r.Success? <==> orders[id].user == requester || role == ADMIN_ROLE)
      ensures id < |orders| && r.Failure? ==> r.error == Forbidden
      ensures r.Success? ==> id < |orders| && r.value == orders[id]
    {
      if id >= |orders| {
        return Failure(NotFound);
      }
      var order := orders[id];
      if order.user != requester && role != ADMIN_ROLE {
        return Failure(Forbidden);
      }
      r := Success(order);
    }

    // ------------------------------------------------------------ routes/products.js

    /** GET /products/:id: a missing and a soft-deleted product are both NotFound. */
    method GetProduct(id: ProductId) returns (r: Result<Product, Error>)
      ensures r.Success? <==> Available(products, id)
      ensures r.Success? ==> r.value == products[id]
      ensures r.Failure? ==> r.error == NotFound
    {
      if id !in products || !products[id].isActive {
        return Failure(NotFound);
      }
      r := Success(products[id]);
    }

    /** DELETE /products/:id: mark the product inactive and keep the record and every
        other field; NotFound for an unknown id. Afterwards neither the single-product
        route nor any list returns it, and no order changes. */
    method SoftDelete(id: ProductId) returns (r: Result<Product, Error>)
      requires Valid()
      modifies this
      ensures Valid()
      ensures carts == old(carts) && orders == old(orders) && View() == old(View())
      ensures id !in old(products) ==> r == Failure(NotFound) && products == old(products)
      ensures id in old(products) ==>
                r == Success(old(products)[id].(isActive := false)) && products == old(products)[id := r.value]
      ensures !Available(products, id)
      ensures forall q :: id !in Listed(products, q)
    {
      if id !in products {
        return Failure(NotFound);
      }
      var product := products[id].(isActive := false);
      products := products[id := product];
      r := Success(product);
      forall q {
        RetiredNotListed(products, id, q);
      }
    }
  }
}
