/** The pagination arithmetic shared by the product list (routes/products.js) and the
    two order lists (routes/orders.js): skip = (page - 1) * limit and
    pages = ceil(total / limit). */
module Paging {
  import opened Wrappers
  import opened Errors
  import opened Catalog

  const FIRST_PAGE := 1
  const PRODUCT_PAGE_SIZE := 12
  const ORDER_PAGE_SIZE := 10

  /** The number of records skipped before the requested page: none on the first
      page, and a negative number (which the database refuses) exactly when the page
      and the limit lie on opposite sides of page 1 and 0. */
  function Skip(page: int, limit: int): (r: int)
    ensures page == FIRST_PAGE || limit == 0 ==> r == 0
    ensures r < 0 <==> (page < FIRST_PAGE && limit > 0) || (page > FIRST_PAGE && limit < 0)
  {
    SignOfProduct(page - 1, limit);
    (page - 1) * limit
  }

  /** The sign of a product follows the signs of its factors. */
  lemma SignOfProduct(x: int, y: int)
    ensures x * y < 0 <==> (x < 0 && y > 0) || (x > 0 && y < 0)
    ensures x * y == 0 <==> x == 0 || y == 0
  {
    if x > 0 && y > 0 {
      MulMonotonic(1, x, y);
    } else if x < 0 && y < 0 {
      MulMonotonic(x, -1, -y);
    } else if x > 0 && y < 0 {
      MulMonotonic(1, x, -y);
    } else if x < 0 && y > 0 {
      MulMonotonic(x, -1, y);
    }
  }

  /** JavaScript's Math.ceil(total / limit). A zero limit gives a non-finite number
      (Infinity, or NaN when total is 0), modelled as None; a negative limit gives
      the ceiling of a non-positive quotient. */
  function Pages(total: nat, limit: int): (r: Option<int>)
    ensures r.Some? <==> limit != 0
    ensures limit > 0 ==> r.Some? && 0 <= r.value && total <= r.value * limit && (r.value - 1) * limit < total
    ensures limit < 0 ==> r.Some? && r.value <= 0 && r.value * limit <= total && total < (r.value - 1) * limit
  {
    if limit > 0 then
      var p := (total + limit - 1) / limit;
      DivBounds(total + limit - 1, limit);
      Some(p)
    else if limit < 0 then
      var p := total / -limit;
      DivBounds(total, -limit);
      Some(-p)
    else
      None
  }

  /** Euclidean division, spelled out for the solver. */
  lemma DivBounds(a: nat, b: int)
    requires b > 0
    ensures (a / b) * b <= a < (a / b) * b + b
    ensures a / b >= 0
  {
  }

  /** Multiplication by a non-negative number is monotonic. */
  lemma MulMonotonic(x: int, y: int, c: int)
    requires x <= y && c >= 0
    ensures x * c <= y * c
  {
  }

  /** With a positive limit, page p (counting from 1) holds at least one record exactly
      when p does not exceed the page count: the count covers every record and has no
      trailing empty page. */
  lemma {:induction false} PagesCountNonEmptyPages(total: nat, limit: int, page: int)
    requires limit > 0 && page >= FIRST_PAGE
    ensures Skip(page, limit) < total <==> page <= Pages(total, limit).value
  {
    var p := Pages(total, limit).value;
    if page <= p {
      MulMonotonic(page - 1, p - 1, limit);
    } else {
      MulMonotonic(p, page - 1, limit);
    }
  }

  /** The pagination block of a list response. */
  datatype PageInfo = PageInfo(page: int, pages: Option<int>, total: nat, limit: int)

  /** The page, limit and page count a list route reports, with the route's defaults
      for absent parameters, and the number of records it skips. A negative skip makes
      the database query fail, which the route answers as an error. */
  function Paginate(page: Option<int>, limit: Option<int>, defaultLimit: int, total: nat): (r: Result<(PageInfo, int), Error>)
    ensures var p, l := page.GetOr(FIRST_PAGE), limit.GetOr(defaultLimit);
            && (r.Failure? <==> Skip(p, l) < 0)
            && (r.Failure? ==> r.error == InvalidArgument)
            && (r.Success? ==>
                  && r.value.0 == PageInfo(p, Pages(total, l), total, l)
                  && r.value.1 == Skip(p, l) && r.value.1 >= 0
                  && (p == FIRST_PAGE ==> r.value.1 == 0))
  {
    var p := page.GetOr(FIRST_PAGE);
    var l := limit.GetOr(defaultLimit);
    var skip := Skip(p, l);
    if skip < 0 then Failure(InvalidArgument)
    else Success((PageInfo(p, Pages(total, l), total, l), skip))
  }

  /** The pagination of GET /products: page 1 and 12 records per page when the query
      gives neither. */
  function ProductPagination(q: ProductQuery, total: nat): (r: Result<(PageInfo, int), Error>)
    ensures q.page.None? && q.limit.None? ==> r == Success((PageInfo(1, Pages(total, 12), total, 12), 0))
    ensures q.limit.None? && q.page.Some? && q.page.value >= 1 ==>
              r.Success? && r.value.0.limit == 12 && r.value.1 == (q.page.value - 1) * 12
    ensures r.Success? ==> r.value.0.page == q.page.GetOr(1) && r.value.0.limit == q.limit.GetOr(12)
  {
    Paginate(q.page, q.limit, PRODUCT_PAGE_SIZE, total)
  }

  /** The pagination of GET /orders/my-orders and the admin GET /orders: page 1 and 10
      records per page when the query gives neither. */
  function OrderPagination(page: Option<int>, limit: Option<int>, total: nat): (r: Result<(PageInfo, int), Error>)
    ensures page.None? && limit.None? ==> r == Success((PageInfo(1, Pages(total, 10), total, 10), 0))
    ensures limit.None? && page.Some? && page.value >= 1 ==>
              r.Success? && r.value.0.limit == 10 && r.value.1 == (page.value - 1) * 10
    ensures r.Success? ==> r.value.0.page == page.GetOr(1) && r.value.0.limit == limit.GetOr(10)
  {
    Paginate(page, limit, ORDER_PAGE_SIZE, total)
  }
}
