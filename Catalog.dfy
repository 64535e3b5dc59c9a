/** The product catalogue of routes/products.js: the records, the filter the list
    route builds from its query string, the sort flag, and the active check that every
    read path applies. */
module Catalog {
  import opened Wrappers

  type ProductId = nat

  /** A catalogue record. Prices are integer cents (the source uses JavaScript numbers). */
  datatype Product = Product(
    name: string,
    price: int,
    category: string,
    brand: string,
    stock: int,
    isActive: bool)

  /** A product can be fetched, listed and added to a cart only while it is in the
      store and not soft-deleted. */
  predicate Available(products: map<ProductId, Product>, id: ProductId)
  {
    id in products && products[id].isActive
  }

  /** The query string of the list route. A string parameter is None when absent;
      a price bound is Some(n) when the parameter is a non-empty string whose numeric
      value is n. */
  datatype ProductQuery = ProductQuery(
    page: Option<int>,
    limit: Option<int>,
    category: Option<string>,
    brand: Option<string>,
    minPrice: Option<int>,
    maxPrice: Option<int>,
    sort: Option<string>,
    order: Option<string>)

  /** JavaScript truthiness of a query-string parameter: present and not empty. */
  predicate Given(param: Option<string>)
  {
    param.Some? && param.value != ""
  }

  /** The `price` part of the filter document: `$gte` and `$lte`, each optional. */
  datatype PriceRange = PriceRange(gte: Option<int>, lte: Option<int>)

  /** The filter document handed to the database. */
  datatype Filter = Filter(
    isActive: bool,
    category: Option<string>,
    brand: Option<string>,
    price: Option<PriceRange>)

  /** The filter the list route builds by successive field assignments. */
  function BuildFilter(q: ProductQuery): (f: Filter)
    ensures f.isActive
    ensures f.category.Some? ==> f.category.value != "" && f.category == q.category
    ensures f.brand.Some? ==> f.brand.value != "" && f.brand == q.brand
    ensures f.price.Some? <==> q.minPrice.Some? || q.maxPrice.Some?
    ensures f.price.Some? ==> f.price.value.gte == q.minPrice && f.price.value.lte == q.maxPrice
  {
    Filter(
      true,
      if Given(q.category) then q.category else None,
      if Given(q.brand) then q.brand else None,
      if q.minPrice.Some? || q.maxPrice.Some? then Some(PriceRange(q.minPrice, q.maxPrice)) else None)
  }

  /** What the database does with a filter document: equality on plain fields,
      comparison operators inside a sub-document. A sub-document with no operator
      (`price: {}`) is an equality test against the empty document, which no numeric
      price passes: this is why the route only adds `price` when a bound is given. */
  predicate Satisfies(p: Product, f: Filter)
  {
    && p.isActive == f.isActive
    && (f.category.Some? ==> p.category == f.category.value)
    && (f.brand.Some? ==> p.brand == f.brand.value)
    && (f.price.Some? ==> InRange(p.price, f.price.value))
  }

  predicate InRange(price: int, r: PriceRange)
  {
    && (r.gte.Some? || r.lte.Some?)
    && (r.gte.Some? ==> r.gte.value <= price)
    && (r.lte.Some? ==> price <= r.lte.value)
  }

  /** The products a query asks for: active ones, of the category and brand when given,
      with the price between the bounds (each inclusive) that are given. */
  predicate Wanted(p: Product, q: ProductQuery)
  {
    && p.isActive
    && (Given(q.category) ==> p.category == q.category.value)
    && (Given(q.brand) ==> p.brand == q.brand.value)
    && (q.minPrice.Some? ==> q.minPrice.value <= p.price)
    && (q.maxPrice.Some? ==> p.price <= q.maxPrice.value)
  }

  /** The filter document the route builds selects exactly the wanted products. */
  lemma FilterMeaning(p: Product, q: ProductQuery)
    ensures Satisfies(p, BuildFilter(q)) <==> Wanted(p, q)
  {
  }

  /** The identifiers the list route selects before sorting and paging: the built
      filter document selects exactly the wanted products. */
  function Listed(products: map<ProductId, Product>, q: ProductQuery): (r: set<ProductId>)
    ensures forall id :: id in r ==> id in products && Wanted(products[id], q)
    ensures forall id :: id in products && Wanted(products[id], q) ==> id in r
  {
    var f := BuildFilter(q);
    set id | id in products && Satisfies(products[id], f)
  }

  /** A soft-deleted product is never listed, whatever the query. */
  lemma RetiredNotListed(products: map<ProductId, Product>, id: ProductId, q: ProductQuery)
    requires id in products && !products[id].isActive
    ensures id !in Listed(products, q)
  {
  }

  /** The field the list route sorts on and its direction (1 ascending, -1 descending). */
  datatype SortSpec = SortSpec(field: string, direction: int)

  const DEFAULT_SORT_FIELD := "createdAt"
  const DEFAULT_ORDER := "desc"

  function SortOf(q: ProductQuery): (s: SortSpec)
    ensures s.direction == 1 || s.direction == -1
    ensures s.direction == -1 <==> q.order.None? || q.order.value == "desc"
    ensures q.sort.None? ==> s.field == "createdAt"
    ensures q.sort.Some? ==> s.field == q.sort.value
  {
    SortSpec(q.sort.GetOr(DEFAULT_SORT_FIELD), if q.order.GetOr(DEFAULT_ORDER) == "desc" then -1 else 1)
  }
}
