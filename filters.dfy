/**
 * `ProductFilter` (`backend/api/filters.py`) as a predicate over product
 * listings. Query values are taken as already parsed; an empty value
 * leaves its filter off, as the filter library does.
 */
module Filters {
  import opened Wrappers

  datatype Listing = Listing(price: real, salePrice: real, categorySlug: Option<string>, featured: bool)

  datatype Params = Params(minPrice: Option<real>, maxPrice: Option<real>, category: Option<string>, featured: Option<bool>)

  /** `min_price`/`max_price` bound `sale_price` inclusively; `category` matches the category's slug; `featured` the flag. */
  predicate Matches(p: Listing, f: Params)
  {
    && (f.minPrice.Some? ==> p.salePrice >= f.minPrice.value)
    && (f.maxPrice.Some? ==> p.salePrice <= f.maxPrice.value)
    && (Truthy(f.category) ==> p.categorySlug == f.category)
    && (f.featured.Some? ==> p.featured == f.featured.value)
  }

  /** The filtered queryset, in the order of `products`. */
  function Apply(products: seq<Listing>, f: Params): (r: seq<Listing>)
    ensures |r| <= |products|
    ensures forall x :: x in r ==> x in products && Matches(x, f)
    ensures forall x :: x in products && Matches(x, f) ==> x in r
  {
    if products == [] then []
    else if Matches(products[0], f) then [products[0]] + Apply(products[1..], f)
    else Apply(products[1..], f)
  }

  /** Filtering keeps the relative order: it distributes over concatenation. */
  lemma {:induction false} ApplyAppend(a: seq<Listing>, b: seq<Listing>, f: Params)
    ensures Apply(a + b, f) == Apply(a, f) + Apply(b, f)
  {
    if a == [] {
      assert a + b == b;
    } else {
      assert (a + b)[1..] == a[1..] + b;
      ApplyAppend(a[1..], b, f);
    }
  }

  /**
   * Every result lies within the bounds given, and the bounds are
   * inclusive: a product priced exactly `m` passes `min_price=m` and
   * `max_price=m` alike.
   */
  lemma PriceBoundsInclusive(products: seq<Listing>, f: Params, m: real)
    ensures f.minPrice.Some? ==> forall x :: x in Apply(products, f) ==> x.salePrice >= f.minPrice.value
    ensures f.maxPrice.Some? ==> forall x :: x in Apply(products, f) ==> x.salePrice <= f.maxPrice.value
    ensures forall x :: x in products && x.salePrice == m ==>
              x in Apply(products, Params(Some(m), None, None, None)) && x in Apply(products, Params(None, Some(m), None, None))
  {
  }

  /** The bounds look at `sale_price` only: changing the list price never changes the outcome. */
  lemma PriceIgnored(p: Listing, f: Params, listPrice: real)
    ensures Matches(p.(price := listPrice), f) == Matches(p, f)
  {
  }

  /** With no other filter, `category` keeps exactly the products in that category. */
  lemma CategoryExactly(products: seq<Listing>, slug: string)
    requires slug != ""
    ensures forall x :: x in Apply(products, Params(None, None, Some(slug), None)) <==> x in products && x.categorySlug == Some(slug)
  {
  }

  /** With no other filter, `featured` keeps exactly the products whose flag equals the parameter. */
  lemma FeaturedExactly(products: seq<Listing>, flag: bool)
    ensures forall x :: x in Apply(products, Params(None, None, None, Some(flag))) <==> x in products && x.featured == flag
  {
  }

  /** No parameters: the queryset is unchanged. */
  lemma {:induction false} NoParamsKeepsAll(products: seq<Listing>)
    ensures Apply(products, Params(None, None, None, None)) == products
  {
    if products != [] {
      NoParamsKeepsAll(products[1..]);
    }
  }
}
