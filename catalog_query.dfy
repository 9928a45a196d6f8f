/** The specification of the product catalog query (src/services/api.ts, `productApi.getAll`):
    seven conjunctive filters applied one after another, a sort chosen by `sortBy`, and an
    offset/limit page with JavaScript's `slice` semantics. The in-place implementation is
    `MockApi.MockDatabase.ProductGetAll`, proved equal to `Query` below. */
module CatalogQuery {
  import opened Types
  import opened Text
  import opened ProductSort

  // ---------------------------------------------------------------- the filters

  /** The seven filter blocks, in the order `getAll` runs them. */
  datatype FilterStep = ByCategory | BySkinType | ByConcern | ByBrand | ByPrice | ByRating | BySearch

  const Pipeline: seq<FilterStep> := [ByCategory, BySkinType, ByConcern, ByBrand, ByPrice, ByRating, BySearch]

  /** The guard of each block. `if (filters.priceRange)` tests an array, which is always
      truthy, so the price filter always runs; `if (filters.search)` skips the empty string. */
  predicate Active(f: ProductFilters, step: FilterStep) {
    match step
    case ByCategory => |f.categories| > 0
    case BySkinType => |f.skinTypes| > 0
    case ByConcern => |f.concerns| > 0
    case ByBrand => |f.brands| > 0
    case ByPrice => true
    case ByRating => f.rating > 0.0
    case BySearch => f.search != ""
  }

  /** `p.skinTypes.some(st => filters.skinTypes.includes(st))`. */
  predicate SharesSkinType(p: Product, wanted: seq<SkinType>) {
    exists i :: 0 <= i < |p.skinTypes| && p.skinTypes[i] in wanted
  }

  predicate SharesConcern(p: Product, wanted: seq<SkinConcern>) {
    exists i :: 0 <= i < |p.concerns| && p.concerns[i] in wanted
  }

  /** The lower-cased query occurs in the name, the description or the category name. */
  predicate SearchHit(p: Product, search: string) {
    var query := Lower(search);
    Includes(Lower(p.name), query) || Includes(Lower(p.description), query)
      || Includes(Lower(p.category.name), query)
  }

  /** The predicate each block passes to `filter`. */
  predicate Accepts(f: ProductFilters, step: FilterStep, p: Product) {
    match step
    case ByCategory => p.category.slug in f.categories
    case BySkinType => SharesSkinType(p, f.skinTypes)
    case ByConcern => SharesConcern(p, f.concerns)
    case ByBrand => p.brand in f.brands
    case ByPrice => f.priceRange.0 <= p.price <= f.priceRange.1
    case ByRating => p.rating >= f.rating
    case BySearch => SearchHit(p, f.search)
  }

  /** `filteredProducts.filter(…)` for one block. */
  function Keep(s: seq<Product>, f: ProductFilters, step: FilterStep): seq<Product> {
    if s == [] then []
    else if Accepts(f, step, s[0]) then [s[0]] + Keep(s[1..], f, step)
    else Keep(s[1..], f, step)
  }

  /** One guarded block: the filter when its guard holds, the list unchanged otherwise. */
  function Stage(s: seq<Product>, f: ProductFilters, step: FilterStep): seq<Product> {
    if Active(f, step) then Keep(s, f, step) else s
  }

  /** The list after the first `n` blocks. */
  function FilteredUpTo(s: seq<Product>, f: ProductFilters, n: nat): seq<Product>
    requires n <= |Pipeline|
  {
    if n == 0 then s else Stage(FilteredUpTo(s, f, n - 1), f, Pipeline[n - 1])
  }

  function Filtered(s: seq<Product>, f: ProductFilters): seq<Product> {
    FilteredUpTo(s, f, |Pipeline|)
  }

  /** Reference definition: a product meets every filter whose input is non-empty. */
  predicate MeetsAll(f: ProductFilters, p: Product) {
    && (|f.categories| > 0 ==> p.category.slug in f.categories)
    && (|f.skinTypes| > 0 ==> SharesSkinType(p, f.skinTypes))
    && (|f.concerns| > 0 ==> SharesConcern(p, f.concerns))
    && (|f.brands| > 0 ==> p.brand in f.brands)
    && f.priceRange.0 <= p.price <= f.priceRange.1
    && (f.rating > 0.0 ==> p.rating >= f.rating)
    && (f.search != "" ==> SearchHit(p, f.search))
  }

  /** Reference definition: one pass keeping, in order, the products that meet every filter. */
  function RetainAll(s: seq<Product>, f: ProductFilters): seq<Product> {
    if s == [] then []
    else if MeetsAll(f, s[0]) then [s[0]] + RetainAll(s[1..], f)
    else RetainAll(s[1..], f)
  }

  /** A product passes the first `n` blocks. */
  predicate PassesUpTo(f: ProductFilters, p: Product, n: nat)
    requires n <= |Pipeline|
  {
    forall i :: 0 <= i < n ==> (Active(f, Pipeline[i]) ==> Accepts(f, Pipeline[i], p))
  }

  function RetainUpTo(s: seq<Product>, f: ProductFilters, n: nat): seq<Product>
    requires n <= |Pipeline|
  {
    if s == [] then []
    else if PassesUpTo(f, s[0], n) then [s[0]] + RetainUpTo(s[1..], f, n)
    else RetainUpTo(s[1..], f, n)
  }

  lemma {:induction false} RetainNone(s: seq<Product>, f: ProductFilters)
    ensures RetainUpTo(s, f, 0) == s
  {
    if s != [] {
      RetainNone(s[1..], f);
    }
  }

  /** Running block n on the products that passed blocks 0..n-1 keeps those that pass 0..n. */
  lemma {:induction false} StageExtends(s: seq<Product>, f: ProductFilters, n: nat)
    requires n < |Pipeline|
    ensures Stage(RetainUpTo(s, f, n), f, Pipeline[n]) == RetainUpTo(s, f, n + 1)
  {
    if s != [] {
      StageExtends(s[1..], f, n);
      var p := s[0];
      assert PassesUpTo(f, p, n + 1)
        <==> PassesUpTo(f, p, n) && (Active(f, Pipeline[n]) ==> Accepts(f, Pipeline[n], p));
      if !Active(f, Pipeline[n]) {
        assert PassesUpTo(f, p, n + 1) <==> PassesUpTo(f, p, n);
      }
    }
  }

  lemma {:induction false} FilteredIsRetained(s: seq<Product>, f: ProductFilters, n: nat)
    requires n <= |Pipeline|
    ensures FilteredUpTo(s, f, n) == RetainUpTo(s, f, n)
  {
    if n == 0 {
      RetainNone(s, f);
    } else {
      FilteredIsRetained(s, f, n - 1);
      StageExtends(s, f, n - 1);
    }
  }

  lemma MeetsAllIsPassingEveryBlock(f: ProductFilters, p: Product)
    ensures MeetsAll(f, p) <==> PassesUpTo(f, p, |Pipeline|)
  {
    assert Pipeline[0] == ByCategory && Pipeline[1] == BySkinType && Pipeline[2] == ByConcern;
    assert Pipeline[3] == ByBrand && Pipeline[4] == ByPrice && Pipeline[5] == ByRating;
    assert Pipeline[6] == BySearch;
  }

  lemma {:induction false} RetainSame(s: seq<Product>, f: ProductFilters)
    ensures RetainUpTo(s, f, |Pipeline|) == RetainAll(s, f)
  {
    if s != [] {
      MeetsAllIsPassingEveryBlock(f, s[0]);
      RetainSame(s[1..], f);
    }
  }

  /** The seven sequential blocks compute the single-pass filter by `MeetsAll`. */
  lemma FilteredIsRetainAll(s: seq<Product>, f: ProductFilters)
    ensures Filtered(s, f) == RetainAll(s, f)
  {
    FilteredIsRetained(s, f, |Pipeline|);
    RetainSame(s, f);
  }

  lemma {:induction false} RetainAllMembership(s: seq<Product>, f: ProductFilters, p: Product)
    ensures p in RetainAll(s, f) <==> p in s && MeetsAll(f, p)
  {
    if s != [] {
      RetainAllMembership(s[1..], f, p);
      assert p in s <==> p == s[0] || p in s[1..];
    }
  }

  lemma {:induction false} RetainAllShrinks(s: seq<Product>, f: ProductFilters)
    ensures multiset(RetainAll(s, f)) <= multiset(s)
  {
    if s != [] {
      RetainAllShrinks(s[1..], f);
      assert s == [s[0]] + s[1..];
    }
  }

  /** Soundness and completeness: a product survives the filters exactly when it is one of
      the source products and meets every active filter; no product gains copies. */
  lemma FilterMembership(s: seq<Product>, f: ProductFilters, p: Product)
    ensures p in Filtered(s, f) <==> p in s && MeetsAll(f, p)
    ensures multiset(Filtered(s, f)) <= multiset(s)
  {
    FilteredIsRetainAll(s, f);
    RetainAllMembership(s, f, p);
    RetainAllShrinks(s, f);
  }

  // ---------------------------------------------------------------- the sort

  /** The `switch (filters.sortBy)`: an unknown value matches no case and nothing is sorted. */
  function SortKeyOf(sortBy: string): Option<SortOrder> {
    if sortBy == "price-asc" then Some(PriceAsc)
    else if sortBy == "price-desc" then Some(PriceDesc)
    else if sortBy == "rating" then Some(RatingDesc)
    else if sortBy == "newest" then Some(Newest)
    else if sortBy == "bestseller" then Some(Bestseller)
    else None
  }

  function SortedBy(s: seq<Product>, sortBy: string): seq<Product> {
    match SortKeyOf(sortBy)
    case None => s
    case Some(order) => SortSeq(s, order)
  }

  /** The list `getAll` pages through: with no filters the copy of the catalog as it is. */
  function Results(products: seq<Product>, filters: Option<ProductFilters>): seq<Product> {
    match filters
    case None => products
    case Some(f) => SortedBy(Filtered(products, f), f.sortBy)
  }

  /** Sorting only permutes the filtered list, and orders it when `sortBy` is a known key. */
  lemma ResultsPermuteFiltered(products: seq<Product>, f: ProductFilters)
    ensures multiset(Results(products, Some(f))) == multiset(Filtered(products, f))
    ensures forall order :: SortKeyOf(f.sortBy) == Some(order) ==>
      Sorted(Results(products, Some(f)), order)
  {
    match SortKeyOf(f.sortBy)
    case None =>
    case Some(order) =>
      SortPermutes(Filtered(products, f), order);
      SortSorted(Filtered(products, f), order);
  }

  /** Every result is a catalog product that meets every active filter, and every such
      product is among the results. */
  lemma ResultsMembership(products: seq<Product>, f: ProductFilters, p: Product)
    ensures p in Results(products, Some(f)) <==> p in products && MeetsAll(f, p)
  {
    ResultsPermuteFiltered(products, f);
    FilterMembership(products, f, p);
    assert p in Results(products, Some(f)) <==> p in multiset(Results(products, Some(f)));
  }

  // ---------------------------------------------------------------- the page

  /** How `slice` resolves a bound: negative counts from the end, then clamp to [0, len]. */
  function SliceIndex(i: int, len: nat): (r: nat)
    ensures r <= len
  {
    if i < 0 then (if len + i < 0 then 0 else len + i) else if i > len then len else i
  }

  /** `s.slice(start, end)`. */
  function JsSlice<T>(s: seq<T>, start: int, end: int): seq<T> {
    var a, b := SliceIndex(start, |s|), SliceIndex(end, |s|);
    if a < b then s[a..b] else []
  }

  /** `Math.ceil(n / d)` for d > 0. */
  function CeilDiv(n: nat, d: nat): nat
    requires d > 0
  {
    (n + d - 1) / d
  }

  lemma CeilDivIsCeiling(n: nat, d: nat)
    requires d > 0
    ensures CeilDiv(n, d) * d >= n
    ensures CeilDiv(n, d) > 0 ==> (CeilDiv(n, d) - 1) * d < n
    ensures n == 0 <==> CeilDiv(n, d) == 0
  {
    var c := CeilDiv(n, d);
    var r := (n + d - 1) % d;
    assert n + d - 1 == c * d + r && 0 <= r < d;
  }

  /** The response `getAll`, `getByCategory`, `orderApi.getAll` and `userApi.getAll` build from
      a list: the window `[(page-1)*limit, (page-1)*limit + limit)` and the count before paging. */
  function Paginate<T>(s: seq<T>, page: int, limit: int): (r: PaginatedResponse<T>)
    requires limit > 0
  {
    var start := (page - 1) * limit;
    PaginatedResponse(JsSlice(s, start, start + limit), |s|, page, limit, CeilDiv(|s|, limit))
  }

  /** A page holds at most `limit` items and reports the unpaged count and the page count. */
  lemma PageBounds<T>(s: seq<T>, page: int, limit: int)
    requires limit > 0
    ensures var r := Paginate(s, page, limit);
      && |r.data| <= limit && r.total == |s| && r.page == page && r.limit == limit
      && r.totalPages * limit >= |s| && (r.totalPages > 0 ==> (r.totalPages - 1) * limit < |s|)
  {
    CeilDivIsCeiling(|s|, limit);
  }

  /** For page >= 1 the page is the plain window of the list, item k being item
      (page-1)*limit + k; pages past the last are empty. */
  lemma PageWindow<T>(s: seq<T>, page: int, limit: int)
    requires limit > 0 && page >= 1
    ensures var r := Paginate(s, page, limit); var start := (page - 1) * limit;
      && (start >= |s| ==> r.data == [])
      && (start < |s| ==> |r.data| == (if start + limit <= |s| then limit else |s| - start))
      && forall k :: 0 <= k < |r.data| ==> r.data[k] == s[start + k]
  {
    var start := (page - 1) * limit;
    NonNegativeProduct(page - 1, limit);
    var a, b := SliceIndex(start, |s|), SliceIndex(start + limit, |s|);
    assert a == (if start <= |s| then start else |s|);
    assert b == (if start + limit <= |s| then start + limit else |s|);
  }

  lemma NonNegativeProduct(a: nat, b: nat)
    ensures a * b >= 0
  {
  }

  /** The pages 1, 2, … split the list: concatenating pages 1..n gives its first n*limit items. */
  lemma {:induction false} PagesConcatenate<T>(s: seq<T>, n: nat, limit: int)
    requires limit > 0
    ensures PagesUpTo(s, n, limit) == s[..if n * limit <= |s| then n * limit else |s|]
  {
    if n > 0 {
      PagesConcatenate(s, n - 1, limit);
      PageWindow(s, n, limit);
      var start := (n - 1) * limit;
      var prev := if start <= |s| then start else |s|;
      var next := if n * limit <= |s| then n * limit else |s|;
      assert Paginate(s, n, limit).data == s[prev..next];
      assert s[..prev] + s[prev..next] == s[..next];
    }
  }

  function PagesUpTo<T>(s: seq<T>, n: nat, limit: int): seq<T>
    requires limit > 0
  {
    if n == 0 then [] else PagesUpTo(s, n - 1, limit) + Paginate(s, n, limit).data
  }

  /** Page 0 is always empty (`slice(-limit, 0)`); negative pages count back from the end. */
  lemma PageZeroEmpty<T>(s: seq<T>, limit: int)
    requires limit > 0
    ensures Paginate(s, 0, limit).data == []
  {
  }

  /** The whole of `getAll`. */
  function Query(products: seq<Product>, page: int, limit: int, filters: Option<ProductFilters>): PaginatedResponse<Product>
    requires limit > 0
  {
    Paginate(Results(products, filters), page, limit)
  }

  /** Without filters nothing is filtered or sorted: the page is a window of the catalog. */
  lemma QueryWithoutFilters(products: seq<Product>, page: int, limit: int)
    requires limit > 0 && page >= 1
    ensures var r := Query(products, page, limit, None);
      r.total == |products| && forall k :: 0 <= k < |r.data| ==> r.data[k] == products[(page - 1) * limit + k]
  {
    PageWindow(products, page, limit);
  }

  /** `getByCategory`: the helper's list for the slug, paged like `getAll`. The helper itself
      is not part of this model, so its result is the argument `matching`. */
  function CategoryPage(matching: seq<Product>, page: int, limit: int): (r: PaginatedResponse<Product>)
    requires limit > 0
    ensures |r.data| <= limit && r.total == |matching| && r.page == page && r.limit == limit
    ensures page >= 1 ==> forall k :: 0 <= k < |r.data| ==>
      (page - 1) * limit + k < |matching| && r.data[k] == matching[(page - 1) * limit + k]
  {
    PageBounds(matching, page, limit);
    if page >= 1 then
      PageWindow(matching, page, limit);
      Paginate(matching, page, limit)
    else
      Paginate(matching, page, limit)
  }
}
