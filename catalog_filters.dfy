/** The filter state of the catalog page (src/pages/public/Catalog.tsx): its initial value from
    the URL, the single-field update, the toggling of list filters, the reset, the count of
    active filters shown on the filter button, and the minimum-rating checkboxes. */
module CatalogFilters {
  import opened Types

  const DefaultPriceRange: (real, real) := (0.0, 1000.0)
  const DefaultSort := "newest"

  /** `x || fallback` on a URL parameter that may be missing: the empty string is falsy too. */
  function OrElse(param: Option<string>, fallback: string): (r: string)
    ensures param.Some? && param.value != "" ==> r == param.value
    ensures param.None? || param.value == "" ==> r == fallback
  {
    if param.Some? && param.value != "" then param.value else fallback
  }

  /** The list filter a category segment of the route selects. */
  function CategoriesFor(categorySlug: Option<string>, fallback: seq<string>): (r: seq<string>)
    ensures categorySlug.Some? && categorySlug.value != "" ==> r == [categorySlug.value]
    ensures categorySlug.None? || categorySlug.value == "" ==> r == fallback
  {
    if categorySlug.Some? && categorySlug.value != "" then [categorySlug.value] else fallback
  }

  /** The state the page starts from: the route's category, the URL's `sort` (default `newest`)
      and `q` (default empty), and otherwise nothing selected and the price range [0, 1000]. */
  function InitialFilters(categorySlug: Option<string>, sort: Option<string>, q: Option<string>): (f: ProductFilters)
    ensures f.skinTypes == [] && f.concerns == [] && f.brands == [] && f.rating == 0.0
    ensures f.priceRange == DefaultPriceRange
    ensures f.categories == CategoriesFor(categorySlug, [])
    ensures f.sortBy == OrElse(sort, DefaultSort) && f.search == OrElse(q, "")
  {
    ProductFilters(CategoriesFor(categorySlug, []), [], [], DefaultPriceRange, [], 0.0,
      OrElse(sort, DefaultSort), OrElse(q, ""))
  }

  /** The effect that re-reads the URL: a category, `sort` or `q` that is present replaces the
      current value, and everything else is kept. */
  function SyncWithUrl(prev: ProductFilters, categorySlug: Option<string>, sort: Option<string>, q: Option<string>): (f: ProductFilters)
    ensures f.skinTypes == prev.skinTypes && f.concerns == prev.concerns && f.brands == prev.brands
    ensures f.priceRange == prev.priceRange && f.rating == prev.rating
    ensures f.sortBy == OrElse(sort, prev.sortBy) && f.search == OrElse(q, prev.search)
    ensures f.categories == CategoriesFor(categorySlug, prev.categories)
  {
    prev.(categories := CategoriesFor(categorySlug, prev.categories),
          sortBy := OrElse(sort, prev.sortBy),
          search := OrElse(q, prev.search))
  }

  /** Starting from the URL and then re-reading the same URL changes nothing. */
  lemma SyncAfterInitialIsStable(categorySlug: Option<string>, sort: Option<string>, q: Option<string>)
    ensures SyncWithUrl(InitialFilters(categorySlug, sort, q), categorySlug, sort, q)
         == InitialFilters(categorySlug, sort, q)
  {
  }

  // ---------------------------------------------------------------- updateFilter

  datatype FieldName = CategoriesField | SkinTypesField | ConcernsField | PriceRangeField
                     | BrandsField | RatingField | SortByField | SearchField

  /** `updateFilter(key, value)`: one key with a value of that key's type. */
  datatype FilterUpdate =
    | SetCategories(categories: seq<string>)
    | SetSkinTypes(skinTypes: seq<SkinType>)
    | SetConcerns(concerns: seq<SkinConcern>)
    | SetPriceRange(priceRange: (real, real))
    | SetBrands(brands: seq<string>)
    | SetRating(rating: real)
    | SetSortBy(sortBy: string)
    | SetSearch(search: string)

  function KeyOf(u: FilterUpdate): FieldName {
    match u
    case SetCategories(_) => CategoriesField
    case SetSkinTypes(_) => SkinTypesField
    case SetConcerns(_) => ConcernsField
    case SetPriceRange(_) => PriceRangeField
    case SetBrands(_) => BrandsField
    case SetRating(_) => RatingField
    case SetSortBy(_) => SortByField
    case SetSearch(_) => SearchField
  }

  /** Two filter states hold the same value in one field. */
  predicate SameField(f: ProductFilters, g: ProductFilters, k: FieldName) {
    match k
    case CategoriesField => f.categories == g.categories
    case SkinTypesField => f.skinTypes == g.skinTypes
    case ConcernsField => f.concerns == g.concerns
    case PriceRangeField => f.priceRange == g.priceRange
    case BrandsField => f.brands == g.brands
    case RatingField => f.rating == g.rating
    case SortByField => f.sortBy == g.sortBy
    case SearchField => f.search == g.search
  }

  /** A filter state holds the update's value in the update's field. */
  predicate Holds(f: ProductFilters, u: FilterUpdate) {
    match u
    case SetCategories(v) => f.categories == v
    case SetSkinTypes(v) => f.skinTypes == v
    case SetConcerns(v) => f.concerns == v
    case SetPriceRange(v) => f.priceRange == v
    case SetBrands(v) => f.brands == v
    case SetRating(v) => f.rating == v
    case SetSortBy(v) => f.sortBy == v
    case SetSearch(v) => f.search == v
  }

  /** `{ ...prev, [key]: value }`: the named field takes the value and no other field changes. */
  function UpdateFilter(prev: ProductFilters, u: FilterUpdate): (f: ProductFilters)
    ensures Holds(f, u)
    ensures forall k :: k != KeyOf(u) ==> SameField(prev, f, k)
  {
    match u
    case SetCategories(v) => prev.(categories := v)
    case SetSkinTypes(v) => prev.(skinTypes := v)
    case SetConcerns(v) => prev.(concerns := v)
    case SetPriceRange(v) => prev.(priceRange := v)
    case SetBrands(v) => prev.(brands := v)
    case SetRating(v) => prev.(rating := v)
    case SetSortBy(v) => prev.(sortBy := v)
    case SetSearch(v) => prev.(search := v)
  }

  /** Setting a field to the value it already holds changes nothing, and setting it twice is
      the same as setting it once to the second value. */
  lemma UpdateFilterLaws(prev: ProductFilters, u: FilterUpdate, w: FilterUpdate)
    ensures Holds(prev, u) ==> UpdateFilter(prev, u) == prev
    ensures KeyOf(u) == KeyOf(w) ==> UpdateFilter(UpdateFilter(prev, u), w) == UpdateFilter(prev, w)
  {
  }

  // ---------------------------------------------------------------- toggleArrayFilter

  /** `current.filter(item => item !== value)`. */
  function RemoveAll<T(==)>(current: seq<T>, value: T): seq<T> {
    if current == [] then []
    else if current[0] == value then RemoveAll(current[1..], value)
    else [current[0]] + RemoveAll(current[1..], value)
  }

  /** `current.includes(value) ? current.filter(...) : [...current, value]`. */
  function Toggled<T(==)>(current: seq<T>, value: T): seq<T> {
    if value in current then RemoveAll(current, value) else current + [value]
  }

  lemma {:induction false} RemoveAllMembership<T>(current: seq<T>, value: T, other: T)
    ensures other in RemoveAll(current, value) <==> other in current && other != value
  {
    if current != [] {
      RemoveAllMembership(current[1..], value, other);
      assert current == [current[0]] + current[1..];
    }
  }

  lemma {:induction false} RemoveAllAbsent<T>(current: seq<T>, value: T)
    requires value !in current
    ensures RemoveAll(current, value) == current
  {
    if current != [] {
      assert current == [current[0]] + current[1..];
      RemoveAllAbsent(current[1..], value);
    }
  }

  lemma {:induction false} RemoveAllAppend<T>(current: seq<T>, x: T, value: T)
    ensures RemoveAll(current + [x], value)
         == RemoveAll(current, value) + (if x == value then [] else [x])
  {
    if current == [] {
      assert current + [x] == [x];
    } else {
      assert (current + [x])[1..] == current[1..] + [x];
      RemoveAllAppend(current[1..], x, value);
    }
  }

  /** A toggle flips the value's membership, removes every occurrence when it removes, and
      leaves the membership of every other value alone. */
  lemma ToggleFlips<T>(current: seq<T>, value: T, other: T)
    ensures value in Toggled(current, value) <==> value !in current
    ensures value in current ==> Toggled(current, value) == RemoveAll(current, value)
    ensures value !in current ==> Toggled(current, value) == current + [value]
    ensures other != value ==> (other in Toggled(current, value) <==> other in current)
  {
    RemoveAllMembership(current, value, value);
    RemoveAllMembership(current, value, other);
  }

  /** Toggling twice from absent restores the exact list; from present it restores
      membership, with every earlier occurrence collapsed into one at the end. */
  lemma ToggleTwice<T>(current: seq<T>, value: T)
    ensures value !in current ==> Toggled(Toggled(current, value), value) == current
    ensures value in current ==>
      Toggled(Toggled(current, value), value) == RemoveAll(current, value) + [value]
  {
    RemoveAllMembership(current, value, value);
    if value !in current {
      assert value in current + [value];
      RemoveAllAbsent(current, value);
      RemoveAllAppend(current, value, value);
    }
  }

  /** The list filters `toggleArrayFilter` accepts, each with a value of its element type. */
  datatype ListToggle =
    | ToggleCategory(slug: string)
    | ToggleSkinType(skinType: SkinType)
    | ToggleConcern(concern: SkinConcern)
    | ToggleBrand(brand: string)

  function ToggleKey(t: ListToggle): FieldName {
    match t
    case ToggleCategory(_) => CategoriesField
    case ToggleSkinType(_) => SkinTypesField
    case ToggleConcern(_) => ConcernsField
    case ToggleBrand(_) => BrandsField
  }

  /** `toggleArrayFilter(key, value)`: the named list is toggled and no other field changes. */
  function ToggleArrayFilter(prev: ProductFilters, t: ListToggle): (f: ProductFilters)
    ensures forall k :: k != ToggleKey(t) ==> SameField(prev, f, k)
    ensures t.ToggleCategory? ==> f.categories == Toggled(prev.categories, t.slug)
    ensures t.ToggleSkinType? ==> f.skinTypes == Toggled(prev.skinTypes, t.skinType)
    ensures t.ToggleConcern? ==> f.concerns == Toggled(prev.concerns, t.concern)
    ensures t.ToggleBrand? ==> f.brands == Toggled(prev.brands, t.brand)
  {
    match t
    case ToggleCategory(v) => UpdateFilter(prev, SetCategories(Toggled(prev.categories, v)))
    case ToggleSkinType(v) => UpdateFilter(prev, SetSkinTypes(Toggled(prev.skinTypes, v)))
    case ToggleConcern(v) => UpdateFilter(prev, SetConcerns(Toggled(prev.concerns, v)))
    case ToggleBrand(v) => UpdateFilter(prev, SetBrands(Toggled(prev.brands, v)))
  }

  // ---------------------------------------------------------------- clear and count

  /** `clearFilters`. */
  const Cleared := ProductFilters([], [], [], DefaultPriceRange, [], 0.0, DefaultSort, "")

  /** `activeFiltersCount`: the selected categories, skin types and concerns, one for a price
      range narrower than [0, 1000], one for a minimum rating. Brands and search are not
      counted. */
  function ActiveFiltersCount(f: ProductFilters): nat {
    |f.categories| + |f.skinTypes| + |f.concerns|
    + (if f.priceRange.0 > 0.0 || f.priceRange.1 < 1000.0 then 1 else 0)
    + (if f.rating > 0.0 then 1 else 0)
  }

  /** The count is zero exactly when no category, skin type or concern is selected, the price
      range covers [0, 1000] and no minimum rating is set; so it is zero after a reset, and
      it ignores brands, search and sort. */
  lemma ActiveFiltersCountZero(f: ProductFilters, brands: seq<string>, search: string, sortBy: string)
    ensures ActiveFiltersCount(f) == 0 <==>
      f.categories == [] && f.skinTypes == [] && f.concerns == []
      && f.priceRange.0 <= 0.0 && 1000.0 <= f.priceRange.1 && f.rating <= 0.0
    ensures ActiveFiltersCount(Cleared) == 0
    ensures ActiveFiltersCount(f.(brands := brands, search := search, sortBy := sortBy))
         == ActiveFiltersCount(f)
  {
  }

  lemma {:induction false} RemoveAllCount<T>(current: seq<T>, value: T)
    ensures |RemoveAll(current, value)| + multiset(current)[value] == |current|
  {
    if current != [] {
      assert current == [current[0]] + current[1..];
      RemoveAllCount(current[1..], value);
    }
  }

  /** A toggle of a category, skin type or concern moves the count up by one when it adds and
      down by the number of occurrences when it removes; a brand toggle leaves it alone. */
  lemma ToggleCount(prev: ProductFilters, t: ListToggle)
    ensures var n := ActiveFiltersCount(prev);
      var m := ActiveFiltersCount(ToggleArrayFilter(prev, t));
      match t
      case ToggleCategory(v) =>
        m == if v in prev.categories then n - multiset(prev.categories)[v] else n + 1
      case ToggleSkinType(v) =>
        m == if v in prev.skinTypes then n - multiset(prev.skinTypes)[v] else n + 1
      case ToggleConcern(v) =>
        m == if v in prev.concerns then n - multiset(prev.concerns)[v] else n + 1
      case ToggleBrand(_) => m == n
  {
    match t
    case ToggleCategory(v) => RemoveAllCount(prev.categories, v);
    case ToggleSkinType(v) => RemoveAllCount(prev.skinTypes, v);
    case ToggleConcern(v) => RemoveAllCount(prev.concerns, v);
    case ToggleBrand(_) =>
  }

  // ---------------------------------------------------------------- ratings

  /** The minimum ratings the page offers as checkboxes. */
  const RatingChoices: seq<real> := [4.0, 3.0, 2.0, 1.0]

  /** A click on the checkbox for `rating`: it clears the filter when that rating is the
      current one and selects it otherwise. */
  function RatingClicked(current: real, rating: real): real {
    if current == rating then 0.0 else rating
  }

  /** A click flips the clicked checkbox (checked means `filters.rating === rating`) and leaves
      every other offered checkbox unchecked. */
  lemma RatingClickFlips(current: real, rating: real, other: real)
    requires rating in RatingChoices && other in RatingChoices
    ensures (RatingClicked(current, rating) == rating) <==> current != rating
    ensures other != rating ==> RatingClicked(current, rating) != other
  {
  }
}
