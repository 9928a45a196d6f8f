/** The in-memory service layer (src/services/api.ts): four module-level arrays (products,
    categories, orders, users) that the admin operations mutate in place, the catalog query
    over the products, and the order-number scheme. The arrays are the fields of
    `MockDatabase`; the simulated latency is not modelled. */
module MockApi {
  import opened Types
  import opened Text
  import opened ProductSort
  import opened CatalogQuery

  // ---------------------------------------------------------------- lookups

  /** `findIndex(x => x.id === id)` over the ids of a list: the first match, or -1. */
  function IndexOf(ids: seq<string>, id: string): (r: int)
    ensures -1 <= r < |ids|
    ensures r == -1 <==> id !in ids
    ensures r >= 0 ==> ids[r] == id && forall k :: 0 <= k < r ==> ids[k] != id
  {
    if ids == [] then -1
    else if ids[0] == id then 0
    else
      var r := IndexOf(ids[1..], id);
      if r == -1 then -1 else r + 1
  }

  function ProductIds(s: seq<Product>): (r: seq<string>)
    ensures |r| == |s| && forall k :: 0 <= k < |s| ==> r[k] == s[k].id
  {
    seq(|s|, k requires 0 <= k < |s| => s[k].id)
  }

  function CategoryIds(s: seq<Category>): (r: seq<string>)
    ensures |r| == |s| && forall k :: 0 <= k < |s| ==> r[k] == s[k].id
  {
    seq(|s|, k requires 0 <= k < |s| => s[k].id)
  }

  function OrderIds(s: seq<Order>): (r: seq<string>)
    ensures |r| == |s| && forall k :: 0 <= k < |s| ==> r[k] == s[k].id
  {
    seq(|s|, k requires 0 <= k < |s| => s[k].id)
  }

  function UserIds(s: seq<User>): (r: seq<string>)
    ensures |r| == |s| && forall k :: 0 <= k < |s| ==> r[k] == s[k].id
  {
    seq(|s|, k requires 0 <= k < |s| => s[k].id)
  }

  /** `splice(i, 1)`: drop exactly the element at `i`, keeping the others in order. */
  function RemoveAt<T>(s: seq<T>, i: nat): (r: seq<T>)
    requires i < |s|
    ensures |r| == |s| - 1
    ensures multiset(r) + multiset{s[i]} == multiset(s)
    ensures forall k :: 0 <= k < i ==> r[k] == s[k]
    ensures forall k :: i <= k < |r| ==> r[k] == s[k + 1]
  {
    assert s == s[..i] + [s[i]] + s[i + 1..];
    s[..i] + s[i + 1..]
  }

  // ---------------------------------------------------------------- partial updates

  /** `Partial<Product>`: the fields an update sets. `updatedAt` is always overwritten. */
  datatype ProductPatch = ProductPatch(
    id: Option<string>,
    name: Option<string>,
    slug: Option<string>,
    description: Option<string>,
    price: Option<real>,
    originalPrice: Option<Option<real>>,
    images: Option<seq<string>>,
    category: Option<Category>,
    brand: Option<string>,
    stock: Option<int>,
    rating: Option<real>,
    reviewCount: Option<int>,
    skinTypes: Option<seq<SkinType>>,
    concerns: Option<seq<SkinConcern>>,
    isNew: Option<bool>,
    isBestseller: Option<bool>,
    isOnSale: Option<bool>,
    createdAt: Option<int>)

  /** `{ ...p, ...updates, updatedAt: now }`. */
  function MergeProduct(p: Product, u: ProductPatch, now: int): Product {
    Product(u.id.GetOr(p.id), u.name.GetOr(p.name), u.slug.GetOr(p.slug),
      u.description.GetOr(p.description), u.price.GetOr(p.price),
      u.originalPrice.GetOr(p.originalPrice), u.images.GetOr(p.images),
      u.category.GetOr(p.category), u.brand.GetOr(p.brand), u.stock.GetOr(p.stock),
      u.rating.GetOr(p.rating), u.reviewCount.GetOr(p.reviewCount),
      u.skinTypes.GetOr(p.skinTypes), u.concerns.GetOr(p.concerns), u.isNew.GetOr(p.isNew),
      u.isBestseller.GetOr(p.isBestseller), u.isOnSale.GetOr(p.isOnSale),
      u.createdAt.GetOr(p.createdAt), now)
  }

  datatype CategoryPatch = CategoryPatch(
    id: Option<string>,
    name: Option<string>,
    slug: Option<string>,
    description: Option<string>,
    productCount: Option<int>)

  /** `{ ...c, ...updates }`. */
  function MergeCategory(c: Category, u: CategoryPatch): Category {
    Category(u.id.GetOr(c.id), u.name.GetOr(c.name), u.slug.GetOr(c.slug),
      u.description.GetOr(c.description), u.productCount.GetOr(c.productCount))
  }

  /** `{ ...u, ...updates, updatedAt: now }`. */
  function MergeUser(user: User, u: UserPatch, now: int): User {
    u.Spread(user).(updatedAt := now)
  }

  /** A spread merge sets exactly the fields the patch carries: merging the same patch again
      changes nothing, and merging a patch with a field set makes that field its value. */
  lemma MergeProductSetsPatch(p: Product, u: ProductPatch, now: int)
    ensures MergeProduct(MergeProduct(p, u, now), u, now) == MergeProduct(p, u, now)
    ensures var m := MergeProduct(p, u, now);
      && m.updatedAt == now
      && (u.price.Some? ==> m.price == u.price.value) && (u.price.None? ==> m.price == p.price)
      && (u.stock.Some? ==> m.stock == u.stock.value) && (u.stock.None? ==> m.stock == p.stock)
      && (u.id.None? ==> m.id == p.id) && (u.createdAt.None? ==> m.createdAt == p.createdAt)
  {
  }

  /** `{ ...order, id, orderNumber, createdAt: now, updatedAt: now }`: the stored order keeps
      every field of the caller's draft. */
  function OrderOf(draft: OrderDraft, orderNumber: string, id: string, now: int): (o: Order)
    ensures o.id == id && o.orderNumber == orderNumber && o.createdAt == now && o.updatedAt == now
    ensures o.items == draft.items && o.status == draft.status && o.total == draft.total
    ensures o.shippingAddress == draft.shippingAddress && o.billingAddress == draft.billingAddress
    ensures o.paymentMethod == draft.paymentMethod && o.trackingNumber == draft.trackingNumber
    ensures o.subtotal == draft.subtotal && o.shipping == draft.shipping && o.tax == draft.tax
    ensures o.discount == draft.discount
  {
    Order(id, orderNumber, draft.items, draft.shippingAddress, draft.billingAddress,
      draft.paymentMethod, draft.subtotal, draft.shipping, draft.tax, draft.discount, draft.total,
      draft.status, draft.trackingNumber, now, now)
  }

  // ---------------------------------------------------------------- order numbers

  /** `` `LB-${year}-${String(orders.length + 1).padStart(4, '0')}` ``. */
  function OrderNumber(year: nat, count: nat): string {
    "LB-" + Decimal(year) + "-" + PadStart(Decimal(count + 1), 4, '0')
  }

  lemma Segments(prefix: string, d: string, p: string)
    requires |prefix| == 3
    ensures var n := prefix + d + "-" + p;
      && n[..3] == prefix && n[3..3 + |d|] == d && n[3 + |d|] == '-' && n[4 + |d|..] == p
      && |n| == 4 + |d| + |p|
  {
    var n := prefix + d + "-" + p;
    assert n == prefix + (d + ("-" + p));
  }

  /** The segments of an order number read back as the year and as `orders.length + 1`;
      below 10000 orders the sequence part has exactly four digits. */
  lemma OrderNumberParts(year: nat, count: nat)
    ensures var n := OrderNumber(year, count); var d := Decimal(year);
      && n[..3] == "LB-" && AllDigits(d) && n[3 + |d|] == '-'
      && (forall i :: 3 <= i < 3 + |d| ==> n[i] != '-')
      && ValueOf(n[3..3 + |d|]) == year
      && AllDigits(n[4 + |d|..]) && ValueOf(n[4 + |d|..]) == count + 1
      && (count + 1 < 10000 ==> |n| == 4 + |d| + 4)
  {
    var d := Decimal(year);
    var p := PadStart(Decimal(count + 1), 4, '0');
    Segments("LB-", d, p);
    DecimalRoundTrip(year);
    PaddedDecimalValue(count + 1, 4);
    DecimalWidth(count + 1);
    var n := OrderNumber(year, count);
    assert forall i :: 3 <= i < 3 + |d| ==> n[i] == n[3..3 + |d|][i - 3];
  }

  lemma {:induction false} DecimalWidth(n: nat)
    ensures n < 10 ==> |Decimal(n)| == 1
    ensures 10 <= n < 100 ==> |Decimal(n)| == 2
    ensures 100 <= n < 1000 ==> |Decimal(n)| == 3
    ensures 1000 <= n < 10000 ==> |Decimal(n)| == 4
  {
    if n >= 10 {
      DecimalWidth(n / 10);
    }
  }

  /** Distinct (year, order count) pairs never share an order number, even past 9999 orders,
      where `padStart` no longer pads. */
  lemma OrderNumberInjective(y1: nat, c1: nat, y2: nat, c2: nat)
    requires OrderNumber(y1, c1) == OrderNumber(y2, c2)
    ensures y1 == y2 && c1 == c2
  {
    OrderNumberParts(y1, c1);
    OrderNumberParts(y2, c2);
    assert |Decimal(y1)| == |Decimal(y2)|;
  }

  // ---------------------------------------------------------------- the catalog query

  /** The seven filter blocks of `getAll`, each reassigning the working list. */
  method FilterProducts(products: seq<Product>, f: ProductFilters) returns (filtered: seq<Product>)
    ensures filtered == Filtered(products, f)
  {
    filtered := products;
    if |f.categories| > 0 {
      filtered := Keep(filtered, f, ByCategory);
    }
    assert filtered == FilteredUpTo(products, f, 1);
    if |f.skinTypes| > 0 {
      filtered := Keep(filtered, f, BySkinType);
    }
    assert filtered == FilteredUpTo(products, f, 2);
    if |f.concerns| > 0 {
      filtered := Keep(filtered, f, ByConcern);
    }
    assert filtered == FilteredUpTo(products, f, 3);
    if |f.brands| > 0 {
      filtered := Keep(filtered, f, ByBrand);
    }
    assert filtered == FilteredUpTo(products, f, 4);
    filtered := Keep(filtered, f, ByPrice);
    assert filtered == FilteredUpTo(products, f, 5);
    if f.rating > 0.0 {
      filtered := Keep(filtered, f, ByRating);
    }
    assert filtered == FilteredUpTo(products, f, 6);
    if f.search != "" {
      filtered := Keep(filtered, f, BySearch);
    }
  }

  /** The `switch (filters.sortBy)`: sort the list in place by the matching comparator. */
  method SortProducts(filtered: seq<Product>, sortBy: string) returns (sorted: seq<Product>)
    ensures sorted == SortedBy(filtered, sortBy)
  {
    sorted := filtered;
    var order := SortKeyOf(sortBy);
    if order.Some? {
      var a := new Product[|filtered|](i requires 0 <= i < |filtered| => filtered[i]);
      assert a[..] == filtered;
      SortInPlace(a, order.value);
      sorted := a[..];
    }
  }

  // ---------------------------------------------------------------- the database

  class MockDatabase {
    var products: seq<Product>
    var categories: seq<Category>
    var orders: seq<Order>
    var users: seq<User>

    constructor (products: seq<Product>, categories: seq<Category>, orders: seq<Order>, users: seq<User>)
      ensures this.products == products && this.categories == categories
      ensures this.orders == orders && this.users == users
    {
      this.products := products;
      this.categories := categories;
      this.orders := orders;
      this.users := users;
    }

    /** `productApi.getAll`: filter a copy block by block, sort it in place, take the page.
        The backing products are left as they were. */
    method ProductGetAll(page: int, limit: int, filters: Option<ProductFilters>)
      returns (r: PaginatedResponse<Product>)
      requires limit > 0
      ensures r == Query(products, page, limit, filters)
    {
      var filtered := products;
      if filters.Some? {
        var f := filters.value;
        filtered := FilterProducts(filtered, f);
        filtered := SortProducts(filtered, f.sortBy);
      }
      var start := (page - 1) * limit;
      var end := start + limit;
      r := PaginatedResponse(JsSlice(filtered, start, end), |filtered|, page, limit, CeilDiv(|filtered|, limit));
    }

    /** `productApi.create`: the new record gets the given id and both timestamps, and is
        appended. */
    method ProductCreate(draft: Product, id: string, now: int) returns (created: Product)
      modifies this
      ensures created == draft.(id := id, createdAt := now, updatedAt := now)
      ensures products == old(products) + [created]
      ensures categories == old(categories) && orders == old(orders) && users == old(users)
    {
      created := draft.(id := id, createdAt := now, updatedAt := now);
      products := products + [created];
    }

    /** `productApi.update`: merge into the first record with the id, or return null. */
    method ProductUpdate(id: string, updates: ProductPatch, now: int) returns (r: Option<Product>)
      modifies this
      ensures var i := IndexOf(ProductIds(old(products)), id);
        && (i == -1 ==> r == None && products == old(products))
        && (i >= 0 ==> products == old(products)[i := MergeProduct(old(products)[i], updates, now)]
                       && r == Some(products[i]))
      ensures categories == old(categories) && orders == old(orders) && users == old(users)
    {
      var index := IndexOf(ProductIds(products), id);
      if index == -1 {
        return None;
      }
      products := products[index := MergeProduct(products[index], updates, now)];
      r := Some(products[index]);
    }

    /** `productApi.delete`: remove the first record with the id and report whether one was. */
    method ProductDelete(id: string) returns (deleted: bool)
      modifies this
      ensures var i := IndexOf(ProductIds(old(products)), id);
        && deleted == (i >= 0)
        && products == (if i >= 0 then RemoveAt(old(products), i) else old(products))
      ensures categories == old(categories) && orders == old(orders) && users == old(users)
    {
      var index := IndexOf(ProductIds(products), id);
      if index == -1 {
        return false;
      }
      products := RemoveAt(products, index);
      return true;
    }

    /** `categoryApi.create`. */
    method CategoryCreate(draft: Category, id: string) returns (created: Category)
      modifies this
      ensures created == draft.(id := id)
      ensures categories == old(categories) + [created]
      ensures products == old(products) && orders == old(orders) && users == old(users)
    {
      created := draft.(id := id);
      categories := categories + [created];
    }

    /** `categoryApi.update`. */
    method CategoryUpdate(id: string, updates: CategoryPatch) returns (r: Option<Category>)
      modifies this
      ensures var i := IndexOf(CategoryIds(old(categories)), id);
        && (i == -1 ==> r == None && categories == old(categories))
        && (i >= 0 ==> categories == old(categories)[i := MergeCategory(old(categories)[i], updates)]
                       && r == Some(categories[i]))
      ensures products == old(products) && orders == old(orders) && users == old(users)
    {
      var index := IndexOf(CategoryIds(categories), id);
      if index == -1 {
        return None;
      }
      categories := categories[index := MergeCategory(categories[index], updates)];
      r := Some(categories[index]);
    }

    /** `categoryApi.delete`. */
    method CategoryDelete(id: string) returns (deleted: bool)
      modifies this
      ensures var i := IndexOf(CategoryIds(old(categories)), id);
        && deleted == (i >= 0)
        && categories == (if i >= 0 then RemoveAt(old(categories), i) else old(categories))
      ensures products == old(products) && orders == old(orders) && users == old(users)
    {
      var index := IndexOf(CategoryIds(categories), id);
      if index == -1 {
        return false;
      }
      categories := RemoveAt(categories, index);
      return true;
    }

    /** `orderApi.getAll`: a page of the orders as stored, newest first. */
    method OrderGetAll(page: int, limit: int) returns (r: PaginatedResponse<Order>)
      requires limit > 0
      ensures r == Paginate(orders, page, limit)
    {
      var start := (page - 1) * limit;
      var end := start + limit;
      r := PaginatedResponse(JsSlice(orders, start, end), |orders|, page, limit, CeilDiv(|orders|, limit));
    }

    /** `orderApi.create`: number the order after the current count and put it first. */
    method OrderCreate(draft: OrderDraft, year: nat, id: string, now: int) returns (created: Order)
      modifies this
      ensures created == OrderOf(draft, OrderNumber(year, |old(orders)|), id, now)
      ensures orders == [created] + old(orders)
      ensures products == old(products) && categories == old(categories) && users == old(users)
    {
      var orderNumber := OrderNumber(year, |orders|);
      created := Order(id, orderNumber, draft.items, draft.shippingAddress, draft.billingAddress,
        draft.paymentMethod, draft.subtotal, draft.shipping, draft.tax, draft.discount, draft.total,
        draft.status, draft.trackingNumber, now, now);
      orders := [created] + orders;
    }

    /** `orderApi.updateStatus`: only the status and `updatedAt` of the first match change. */
    method OrderUpdateStatus(id: string, status: OrderStatus, now: int) returns (r: Option<Order>)
      modifies this
      ensures var i := IndexOf(OrderIds(old(orders)), id);
        && (i == -1 ==> r == None && orders == old(orders))
        && (i >= 0 ==> orders == old(orders)[i := old(orders)[i].(status := status, updatedAt := now)]
                       && r == Some(orders[i]))
      ensures products == old(products) && categories == old(categories) && users == old(users)
    {
      var index := IndexOf(OrderIds(orders), id);
      if index == -1 {
        return None;
      }
      orders := orders[index := orders[index].(status := status)];
      orders := orders[index := orders[index].(updatedAt := now)];
      r := Some(orders[index]);
    }

    /** `orderApi.addTracking`: only the tracking number and `updatedAt` of the first match change. */
    method OrderAddTracking(id: string, trackingNumber: string, now: int) returns (r: Option<Order>)
      modifies this
      ensures var i := IndexOf(OrderIds(old(orders)), id);
        && (i == -1 ==> r == None && orders == old(orders))
        && (i >= 0 ==> orders == old(orders)[i := old(orders)[i].(trackingNumber := Some(trackingNumber), updatedAt := now)]
                       && r == Some(orders[i]))
      ensures products == old(products) && categories == old(categories) && users == old(users)
    {
      var index := IndexOf(OrderIds(orders), id);
      if index == -1 {
        return None;
      }
      orders := orders[index := orders[index].(trackingNumber := Some(trackingNumber))];
      orders := orders[index := orders[index].(updatedAt := now)];
      r := Some(orders[index]);
    }

    /** `userApi.getAll`. */
    method UserGetAll(page: int, limit: int) returns (r: PaginatedResponse<User>)
      requires limit > 0
      ensures r == Paginate(users, page, limit)
    {
      var start := (page - 1) * limit;
      var end := start + limit;
      r := PaginatedResponse(JsSlice(users, start, end), |users|, page, limit, CeilDiv(|users|, limit));
    }

    /** `userApi.update`. */
    method UserUpdate(id: string, updates: UserPatch, now: int) returns (r: Option<User>)
      modifies this
      ensures var i := IndexOf(UserIds(old(users)), id);
        && (i == -1 ==> r == None && users == old(users))
        && (i >= 0 ==> users == old(users)[i := MergeUser(old(users)[i], updates, now)]
                       && r == Some(users[i]))
      ensures products == old(products) && categories == old(categories) && orders == old(orders)
    {
      var index := IndexOf(UserIds(users), id);
      if index == -1 {
        return None;
      }
      users := users[index := MergeUser(users[index], updates, now)];
      r := Some(users[index]);
    }

    /** `userApi.delete`. */
    method UserDelete(id: string) returns (deleted: bool)
      modifies this
      ensures var i := IndexOf(UserIds(old(users)), id);
        && deleted == (i >= 0)
        && users == (if i >= 0 then RemoveAt(old(users), i) else old(users))
      ensures products == old(products) && categories == old(categories) && orders == old(orders)
    {
      var index := IndexOf(UserIds(users), id);
      if index == -1 {
        return false;
      }
      users := RemoveAt(users, index);
      return true;
    }
  }

  /** An update touches only the record with the id: every other record, and the length,
      stay as they were. */
  lemma UpdateOnlyTarget(s: seq<Product>, id: string, updates: ProductPatch, now: int)
    ensures var i := IndexOf(ProductIds(s), id);
      i >= 0 ==> var t := s[i := MergeProduct(s[i], updates, now)];
        && |t| == |s| && t[i].id == updates.id.GetOr(id)
        && forall k :: 0 <= k < |s| && k != i ==> t[k] == s[k]
  {
  }

  /** A successful delete removes exactly one record with the id, the first one; a failed
      one means no record had it. */
  lemma DeleteRemovesOne(s: seq<Product>, id: string)
    ensures var i := IndexOf(ProductIds(s), id);
      && (i == -1 ==> forall k :: 0 <= k < |s| ==> s[k].id != id)
      && (i >= 0 ==> var t := RemoveAt(s, i);
           && s[i].id == id && multiset(t) + multiset{s[i]} == multiset(s)
           && forall k :: 0 <= k < i ==> t[k].id != id)
  {
    var ids := ProductIds(s);
    var i := IndexOf(ids, id);
    if i == -1 {
      forall k | 0 <= k < |s| ensures s[k].id != id {
        assert ids[k] == s[k].id;
      }
    }
  }
}
