# Lumière Botanical storefront — a Dafny model of its state containers and query layer

This project models the client-side logic of the Lumière Botanical storefront:

- the **cart container**: product lines keyed by product id, with quantities, selection flags and derived totals;
- the **wishlist container**: an ordered list with set semantics by product id;
- the **authentication container** and the **route guard** in front of the admin pages;
- the **theme container**: light, dark or system, resolved to one class on the document root;
- the **in-memory service layer**:
  - the catalog query, made of seven conjunctive filters, a stable sort and an offset/limit page;
  - order creation and order numbering;
  - find-by-id updates and deletes on the products, categories, orders and users arrays;
- the **checkout wizard**: shipping → payment → confirmation, assembling the order from the selected cart lines;
- the small rules embedded in the catalog page, the product page and the quick-view dialog.

Everything is synchronous. Money and ratings are exact `real`s. Timestamps, ids and the year are integer or string parameters.

Modules, one per source component:

| module | file | source |
|---|---|---|
| `Types` | types.dfy | src/types/index.ts |
| `Text` | text.dfy | `toLowerCase`, `includes`, `String(n)` and `padStart`, as used by src/services/api.ts |
| `Cart` | cart.dfy | src/stores/cartStore.ts |
| `Wishlist` | wishlist.dfy | src/stores/wishlistStore.ts |
| `Auth` | auth.dfy | src/stores/authStore.ts |
| `RouteGuard` | route_guard.dfy | src/components/auth/ProtectedRoute.tsx |
| `ThemeStore` | theme.dfy | src/stores/themeStore.ts |
| `ProductSort` | product_sort.dfy | the `sortBy` switch of src/services/api.ts |
| `CatalogQuery` | catalog_query.dfy | the specification of `productApi.getAll` |
| `MockApi` | mock_api.dfy | src/services/api.ts (the arrays and their operations) |
| `Checkout` | checkout.dfy | src/pages/public/Checkout.tsx |
| `CatalogFilters` | catalog_filters.dfy | src/pages/public/Catalog.tsx |
| `QuantityStepper` | quantity_stepper.dfy | the steppers of ProductDetail.tsx and QuickViewModal.tsx |
| `ProductDetail` | product_detail.dfy | src/pages/public/ProductDetail.tsx |
| `QuickView` | quick_view.dfy | src/components/product/QuickViewModal.tsx |

Code that replaces state step by step becomes a class with `modifies` clauses:

- the zustand stores;
- the service layer's module arrays;
- the checkout page's state;
- the quick-view module globals, together with the set of mounted dialogs listening to them.

Each class method is proved against a specification function on sequences, and the lemmas about those functions carry the properties.

JavaScript's `Array.prototype.sort` is stable. It is modelled as an insertion sort that runs in place on an array (`ProductSort.SortInPlace`). That sort is proved equal to a functional stable sort, and `ProductSort.SortIsTheStableSort` shows that any stable sort by the same comparator gives the same result.

Some behaviours of the code are worth noting, and the model keeps each of them as written:

- A failed `login` leaves the current session as it was. It does not empty the session.
- `toggleTheme` from `system` yields `light`.
- `clearCart` after payment empties the whole cart, unselected lines included.
- An unknown `sortBy` string leaves the filtered list unsorted. The catalog page copies the URL's `sort` parameter into the filters without checking it.
- The price filter always runs, because its guard tests an array, which is always truthy.

## Model

| member | source | states |
|---|---|---|
| `Cart.IsInCart` | src/stores/cartStore.ts:124-126 | `isInCart(id)` is true exactly when some line carries the id |
| `Cart.ItemQuantityAbsent` | src/stores/cartStore.ts:128-131 | `getItemQuantity` is 0 for an id no line carries |
| `Cart.ItemQuantityAt` | src/stores/cartStore.ts:128-131 | with unique ids, `getItemQuantity` reports the quantity of the line with that id |
| `Cart.AddExisting` | src/stores/cartStore.ts:37-50 | `addItem` on a present id keeps the line count, adds `quantity` to the line(s) carrying that id and nothing else, and keeps every product and selection flag |
| `Cart.AddAbsent` | src/stores/cartStore.ts:53-55 | `addItem` on an absent id keeps the old lines as a prefix and adds exactly one selected line for the product at the end; afterwards the product is in the cart with exactly the given quantity |
| `Cart.AddPreserves` | src/stores/cartStore.ts:37-56 | `addItem` keeps ids unique, and keeps quantities ≥ 1 when called with quantity ≥ 1 |
| `Cart.AddItemQuantity` | src/stores/cartStore.ts:37-56 | after `addItem(p, q)` the cart reports q more of p and the same quantity of every other id |
| `Cart.WithoutMembership` | src/stores/cartStore.ts:59-63 | after `removeItem(id)` an id is present exactly when it differs from `id` and was present before |
| `Cart.WithoutAbsent` | src/stores/cartStore.ts:59-63 | `removeItem` of an absent id changes nothing |
| `Cart.WithoutAt` | src/stores/cartStore.ts:59-63 | with unique ids, `removeItem` deletes exactly the matching line and keeps the others in order |
| `Cart.WithoutPreserves` | src/stores/cartStore.ts:59-63 | `removeItem` keeps ids unique and quantities positive, and never grows the cart |
| `Cart.ItemCountWithout` | src/stores/cartStore.ts:59-63 | removing a line lowers `getItemCount` by exactly that line's quantity |
| `Cart.WithoutKeepsOthers` | src/stores/cartStore.ts:59-63 | removing one id keeps every other id's presence and quantity |
| `Cart.SetLinesEffect` | src/stores/cartStore.ts:71-75 | a positive `updateQuantity` never inserts, sets the present id's quantity to exactly q, and leaves every other id alone |
| `Cart.UpdateLineEffect` | src/stores/cartStore.ts:65-76 | `updateQuantity(id, q)`: the id remains exactly when q > 0 and it was present; its quantity is then q; other ids are unchanged |
| `Cart.UpdatePreservesPositive` | src/stores/cartStore.ts:65-76 | `updateQuantity` keeps every quantity ≥ 1: a non-positive request removes the line |
| `Cart.ToggleOnlyFlag` | src/stores/cartStore.ts:80-88 | `toggleItemSelection` flips only the flags of lines with the id, keeping products and quantities |
| `Cart.ToggleTwice` | src/stores/cartStore.ts:80-88 | toggling the same id twice restores the cart |
| `Cart.ToggleOnlyLine` | src/stores/cartStore.ts:80-88 | with unique ids, toggling changes exactly one line, and only its flag |
| `Cart.SelectAllEffect` | src/stores/cartStore.ts:90-94 | `selectAll(b)` sets every flag to b and keeps products, quantities, order and item count; the selected lines are all lines or none |
| `Cart.SelectionPreserves` | src/stores/cartStore.ts:80-94 | the selection actions keep ids unique and quantities positive |
| `Cart.ItemCountToggle` | src/stores/cartStore.ts:98-100 | `getItemCount` counts all lines, selected or not, so toggling does not change it |
| `Cart.SubtotalIsSelectedSum` | src/stores/cartStore.ts:106-115 | `getSubtotal` is the sum of price × quantity over the selected lines only |
| `Cart.ToggleSubtotal` | src/stores/cartStore.ts:106-115 | toggling a line moves the subtotal by exactly that line's price × quantity, down if it was selected and up otherwise |
| `Cart.UnitPriceIsPrice` | src/stores/cartStore.ts:110-112 | both branches of the sale conditional charge `price` |
| `Cart.TotalBreakdown` | src/stores/cartStore.ts:117-122 | total = subtotal + (0 from 500 on, else 29) + subtotal / 5 |
| `Cart.TotalExamples` | src/stores/cartStore.ts:27-29 | subtotal 500 gives total 600; subtotal 100 gives total 149 |
| `Cart.CartStore.constructor` | src/stores/cartStore.ts:34-35 | the store starts with no lines and the drawer closed |
| `Cart.CartStore.AddItem` | src/stores/cartStore.ts:37-57 | replaces `items` by the `addItem` transform and keeps the invariants |
| `Cart.CartStore.RemoveItem` | src/stores/cartStore.ts:59-63 | replaces `items` by the lines without the id and keeps the invariants |
| `Cart.CartStore.UpdateQuantity` | src/stores/cartStore.ts:65-76 | removes the line for q ≤ 0, otherwise sets its quantity, and keeps the invariants |
| `Cart.CartStore.ClearCart` | src/stores/cartStore.ts:78 | empties the cart and leaves the drawer flag alone |
| `Cart.CartStore.ToggleItemSelection` | src/stores/cartStore.ts:80-88 | replaces `items` by the toggled lines |
| `Cart.CartStore.SelectAll` | src/stores/cartStore.ts:90-94 | replaces `items` by the lines with every flag set to the argument |
| `Cart.CartStore.SetIsOpen` | src/stores/cartStore.ts:96 | sets the drawer flag and leaves the lines alone |
| `Wishlist.IsInWishlist` | src/stores/wishlistStore.ts:57-59 | true exactly when some entry carries the id |
| `Wishlist.WithoutMembership` | src/stores/wishlistStore.ts:35-39 | after `removeItem(id)` an id is present exactly when it differs and was present |
| `Wishlist.WithoutAbsent` | src/stores/wishlistStore.ts:35-39 | removing an absent id changes nothing |
| `Wishlist.WithoutIdempotent` | src/stores/wishlistStore.ts:35-39 | `removeItem` is idempotent |
| `Wishlist.WithoutAt` | src/stores/wishlistStore.ts:35-39 | with unique ids, `removeItem` drops exactly that entry and keeps the others in order |
| `Wishlist.WithoutPreserves` | src/stores/wishlistStore.ts:35-39 | removal keeps ids unique |
| `Wishlist.NoDuplicates` | src/stores/wishlistStore.ts:27-51 | `addItem`, `toggleItem` and `removeItem` never produce two entries with one id |
| `Wishlist.AddedMembership` | src/stores/wishlistStore.ts:27-33 | after `addItem(p)` the ids present are the old ones plus p's |
| `Wishlist.ToggleFlips` | src/stores/wishlistStore.ts:41-51 | `toggleItem(p)` negates `isInWishlist(p.id)` and leaves every other id's membership alone |
| `Wishlist.ToggleTwiceAbsent` | src/stores/wishlistStore.ts:41-51 | toggling twice from absent restores the exact list |
| `Wishlist.ToggleTwicePresent` | src/stores/wishlistStore.ts:41-51 | toggling twice from present restores membership, with the product moved to the end |
| `Wishlist.IdsMembership` | src/stores/wishlistStore.ts:57-59 | an id is in the set of ids exactly when `isInWishlist` holds |
| `Wishlist.CountIsDistinctIds` | src/stores/wishlistStore.ts:61-63 | with unique ids, `getItemCount` (the length) equals the number of distinct ids |
| `Wishlist.WishlistStore.constructor` | src/stores/wishlistStore.ts:24-25 | the wishlist starts empty and closed |
| `Wishlist.WishlistStore.AddItem` | src/stores/wishlistStore.ts:27-33 | leaves the list unchanged on a present id, otherwise appends the product; ids stay unique |
| `Wishlist.WishlistStore.RemoveItem` | src/stores/wishlistStore.ts:35-39 | keeps the entries whose id differs; ids stay unique |
| `Wishlist.WishlistStore.ToggleItem` | src/stores/wishlistStore.ts:41-51 | removes a present product, appends an absent one; ids stay unique |
| `Wishlist.WishlistStore.ClearWishlist` | src/stores/wishlistStore.ts:53 | empties the list, so the count is 0 |
| `Wishlist.WishlistStore.SetIsOpen` | src/stores/wishlistStore.ts:55 | sets the drawer flag and leaves the list alone |
| `Auth.MockAdmin` | src/stores/authStore.ts:19-31 | the built-in administrator has role admin, the admin e-mail and id `admin-001` |
| `Auth.SpreadTakesPatchFields` | src/stores/authStore.ts:75-79 | a `{ ...user, ...updates }` merge takes each present field from the patch; merging twice changes nothing more; the empty patch changes nothing |
| `Auth.AuthStore.constructor` | src/stores/authStore.ts:36-38 | initially nobody is signed in and nothing is loading, which satisfies `isAuthenticated ⇔ user ≠ null` |
| `Auth.AuthStore.BeginLogin` | src/stores/authStore.ts:40-41 | `login` first sets `isLoading` and touches nothing else |
| `Auth.AuthStore.FinishLogin` | src/stores/authStore.ts:47-57 | succeeds exactly on the hard-coded credential, then with `user = MOCK_ADMIN`; a failure keeps the session; `isLoading` is false on both exits |
| `Auth.AuthStore.Login` | src/stores/authStore.ts:40-58 | the whole of `login`: returns whether the credential matched, starts the admin session on success, keeps the session on failure, and preserves `isAuthenticated ⇔ user ≠ null` |
| `Auth.AuthStore.Logout` | src/stores/authStore.ts:60-65 | ends the session unconditionally and keeps the invariant |
| `Auth.AuthStore.SetUser` | src/stores/authStore.ts:67-69 | sets the user and `isAuthenticated = !!user` |
| `Auth.AuthStore.SetLoading` | src/stores/authStore.ts:71-73 | changes only the loading flag |
| `Auth.AuthStore.UpdateUser` | src/stores/authStore.ts:75-79 | merges the patch into a present user; an absent user stays absent; the invariant holds |
| `RouteGuard.Guard` | src/components/auth/ProtectedRoute.tsx:8-20 | unauthenticated goes to `/admin/login` whatever `requireAdmin` is; authenticated non-admins on an admin route go to `/`; it renders exactly when authenticated and (admin or not required) |
| `RouteGuard.DefaultAdmitsAnySession` | src/components/auth/ProtectedRoute.tsx:8-19 | with the default `requireAdmin = false` any authenticated session renders |
| `RouteGuard.AdminRouteOnConsistentState` | src/components/auth/ProtectedRoute.tsx:15-19 | on a consistent auth state an admin route renders exactly for a present user whose role is admin |
| `RouteGuard.AdminSessionPasses` | src/components/auth/ProtectedRoute.tsx:15-19 | the session a successful `login` creates passes the guard, admin route or not |
| `ThemeStore.Toggled` | src/stores/themeStore.ts:24-30 | light → dark, dark → light, system → light; the result is never `system` |
| `ThemeStore.ToggleTwice` | src/stores/themeStore.ts:26 | toggling twice from light or dark returns the original theme; from system it gives dark |
| `ThemeStore.Resolved` | src/stores/themeStore.ts:38-45 | the applied theme is the theme itself unless it is `system`, then the system preference |
| `ThemeStore.Applied` | src/stores/themeStore.ts:36-45 | after applying, exactly one of `light`/`dark` is on the root, it is the resolved theme's class, and every other class is untouched |
| `ThemeStore.ApplyIdempotent` | src/stores/themeStore.ts:36-45 | applying twice is applying once, with the latest theme |
| `ThemeStore.Store.constructor` | src/stores/themeStore.ts:17 | the initial theme is `system` |
| `ThemeStore.Store.ApplyTheme` | src/stores/themeStore.ts:32-46 | removes both classes, then adds the resolved one |
| `ThemeStore.Store.SetTheme` | src/stores/themeStore.ts:19-22 | stores exactly the given theme, then applies it |
| `ThemeStore.Store.ToggleTheme` | src/stores/themeStore.ts:24-30 | stores the toggled theme, then applies it |
| `ThemeStore.Store.OnPreferenceChange` | src/stores/themeStore.ts:61-65 | a system preference change re-applies the stored theme |
| `ProductSort.CompareIsKeyDifference` | src/services/api.ts:76-95 | each comparator is the difference of a numeric key, so it is a consistent total preorder |
| `ProductSort.SortPermutes` | src/services/api.ts:76-96 | sorting only permutes the list |
| `ProductSort.SortSorted` | src/services/api.ts:76-96 | the sorted list is ordered by the comparator's key |
| `ProductSort.SortOrderMeaning` | src/services/api.ts:76-95 | `price-asc` non-decreasing price; `price-desc` non-increasing price; `rating` non-increasing rating; `newest` non-increasing `createdAt`; `bestseller` puts bestsellers first |
| `ProductSort.SortStable` | src/services/api.ts:76-96 | products with equal keys keep their relative order |
| `ProductSort.StableOutcomeUnique` | src/services/api.ts:76-96 | two lists sorted by one key that agree on each key's subsequence are equal |
| `ProductSort.SortIsTheStableSort` | src/services/api.ts:76-96 | any stable sort by the comparator yields the modelled result |
| `ProductSort.BestsellersFirst` | src/services/api.ts:91-95 | `bestseller` yields the bestsellers, then the others, each group in original order |
| `ProductSort.ShiftGreater` | src/services/api.ts:76-96 | one insertion pass shifts right exactly the elements that compare greater than the one being placed |
| `ProductSort.InsertInPlace` | src/services/api.ts:76-96 | one pass of the in-place sort inserts `a[i]` into the sorted prefix |
| `ProductSort.SortInPlace` | src/services/api.ts:76-96 | `filteredProducts.sort(cmp)` in place leaves the array equal to the stable sort of its old contents |
| `CatalogQuery.FilteredIsRetainAll` | src/services/api.ts:29-73 | the seven guarded filter blocks, run in sequence, equal one pass that keeps products meeting every active filter |
| `CatalogQuery.FilterMembership` | src/services/api.ts:29-73 | a product survives the filters exactly when it is in the catalog and meets every active filter (soundness and completeness); no copies are added |
| `CatalogQuery.ResultsPermuteFiltered` | src/services/api.ts:30-96 | the sorted result is a permutation of the filtered list, ordered when `sortBy` is a known key |
| `CatalogQuery.ResultsMembership` | src/services/api.ts:26-96 | every result is a catalog product meeting every active filter, and every such product is a result |
| `CatalogQuery.SliceIndex` | src/services/api.ts:101 | `slice` resolves each bound into [0, length] |
| `CatalogQuery.CeilDivIsCeiling` | src/services/api.ts:108 | `Math.ceil(n / d)` is the least c with c × d ≥ n |
| `CatalogQuery.PageBounds` | src/services/api.ts:99-109 | a page holds at most `limit` items, `total` is the pre-pagination count, `totalPages` = ⌈total / limit⌉ |
| `CatalogQuery.PageWindow` | src/services/api.ts:99-101 | for page ≥ 1 the page is the window starting at (page−1)·limit; pages past the end are empty |
| `CatalogQuery.PagesConcatenate` | src/services/api.ts:99-101 | pages 1..n concatenated give the first n·limit items |
| `CatalogQuery.PageZeroEmpty` | src/services/api.ts:99-101 | page 0 is empty |
| `CatalogQuery.QueryWithoutFilters` | src/services/api.ts:26-29 | without filters nothing is filtered or sorted: the page is a window of the catalog itself |
| `CatalogQuery.CategoryPage` | src/services/api.ts:122-135 | `getByCategory` pages the category's products like `getAll` pages its results |
| `MockApi.IndexOf` | src/services/api.ts:177 | `findIndex` returns the first index with the id, or −1 exactly when none has it |
| `MockApi.RemoveAt` | src/services/api.ts:192 | `splice(i, 1)` removes exactly element i and keeps the others in order |
| `MockApi.MergeProductSetsPatch` | src/services/api.ts:180-184 | the update merge sets the patched fields, keeps the rest, stamps `updatedAt`, and is idempotent |
| `MockApi.OrderOf` | src/services/api.ts:266-272 | the stored order keeps every field of the draft and adds id, number and timestamps |
| `MockApi.OrderNumberParts` | src/services/api.ts:265 | the order number is `LB-`, the year's digits, `-`, and `orders.length + 1` zero-padded to four digits |
| `MockApi.OrderNumberInjective` | src/services/api.ts:265 | distinct (year, order count) pairs give distinct order numbers |
| `MockApi.FilterProducts` | src/services/api.ts:29-73 | the seven reassigning filter blocks compute the filter specification |
| `MockApi.SortProducts` | src/services/api.ts:76-96 | the `sortBy` switch sorts an array copy in place by the matching comparator, or not at all |
| `MockApi.MockDatabase.ProductGetAll` | src/services/api.ts:23-110 | `getAll` returns the catalog query's page and does not touch the backing arrays |
| `MockApi.MockDatabase.ProductCreate` | src/services/api.ts:163-173 | appends the draft with the given id and timestamps |
| `MockApi.MockDatabase.ProductUpdate` | src/services/api.ts:175-186 | null with nothing changed when the id is missing, otherwise merges into the first match only |
| `MockApi.MockDatabase.ProductDelete` | src/services/api.ts:188-194 | false with nothing changed when the id is missing, otherwise removes exactly the first match and returns true |
| `MockApi.MockDatabase.CategoryCreate` | src/services/api.ts:210-218 | appends the draft with the given id |
| `MockApi.MockDatabase.CategoryUpdate` | src/services/api.ts:220-226 | null when missing, otherwise merges into the first match only |
| `MockApi.MockDatabase.CategoryDelete` | src/services/api.ts:228-234 | false when missing, otherwise removes exactly the first match |
| `MockApi.MockDatabase.OrderGetAll` | src/services/api.ts:239-251 | a page of the stored orders |
| `MockApi.MockDatabase.OrderCreate` | src/services/api.ts:263-275 | numbers the order after the current count and inserts it at index 0, so the array grows by one |
| `MockApi.MockDatabase.OrderUpdateStatus` | src/services/api.ts:277-284 | null when missing, otherwise changes only that order's status and `updatedAt` |
| `MockApi.MockDatabase.OrderAddTracking` | src/services/api.ts:286-293 | null when missing, otherwise changes only that order's tracking number and `updatedAt` |
| `MockApi.MockDatabase.UserGetAll` | src/services/api.ts:298-310 | a page of the stored users |
| `MockApi.MockDatabase.UserUpdate` | src/services/api.ts:317-327 | null when missing, otherwise merges into the first match and stamps `updatedAt` |
| `MockApi.MockDatabase.UserDelete` | src/services/api.ts:329-335 | false when missing, otherwise removes exactly the first match |
| `MockApi.UpdateOnlyTarget` | src/services/api.ts:175-186 | an update leaves every other record and the length unchanged |
| `MockApi.DeleteRemovesOne` | src/services/api.ts:188-194 | a successful delete removes one record with the id, the first; a failed one means no record had it |
| `Text.Lower` | src/services/api.ts:67 | lower-casing keeps the length and leaves no upper-case ASCII letter |
| `Text.DecimalRoundTrip` | src/services/api.ts:265 | `String(n)` is non-empty, all digits, has no leading zero and reads back as n |
| `Text.PadStart` | src/services/api.ts:265 | `padStart` leaves long strings alone and otherwise left-pads to the width |
| `Text.PaddedDecimalValue` | src/services/api.ts:265 | zero-padding a decimal keeps its value |
| `Checkout.Next` | src/pages/public/Checkout.tsx:54-58 | only shipping → payment on shipping submit, payment → confirmation on payment, payment → shipping on back; confirmation has no outgoing step |
| `Checkout.ShowsWizard` | src/pages/public/Checkout.tsx:38-52 | with no selected line the wizard is hidden unless the step is confirmation |
| `Checkout.AddressOf` | src/pages/public/Checkout.tsx:75-98 | the address copies the form field by field, with `state = ''` |
| `Checkout.OrderLines` | src/pages/public/Checkout.tsx:69-74 | one order line per selected cart line, in order, with `price = product.price` and `total = price × quantity` |
| `Checkout.LinesTotalIsCartSubtotal` | src/pages/public/Checkout.tsx:69-74 | the order lines add up to the cart's subtotal for those lines |
| `Checkout.DraftAgreesWithCart` | src/pages/public/Checkout.tsx:68-106 | the order's subtotal, shipping (0 from 500, else 29), tax (a fifth), discount 0 and total agree with the cart; billing equals shipping; status is pending |
| `Checkout.CheckoutPage.constructor` | src/pages/public/Checkout.tsx:17-31 | the wizard starts at shipping, not processing, with no order number |
| `Checkout.CheckoutPage.SetShippingData` | src/pages/public/Checkout.tsx:21-31 | an edit of the form changes only the form |
| `Checkout.CheckoutPage.SubmitShipping` | src/pages/public/Checkout.tsx:54-58 | shipping submit moves to payment |
| `Checkout.CheckoutPage.Back` | src/pages/public/Checkout.tsx:132 | back returns to shipping from payment only; elsewhere it leaves the page |
| `Checkout.CheckoutPage.SubmitPayment` | src/pages/public/Checkout.tsx:60-113 | creates the assembled order first in the order list, keeps its number, clears the whole cart, moves to confirmation and ends processing |
| `CatalogFilters.OrElse` | src/pages/public/Catalog.tsx:61-62 | a URL parameter replaces the default only when present and non-empty |
| `CatalogFilters.InitialFilters` | src/pages/public/Catalog.tsx:54-63 | the initial filters: `[slug]` for a non-empty route category and `[]` otherwise, empty lists, range [0, 1000], rating 0, the URL's sort (default newest) and query |
| `CatalogFilters.SyncWithUrl` | src/pages/public/Catalog.tsx:78-88 | re-reading the URL replaces only category, sort and search, each only when present and non-empty: a category slug `s` makes the list `[s]`; every other field is kept |
| `CatalogFilters.SyncAfterInitialIsStable` | src/pages/public/Catalog.tsx:78-88 | re-reading the same URL after the initial state changes nothing |
| `CatalogFilters.UpdateFilter` | src/pages/public/Catalog.tsx:90-95 | `updateFilter(k, v)` sets field k to v and changes no other field |
| `CatalogFilters.UpdateFilterLaws` | src/pages/public/Catalog.tsx:90-95 | setting a field to its value changes nothing; two sets of one field keep the second |
| `CatalogFilters.RemoveAllMembership` | src/pages/public/Catalog.tsx:104 | the `filter(item => item !== value)` keeps exactly the other values |
| `CatalogFilters.ToggleFlips` | src/pages/public/Catalog.tsx:97-108 | a toggle flips the value's membership, removes all its occurrences or appends it, and leaves other values alone |
| `CatalogFilters.ToggleTwice` | src/pages/public/Catalog.tsx:101-106 | toggling twice from absent restores the list; from present it restores membership with one occurrence at the end |
| `CatalogFilters.ToggleArrayFilter` | src/pages/public/Catalog.tsx:97-108 | only the named list is toggled; every other field is unchanged |
| `CatalogFilters.ActiveFiltersCountZero` | src/pages/public/Catalog.tsx:110-128 | the count is 0 exactly when no category, skin type or concern is selected, the range covers [0, 1000] and no rating is set; it is 0 after `clearFilters`; brands, search and sort do not count |
| `CatalogFilters.RemoveAllCount` | src/pages/public/Catalog.tsx:104 | the filter removes exactly the value's occurrences |
| `CatalogFilters.ToggleCount` | src/pages/public/Catalog.tsx:123-128 | a toggle adds one to the count or removes the value's occurrences; a brand toggle changes nothing |
| `CatalogFilters.RatingClickFlips` | src/pages/public/Catalog.tsx:205-209 | clicking the current rating resets it to 0; clicking another sets it; other boxes end up unchecked |
| `QuantityStepper.Decrement` | src/pages/public/ProductDetail.tsx:328 | the minus button never goes below 1 and lowers by at most one |
| `QuantityStepper.Increment` | src/pages/public/ProductDetail.tsx:335 | the plus button adds exactly one |
| `QuantityStepper.StaysPositive` | src/pages/public/ProductDetail.tsx:36 | from 1, any series of presses stays ≥ 1 and at most the start plus the plus presses |
| `QuantityStepper.StepsUndo` | src/pages/public/ProductDetail.tsx:327-339 | plus then minus restores; minus then plus restores above 1; minus at 1 stays at 1 |
| `ProductDetail.JsRem` | src/pages/public/ProductDetail.tsx:105 | JavaScript's `%` takes the sign of the dividend |
| `ProductDetail.NextImage` | src/pages/public/ProductDetail.tsx:104-106 | with n > 0 images, the next index stays in [0, n), advancing or wrapping to 0 |
| `ProductDetail.PrevImage` | src/pages/public/ProductDetail.tsx:108-110 | with n > 0 images, the previous index stays in [0, n), never negative, wrapping to n − 1 |
| `ProductDetail.NextPrevInverse` | src/pages/public/ProductDetail.tsx:104-110 | previous after next, and next after previous, give the index back |
| `ProductDetail.NextTimesFullCircle` | src/pages/public/ProductDetail.tsx:104-106 | n presses of next are the identity |
| `ProductDetail.AddToCartAddsStepperQuantity` | src/pages/public/ProductDetail.tsx:86-89 | add-to-cart grows the product's line by exactly the stepper's quantity (≥ 1) and leaves other products alone |
| `QuickView.Slot.constructor` | src/components/product/QuickViewModal.tsx:18-20 | the globals start with no product, closed, no listeners |
| `QuickView.Slot.NotifyAll` | src/components/product/QuickViewModal.tsx:25 | every registered listener is called exactly once and copies the slot |
| `QuickView.Slot.OpenQuickView` | src/components/product/QuickViewModal.tsx:22-26 | stores the product, opens, and notifies each listener once |
| `QuickView.Slot.CloseQuickView` | src/components/product/QuickViewModal.tsx:28-31 | closes, keeps the stored product, and notifies each listener once |
| `QuickView.Prefer` | src/components/product/QuickViewModal.tsx:55-57 | a non-nullish prop wins over the global value |
| `QuickView.Modal.constructor` | src/components/product/QuickViewModal.tsx:35-53 | a mounted dialog starts from the slot with quantity 1 and registers its listener |
| `QuickView.Modal.Update` | src/components/product/QuickViewModal.tsx:47-50 | the listener copies the slot into the dialog's local state |
| `QuickView.Modal.ShownProduct` | src/components/product/QuickViewModal.tsx:55 | the shown product is the prop when given, else the slot's copy |
| `QuickView.Modal.ShownOpen` | src/components/product/QuickViewModal.tsx:56 | the open flag is the prop when given, else the slot's copy |
| `QuickView.Modal.DecrementQuantity` | src/components/product/QuickViewModal.tsx:209-214 | the minus button keeps the quantity ≥ 1 |
| `QuickView.Modal.IncrementQuantity` | src/components/product/QuickViewModal.tsx:216-221 | the plus button adds one |
| `QuickView.Modal.HandleClose` | src/components/product/QuickViewModal.tsx:57 | without an `onClose` prop, closing goes through `closeQuickView`: the slot closes and every registered dialog is notified once and ends with its local open flag false |
| `QuickView.Modal.AddToCart` | src/components/product/QuickViewModal.tsx:64-68 | adds the shown product with the stepper's quantity, then closes: without an `onClose` prop every registered dialog is notified and, when no `isOpen` prop overrides it, this dialog is no longer shown open |

## Left out

- Simulated latency (`delay`, `setTimeout`) is left out; every operation is synchronous. `login` is split into the part before its delay (`Auth.AuthStore.BeginLogin`) and the part after (`Auth.AuthStore.FinishLogin`).
- Persistence is not modelled: zustand `persist`, `partialize`, localStorage rehydration and the theme's rehydration callback.
- Clocks and id sources become parameters: `Date.now()` ids, `toISOString()` timestamps and `getFullYear()`. Timestamps are integers, so the `newest` comparator compares integers instead of parsed dates.
- JavaScript floating point is not modelled. Prices, ratings and totals are exact reals, and tax is exactly a fifth of the subtotal.
- `toLowerCase` lower-cases ASCII letters only.
- The DOM class list, `window.matchMedia` and its change event become a `DocumentRoot` object and a `prefersDark` flag.
- The mock-data helpers are not part of this model: `getProductBySlug`, `getProductById`, `getProductsByCategory`, `getRelatedProducts`, `getBestsellers`, `getNewArrivals`, `getOnSale` and `searchProducts`. So `getBySlug`, `getById`, `getRelated`, `getBestsellers`, `getNewArrivals`, `getOnSale` and `search` are not modelled, and `getByCategory` takes the helper's result as an argument.
- These plain lookups and constant returns are not modelled: `categoryApi.getAll`/`getBySlug`, `orderApi.getById`/`getByOrderNumber`, `userApi.getById` and `dashboardApi`.
- Aliasing is not captured. `updateStatus` and `addTracking` assign into the stored order object, so a reference obtained earlier also changes. The model replaces the record in a sequence of values.
- Product, category, user, order, address and payment fields that no modelled operation reads are not modelled. These are descriptions, SKU, reviews, ingredients, image metadata, avatars, notes and card details. Images are a list of URLs.
- MockApi.MockDatabase.ProductGetAll: requires `limit > 0`; with limit 0 JavaScript returns an empty page and `totalPages` Infinity or NaN, which has no integer counterpart; with a negative limit `slice` counts its end from the back (limit −1 on page 1 gives every item but the last) and `totalPages` is negative, which the model does not cover. The same holds for `OrderGetAll`, `UserGetAll` and `CatalogQuery.CategoryPage`.
- ProductDetail.NextImage: requires at least one image; with none, JavaScript's `% 0` yields NaN. The same holds for `ProductDetail.PrevImage`.
- Comparators that return NaN (invalid dates, non-numeric prices) are not modelled.
- Checkout.CheckoutPage.SubmitPayment: reads the cart when it runs, while the page reads the selected lines and totals at render time. Without concurrency these agree. The double-submit race is not modelled.
- Checkout.CheckoutPage.SubmitShipping: the browser's `required` checks on the form fields are left out, since the handler itself checks nothing. Both submit methods require the step on which their form is rendered.
- Navigation, scrolling, toasts, animation and image zoom are not modelled.
- The quick-view dialog's `handleViewDetails` navigation and its image index are not modelled. Its wishlist button is `Wishlist.WishlistStore.ToggleItem`.
- QuickView.Modal.AddToCart: requires the dialog to be registered with the slot, which mounting (`QuickView.Modal.constructor`) ensures; the add-to-cart button exists only on a mounted dialog.
- Unmounting a quick-view dialog is not modelled. As in the code, whose subscription sits in a `useState` initializer whose returned cleanup is never run, a registered listener is never removed from the set.
