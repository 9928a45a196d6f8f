/** The wishlist container (src/stores/wishlistStore.ts): an ordered list of products with
    set semantics by product id, and the store object whose `items` field the actions replace. */
module Wishlist {
  import opened Types

  /** No two entries share a product id. */
  predicate UniqueIds(items: seq<Product>) {
    forall i, j :: 0 <= i < j < |items| ==> items[i].id != items[j].id
  }

  /** `isInWishlist` (`some`). */
  function IsInWishlist(items: seq<Product>, id: string): (r: bool)
    ensures r <==> exists k :: 0 <= k < |items| && items[k].id == id
  {
    |items| > 0 && (items[0].id == id || IsInWishlist(items[1..], id))
  }

  /** The set of ids on the list. */
  function Ids(items: seq<Product>): set<string> {
    if items == [] then {} else {items[0].id} + Ids(items[1..])
  }

  /** `removeItem`: keep the entries whose id differs. */
  function Without(items: seq<Product>, id: string): seq<Product> {
    if items == [] then []
    else if items[0].id == id then Without(items[1..], id)
    else [items[0]] + Without(items[1..], id)
  }

  /** `addItem`: unchanged when the id is present, otherwise the product goes at the end. */
  function Added(items: seq<Product>, product: Product): seq<Product> {
    if IsInWishlist(items, product.id) then items else items + [product]
  }

  /** `toggleItem`: remove when present, append when absent. */
  function Toggled(items: seq<Product>, product: Product): seq<Product> {
    if IsInWishlist(items, product.id) then Without(items, product.id) else items + [product]
  }

  // ---------------------------------------------------------------- removal

  lemma {:induction false} WithoutMembership(items: seq<Product>, id: string, other: string)
    ensures IsInWishlist(Without(items, id), other) <==> other != id && IsInWishlist(items, other)
  {
    if items != [] {
      WithoutMembership(items[1..], id, other);
    }
  }

  lemma {:induction false} WithoutAbsent(items: seq<Product>, id: string)
    requires !IsInWishlist(items, id)
    ensures Without(items, id) == items
  {
    if items != [] {
      WithoutAbsent(items[1..], id);
    }
  }

  /** `removeItem` is idempotent. */
  lemma WithoutIdempotent(items: seq<Product>, id: string)
    ensures Without(Without(items, id), id) == Without(items, id)
  {
    WithoutMembership(items, id, id);
    WithoutAbsent(Without(items, id), id);
  }

  /** With unique ids, removing the id of entry k drops exactly that entry and keeps the
      others in order. */
  lemma {:induction false} WithoutAt(items: seq<Product>, k: nat)
    requires UniqueIds(items) && k < |items|
    ensures Without(items, items[k].id) == items[..k] + items[k + 1..]
  {
    var id := items[k].id;
    TailInvariant(items);
    if k == 0 {
      WithoutAbsent(items[1..], id);
    } else {
      assert items[1..][k - 1] == items[k];
      WithoutAt(items[1..], k - 1);
      assert items[1..][..k - 1] + items[1..][k..] == items[1..k] + items[k + 1..];
      assert items[..k] == [items[0]] + items[1..k];
    }
  }

  lemma TailInvariant(items: seq<Product>)
    requires items != []
    ensures UniqueIds(items) ==> UniqueIds(items[1..]) && !IsInWishlist(items[1..], items[0].id)
  {
    var t := items[1..];
    if UniqueIds(items) {
      forall j | 0 <= j < |t| ensures t[j].id != items[0].id {
        assert t[j] == items[j + 1];
      }
    }
  }

  lemma {:induction false} WithoutPreserves(items: seq<Product>, id: string)
    requires UniqueIds(items)
    ensures UniqueIds(Without(items, id))
  {
    if items != [] {
      var t := items[1..];
      TailInvariant(items);
      WithoutPreserves(t, id);
      if items[0].id != id {
        var w := Without(t, id);
        WithoutMembership(t, id, items[0].id);
        forall i, j | 0 <= i < j < |[items[0]] + w|
          ensures ([items[0]] + w)[i].id != ([items[0]] + w)[j].id
        {
          if i == 0 {
            assert ([items[0]] + w)[j] == w[j - 1];
          } else {
            assert ([items[0]] + w)[i] == w[i - 1] && ([items[0]] + w)[j] == w[j - 1];
          }
        }
      }
    }
  }

  // ---------------------------------------------------------------- add and toggle

  /** No operation ever produces two entries with the same id. */
  lemma NoDuplicates(items: seq<Product>, product: Product, id: string)
    requires UniqueIds(items)
    ensures UniqueIds(Added(items, product))
    ensures UniqueIds(Toggled(items, product))
    ensures UniqueIds(Without(items, id))
  {
    WithoutPreserves(items, id);
    WithoutPreserves(items, product.id);
  }

  /** After `addItem(p)` exactly p's id has joined the ids present. */
  lemma AddedMembership(items: seq<Product>, product: Product, other: string)
    ensures IsInWishlist(Added(items, product), other) <==> other == product.id || IsInWishlist(items, other)
  {
    if !IsInWishlist(items, product.id) {
      var r := items + [product];
      assert r[|items|].id == product.id;
      if IsInWishlist(r, other) && other != product.id {
        var k :| 0 <= k < |r| && r[k].id == other;
        assert k < |items| && items[k].id == other;
      }
      if IsInWishlist(items, other) {
        var k :| 0 <= k < |items| && items[k].id == other;
        assert r[k] == items[k];
      }
    }
  }

  /** Toggling negates p's membership and leaves every other id's membership alone. */
  lemma ToggleFlips(items: seq<Product>, product: Product, other: string)
    ensures IsInWishlist(Toggled(items, product), product.id) == !IsInWishlist(items, product.id)
    ensures other != product.id ==>
      IsInWishlist(Toggled(items, product), other) == IsInWishlist(items, other)
  {
    WithoutMembership(items, product.id, product.id);
    WithoutMembership(items, product.id, other);
    AddedMembership(items, product, other);
    AddedMembership(items, product, product.id);
  }

  /** Toggling twice from absent restores the exact list. */
  lemma ToggleTwiceAbsent(items: seq<Product>, product: Product)
    requires !IsInWishlist(items, product.id)
    ensures Toggled(Toggled(items, product), product) == items
  {
    var r := items + [product];
    assert r[|items|].id == product.id;
    WithoutAbsent(items, product.id);
    WithoutAppend(items, product, product.id);
  }

  lemma {:induction false} WithoutAppend(items: seq<Product>, product: Product, id: string)
    ensures Without(items + [product], id)
         == Without(items, id) + (if product.id == id then [] else [product])
  {
    if items == [] {
      assert items + [product] == [product];
    } else {
      assert (items + [product])[1..] == items[1..] + [product];
      WithoutAppend(items[1..], product, id);
    }
  }

  /** Toggling twice from present restores membership, with the product moved to the end. */
  lemma ToggleTwicePresent(items: seq<Product>, product: Product)
    requires IsInWishlist(items, product.id)
    ensures Toggled(Toggled(items, product), product) == Without(items, product.id) + [product]
  {
    WithoutMembership(items, product.id, product.id);
  }

  // ---------------------------------------------------------------- counting

  lemma {:induction false} IdsMembership(items: seq<Product>, id: string)
    ensures id in Ids(items) <==> IsInWishlist(items, id)
  {
    if items != [] {
      IdsMembership(items[1..], id);
    }
  }

  /** `getItemCount` is the length of the list, which is the number of distinct ids. */
  lemma {:induction false} CountIsDistinctIds(items: seq<Product>)
    requires UniqueIds(items)
    ensures |Ids(items)| == |items|
  {
    if items != [] {
      TailInvariant(items);
      IdsMembership(items[1..], items[0].id);
      CountIsDistinctIds(items[1..]);
    }
  }

  // ---------------------------------------------------------------- the store

  /** The zustand store; persistence is not modelled. */
  class WishlistStore {
    var items: seq<Product>
    var isOpen: bool

    ghost predicate Valid()
      reads this
    {
      UniqueIds(items)
    }

    constructor ()
      ensures Valid() && items == [] && !isOpen
    {
      items := [];
      isOpen := false;
    }

    method AddItem(product: Product)
      requires Valid()
      modifies this
      ensures Valid() && isOpen == old(isOpen)
      ensures items == Added(old(items), product)
    {
      NoDuplicates(items, product, product.id);
      var present := IsInWishlist(items, product.id);
      if present {
        return;
      }
      items := items + [product];
    }

    method RemoveItem(productId: string)
      requires Valid()
      modifies this
      ensures Valid() && isOpen == old(isOpen)
      ensures items == Without(old(items), productId)
    {
      WithoutPreserves(items, productId);
      items := Without(items, productId);
    }

    method ToggleItem(product: Product)
      requires Valid()
      modifies this
      ensures Valid() && isOpen == old(isOpen)
      ensures items == Toggled(old(items), product)
    {
      NoDuplicates(items, product, product.id);
      var present := IsInWishlist(items, product.id);
      if present {
        items := Without(items, product.id);
      } else {
        items := items + [product];
      }
    }

    method ClearWishlist()
      modifies this
      ensures Valid() && items == [] && isOpen == old(isOpen)
    {
      items := [];
    }

    method SetIsOpen(open: bool)
      modifies this
      ensures isOpen == open && items == old(items)
    {
      isOpen := open;
    }
  }
}
