/** The cart container (src/stores/cartStore.ts): a sequence of lines keyed by product id,
    the transforms its actions apply to that sequence, the derived totals, and the store
    object whose `items` field the actions replace. */
module Cart {
  import opened Types

  const ShippingThreshold: real := 500.0
  const ShippingCost: real := 29.0
  const TaxRate: real := 0.20

  // ---------------------------------------------------------------- invariants

  /** At most one line per product id. */
  predicate UniqueIds(items: seq<CartItem>) {
    forall i, j :: 0 <= i < j < |items| ==> items[i].product.id != items[j].product.id
  }

  predicate PositiveQuantities(items: seq<CartItem>) {
    forall i :: 0 <= i < |items| ==> items[i].quantity >= 1
  }

  // ---------------------------------------------------------------- queries

  /** `isInCart`: some line carries the id. */
  function IsInCart(items: seq<CartItem>, id: string): (r: bool)
    ensures r <==> exists k :: 0 <= k < |items| && items[k].product.id == id
  {
    |items| > 0 && (items[0].product.id == id || IsInCart(items[1..], id))
  }

  /** `getItemQuantity`: the quantity of the first line with the id, 0 when there is none
      (`item?.quantity || 0`; the `|| 0` also maps a zero quantity to zero, which changes nothing). */
  function ItemQuantity(items: seq<CartItem>, id: string): int {
    if items == [] then 0
    else if items[0].product.id == id then items[0].quantity
    else ItemQuantity(items[1..], id)
  }

  /** `getItemCount`: the sum of all quantities, selected or not. */
  function ItemCount(items: seq<CartItem>): int {
    if items == [] then 0 else items[0].quantity + ItemCount(items[1..])
  }

  /** `getSelectedItems`: the selected lines, in cart order. */
  function SelectedItems(items: seq<CartItem>): seq<CartItem> {
    if items == [] then []
    else if items[0].selected then [items[0]] + SelectedItems(items[1..])
    else SelectedItems(items[1..])
  }

  /** The unit price `getSubtotal` charges; its sale conditional picks `price` on both sides. */
  function UnitPrice(p: Product): real {
    if p.isOnSale && p.originalPrice.Some? && p.originalPrice.value != 0.0 then p.price else p.price
  }

  function LinesSubtotal(lines: seq<CartItem>): real {
    if lines == [] then 0.0
    else UnitPrice(lines[0].product) * lines[0].quantity as real + LinesSubtotal(lines[1..])
  }

  /** `getSubtotal`: the selected lines' price times quantity. */
  function Subtotal(items: seq<CartItem>): real {
    LinesSubtotal(SelectedItems(items))
  }

  function ShippingFee(subtotal: real): real {
    if subtotal >= ShippingThreshold then 0.0 else ShippingCost
  }

  function Tax(subtotal: real): real {
    subtotal * TaxRate
  }

  function TotalFor(subtotal: real): real {
    subtotal + ShippingFee(subtotal) + Tax(subtotal)
  }

  /** `getTotal`. */
  function Total(items: seq<CartItem>): real {
    TotalFor(Subtotal(items))
  }

  // ---------------------------------------------------------------- line transforms

  function Bumped(item: CartItem, id: string, quantity: int): CartItem {
    if item.product.id == id then item.(quantity := item.quantity + quantity) else item
  }

  /** `addItem`: bump the line with the product's id, or append a new selected line. */
  function AddLine(items: seq<CartItem>, product: Product, quantity: int): seq<CartItem> {
    if IsInCart(items, product.id) then
      seq(|items|, k requires 0 <= k < |items| => Bumped(items[k], product.id, quantity))
    else
      items + [CartItem(product, quantity, true)]
  }

  /** `removeItem`: keep the lines whose id differs. */
  function WithoutLine(items: seq<CartItem>, id: string): seq<CartItem> {
    if items == [] then []
    else if items[0].product.id == id then WithoutLine(items[1..], id)
    else [items[0]] + WithoutLine(items[1..], id)
  }

  function WithQuantity(item: CartItem, id: string, quantity: int): CartItem {
    if item.product.id == id then item.(quantity := quantity) else item
  }

  /** `updateQuantity`: a non-positive quantity removes the line, otherwise it is set. */
  function UpdateLine(items: seq<CartItem>, id: string, quantity: int): seq<CartItem> {
    if quantity <= 0 then WithoutLine(items, id) else SetLines(items, id, quantity)
  }

  function SetLines(items: seq<CartItem>, id: string, quantity: int): seq<CartItem> {
    seq(|items|, k requires 0 <= k < |items| => WithQuantity(items[k], id, quantity))
  }

  function Toggled(item: CartItem, id: string): CartItem {
    if item.product.id == id then item.(selected := !item.selected) else item
  }

  /** `toggleItemSelection`. */
  function ToggleLine(items: seq<CartItem>, id: string): seq<CartItem> {
    seq(|items|, k requires 0 <= k < |items| => Toggled(items[k], id))
  }

  /** `selectAll`. */
  function SelectAllLines(items: seq<CartItem>, selected: bool): seq<CartItem> {
    seq(|items|, k requires 0 <= k < |items| => items[k].(selected := selected))
  }

  /** The invariants pass to the tail, and with unique ids the head's id is not in the tail. */
  lemma TailInvariants(items: seq<CartItem>)
    requires items != []
    ensures UniqueIds(items) ==> UniqueIds(items[1..]) && !IsInCart(items[1..], items[0].product.id)
    ensures PositiveQuantities(items) ==> PositiveQuantities(items[1..])
  {
    var t := items[1..];
    if UniqueIds(items) {
      forall j | 0 <= j < |t| ensures t[j].product.id != items[0].product.id {
        assert t[j] == items[j + 1];
      }
    }
  }

  // ---------------------------------------------------------------- lemmas: lookups

  lemma {:induction false} ItemQuantityAbsent(items: seq<CartItem>, id: string)
    requires !IsInCart(items, id)
    ensures ItemQuantity(items, id) == 0
  {
    if items != [] {
      ItemQuantityAbsent(items[1..], id);
    }
  }

  /** With unique ids, `getItemQuantity` reports the quantity of the line that has the id. */
  lemma {:induction false} ItemQuantityAt(items: seq<CartItem>, k: nat)
    requires UniqueIds(items) && k < |items|
    ensures ItemQuantity(items, items[k].product.id) == items[k].quantity
  {
    if k > 0 {
      assert items[0].product.id != items[k].product.id;
      assert items[1..][k - 1] == items[k];
      ItemQuantityAt(items[1..], k - 1);
    }
  }

  // ---------------------------------------------------------------- lemmas: addItem

  /** `addItem` on a present id keeps the line count, adds `quantity` to the matching line
      and leaves every other line as it was. */
  lemma AddExisting(items: seq<CartItem>, product: Product, quantity: int)
    requires IsInCart(items, product.id)
    ensures |AddLine(items, product, quantity)| == |items|
    ensures forall k :: 0 <= k < |items| ==>
      var r := AddLine(items, product, quantity)[k];
      r.product == items[k].product && r.selected == items[k].selected &&
      r.quantity == items[k].quantity + (if items[k].product.id == product.id then quantity else 0)
  {
  }

  /** `addItem` on an absent id appends exactly one selected line carrying `quantity`. */
  lemma AddAbsent(items: seq<CartItem>, product: Product, quantity: int)
    requires !IsInCart(items, product.id)
    ensures var r := AddLine(items, product, quantity);
      && |r| == |items| + 1 && r[..|items|] == items
      && r[|items|].product == product && r[|items|].selected
      && IsInCart(r, product.id) && ItemQuantity(r, product.id) == quantity
  {
    var r := AddLine(items, product, quantity);
    ItemQuantitySnoc(items, CartItem(product, quantity, true), product.id);
    assert r[|items|].product.id == product.id;
  }

  /** Appending a line after lines that lack an id: that id's quantity is the new line's. */
  lemma {:induction false} ItemQuantitySnoc(items: seq<CartItem>, line: CartItem, id: string)
    requires !IsInCart(items, id)
    ensures ItemQuantity(items + [line], id) == if line.product.id == id then line.quantity else 0
  {
    if items != [] {
      assert (items + [line])[1..] == items[1..] + [line];
      ItemQuantitySnoc(items[1..], line, id);
    }
  }

  /** `addItem` keeps ids unique, and keeps quantities positive when `quantity >= 1`. */
  lemma AddPreserves(items: seq<CartItem>, product: Product, quantity: int)
    requires UniqueIds(items)
    ensures UniqueIds(AddLine(items, product, quantity))
    ensures PositiveQuantities(items) && quantity >= 1 ==>
      PositiveQuantities(AddLine(items, product, quantity))
  {
  }

  /** After `addItem(p, q)` the cart reports q more of p and the same of every other id. */
  lemma AddItemQuantity(items: seq<CartItem>, product: Product, quantity: int, other: string)
    requires UniqueIds(items)
    ensures ItemQuantity(AddLine(items, product, quantity), product.id)
         == ItemQuantity(items, product.id) + quantity
    ensures other != product.id ==>
      ItemQuantity(AddLine(items, product, quantity), other) == ItemQuantity(items, other)
  {
    var r := AddLine(items, product, quantity);
    AddPreserves(items, product, quantity);
    if IsInCart(items, product.id) {
      var k :| 0 <= k < |items| && items[k].product.id == product.id;
      ItemQuantityAt(items, k);
      ItemQuantityAt(r, k);
    } else {
      ItemQuantityAbsent(items, product.id);
      ItemQuantityAt(r, |items|);
    }
    if other != product.id {
      if IsInCart(items, other) {
        var j :| 0 <= j < |items| && items[j].product.id == other;
        ItemQuantityAt(items, j);
        ItemQuantityAt(r, j);
      } else {
        ItemQuantityAbsent(items, other);
        assert !IsInCart(r, other);
        ItemQuantityAbsent(r, other);
      }
    }
  }

  // ---------------------------------------------------------------- lemmas: removeItem

  lemma {:induction false} WithoutMembership(items: seq<CartItem>, id: string, other: string)
    ensures IsInCart(WithoutLine(items, id), other) <==> other != id && IsInCart(items, other)
  {
    if items != [] {
      WithoutMembership(items[1..], id, other);
    }
  }

  /** Removing an absent id changes nothing. */
  lemma {:induction false} WithoutAbsent(items: seq<CartItem>, id: string)
    requires !IsInCart(items, id)
    ensures WithoutLine(items, id) == items
  {
    if items != [] {
      WithoutAbsent(items[1..], id);
    }
  }

  /** With unique ids, removing the id of line k deletes exactly that line and keeps the
      others in their order. */
  lemma {:induction false} WithoutAt(items: seq<CartItem>, k: nat)
    requires UniqueIds(items) && k < |items|
    ensures WithoutLine(items, items[k].product.id) == items[..k] + items[k + 1..]
  {
    var id := items[k].product.id;
    TailInvariants(items);
    if k == 0 {
      WithoutAbsent(items[1..], id);
    } else {
      assert items[1..][k - 1] == items[k];
      WithoutAt(items[1..], k - 1);
      assert items[1..][..k - 1] + items[1..][k..] == items[1..k] + items[k + 1..];
      assert items[..k] == [items[0]] + items[1..k];
    }
  }

  /** `removeItem` keeps ids unique and quantities positive. */
  lemma {:induction false} WithoutPreserves(items: seq<CartItem>, id: string)
    ensures UniqueIds(items) ==> UniqueIds(WithoutLine(items, id))
    ensures PositiveQuantities(items) ==> PositiveQuantities(WithoutLine(items, id))
    ensures |WithoutLine(items, id)| <= |items|
  {
    if items != [] {
      var t := items[1..];
      TailInvariants(items);
      WithoutPreserves(t, id);
      if items[0].product.id != id && UniqueIds(items) {
        var w := WithoutLine(t, id);
        WithoutMembership(t, id, items[0].product.id);
        forall i, j | 0 <= i < j < |[items[0]] + w|
          ensures ([items[0]] + w)[i].product.id != ([items[0]] + w)[j].product.id
        {
          if i == 0 {
            assert ([items[0]] + w)[j] == w[j - 1];
          } else {
            assert ([items[0]] + w)[i] == w[i - 1] && ([items[0]] + w)[j] == w[j - 1];
          }
        }
      }
    }
  }

  /** With unique ids, removing a line takes exactly its quantity off the item count. */
  lemma {:induction false} ItemCountWithout(items: seq<CartItem>, id: string)
    requires UniqueIds(items)
    ensures ItemCount(WithoutLine(items, id)) == ItemCount(items) - ItemQuantity(items, id)
  {
    if items != [] {
      var t := items[1..];
      TailInvariants(items);
      if items[0].product.id == id {
        WithoutAbsent(t, id);
      } else {
        ItemCountWithout(t, id);
      }
    }
  }

  // ---------------------------------------------------------------- lemmas: updateQuantity

  /** Removing keeps every other id's presence and quantity. */
  lemma {:induction false} WithoutKeepsOthers(items: seq<CartItem>, id: string, other: string)
    requires other != id
    ensures IsInCart(WithoutLine(items, id), other) <==> IsInCart(items, other)
    ensures ItemQuantity(WithoutLine(items, id), other) == ItemQuantity(items, other)
  {
    WithoutMembership(items, id, other);
    if items != [] {
      WithoutKeepsOthers(items[1..], id, other);
      if items[0].product.id != id {
        assert ([items[0]] + WithoutLine(items[1..], id))[1..] == WithoutLine(items[1..], id);
      }
    }
  }

  /** Setting a positive quantity never inserts; afterwards a present id has exactly that
      quantity and every other id keeps its own. */
  lemma SetLinesEffect(items: seq<CartItem>, id: string, quantity: int, other: string)
    requires UniqueIds(items)
    ensures UniqueIds(SetLines(items, id, quantity))
    ensures IsInCart(SetLines(items, id, quantity), id) <==> IsInCart(items, id)
    ensures ItemQuantity(SetLines(items, id, quantity), id) == (if IsInCart(items, id) then quantity else 0)
    ensures other != id ==>
      (IsInCart(SetLines(items, id, quantity), other) <==> IsInCart(items, other)) &&
      ItemQuantity(SetLines(items, id, quantity), other) == ItemQuantity(items, other)
  {
    var r := SetLines(items, id, quantity);
    assert UniqueIds(r);
    if IsInCart(items, id) {
      var k :| 0 <= k < |items| && items[k].product.id == id;
      ItemQuantityAt(r, k);
    } else {
      assert !IsInCart(r, id);
      ItemQuantityAbsent(r, id);
    }
    if other != id {
      if IsInCart(items, other) {
        var j :| 0 <= j < |items| && items[j].product.id == other;
        ItemQuantityAt(items, j);
        ItemQuantityAt(r, j);
      } else {
        assert !IsInCart(r, other);
        ItemQuantityAbsent(items, other);
        ItemQuantityAbsent(r, other);
      }
    }
  }

  /** `updateQuantity(id, q)` never inserts: afterwards the id is present exactly when q > 0
      and it was present before, with quantity exactly q; every other id keeps its line. */
  lemma UpdateLineEffect(items: seq<CartItem>, id: string, quantity: int, other: string)
    requires UniqueIds(items)
    ensures UniqueIds(UpdateLine(items, id, quantity))
    ensures IsInCart(UpdateLine(items, id, quantity), id) <==> quantity > 0 && IsInCart(items, id)
    ensures ItemQuantity(UpdateLine(items, id, quantity), id)
         == (if quantity > 0 && IsInCart(items, id) then quantity else 0)
    ensures other != id ==>
      (IsInCart(UpdateLine(items, id, quantity), other) <==> IsInCart(items, other)) &&
      ItemQuantity(UpdateLine(items, id, quantity), other) == ItemQuantity(items, other)
  {
    if quantity <= 0 {
      var r := WithoutLine(items, id);
      WithoutPreserves(items, id);
      WithoutMembership(items, id, id);
      ItemQuantityAbsent(r, id);
      if other != id {
        WithoutKeepsOthers(items, id, other);
      }
    } else {
      SetLinesEffect(items, id, quantity, other);
    }
  }

  /** `updateQuantity` keeps quantities positive. */
  lemma UpdatePreservesPositive(items: seq<CartItem>, id: string, quantity: int)
    requires PositiveQuantities(items)
    ensures PositiveQuantities(UpdateLine(items, id, quantity))
  {
    WithoutPreserves(items, id);
  }

  // ---------------------------------------------------------------- lemmas: selection

  /** Toggling flips only the matching line's flag. */
  lemma ToggleOnlyFlag(items: seq<CartItem>, id: string)
    ensures |ToggleLine(items, id)| == |items|
    ensures forall k :: 0 <= k < |items| ==>
      ToggleLine(items, id)[k].product == items[k].product &&
      ToggleLine(items, id)[k].quantity == items[k].quantity &&
      (ToggleLine(items, id)[k].selected <==> (items[k].selected != (items[k].product.id == id)))
  {
  }

  lemma ToggleTwice(items: seq<CartItem>, id: string)
    ensures ToggleLine(ToggleLine(items, id), id) == items
  {
  }

  /** A line's price times quantity. */
  function LineAmount(item: CartItem): real {
    UnitPrice(item.product) * item.quantity as real
  }

  /** A selected line's share of the subtotal. */
  function Contribution(item: CartItem): real {
    if item.selected then LineAmount(item) else 0.0
  }

  /** Reference definition: the sum, over every line, of its selected share. */
  function SelectedSum(items: seq<CartItem>): real {
    if items == [] then 0.0 else Contribution(items[0]) + SelectedSum(items[1..])
  }

  /** `getSubtotal` counts selected lines only. */
  lemma {:induction false} SubtotalIsSelectedSum(items: seq<CartItem>)
    ensures Subtotal(items) == SelectedSum(items)
  {
    if items != [] {
      SubtotalIsSelectedSum(items[1..]);
    }
  }

  lemma {:induction false} SelectedSumPointChange(a: seq<CartItem>, b: seq<CartItem>, k: nat)
    requires |a| == |b| && k < |a|
    requires forall i :: 0 <= i < |a| && i != k ==> a[i] == b[i]
    ensures SelectedSum(b) == SelectedSum(a) - Contribution(a[k]) + Contribution(b[k])
  {
    if k == 0 {
      assert a[1..] == b[1..];
    } else {
      SelectedSumPointChange(a[1..], b[1..], k - 1);
    }
  }

  /** Toggling a line's selection moves the subtotal by exactly that line's price times
      quantity: down when it was selected, up when it was not. */
  lemma ToggleSubtotal(items: seq<CartItem>, k: nat)
    requires UniqueIds(items) && k < |items|
    ensures Subtotal(ToggleLine(items, items[k].product.id))
         == Subtotal(items) + (if items[k].selected then -LineAmount(items[k]) else LineAmount(items[k]))
  {
    SubtotalIsSelectedSum(items);
    SubtotalIsSelectedSum(ToggleLine(items, items[k].product.id));
    ToggleSelectedSum(items, k);
  }

  lemma ToggleSelectedSum(items: seq<CartItem>, k: nat)
    requires UniqueIds(items) && k < |items|
    ensures SelectedSum(ToggleLine(items, items[k].product.id))
         == SelectedSum(items) + (if items[k].selected then -LineAmount(items[k]) else LineAmount(items[k]))
  {
    TogglePointChange(items, k);
    ContributionFlip(items[k]);
  }

  lemma ContributionFlip(item: CartItem)
    ensures Contribution(item.(selected := !item.selected)) - Contribution(item)
         == if item.selected then -LineAmount(item) else LineAmount(item)
  {
  }

  lemma TogglePointChange(items: seq<CartItem>, k: nat)
    requires UniqueIds(items) && k < |items|
    ensures SelectedSum(ToggleLine(items, items[k].product.id))
         == SelectedSum(items) - Contribution(items[k]) + Contribution(items[k].(selected := !items[k].selected))
  {
    ToggleOnlyLine(items, k);
    SelectedSumPointChange(items, ToggleLine(items, items[k].product.id), k);
  }

  lemma ToggleOnlyLine(items: seq<CartItem>, k: nat)
    requires UniqueIds(items) && k < |items|
    ensures var t := ToggleLine(items, items[k].product.id);
      && |t| == |items|
      && (forall i :: 0 <= i < |items| && i != k ==> t[i] == items[i])
      && t[k] == items[k].(selected := !items[k].selected)
  {
    var id := items[k].product.id;
    var t := ToggleLine(items, id);
    forall i | 0 <= i < |items| && i != k ensures t[i] == items[i] {
      assert items[i].product.id != id;
    }
  }

  /** `selectAll(b)` sets every flag to b and keeps products, quantities and order. */
  lemma {:induction false} SelectAllEffect(items: seq<CartItem>, selected: bool)
    ensures |SelectAllLines(items, selected)| == |items|
    ensures forall k :: 0 <= k < |items| ==>
      SelectAllLines(items, selected)[k] == CartItem(items[k].product, items[k].quantity, selected)
    ensures SelectedItems(SelectAllLines(items, selected))
         == (if selected then SelectAllLines(items, selected) else [])
    ensures ItemCount(SelectAllLines(items, selected)) == ItemCount(items)
  {
    if items != [] {
      var r := SelectAllLines(items, selected);
      assert r[1..] == SelectAllLines(items[1..], selected);
      SelectAllEffect(items[1..], selected);
    }
  }

  /** The item count ignores selection: toggling does not change it. */
  lemma {:induction false} ItemCountToggle(items: seq<CartItem>, id: string)
    ensures ItemCount(ToggleLine(items, id)) == ItemCount(items)
  {
    if items != [] {
      assert ToggleLine(items, id)[1..] == ToggleLine(items[1..], id);
      ItemCountToggle(items[1..], id);
    }
  }

  /** The selection flags do not affect ids or quantities, so the invariants survive. */
  lemma SelectionPreserves(items: seq<CartItem>, id: string, selected: bool)
    ensures UniqueIds(items) ==> UniqueIds(ToggleLine(items, id)) && UniqueIds(SelectAllLines(items, selected))
    ensures PositiveQuantities(items) ==>
      PositiveQuantities(ToggleLine(items, id)) && PositiveQuantities(SelectAllLines(items, selected))
  {
  }

  // ---------------------------------------------------------------- lemmas: totals

  /** Shipping is free from 500 on, otherwise 29; tax is a fifth of the subtotal. */
  lemma TotalBreakdown(subtotal: real)
    ensures subtotal >= 500.0 ==> TotalFor(subtotal) == subtotal + subtotal / 5.0
    ensures subtotal < 500.0 ==> TotalFor(subtotal) == subtotal + 29.0 + subtotal / 5.0
  {
  }

  lemma TotalExamples()
    ensures TotalFor(500.0) == 600.0
    ensures TotalFor(100.0) == 149.0
  {
  }

  /** Both branches of the sale conditional charge the product's `price`. */
  lemma UnitPriceIsPrice(p: Product)
    ensures UnitPrice(p) == p.price
  {
  }

  // ---------------------------------------------------------------- the store

  /** The zustand store: its actions replace `items` (and `isOpen`). The persisted subset and
      rehydration are not modelled. */
  class CartStore {
    var items: seq<CartItem>
    var isOpen: bool

    ghost predicate Valid()
      reads this
    {
      UniqueIds(items)
    }

    constructor ()
      ensures Valid() && items == [] && !isOpen
    {
      items := [];
      isOpen := false;
    }

    method AddItem(product: Product, quantity: int := 1)
      requires Valid()
      modifies this
      ensures Valid() && isOpen == old(isOpen)
      ensures items == AddLine(old(items), product, quantity)
      ensures PositiveQuantities(old(items)) && quantity >= 1 ==> PositiveQuantities(items)
    {
      AddPreserves(items, product, quantity);
      var current := items;
      var existing := IsInCart(current, product.id);
      if existing {
        items := seq(|current|, k requires 0 <= k < |current| => Bumped(current[k], product.id, quantity));
      } else {
        items := current + [CartItem(product, quantity, true)];
      }
    }

    method RemoveItem(productId: string)
      requires Valid()
      modifies this
      ensures Valid() && isOpen == old(isOpen)
      ensures items == WithoutLine(old(items), productId)
      ensures PositiveQuantities(old(items)) ==> PositiveQuantities(items)
    {
      WithoutPreserves(items, productId);
      items := WithoutLine(items, productId);
    }

    method UpdateQuantity(productId: string, quantity: int)
      requires Valid()
      modifies this
      ensures Valid() && isOpen == old(isOpen)
      ensures items == UpdateLine(old(items), productId, quantity)
      ensures PositiveQuantities(old(items)) ==> PositiveQuantities(items)
    {
      if PositiveQuantities(items) {
        UpdatePreservesPositive(items, productId, quantity);
      }
      UpdateLineEffect(items, productId, quantity, productId);
      if quantity <= 0 {
        RemoveItem(productId);
        return;
      }
      var current := items;
      items := seq(|current|, k requires 0 <= k < |current| => WithQuantity(current[k], productId, quantity));
    }

    method ClearCart()
      modifies this
      ensures Valid() && items == [] && isOpen == old(isOpen)
    {
      items := [];
    }

    method ToggleItemSelection(productId: string)
      requires Valid()
      modifies this
      ensures Valid() && isOpen == old(isOpen)
      ensures items == ToggleLine(old(items), productId)
      ensures PositiveQuantities(old(items)) ==> PositiveQuantities(items)
    {
      items := ToggleLine(items, productId);
    }

    method SelectAll(selected: bool)
      requires Valid()
      modifies this
      ensures Valid() && isOpen == old(isOpen)
      ensures items == SelectAllLines(old(items), selected)
      ensures PositiveQuantities(old(items)) ==> PositiveQuantities(items)
    {
      items := SelectAllLines(items, selected);
    }

    method SetIsOpen(open: bool)
      modifies this
      ensures isOpen == open && items == old(items)
    {
      isOpen := open;
    }
  }
}
