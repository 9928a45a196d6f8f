/** The quick-view dialog (src/components/product/QuickViewModal.tsx): a module-level slot
    holding the product to show and whether the dialog is open, the set of listeners the slot
    notifies, and the dialog component, whose props take precedence over the slot. */
module QuickView {
  import opened Types
  import Cart
  import QuantityStepper

  /** The module globals `quickViewProduct`, `quickViewOpen` and `listeners`. Each listener is
      the `update` callback of one mounted dialog, represented by that dialog. */
  class Slot {
    var product: Option<Product>
    var open: bool
    var listeners: set<Modal>

    /** The globals at module load. */
    constructor ()
      ensures product == None && !open && listeners == {}
    {
      product := None;
      open := false;
      listeners := {};
    }

    /** `listeners.forEach(fn => fn())`: every registered dialog copies the slot into its local
        state, each exactly once. */
    method NotifyAll()
      modifies listeners
      ensures forall m :: m in listeners ==>
        m.localProduct == product && m.localIsOpen == open && m.updates == old(m.updates) + 1
      ensures forall m :: m in listeners ==> m.quantity == old(m.quantity)
    {
      var remaining := listeners;
      while remaining != {}
        invariant remaining <= listeners
        invariant forall m :: m in listeners - remaining ==>
          m.localProduct == product && m.localIsOpen == open && m.updates == old(m.updates) + 1
        invariant forall m :: m in remaining ==> m.updates == old(m.updates)
        invariant forall m :: m in listeners ==> m.quantity == old(m.quantity)
        decreases remaining
      {
        var m :| m in remaining;
        m.Update(product, open);
        remaining := remaining - {m};
      }
    }

    /** `openQuickView(p)`. */
    method OpenQuickView(p: Product)
      modifies this, listeners
      ensures product == Some(p) && open && listeners == old(listeners)
      ensures forall m :: m in listeners ==>
        m.localProduct == Some(p) && m.localIsOpen && m.updates == old(m.updates) + 1
      ensures forall m :: m in listeners ==> m.quantity == old(m.quantity)
    {
      product := Some(p);
      open := true;
      NotifyAll();
    }

    /** `closeQuickView()`: the dialog closes and the product stays in the slot. */
    method CloseQuickView()
      modifies this, listeners
      ensures product == old(product) && !open && listeners == old(listeners)
      ensures forall m :: m in listeners ==>
        m.localProduct == product && !m.localIsOpen && m.updates == old(m.updates) + 1
      ensures forall m :: m in listeners ==> m.quantity == old(m.quantity)
    {
      open := false;
      NotifyAll();
    }
  }

  /** `a ?? b` on an optional prop. */
  function Prefer<T>(prop: Option<T>, local: T): (r: T)
    ensures prop.Some? ==> r == prop.value
    ensures prop.None? ==> r == local
  {
    if prop.Some? then prop.value else local
  }

  /** One mounted `QuickViewModal`. A prop that is `null` or `undefined` is `None`; whether an
      `onClose` prop was passed is a flag, since the parent's callback is not part of this model. */
  class Modal {
    const propProduct: Option<Product>
    const propIsOpen: Option<bool>
    const hasOnClose: bool
    var localProduct: Option<Product>
    var localIsOpen: bool
    var quantity: int
    /** How many times the slot has called this dialog's listener. */
    ghost var updates: nat

    ghost predicate Valid()
      reads this
    {
      quantity >= 1
    }

    /** Mounting: the local state starts from the slot, the quantity at 1, and the dialog's
        listener joins the slot's set. */
    constructor (slot: Slot, propProduct: Option<Product>, propIsOpen: Option<bool>, hasOnClose: bool)
      modifies slot
      ensures Valid() && quantity == QuantityStepper.Initial && updates == 0
      ensures localProduct == slot.product && localIsOpen == slot.open
      ensures this.propProduct == propProduct && this.propIsOpen == propIsOpen
      ensures this.hasOnClose == hasOnClose
      ensures slot.listeners == old(slot.listeners) + {this}
      ensures slot.product == old(slot.product) && slot.open == old(slot.open)
    {
      this.propProduct := propProduct;
      this.propIsOpen := propIsOpen;
      this.hasOnClose := hasOnClose;
      localProduct := slot.product;
      localIsOpen := slot.open;
      quantity := QuantityStepper.Initial;
      updates := 0;
      new;
      slot.listeners := slot.listeners + {this};
    }

    /** The `update` listener. */
    method Update(product: Option<Product>, open: bool)
      modifies this
      ensures localProduct == product && localIsOpen == open && updates == old(updates) + 1
      ensures quantity == old(quantity)
    {
      localProduct := product;
      localIsOpen := open;
      updates := updates + 1;
    }

    /** `propProduct ?? localProduct`. */
    function ShownProduct(): (r: Option<Product>)
      reads this
      ensures propProduct.Some? ==> r == propProduct
      ensures propProduct.None? ==> r == localProduct
    {
      if propProduct.Some? then propProduct else localProduct
    }

    /** `propIsOpen ?? localIsOpen`. */
    function ShownOpen(): (r: bool)
      reads this
      ensures propIsOpen.Some? ==> r == propIsOpen.value
      ensures propIsOpen.None? ==> r == localIsOpen
    {
      Prefer(propIsOpen, localIsOpen)
    }

    method DecrementQuantity()
      requires Valid()
      modifies this
      ensures Valid() && quantity == QuantityStepper.Decrement(old(quantity))
      ensures localProduct == old(localProduct) && localIsOpen == old(localIsOpen)
    {
      quantity := QuantityStepper.Decrement(quantity);
    }

    method IncrementQuantity()
      requires Valid()
      modifies this
      ensures Valid() && quantity == QuantityStepper.Increment(old(quantity))
      ensures localProduct == old(localProduct) && localIsOpen == old(localIsOpen)
    {
      quantity := QuantityStepper.Increment(quantity);
    }

    /** `handleClose`: the `onClose` prop when one was passed, otherwise `closeQuickView`. */
    method HandleClose(slot: Slot)
      modifies slot, slot.listeners
      ensures !hasOnClose ==> slot.product == old(slot.product) && !slot.open
      ensures !hasOnClose ==> forall m :: m in old(slot.listeners) ==>
        m.localProduct == slot.product && !m.localIsOpen && m.updates == old(m.updates) + 1
      ensures hasOnClose ==> slot.product == old(slot.product) && slot.open == old(slot.open)
      ensures slot.listeners == old(slot.listeners)
    {
      if !hasOnClose {
        slot.CloseQuickView();
      }
    }

    /** `handleAddToCart`: the shown product goes into the cart with the stepper's quantity, then
        the dialog closes. The button exists only while a product is shown, and only on a mounted
        dialog, whose listener is registered with the slot. */
    method AddToCart(cart: Cart.CartStore, slot: Slot)
      requires Valid() && cart.Valid() && ShownProduct().Some? && this in slot.listeners
      modifies cart, slot, slot.listeners
      ensures cart.Valid()
      ensures cart.items == Cart.AddLine(old(cart.items), old(ShownProduct()).value, old(quantity))
      ensures Cart.PositiveQuantities(old(cart.items)) ==> Cart.PositiveQuantities(cart.items)
      ensures !hasOnClose ==> !slot.open && slot.product == old(slot.product)
      ensures !hasOnClose ==> forall m :: m in old(slot.listeners) ==>
        m.localProduct == slot.product && !m.localIsOpen && m.updates == old(m.updates) + 1
      ensures !hasOnClose && propIsOpen.None? ==> !ShownOpen()
      ensures slot.listeners == old(slot.listeners)
    {
      var p := ShownProduct().value;
      cart.AddItem(p, quantity);
      HandleClose(slot);
    }
  }
}
