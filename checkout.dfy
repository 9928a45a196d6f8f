/** The logic of the checkout wizard (src/pages/public/Checkout.tsx): its step machine, the
    guard on an empty selection, and the assembly of the order from the selected cart lines. */
module Checkout {
  import opened Types
  import Cart
  import MockApi

  datatype Step = Shipping | Payment | Confirmation

  /** What the user can do on the page: submit the shipping form, complete the payment form,
      or press the back button. */
  datatype Event = ShippingSubmitted | PaymentCompleted | BackPressed

  /** The position of a step in the progress bar. */
  function Rank(s: Step): nat {
    match s
    case Shipping => 0
    case Payment => 1
    case Confirmation => 2
  }

  /** The step an event leads to, when it leads to one. Each form exists only on its own step,
      and the back button changes the step only on the payment step (elsewhere it navigates to
      the cart, leaving the wizard). */
  function Next(s: Step, e: Event): (r: Option<Step>)
    ensures r.Some? && e != BackPressed ==> Rank(r.value) == Rank(s) + 1
    ensures r.Some? && e == BackPressed ==> s == Payment && r.value == Shipping
    ensures s == Confirmation ==> r == None
    ensures s == Shipping ==> (r.Some? <==> e == ShippingSubmitted)
    ensures s == Payment ==> (r.Some? <==> e != ShippingSubmitted)
  {
    match (s, e)
    case (Shipping, ShippingSubmitted) => Some(Payment)
    case (Payment, PaymentCompleted) => Some(Confirmation)
    case (Payment, BackPressed) => Some(Shipping)
    case _ => None
  }

  /** The empty-selection guard: with no selected line the page shows an empty-cart notice
      instead of the wizard, except on the confirmation step. */
  function ShowsWizard(selectedCount: nat, step: Step): (r: bool)
    ensures !r <==> selectedCount == 0 && step != Confirmation
  {
    !(selectedCount == 0 && step != Confirmation)
  }

  /** The shipping form's state. */
  datatype ShippingData = ShippingData(
    firstName: string,
    lastName: string,
    email: string,
    phone: string,
    address1: string,
    address2: string,
    city: string,
    postalCode: string,
    country: string)

  const InitialShippingData := ShippingData("", "", "", "", "", "", "", "", "Maroc")

  /** The address sent as both shipping and billing address: the form's fields with an empty
      `state`. */
  function AddressOf(d: ShippingData): (a: Address)
    ensures a.state == ""
    ensures a.firstName == d.firstName && a.lastName == d.lastName && a.email == d.email
    ensures a.phone == d.phone && a.address1 == d.address1 && a.address2 == d.address2
    ensures a.city == d.city && a.postalCode == d.postalCode && a.country == d.country
  {
    Address(d.firstName, d.lastName, d.email, d.phone, d.address1, d.address2, d.city, "",
      d.postalCode, d.country)
  }

  /** One order line: the product's current price and price times quantity. */
  function OrderLine(item: CartItem): OrderItem {
    OrderItem(item.product, item.quantity, item.product.price,
      item.product.price * item.quantity as real)
  }

  /** `selectedItems.map(...)`: one order line per cart line, in cart order. */
  function OrderLines(items: seq<CartItem>): (r: seq<OrderItem>)
    ensures |r| == |items|
    ensures forall k :: 0 <= k < |items| ==>
      r[k].product == items[k].product && r[k].quantity == items[k].quantity
      && r[k].price == items[k].product.price
      && r[k].total == r[k].price * r[k].quantity as real
  {
    if items == [] then [] else [OrderLine(items[0])] + OrderLines(items[1..])
  }

  /** The sum of the order lines' totals. */
  function LinesTotal(lines: seq<OrderItem>): real {
    if lines == [] then 0.0 else lines[0].total + LinesTotal(lines[1..])
  }

  /** The cart charges the same amount for a group of lines as their order lines add up to. */
  lemma {:induction false} LinesTotalIsCartSubtotal(items: seq<CartItem>)
    ensures LinesTotal(OrderLines(items)) == Cart.LinesSubtotal(items)
  {
    if items != [] {
      Cart.UnitPriceIsPrice(items[0].product);
      assert OrderLines(items)[1..] == OrderLines(items[1..]);
      LinesTotalIsCartSubtotal(items[1..]);
    }
  }

  /** The object passed to `orderApi.create`, computed from the cart and the form. */
  function BuildDraft(items: seq<CartItem>, d: ShippingData): OrderDraft {
    var subtotal := Cart.Subtotal(items);
    OrderDraft(
      OrderLines(Cart.SelectedItems(items)),
      AddressOf(d),
      AddressOf(d),
      PaymentMethod(Card),
      subtotal,
      if subtotal >= 500.0 then 0.0 else 29.0,
      subtotal * 0.2,
      0.0,
      Cart.Total(items),
      Pending,
      None)
  }

  /** The order agrees with the cart: its lines are the selected lines, its lines add up to
      the cart's subtotal, its shipping and tax are the cart's, its total is the cart's total
      and equals subtotal + shipping + tax; billing equals shipping and the order is pending. */
  lemma DraftAgreesWithCart(items: seq<CartItem>, d: ShippingData)
    ensures var r := BuildDraft(items, d);
      && |r.items| == |Cart.SelectedItems(items)|
      && LinesTotal(r.items) == r.subtotal == Cart.Subtotal(items)
      && r.shipping == Cart.ShippingFee(r.subtotal)
      && r.tax == Cart.Tax(r.subtotal) && r.discount == 0.0
      && r.total == Cart.Total(items) == r.subtotal + r.shipping + r.tax - r.discount
      && r.billingAddress == r.shippingAddress && r.shippingAddress.state == ""
      && r.status == Pending && r.paymentMethod == PaymentMethod(Card)
  {
    LinesTotalIsCartSubtotal(Cart.SelectedItems(items));
  }

  /** The page's state. */
  class CheckoutPage {
    var step: Step
    var isProcessing: bool
    var orderNumber: string
    var shippingData: ShippingData

    constructor ()
      ensures step == Shipping && !isProcessing && orderNumber == ""
      ensures shippingData == InitialShippingData
    {
      step := Shipping;
      isProcessing := false;
      orderNumber := "";
      shippingData := InitialShippingData;
    }

    /** An edit of the shipping form. */
    method SetShippingData(d: ShippingData)
      modifies this
      ensures shippingData == d
      ensures step == old(step) && isProcessing == old(isProcessing) && orderNumber == old(orderNumber)
    {
      shippingData := d;
    }

    /** `handleShippingSubmit`; the form is rendered on the shipping step only. */
    method SubmitShipping()
      requires step == Shipping
      modifies this
      ensures Next(old(step), ShippingSubmitted) == Some(step) && step == Payment
      ensures isProcessing == old(isProcessing) && orderNumber == old(orderNumber)
      ensures shippingData == old(shippingData)
    {
      step := Payment;
    }

    /** The back button: on the payment step it returns to shipping; on the other steps it
        leaves the page for the cart (`leaves`) and the step stays. */
    method Back() returns (leaves: bool)
      modifies this
      ensures leaves == (old(step) != Payment)
      ensures !leaves ==> Next(old(step), BackPressed) == Some(step)
      ensures leaves ==> step == old(step) && Next(old(step), BackPressed) == None
      ensures isProcessing == old(isProcessing) && orderNumber == old(orderNumber)
      ensures shippingData == old(shippingData)
    {
      if step == Payment {
        step := Shipping;
        return false;
      }
      return true;
    }

    /** `handlePaymentSubmit`, with the simulated delay left out: the order is assembled from
        the cart, created, its number kept, the whole cart emptied (unselected lines too), and
        the wizard moves to confirmation. The form is rendered on the payment step only, and
        only while some line is selected. */
    method SubmitPayment(cart: Cart.CartStore, db: MockApi.MockDatabase, year: nat, id: string, now: int)
      requires step == Payment && ShowsWizard(|Cart.SelectedItems(cart.items)|, step)
      modifies this, cart, db
      ensures db.orders == [MockApi.OrderOf(BuildDraft(old(cart.items), old(shippingData)),
        MockApi.OrderNumber(year, |old(db.orders)|), id, now)] + old(db.orders)
      ensures orderNumber == MockApi.OrderNumber(year, |old(db.orders)|)
      ensures db.products == old(db.products) && db.categories == old(db.categories)
      ensures db.users == old(db.users)
      ensures cart.items == [] && cart.Valid() && cart.isOpen == old(cart.isOpen)
      ensures Next(old(step), PaymentCompleted) == Some(step) && step == Confirmation
      ensures !isProcessing && shippingData == old(shippingData)
    {
      isProcessing := true;
      var draft := BuildDraft(cart.items, shippingData);
      var order := db.OrderCreate(draft, year, id, now);
      orderNumber := order.orderNumber;
      cart.ClearCart();
      step := Confirmation;
      isProcessing := false;
    }
  }
}
