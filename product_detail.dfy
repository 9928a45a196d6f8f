/** The image carousel and the add-to-cart action of the product page
    (src/pages/public/ProductDetail.tsx). */
module ProductDetail {
  import opened Types
  import Cart
  import QuantityStepper

  /** JavaScript's `%` on integers: the remainder of division truncated toward zero, which takes
      the sign of the dividend. */
  function JsRem(a: int, n: int): (r: int)
    requires n > 0
    ensures a >= 0 ==> 0 <= r < n
    ensures a < 0 ==> -n < r <= 0
    ensures a >= 0 ==> r == a % n
    ensures a < 0 ==> r == -((-a) % n)
  {
    if a >= 0 then a % n else -((-a) % n)
  }

  /** `nextImage`: `(prev + 1) % images.length`. */
  function NextImage(i: int, n: int): (r: int)
    requires n > 0
    ensures i >= -1 ==> 0 <= r < n
    ensures 0 <= i < n - 1 ==> r == i + 1
    ensures i == n - 1 ==> r == 0
  {
    JsRem(i + 1, n)
  }

  /** `prevImage`: `(prev - 1 + images.length) % images.length`. */
  function PrevImage(i: int, n: int): (r: int)
    requires n > 0
    ensures i >= 1 - n ==> 0 <= r < n
    ensures 0 < i < n ==> r == i - 1
    ensures i == 0 ==> r == n - 1
  {
    JsRem(i - 1 + n, n)
  }

  /** On an index in range the two buttons undo each other. */
  lemma NextPrevInverse(i: int, n: int)
    requires 0 <= i < n
    ensures PrevImage(NextImage(i, n), n) == i
    ensures NextImage(PrevImage(i, n), n) == i
  {
  }

  /** `k` presses of the next button. */
  function NextTimes(i: int, n: int, k: nat): int
    requires n > 0
  {
    if k == 0 then i else NextImage(NextTimes(i, n, k - 1), n)
  }

  lemma {:induction false} NextTimesCompose(i: int, n: int, a: nat, b: nat)
    requires n > 0
    ensures NextTimes(i, n, a + b) == NextTimes(NextTimes(i, n, a), n, b)
  {
    if b > 0 {
      NextTimesCompose(i, n, a, b - 1);
    }
  }

  /** Without wrapping, `k` presses move the index up by `k`. */
  lemma {:induction false} NextTimesNoWrap(i: int, n: int, k: nat)
    requires n > 0 && 0 <= i && i + k < n
    ensures NextTimes(i, n, k) == i + k
  {
    if k > 0 {
      NextTimesNoWrap(i, n, k - 1);
    }
  }

  /** `n` presses of the next button go once around the carousel. */
  lemma NextTimesFullCircle(i: int, n: int)
    requires 0 <= i < n
    ensures NextTimes(i, n, n) == i
  {
    var up := n - 1 - i;
    NextTimesNoWrap(i, n, up);
    NextTimesCompose(i, n, up, 1);
    assert NextTimes(i, n, up + 1) == 0;
    NextTimesCompose(i, n, up + 1, i);
    NextTimesNoWrap(0, n, i);
  }

  /** `handleAddToCart`: `addItem(product, quantity)` with the stepper's quantity, which after
      any presses is at least 1, so the cart line for the product grows by exactly that amount,
      other products keep their quantities and every quantity stays positive. */
  lemma AddToCartAddsStepperQuantity(items: seq<CartItem>, product: Product,
                                     presses: seq<QuantityStepper.Press>, other: string)
    requires Cart.UniqueIds(items)
    ensures var q := QuantityStepper.AfterPresses(QuantityStepper.Initial, presses);
      var after := Cart.AddLine(items, product, q);
      && q >= 1
      && Cart.ItemQuantity(after, product.id) == Cart.ItemQuantity(items, product.id) + q
      && (other != product.id ==> Cart.ItemQuantity(after, other) == Cart.ItemQuantity(items, other))
      && (Cart.PositiveQuantities(items) ==> Cart.PositiveQuantities(after))
  {
    var q := QuantityStepper.AfterPresses(QuantityStepper.Initial, presses);
    QuantityStepper.StaysPositive(QuantityStepper.Initial, presses);
    Cart.AddItemQuantity(items, product, q, other);
    Cart.AddPreserves(items, product, q);
  }
}
