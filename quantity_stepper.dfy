/** The quantity stepper shown on the product page (src/pages/public/ProductDetail.tsx) and in
    the quick-view dialog (src/components/product/QuickViewModal.tsx): it starts at 1, the minus
    button sets `Math.max(1, quantity - 1)` and the plus button sets `quantity + 1`. */
module QuantityStepper {
  const Initial: int := 1

  /** The minus button. */
  function Decrement(q: int): (r: int)
    ensures r >= 1
    ensures r >= q - 1 && r <= (if q >= 1 then q else 1)
  {
    if 1 >= q - 1 then 1 else q - 1
  }

  /** The plus button. */
  function Increment(q: int): (r: int)
    ensures r == q + 1
  {
    q + 1
  }

  datatype Press = Minus | Plus

  function Pressed(q: int, p: Press): int {
    match p
    case Minus => Decrement(q)
    case Plus => Increment(q)
  }

  /** The quantity after a series of presses, earliest first. */
  function AfterPresses(q: int, presses: seq<Press>): int
    decreases presses
  {
    if presses == [] then q else AfterPresses(Pressed(q, presses[0]), presses[1..])
  }

  function PlusCount(presses: seq<Press>): nat {
    if presses == [] then 0 else (if presses[0] == Plus then 1 else 0) + PlusCount(presses[1..])
  }

  /** From a quantity of at least 1, no series of presses gets below 1, and the quantity never
      exceeds the start plus the number of plus presses. */
  lemma {:induction false} StaysPositive(q: int, presses: seq<Press>)
    requires q >= 1
    ensures 1 <= AfterPresses(q, presses) <= q + PlusCount(presses)
    decreases presses
  {
    if presses != [] {
      StaysPositive(Pressed(q, presses[0]), presses[1..]);
    }
  }

  /** Plus then minus gives the quantity back; minus then plus does too above 1; minus at 1
      stays at 1. */
  lemma StepsUndo(q: int)
    requires q >= 1
    ensures Decrement(Increment(q)) == q
    ensures q >= 2 ==> Increment(Decrement(q)) == q
    ensures q == 1 ==> Decrement(q) == 1
  {
  }
}
