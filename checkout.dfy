/** The checkout page of `app/checkout/page.jsx`: the three-step wizard, the
    shipping, tax and total figures, the card masking and the order record that
    placing an order builds before it empties the cart. The clock (`Date.now()` and
    the ISO date) is passed in; the two-second delay and the redirects are not
    modelled beyond saying where the page sends the user. */
module Checkout {
  import opened Wrappers
  import Text
  import Cart
  import Auth
  import Profile

  const FirstStep := 1
  const LastStep := 3
  const TaxRate := 0.08
  const StandardShipping := 9.99
  const ExpressShipping := 15.99
  const OvernightShipping := 25.99
  const CardMask := "**** **** **** "

  datatype ShippingData = ShippingData(firstName: string, lastName: string, email: string,
                                       phone: string, address: string, apartment: string,
                                       city: string, state: string, zipCode: string,
                                       country: string)

  datatype PaymentData = PaymentData(cardNumber: string, expiryDate: string, cvv: string,
                                     nameOnCard: string, billingAddress: string)

  /** The order object. Its literal names `shipping` twice; the later key, the
      shipping cost, is the one the object keeps, so the address form is not part of
      the order. */
  datatype Order = Order(id: string, items: seq<Cart.LineItem>, payment: PaymentData,
                         shippingMethod: string, subtotal: real, shipping: real, tax: real,
                         total: real, status: string, date: string)

  /** The shipping form as the page fills it from the signed-in user: each field is
      the user's text or "" (`user?.x || ""`), the country defaults to "United
      States" when blank, and the apartment and state start empty. */
  function ShippingFrom(user: Option<Auth.User>): (r: ShippingData)
    ensures r.firstName == Profile.TextField(user, "firstName")
    ensures r.lastName == Profile.TextField(user, "lastName")
    ensures r.email == Profile.TextField(user, "email")
    ensures r.phone == Profile.TextField(user, "phone")
    ensures r.address == Profile.TextField(user, "address")
    ensures r.city == Profile.TextField(user, "city")
    ensures r.zipCode == Profile.TextField(user, "zipCode")
    ensures r.apartment == "" && r.state == ""
    ensures r.country != ""
    ensures Profile.TextField(user, "country") != "" ==> r.country == Profile.TextField(user, "country")
    ensures user.None? ==> r == ShippingData("", "", "", "", "", "", "", "", "", "United States")
  {
    var country := Profile.TextField(user, "country");
    ShippingData(Profile.TextField(user, "firstName"), Profile.TextField(user, "lastName"),
                 Profile.TextField(user, "email"), Profile.TextField(user, "phone"),
                 Profile.TextField(user, "address"), "", Profile.TextField(user, "city"), "",
                 Profile.TextField(user, "zipCode"),
                 if country == "" then "United States" else country)
  }

  /** What the page shows: nothing (and a redirect to the cart) for an empty cart. */
  datatype View = RedirectToCart | CheckoutForm

  // ---------------------------------------------------------------- steps

  /** `handleNextStep`. */
  function NextStep(step: int): (r: int)
    ensures step < LastStep ==> r == step + 1
    ensures step >= LastStep ==> r == step
  {
    if step < LastStep then step + 1 else step
  }

  /** `handlePrevStep`. */
  function PrevStep(step: int): (r: int)
    ensures step > FirstStep ==> r == step - 1
    ensures step <= FirstStep ==> r == step
  {
    if step > FirstStep then step - 1 else step
  }

  // ---------------------------------------------------------------- figures

  /** "express" and "overnight" have their own price; every other method, "standard"
      included, costs the standard price. */
  function ShippingCost(shippingMethod: string): (r: real)
    ensures r == ExpressShipping <==> shippingMethod == "express"
    ensures r == OvernightShipping <==> shippingMethod == "overnight"
    ensures r == StandardShipping <==> shippingMethod != "express" && shippingMethod != "overnight"
  {
    if shippingMethod == "express" then ExpressShipping
    else if shippingMethod == "overnight" then OvernightShipping
    else StandardShipping
  }

  function Tax(subtotal: real): real {
    subtotal * TaxRate
  }

  function OrderTotal(subtotal: real, shippingMethod: string): real {
    subtotal + ShippingCost(shippingMethod) + Tax(subtotal)
  }

  /** `"**** **** **** " + cardNumber.slice(-4)`. */
  function MaskCard(cardNumber: string): (r: string)
    ensures |r| == |CardMask| + (if |cardNumber| < 4 then |cardNumber| else 4)
    ensures r[..|CardMask|] == CardMask
    ensures cardNumber == cardNumber[..|cardNumber| - (|r| - |CardMask|)] + r[|CardMask|..]
  {
    CardMask + Text.LastFour(cardNumber)
  }

  /** The order `handlePlaceOrder` builds. */
  function BuildOrder(now: int, date: string, items: seq<Cart.LineItem>, payment: PaymentData,
                      shippingMethod: string): Order {
    var subtotal := Cart.Total(items);
    Order("ORD-" + Text.IntText(now), items, payment.(cardNumber := MaskCard(payment.cardNumber)),
          shippingMethod, subtotal, ShippingCost(shippingMethod), Tax(subtotal),
          OrderTotal(subtotal, shippingMethod), "confirmed", date)
  }

  /** The empty-cart guard. */
  function ViewFor(items: seq<Cart.LineItem>): (v: View)
    ensures v == RedirectToCart <==> |items| == 0
  {
    if |items| == 0 then RedirectToCart else CheckoutForm
  }

  // ---------------------------------------------------------------- page state

  class CheckoutPage {
    var currentStep: int
    var isProcessing: bool
    var shippingData: ShippingData
    var paymentData: PaymentData
    var shippingMethod: string

    /** A fresh page: step 1, "standard" shipping, the shipping form filled from the
        user, an empty card form whose billing address is "same". */
    constructor (user: Option<Auth.User>)
      ensures currentStep == FirstStep && !isProcessing && shippingMethod == "standard"
      ensures shippingData == ShippingFrom(user) && paymentData == PaymentData("", "", "", "", "same")
    {
      currentStep := FirstStep;
      isProcessing := false;
      shippingData := ShippingFrom(user);
      paymentData := PaymentData("", "", "", "", "same");
      shippingMethod := "standard";
    }

    ghost predicate Valid()
      reads this
    {
      FirstStep <= currentStep <= LastStep
    }

    method HandleNextStep()
      modifies this
      ensures currentStep == NextStep(old(currentStep))
      ensures old(Valid()) ==> Valid()
      ensures isProcessing == old(isProcessing) && shippingMethod == old(shippingMethod)
      ensures shippingData == old(shippingData) && paymentData == old(paymentData)
    {
      if currentStep < LastStep {
        currentStep := currentStep + 1;
      }
    }

    method HandlePrevStep()
      modifies this
      ensures currentStep == PrevStep(old(currentStep))
      ensures old(Valid()) ==> Valid()
      ensures isProcessing == old(isProcessing) && shippingMethod == old(shippingMethod)
      ensures shippingData == old(shippingData) && paymentData == old(paymentData)
    {
      if currentStep > FirstStep {
        currentStep := currentStep - 1;
      }
    }

    /** `handlePlaceOrder`: mark the page busy, build the order from the cart as it
        stands, then empty the cart. */
    method HandlePlaceOrder(cart: Cart.CartStore, now: int, date: string) returns (order: Order)
      modifies this, cart
      ensures order == BuildOrder(now, date, old(cart.items), old(paymentData), old(shippingMethod))
      ensures cart.items == []
      ensures isProcessing && currentStep == old(currentStep)
      ensures shippingData == old(shippingData) && paymentData == old(paymentData)
      ensures shippingMethod == old(shippingMethod)
    {
      isProcessing := true;
      order := BuildOrder(now, date, cart.items, paymentData, shippingMethod);
      cart.ClearCart();
    }
  }

  // ---------------------------------------------------------------- lemmas

  /** Starting anywhere in 1..3, any run of Next and Previous stays in 1..3; Next
      then Previous, and Previous then Next, undo each other away from the ends. */
  lemma StepBounds(step: int)
    requires FirstStep <= step <= LastStep
    ensures FirstStep <= NextStep(step) <= LastStep
    ensures FirstStep <= PrevStep(step) <= LastStep
    ensures step < LastStep ==> PrevStep(NextStep(step)) == step
    ensures step > FirstStep ==> NextStep(PrevStep(step)) == step
  {
  }

  /** Any sequence of steps from step 1: `true` is Next, `false` is Previous. */
  function Walk(step: int, moves: seq<bool>): int
    decreases |moves|
  {
    if moves == [] then step
    else Walk(if moves[0] then NextStep(step) else PrevStep(step), moves[1..])
  }

  lemma {:induction false} WalkStaysInRange(step: int, moves: seq<bool>)
    requires FirstStep <= step <= LastStep
    ensures FirstStep <= Walk(step, moves) <= LastStep
    decreases |moves|
  {
    if moves != [] {
      var next := if moves[0] then NextStep(step) else PrevStep(step);
      WalkStaysInRange(next, moves[1..]);
    }
  }

  /** Tax is 8% of the subtotal and the total is subtotal, shipping and tax; the
      total is never below subtotal plus shipping for a non-negative subtotal. */
  lemma TotalsSpec(subtotal: real, shippingMethod: string)
    ensures OrderTotal(subtotal, shippingMethod) == subtotal * 1.08 + ShippingCost(shippingMethod)
    ensures subtotal >= 0.0 ==> OrderTotal(subtotal, shippingMethod) >= subtotal + ShippingCost(shippingMethod)
    ensures ShippingCost(shippingMethod) >= StandardShipping
  {
  }

  /** The order carries the cost of the chosen shipping method (not the address
      form), the masked card, the cart's items and total, and status "confirmed". */
  lemma OrderSpec(now: int, date: string, items: seq<Cart.LineItem>, payment: PaymentData,
                  shippingMethod: string)
    ensures var o := BuildOrder(now, date, items, payment, shippingMethod);
      && o.shipping == ShippingCost(shippingMethod)
      && o.payment.cardNumber[..15] == "**** **** **** "
      && o.payment.(cardNumber := payment.cardNumber) == payment
      && o.items == items && o.subtotal == Cart.Total(items)
      && o.total == o.subtotal + o.shipping + o.tax && o.tax == 0.08 * o.subtotal
      && o.status == "confirmed" && o.id[..4] == "ORD-"
  {
  }

  /** A sixteen-digit card shows only its last four digits. */
  lemma MaskCardExample()
    ensures MaskCard("4111111111111234") == "**** **** **** 1234"
  {
  }
}
