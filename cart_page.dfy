/** The order summary of `app/cart/page.jsx`: shipping, tax and total over the cart
    total, the free-shipping hint, and the quantity buttons of each line, which only
    send `updateQuantity` requests to the cart store. */
module CartPage {
  import opened Wrappers
  import Seqs
  import Cart

  const FreeShippingFrom := 75.0
  const ShippingFee := 9.99
  const TaxRate := 0.08

  /** The shipping line as written: free above 75, so a subtotal of exactly 75 is
      still charged. */
  function ShippingAsWritten(items: seq<Cart.LineItem>): (r: real)
    ensures r == 0.0 || r == ShippingFee
    ensures |items| == 0 ==> r == 0.0
    ensures |items| > 0 ==> (r == 0.0 <==> Cart.Total(items) > FreeShippingFrom)
  {
    if |items| > 0 then (if Cart.Total(items) > FreeShippingFrom then 0.0 else ShippingFee) else 0.0
  }

  /** The shipping line with the threshold the hint announces: free from 75 on. */
  function Shipping(items: seq<Cart.LineItem>): (r: real)
    ensures r == 0.0 || r == ShippingFee
    ensures |items| == 0 ==> r == 0.0
    ensures |items| > 0 ==> (r == 0.0 <==> Cart.Total(items) >= FreeShippingFrom)
  {
    if |items| > 0 then (if Cart.Total(items) >= FreeShippingFrom then 0.0 else ShippingFee) else 0.0
  }

  function Tax(items: seq<Cart.LineItem>): real {
    Cart.Total(items) * TaxRate
  }

  /** The order total as written, with the `> 75` shipping rule. */
  function PageTotalAsWritten(items: seq<Cart.LineItem>): real {
    Cart.Total(items) + ShippingAsWritten(items) + Tax(items)
  }

  /** The order total with the corrected shipping rule. */
  function PageTotal(items: seq<Cart.LineItem>): real {
    Cart.Total(items) + Shipping(items) + Tax(items)
  }

  /** The hint "Add $x more for free shipping!", shown in the summary of a non-empty
      cart whose total is below 75. */
  predicate HintShown(items: seq<Cart.LineItem>) {
    |items| > 0 && Cart.Total(items) < FreeShippingFrom
  }

  /** The amount the hint names. */
  function HintAmount(items: seq<Cart.LineItem>): real {
    FreeShippingFrom - Cart.Total(items)
  }

  /** The minus button: disabled at quantity 1 or below, otherwise a request for one
      less. */
  function MinusRequest(item: Cart.LineItem): (r: Option<Cart.Action>)
    ensures r.Some? <==> item.quantity > 1
    ensures r.Some? ==> r.value == Cart.SetQuantity(item.cartId, item.quantity - 1)
  {
    if item.quantity <= 1 then None else Some(Cart.SetQuantity(item.cartId, item.quantity - 1))
  }

  /** The plus button: a request for one more. */
  function PlusRequest(item: Cart.LineItem): Cart.Action {
    Cart.SetQuantity(item.cartId, item.quantity + 1)
  }

  // ---------------------------------------------------------------- lemmas

  /** As written, a cart worth exactly 75 pays the fee and is not told how to avoid
      it: the hint promises free shipping at 75 and the fee rule charges it there. */
  lemma SeventyFiveIsChargedWithoutHint(items: seq<Cart.LineItem>)
    requires |items| > 0 && Cart.Total(items) == 75.0
    ensures ShippingAsWritten(items) == 9.99
    ensures !HintShown(items)
  {
  }

  /** With the threshold at 75 inclusive, the hint appears exactly when a non-empty
      cart is charged shipping, and adding the amount it names makes shipping free. */
  lemma HintMatchesShipping(items: seq<Cart.LineItem>)
    requires |items| > 0
    ensures HintShown(items) <==> Shipping(items) == ShippingFee
    ensures HintShown(items) ==>
              HintAmount(items) > 0.0 && Cart.Total(items) + HintAmount(items) >= FreeShippingFrom
  {
  }

  /** The two rules differ only at exactly 75. */
  lemma ShippingDiffersOnlyAtThreshold(items: seq<Cart.LineItem>)
    ensures ShippingAsWritten(items) != Shipping(items) <==>
              |items| > 0 && Cart.Total(items) == FreeShippingFrom
  {
  }

  /** As written, an empty cart pays no shipping; tax is 8% and the total is the sum
      of the three lines. */
  lemma SummaryAsWritten(items: seq<Cart.LineItem>)
    ensures |items| == 0 ==> ShippingAsWritten(items) == 0.0 && PageTotalAsWritten(items) == 0.0
    ensures PageTotalAsWritten(items) == Cart.Total(items) * 1.08 + ShippingAsWritten(items)
  {
  }

  /** The same summary under the corrected shipping rule. */
  lemma SummarySpec(items: seq<Cart.LineItem>)
    ensures |items| == 0 ==> Shipping(items) == 0.0 && PageTotal(items) == 0.0
    ensures PageTotal(items) == Cart.Total(items) * 1.08 + Shipping(items)
  {
  }

  /** A cart worth exactly 75 is billed 90.99 as written and 81.00 when corrected;
      at every other total the two summaries agree. */
  lemma SummariesAtThreshold(items: seq<Cart.LineItem>)
    ensures |items| > 0 && Cart.Total(items) == FreeShippingFrom ==>
              PageTotalAsWritten(items) == 90.99 && PageTotal(items) == 81.0
    ensures PageTotalAsWritten(items) != PageTotal(items) <==>
              |items| > 0 && Cart.Total(items) == FreeShippingFrom
  {
  }

  /** In a cart whose lines all hold positive quantities, the minus button never
      removes a line: the request only lowers that line's quantity by one. */
  lemma MinusKeepsLine(items: seq<Cart.LineItem>, k: int)
    requires 0 <= k < |items|
    requires forall i :: 0 <= i < |items| ==> items[i].quantity > 0
    requires MinusRequest(items[k]).Some?
    ensures var after := Cart.Reduce(items, MinusRequest(items[k]).value);
      after == Cart.Requantify(items, items[k].cartId, items[k].quantity - 1) &&
      |after| == |items| && after[k].quantity == items[k].quantity - 1
  {
    var m := Cart.Requantify(items, items[k].cartId, items[k].quantity - 1);
    assert forall it :: it in m ==> it.quantity > 0;
    Seqs.FilterKeepsAll(m, (it: Cart.LineItem) => it.quantity > 0);
  }

  /** The plus button raises that line's quantity by exactly one and keeps the
      line. */
  lemma PlusRaisesByOne(items: seq<Cart.LineItem>, k: int)
    requires 0 <= k < |items|
    requires forall i :: 0 <= i < |items| ==> items[i].quantity > 0
    ensures var after := Cart.Reduce(items, PlusRequest(items[k]));
      |after| == |items| && after[k].quantity == items[k].quantity + 1
  {
    var m := Cart.Requantify(items, items[k].cartId, items[k].quantity + 1);
    assert forall it :: it in m ==> it.quantity > 0;
    Seqs.FilterKeepsAll(m, (it: Cart.LineItem) => it.quantity > 0);
  }
}
