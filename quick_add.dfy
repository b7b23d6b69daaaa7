/** The size/colour chooser of `components/product-quick-add.jsx`: the guard in front
    of `addItem`, the quantity stepper, the reset that the 1.5-second timer runs
    (modelled as its own step, `FinishAdd`), and the colour swatch lookup. */
module QuickAdd {
  import opened Wrappers
  import Cart

  /** `colorMap`. */
  const ColorMap: map<string, string> := map[
    "white" := "bg-white border-2 border-gray-300",
    "black" := "bg-black",
    "gray" := "bg-gray-400",
    "blue" := "bg-blue-600",
    "navy" := "bg-blue-900",
    "pink" := "bg-pink-400",
    "brown" := "bg-amber-800",
    "tan" := "bg-amber-200",
    "floral" := "bg-gradient-to-r from-pink-400 to-purple-400"]

  const DefaultSwatch := "bg-gray-300"

  /** `getColorClass`: the mapped class of a known colour, the gray swatch for any
      other. */
  function ColorClass(color: string): (r: string)
    ensures color in ColorMap ==> r == ColorMap[color]
    ensures r == DefaultSwatch <==> color !in ColorMap
  {
    if color in ColorMap then ColorMap[color] else DefaultSwatch
  }

  /** The minus button: `Math.max(1, quantity - 1)`. */
  function Decrement(quantity: int): (r: int)
    ensures r >= 1
    ensures quantity > 1 ==> r == quantity - 1
  {
    if quantity - 1 > 1 then quantity - 1 else 1
  }

  class QuickAddDialog {
    const product: Cart.Product
    var isOpen: bool
    var selectedSize: string
    var selectedColor: string
    var quantity: int
    var isAdded: bool

    constructor (p: Cart.Product)
      ensures product == p && !isOpen && selectedSize == "" && selectedColor == ""
      ensures quantity == 1 && !isAdded
    {
      product := p;
      isOpen := false;
      selectedSize := "";
      selectedColor := "";
      quantity := 1;
      isAdded := false;
    }

    ghost predicate Valid()
      reads this
    {
      quantity >= 1
    }

    method DecrementQuantity()
      modifies this
      ensures quantity == Decrement(old(quantity))
      ensures Valid()
      ensures isOpen == old(isOpen) && isAdded == old(isAdded)
      ensures selectedSize == old(selectedSize) && selectedColor == old(selectedColor)
    {
      quantity := Decrement(quantity);
    }

    method IncrementQuantity()
      modifies this
      ensures quantity == old(quantity) + 1
      ensures old(Valid()) ==> Valid()
      ensures isOpen == old(isOpen) && isAdded == old(isAdded)
      ensures selectedSize == old(selectedSize) && selectedColor == old(selectedColor)
    {
      quantity := quantity + 1;
    }

    /** `handleAddToCart`: nothing happens until both a size and a colour are chosen;
        then the product goes to the cart with the chosen quantity, size and colour. */
    method HandleAddToCart(cart: Cart.CartStore, stamp: int)
      modifies this, cart
      ensures old(selectedSize == "" || selectedColor == "") ==>
                cart.items == old(cart.items) && isAdded == old(isAdded)
      ensures old(selectedSize != "" && selectedColor != "") ==>
                cart.items == Cart.Reduce(old(cart.items), Cart.Add(Cart.EntryFor(product,
                  Some(old(quantity)), Some(old(selectedSize)), Some(old(selectedColor))), stamp)) &&
                isAdded
      ensures isOpen == old(isOpen) && quantity == old(quantity)
      ensures selectedSize == old(selectedSize) && selectedColor == old(selectedColor)
    {
      if selectedSize == "" || selectedColor == "" {
        return;
      }
      cart.AddItem(product, Some(quantity), Some(selectedSize), Some(selectedColor), stamp);
      isAdded := true;
    }

    /** The timer's callback: reset the form and close the dialog. */
    method FinishAdd()
      modifies this
      ensures !isAdded && !isOpen && selectedSize == "" && selectedColor == "" && quantity == 1
      ensures Valid()
    {
      isAdded := false;
      isOpen := false;
      selectedSize := "";
      selectedColor := "";
      quantity := 1;
    }
  }

  // ---------------------------------------------------------------- lemmas

  /** From a valid quantity, the stepper goes down by one but never below 1, and up
      by exactly one; a step up then down comes back. */
  lemma StepperSpec(quantity: int)
    requires quantity >= 1
    ensures Decrement(quantity) == if quantity == 1 then 1 else quantity - 1
    ensures Decrement(quantity + 1) == quantity
  {
  }

  /** The nine known colours, and nothing else, have a swatch of their own. */
  lemma ColorClassSpec()
    ensures ColorClass("navy") == "bg-blue-900"
    ensures ColorClass("floral") == "bg-gradient-to-r from-pink-400 to-purple-400"
    ensures ColorClass("red") == "bg-gray-300"
    ensures |ColorMap| == 9
  {
  }
}
