/** The catalog tile of `components/product-card.jsx`: the quick-add button, which
    either sets `showQuickAdd` (the flag that mounts the chooser) or adds the
    product straight away, the heart toggle, the star row and the sale badge. */
module ProductCard {
  import opened Wrappers
  import Cart

  datatype Product = Product(id: int, name: string, price: real, images: seq<string>,
                             sizes: seq<string>, colors: seq<string>, rating: real,
                             originalPrice: Option<real>)

  /** The quick add needs the chooser when there is a real choice to make. */
  predicate NeedsChooser(p: Product) {
    |p.sizes| > 1 || |p.colors| > 1
  }

  /** The payload of the direct add: first image, first size, first colour (each
      `undefined`, written `None`, when the list is empty) and quantity 1. */
  function DirectEntry(p: Product): (e: Cart.Entry)
    ensures e.id == p.id && e.name == p.name && e.price == p.price && e.quantity == 1
    ensures e.size.Some? <==> |p.sizes| > 0
    ensures e.size.Some? ==> e.size.value == p.sizes[0]
    ensures e.color.Some? <==> |p.colors| > 0
    ensures e.color.Some? ==> e.color.value == p.colors[0]
    ensures e.image.Some? <==> |p.images| > 0
  {
    Cart.Entry(p.id, p.name, p.price, First(p.images), First(p.sizes), First(p.colors), 1)
  }

  /** Star `i` of the five is filled when `i < Math.floor(rating)`. */
  function Stars(rating: real): (r: seq<bool>)
    ensures |r| == 5
    ensures forall i :: 0 <= i < 5 ==> r[i] == (i < rating.Floor)
  {
    seq(5, i => i < rating.Floor)
  }

  /** `product.originalPrice && <Badge>`: a present, non-zero original price (zero
      and `NaN`, written as no value, are falsy). */
  predicate SaleBadge(p: Product) {
    p.originalPrice.Some? && p.originalPrice.value != 0.0
  }

  class Card {
    const product: Product
    var isWishlisted: bool
    var showQuickAdd: bool

    constructor (p: Product)
      ensures product == p && !isWishlisted && !showQuickAdd
    {
      product := p;
      isWishlisted := false;
      showQuickAdd := false;
    }

    /** The heart button. */
    method ToggleWishlist()
      modifies this
      ensures isWishlisted == !old(isWishlisted)
      ensures showQuickAdd == old(showQuickAdd)
    {
      isWishlisted := !isWishlisted;
    }

    /** `handleQuickAdd`: with a choice to make it only sets `showQuickAdd`; the
        mounted chooser keeps its own open state, so nothing here opens it. */
    method HandleQuickAdd(cart: Cart.CartStore, stamp: int)
      modifies this, cart
      ensures NeedsChooser(product) ==> showQuickAdd && cart.items == old(cart.items)
      ensures !NeedsChooser(product) ==>
                showQuickAdd == old(showQuickAdd) &&
                cart.items == Cart.Reduce(old(cart.items), Cart.Add(DirectEntry(product), stamp))
      ensures isWishlisted == old(isWishlisted)
    {
      if |product.sizes| > 1 || |product.colors| > 1 {
        showQuickAdd := true;
      } else {
        cart.AddToCart(DirectEntry(product), stamp);
      }
    }
  }

  // ---------------------------------------------------------------- lemmas

  /** For a rating between 0 and 5 the filled stars come first, and there are
      `floor(rating)` of them. */
  lemma StarsFillFromLeft(rating: real)
    requires 0.0 <= rating <= 5.0
    ensures 0 <= rating.Floor <= 5
    ensures Stars(rating) == seq(rating.Floor, _ => true) + seq(5 - rating.Floor, _ => false)
  {
    var f := rating.Floor;
    assert 0 <= f <= 5;
    var want := seq(f, _ => true) + seq(5 - f, _ => false);
    forall i | 0 <= i < 5 ensures Stars(rating)[i] == want[i] {
      if i < f {
        assert want[i] == true;
      } else {
        assert want[i] == seq(5 - f, _ => false)[i - f];
      }
    }
  }

  /** A 4.5 rating fills four stars. */
  lemma StarsExample()
    ensures Stars(4.5) == [true, true, true, true, false]
  {
    assert (4.5).Floor == 4;
  }

  /** A product with at most one size and one colour never needs the chooser, and
      its direct add carries the only size and colour it has. */
  lemma SingleChoiceAddsDirectly(p: Product)
    requires |p.sizes| == 1 && |p.colors| == 1
    ensures !NeedsChooser(p)
    ensures DirectEntry(p).size == Some(p.sizes[0]) && DirectEntry(p).color == Some(p.colors[0])
  {
  }
}
