/** The wishlist page of `app/wishlist/page.jsx`: removal from the saved list, the
    cart payload built from a saved item, the disabled state of its button, the
    count label and the sign-in gate. */
module Wishlist {
  import opened Wrappers
  import Seqs
  import Cart

  datatype WishlistItem = WishlistItem(id: int, name: string, price: real,
                                       originalPrice: Option<real>, brand: string,
                                       image: string, inStock: bool, sizes: seq<string>,
                                       colors: seq<string>)

  /** What the page shows. */
  datatype View = SignInPrompt | EmptyWishlist | ItemGrid

  /** `wishlistItems.filter(item => item.id !== id)`. */
  function Without(items: seq<WishlistItem>, id: int): seq<WishlistItem> {
    Seqs.Filter(items, (it: WishlistItem) => it.id != id)
  }

  /** The `addToCart` payload: id, name, price and image of the item, its first size
      and first colour (`undefined`, written `None`, for an empty list), quantity 1. */
  function CartPayload(item: WishlistItem): (e: Cart.Entry)
    ensures e.id == item.id && e.name == item.name && e.price == item.price
    ensures e.image == Some(item.image) && e.quantity == 1
    ensures e.size.Some? <==> |item.sizes| > 0
    ensures e.size.Some? ==> e.size.value == item.sizes[0]
    ensures e.color.Some? <==> |item.colors| > 0
    ensures e.color.Some? ==> e.color.value == item.colors[0]
  {
    Cart.Entry(item.id, item.name, item.price, Some(item.image), First(item.sizes),
               First(item.colors), 1)
  }

  /** "item" for exactly one saved item, "items" otherwise (zero included). */
  function CountLabel(n: int): (r: string)
    ensures r == "item" <==> n == 1
    ensures r == "items" <==> n != 1
  {
    if n == 1 then "item" else "items"
  }

  /** Signed-out visitors see only the sign-in prompt. */
  function ViewFor(isAuthenticated: bool, items: seq<WishlistItem>): (v: View)
    ensures v == SignInPrompt <==> !isAuthenticated
    ensures v == EmptyWishlist <==> isAuthenticated && |items| == 0
  {
    if !isAuthenticated then SignInPrompt
    else if |items| == 0 then EmptyWishlist
    else ItemGrid
  }

  class WishlistPage {
    var wishlistItems: seq<WishlistItem>

    constructor (initial: seq<WishlistItem>)
      ensures wishlistItems == initial
    {
      wishlistItems := initial;
    }

    /** `removeFromWishlist`. */
    method RemoveFromWishlist(id: int)
      modifies this
      ensures wishlistItems == Without(old(wishlistItems), id)
    {
      wishlistItems := Without(wishlistItems, id);
    }

    /** The item's cart button: disabled for an item out of stock, otherwise
        `handleAddToCart`. */
    method PressAddToCart(cart: Cart.CartStore, item: WishlistItem, stamp: int)
      modifies cart
      ensures !item.inStock ==> cart.items == old(cart.items)
      ensures item.inStock ==> cart.items == Cart.Reduce(old(cart.items), Cart.Add(CartPayload(item), stamp))
    {
      if item.inStock {
        cart.AddToCart(CartPayload(item), stamp);
      }
    }
  }

  // ---------------------------------------------------------------- lemmas

  /** Removal drops exactly the items with that id and keeps the others in order; an
      id that is not saved changes nothing. */
  lemma WithoutSpec(items: seq<WishlistItem>, id: int)
    ensures forall it :: it in Without(items, id) <==> it in items && it.id != id
    ensures Seqs.Subsequence(Without(items, id), items)
    ensures (forall it :: it in items ==> it.id != id) ==> Without(items, id) == items
  {
    Seqs.FilterMembers(items, (it: WishlistItem) => it.id != id);
    Seqs.FilterSubsequence(items, (it: WishlistItem) => it.id != id);
    if forall it :: it in items ==> it.id != id {
      Seqs.FilterKeepsAll(items, (it: WishlistItem) => it.id != id);
    }
  }

  /** Removing the same id twice is the same as removing it once. */
  lemma WithoutTwice(items: seq<WishlistItem>, id: int)
    ensures Without(Without(items, id), id) == Without(items, id)
  {
    var p := (it: WishlistItem) => it.id != id;
    Seqs.FilterFuse(items, p, p, p);
  }
}
