/** The wishlist hearts of `components/featured-products.jsx`. The component keeps a
    JavaScript `Set` of product ids; a toggle copies the set, adds or deletes the id
    in the copy, and stores the copy as the new state. */
module Featured {

  /** The ids after one toggle of `id`. */
  function Toggled(s: set<int>, id: int): (r: set<int>)
    ensures id in r <==> id !in s
    ensures forall x :: x != id ==> (x in r <==> x in s)
  {
    if id in s then s - {id} else s + {id}
  }

  /** A mutable set of ids, as `new Set(...)` makes. */
  class IdSet {
    var elems: set<int>

    /** `new Set(from)`: a copy. */
    constructor (from: set<int>)
      ensures elems == from
    {
      elems := from;
    }

    predicate Has(x: int)
      reads this
    {
      x in elems
    }

    method Add(x: int)
      modifies this
      ensures elems == old(elems) + {x}
    {
      elems := elems + {x};
    }

    method Delete(x: int)
      modifies this
      ensures elems == old(elems) - {x}
    {
      elems := elems - {x};
    }
  }

  class FeaturedProducts {
    var wishlist: IdSet

    constructor ()
      ensures fresh(wishlist) && wishlist.elems == {}
    {
      wishlist := new IdSet({});
    }

    /** `toggleWishlist`: the state becomes a new set; the old one is left as it was. */
    method ToggleWishlist(id: int)
      modifies this
      ensures fresh(wishlist)
      ensures wishlist.elems == Toggled(old(wishlist.elems), id)
    {
      var copy := new IdSet(wishlist.elems);
      if copy.Has(id) {
        copy.Delete(id);
      } else {
        copy.Add(id);
      }
      wishlist := copy;
    }
  }

  /** Toggling the same id twice gives the original set back. */
  lemma ToggleTwice(s: set<int>, id: int)
    ensures Toggled(Toggled(s, id), id) == s
  {
  }

  /** Toggles of different ids commute. */
  lemma TogglesCommute(s: set<int>, a: int, b: int)
    ensures Toggled(Toggled(s, a), b) == Toggled(Toggled(s, b), a)
  {
  }

  /** Hearting two products from the empty wishlist saves both. */
  lemma ToggleExample()
    ensures Toggled(Toggled({}, 1), 2) == {1, 2}
    ensures Toggled(Toggled({1, 2}, 1), 3) == {2, 3}
  {
  }
}
