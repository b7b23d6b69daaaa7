/** The shopping-cart store of `contexts/cart-context.jsx`: a reducer over an
    ordered list of line items, the provider's operations that dispatch to it,
    and the two derived totals. `Date.now()`, which stamps a new line, is a
    parameter (`stamp`) of the operations that can append. */
module Cart {
  import opened Wrappers
  import Seqs

  /** What `addItem` reads from a product. */
  datatype Product = Product(id: int, name: string, price: real, image: Option<string>)

  /** The payload of an ADD_ITEM action: a line before it has a cart id.
      `size`, `color` and `image` may be `undefined`, written `None`. */
  datatype Entry = Entry(id: int, name: string, price: real, image: Option<string>,
                         size: Option<string>, color: Option<string>, quantity: int)

  /** A cart line: the entry as added plus the `cartId` stamped on it. */
  datatype LineItem = LineItem(id: int, name: string, price: real, image: Option<string>,
                               size: Option<string>, color: Option<string>, quantity: int,
                               cartId: int)

  /** The reducer's actions; `Unrecognised` stands for any other `type`. */
  datatype Action =
    | Add(entry: Entry, stamp: int)
    | Remove(cartId: int)
    | SetQuantity(cartId: int, quantity: int)
    | Clear
    | Load(saved: Option<seq<LineItem>>)
    | Unrecognised(kind: string)

  // ---------------------------------------------------------------- reducer

  /** The identity key: same product, size and colour. */
  predicate SameKey(item: LineItem, e: Entry) {
    item.id == e.id && item.size == e.size && item.color == e.color
  }

  /** `state.items.find(...)` succeeds. */
  predicate HasKey(items: seq<LineItem>, e: Entry) {
    exists i :: 0 <= i < |items| && SameKey(items[i], e)
  }

  /** `{ ...payload, cartId: stamp }`. */
  function Stamp(e: Entry, stamp: int): LineItem {
    LineItem(e.id, e.name, e.price, e.image, e.size, e.color, e.quantity, stamp)
  }

  /** The `map` of the merge branch: every line with the entry's key gains its quantity. */
  function Merge(items: seq<LineItem>, e: Entry): seq<LineItem> {
    seq(|items|, i requires 0 <= i < |items| =>
      if SameKey(items[i], e) then items[i].(quantity := items[i].quantity + e.quantity) else items[i])
  }

  /** ADD_ITEM: merge into the lines with the same key, otherwise append a stamped line. */
  function AddLine(items: seq<LineItem>, e: Entry, stamp: int): seq<LineItem> {
    if HasKey(items, e) then Merge(items, e) else items + [Stamp(e, stamp)]
  }

  /** REMOVE_ITEM. */
  function RemoveLine(items: seq<LineItem>, cartId: int): seq<LineItem> {
    Seqs.Filter(items, (it: LineItem) => it.cartId != cartId)
  }

  function Max0(q: int): int {
    if q > 0 then q else 0
  }

  /** The `map` of UPDATE_QUANTITY: the lines with `cartId` get `Math.max(0, q)`. */
  function Requantify(items: seq<LineItem>, cartId: int, q: int): seq<LineItem> {
    seq(|items|, i requires 0 <= i < |items| =>
      if items[i].cartId == cartId then items[i].(quantity := Max0(q)) else items[i])
  }

  /** UPDATE_QUANTITY: set, then keep only the lines whose quantity is above zero. */
  function UpdateLine(items: seq<LineItem>, cartId: int, q: int): seq<LineItem> {
    Seqs.Filter(Requantify(items, cartId, q), (it: LineItem) => it.quantity > 0)
  }

  /** `cartReducer` on the `items` field (the only field of the state). */
  function Reduce(items: seq<LineItem>, action: Action): seq<LineItem> {
    match action
    case Add(e, stamp) => AddLine(items, e, stamp)
    case Remove(cartId) => RemoveLine(items, cartId)
    case SetQuantity(cartId, q) => UpdateLine(items, cartId, q)
    case Clear => []
    case Load(saved) => saved.GetOr([])
    case Unrecognised(_) => items
  }

  // ---------------------------------------------------------------- derived totals

  /** One line's contribution, `item.price * item.quantity`. */
  function LineTotal(item: LineItem): real {
    item.price * item.quantity as real
  }

  /** `getCartTotal`: the sum of `price * quantity` over the lines. The source folds
      from the left; over exact reals the order of the additions does not matter. */
  function Total(items: seq<LineItem>): real {
    if items == [] then 0.0 else LineTotal(items[0]) + Total(items[1..])
  }

  /** `getCartCount`: the sum of the quantities. */
  function Count(items: seq<LineItem>): int {
    if items == [] then 0 else items[0].quantity + Count(items[1..])
  }

  /** The quantity held under the key of `e`, summed over the lines carrying it. */
  function KeyQuantity(items: seq<LineItem>, e: Entry): int {
    if items == [] then 0
    else (if SameKey(items[0], e) then items[0].quantity else 0) + KeyQuantity(items[1..], e)
  }

  /** A sequence of dispatches, applied in order. */
  function ReduceAll(items: seq<LineItem>, actions: seq<Action>): seq<LineItem>
    decreases |actions|
  {
    if actions == [] then items else ReduceAll(Reduce(items, actions[0]), actions[1..])
  }

  /** Every action adds an entry with the same identity key as `e`. */
  predicate AllAddsOf(actions: seq<Action>, e: Entry) {
    forall i :: 0 <= i < |actions| ==>
      actions[i].Add? && actions[i].entry.id == e.id &&
      actions[i].entry.size == e.size && actions[i].entry.color == e.color
  }

  /** The payload quantities of a run of ADD_ITEM actions, summed. */
  function AddedQuantity(actions: seq<Action>): int {
    if actions == [] then 0
    else (if actions[0].Add? then actions[0].entry.quantity else 0) + AddedQuantity(actions[1..])
  }

  // ---------------------------------------------------------------- invariant

  /** The cart invariant the operations keep when used as the pages use them:
      cart ids are unique, no two lines share an identity key, and every line
      has a positive quantity. */
  ghost predicate WellFormed(items: seq<LineItem>) {
    && (forall i, j :: 0 <= i < j < |items| ==> items[i].cartId != items[j].cartId)
    && KeysDistinct(items)
    && (forall i :: 0 <= i < |items| ==> items[i].quantity > 0)
  }

  /** No two lines share an identity key. */
  ghost predicate KeysDistinct(items: seq<LineItem>) {
    forall i, j :: 0 <= i < j < |items| ==>
      !(items[i].id == items[j].id && items[i].size == items[j].size && items[i].color == items[j].color)
  }

  /** `stamp` is not the cart id of any line (the source relies on the clock for this). */
  predicate FreshStamp(items: seq<LineItem>, stamp: int) {
    forall i :: 0 <= i < |items| ==> items[i].cartId != stamp
  }

  // ---------------------------------------------------------------- provider

  /** `addItem(product, quantity = 1, size, color)`: the ADD_ITEM payload. */
  function EntryFor(product: Product, quantity: Option<int>, size: Option<string>,
                    color: Option<string>): Entry {
    Entry(product.id, product.name, product.price, product.image, size, color, quantity.GetOr(1))
  }

  /** `CartProvider`'s state: the `items` list that the operations replace. */
  class CartStore {
    var items: seq<LineItem>

    /** `useReducer(cartReducer, { items: [] })`. */
    constructor ()
      ensures items == []
    {
      items := [];
    }

    /** `addItem`: snapshot the product with the chosen size and colour and add it. */
    method AddItem(product: Product, quantity: Option<int>, size: Option<string>,
                   color: Option<string>, stamp: int)
      modifies this
      ensures items == Reduce(old(items), Add(EntryFor(product, quantity, size, color), stamp))
      ensures old(WellFormed(items)) && quantity.GetOr(1) > 0 && FreshStamp(old(items), stamp) ==>
                WellFormed(items)
    {
      var e := EntryFor(product, quantity, size, color);
      AddPreservesWellFormed(items, e, stamp);
      items := Reduce(items, Add(e, stamp));
    }

    /** `addToCart(item)`: add a payload built by the caller. */
    method AddToCart(e: Entry, stamp: int)
      modifies this
      ensures items == Reduce(old(items), Add(e, stamp))
      ensures old(WellFormed(items)) && e.quantity > 0 && FreshStamp(old(items), stamp) ==>
                WellFormed(items)
    {
      AddPreservesWellFormed(items, e, stamp);
      items := Reduce(items, Add(e, stamp));
    }

    /** `removeItem(cartId)`. */
    method RemoveItem(cartId: int)
      modifies this
      ensures items == Reduce(old(items), Remove(cartId))
      ensures old(WellFormed(items)) ==> WellFormed(items)
    {
      RemovePreservesWellFormed(items, cartId);
      items := Reduce(items, Remove(cartId));
    }

    /** `updateQuantity(cartId, quantity)`. */
    method UpdateQuantity(cartId: int, quantity: int)
      modifies this
      ensures items == Reduce(old(items), SetQuantity(cartId, quantity))
      ensures old(WellFormed(items)) ==> WellFormed(items)
    {
      UpdatePreservesWellFormed(items, cartId, quantity);
      items := Reduce(items, SetQuantity(cartId, quantity));
    }

    /** `clearCart()`. */
    method ClearCart()
      modifies this
      ensures items == Reduce(old(items), Clear) && items == []
    {
      items := Reduce(items, Clear);
    }

    /** The mount effect: a snapshot that was present and parsed is loaded. */
    method LoadCart(saved: Option<seq<LineItem>>)
      modifies this
      ensures items == Reduce(old(items), Load(saved))
    {
      items := Reduce(items, Load(saved));
    }

    /** `getCartTotal()`. */
    function GetCartTotal(): real
      reads this
    {
      Total(items)
    }

    /** `getCartCount()`. */
    function GetCartCount(): int
      reads this
    {
      Count(items)
    }
  }

  // ---------------------------------------------------------------- lemmas: ADD_ITEM

  /** A matching add keeps the length, adds the payload quantity to every line with the
      key (keeping that line's own snapshot and cart id) and leaves the other lines alone. */
  lemma AddMatching(items: seq<LineItem>, e: Entry, stamp: int)
    requires HasKey(items, e)
    ensures |AddLine(items, e, stamp)| == |items|
    ensures forall i :: 0 <= i < |items| && SameKey(items[i], e) ==>
              AddLine(items, e, stamp)[i] == items[i].(quantity := items[i].quantity + e.quantity)
    ensures forall i :: 0 <= i < |items| && !SameKey(items[i], e) ==>
              AddLine(items, e, stamp)[i] == items[i]
  {
  }

  /** A non-matching add appends exactly one line, the payload stamped with `stamp`,
      and leaves every earlier line as it was. */
  lemma AddFresh(items: seq<LineItem>, e: Entry, stamp: int)
    requires !HasKey(items, e)
    ensures |AddLine(items, e, stamp)| == |items| + 1
    ensures AddLine(items, e, stamp)[..|items|] == items
    ensures AddLine(items, e, stamp)[|items|] == Stamp(e, stamp)
  {
    var r := AddLine(items, e, stamp);
    assert r == items + [Stamp(e, stamp)];
  }

  /** ADD_ITEM keeps the cart invariant when the quantity is positive and the stamp fresh. */
  lemma AddPreservesWellFormed(items: seq<LineItem>, e: Entry, stamp: int)
    ensures WellFormed(items) && e.quantity > 0 && FreshStamp(items, stamp) ==>
              WellFormed(AddLine(items, e, stamp))
  {
    if WellFormed(items) && e.quantity > 0 && FreshStamp(items, stamp) && !HasKey(items, e) {
      var r := AddLine(items, e, stamp);
      assert r == items + [Stamp(e, stamp)];
      forall i, j | 0 <= i < j < |r|
        ensures r[i].cartId != r[j].cartId
        ensures !(r[i].id == r[j].id && r[i].size == r[j].size && r[i].color == r[j].color)
      {
        if j == |items| {
          assert !SameKey(items[i], e);
        }
      }
    }
  }

  /** Every add, whatever its stamp or quantity, keeps the identity keys distinct and
      leaves a line with the payload's key. */
  lemma AddKeepsKeysDistinct(items: seq<LineItem>, e: Entry, stamp: int)
    requires KeysDistinct(items)
    ensures KeysDistinct(AddLine(items, e, stamp))
    ensures HasKey(AddLine(items, e, stamp), e)
  {
    var r := AddLine(items, e, stamp);
    if HasKey(items, e) {
      var k :| 0 <= k < |items| && SameKey(items[k], e);
      assert SameKey(r[k], e);
    } else {
      assert r == items + [Stamp(e, stamp)];
      assert SameKey(r[|items|], e);
      forall i, j | 0 <= i < j < |r|
        ensures !(r[i].id == r[j].id && r[i].size == r[j].size && r[i].color == r[j].color)
      {
        if j == |items| {
          assert !SameKey(items[i], e);
        }
      }
    }
  }

  // ---------------------------------------------------------------- lemmas: totals

  lemma {:induction false} TotalAppend(a: seq<LineItem>, b: seq<LineItem>)
    ensures Total(a + b) == Total(a) + Total(b)
    ensures Count(a + b) == Count(a) + Count(b)
  {
    if a == [] {
      assert a + b == b;
    } else {
      assert (a + b)[1..] == a[1..] + b;
      TotalAppend(a[1..], b);
    }
  }

  /** Changing one line changes the totals by that line's difference. */
  lemma {:induction false} TotalReplace(items: seq<LineItem>, k: int, y: LineItem)
    requires 0 <= k < |items|
    ensures Total(items[k := y]) == Total(items) - LineTotal(items[k]) + LineTotal(y)
    ensures Count(items[k := y]) == Count(items) - items[k].quantity + y.quantity
  {
    var pre, post := items[..k], items[k + 1..];
    assert items == pre + [items[k]] + post;
    assert items[k := y] == pre + [y] + post;
    TotalAppend(pre + [items[k]], post);
    TotalAppend(pre + [y], post);
    TotalAppend(pre, [items[k]]);
    TotalAppend(pre, [y]);
    assert [items[k]][1..] == [] && [y][1..] == [];
  }

  /** When only the line at `k` has the key, an add rewrites that line alone. */
  lemma AddMergeShape(items: seq<LineItem>, e: Entry, stamp: int, k: int)
    requires 0 <= k < |items| && SameKey(items[k], e)
    requires forall i :: 0 <= i < |items| && i != k ==> !SameKey(items[i], e)
    ensures AddLine(items, e, stamp) == items[k := items[k].(quantity := items[k].quantity + e.quantity)]
  {
    assert HasKey(items, e);
  }

  /** Raising one line's quantity by `q` raises the count by `q` and the total by
      `q` units of that line's price. */
  lemma ReplaceGrows(items: seq<LineItem>, k: int, q: int)
    requires 0 <= k < |items|
    ensures var y := items[k].(quantity := items[k].quantity + q);
            Total(items[k := y]) == Total(items) + items[k].price * q as real &&
            Count(items[k := y]) == Count(items) + q
  {
    var y := items[k].(quantity := items[k].quantity + q);
    TotalReplace(items, k, y);
    assert (items[k].quantity + q) as real == items[k].quantity as real + q as real;
  }

  /** In a well-formed cart at most one line carries a given key. */
  lemma KeyUnique(items: seq<LineItem>, e: Entry, k: int)
    requires KeysDistinct(items)
    requires 0 <= k < |items| && SameKey(items[k], e)
    ensures forall i :: 0 <= i < |items| && i != k ==> !SameKey(items[i], e)
  {
    forall i | 0 <= i < |items| && i != k ensures !SameKey(items[i], e) {
      if i < k {
        assert !(items[i].id == items[k].id && items[i].size == items[k].size && items[i].color == items[k].color);
      } else {
        assert !(items[k].id == items[i].id && items[k].size == items[i].size && items[k].color == items[i].color);
      }
    }
  }

  /** An add that merges into the line at `k` is that line's quantity raised. */
  lemma AddMergeRaises(items: seq<LineItem>, e: Entry, stamp: int, k: int)
    requires 0 <= k < |items| && SameKey(items[k], e)
    requires forall i :: 0 <= i < |items| && i != k ==> !SameKey(items[i], e)
    ensures var y := items[k].(quantity := items[k].quantity + e.quantity);
            Total(items[k := y]) == Total(items) + items[k].price * e.quantity as real &&
            Count(items[k := y]) == Count(items) + e.quantity &&
            AddLine(items, e, stamp) == items[k := y]
  {
    AddMergeShape(items, e, stamp, k);
    ReplaceGrows(items, k, e.quantity);
  }

  /** The merge case of `AddTotals`: the line at `k` is the only one with the key. */
  lemma AddTotalsMerge(items: seq<LineItem>, e: Entry, stamp: int, k: int)
    requires 0 <= k < |items| && SameKey(items[k], e)
    requires forall i :: 0 <= i < |items| && i != k ==> !SameKey(items[i], e)
    ensures Count(AddLine(items, e, stamp)) == Count(items) + e.quantity
    ensures Total(AddLine(items, e, stamp)) == Total(items) + items[k].price * e.quantity as real
  {
    AddMergeRaises(items, e, stamp, k);
  }

  /** The append case of `AddTotals`. */
  lemma AddTotalsFresh(items: seq<LineItem>, e: Entry, stamp: int)
    requires !HasKey(items, e)
    ensures Count(AddLine(items, e, stamp)) == Count(items) + e.quantity
    ensures Total(AddLine(items, e, stamp)) == Total(items) + e.price * e.quantity as real
  {
    var r := AddLine(items, e, stamp);
    assert r == items + [Stamp(e, stamp)];
    TotalAppend(items, [Stamp(e, stamp)]);
    assert [Stamp(e, stamp)][1..] == [];
    assert Count(r) == Count(items) + e.quantity;
    assert Total(r) == Total(items) + e.price * e.quantity as real;
  }

  /** In a cart with distinct keys, adding `e` raises the count by the payload quantity and
      the total by that quantity times the unit price of the line it lands on: the
      existing line's own snapshot price when merging, the payload's price otherwise. */
  lemma AddTotals(items: seq<LineItem>, e: Entry, stamp: int)
    requires KeysDistinct(items)
    ensures Count(AddLine(items, e, stamp)) == Count(items) + e.quantity
    ensures !HasKey(items, e) ==>
              Total(AddLine(items, e, stamp)) == Total(items) + e.price * e.quantity as real
    ensures forall k :: 0 <= k < |items| && SameKey(items[k], e) ==>
              Total(AddLine(items, e, stamp)) == Total(items) + items[k].price * e.quantity as real
  {
    if HasKey(items, e) {
      forall k | 0 <= k < |items| && SameKey(items[k], e)
        ensures Count(AddLine(items, e, stamp)) == Count(items) + e.quantity
        ensures Total(AddLine(items, e, stamp)) == Total(items) + items[k].price * e.quantity as real
      {
        KeyUnique(items, e, k);
        AddTotalsMerge(items, e, stamp, k);
      }
    } else {
      AddTotalsFresh(items, e, stamp);
    }
  }

  lemma {:induction false} KeyQuantityAppend(a: seq<LineItem>, b: seq<LineItem>, e: Entry)
    ensures KeyQuantity(a + b, e) == KeyQuantity(a, e) + KeyQuantity(b, e)
  {
    if a == [] {
      assert a + b == b;
    } else {
      assert (a + b)[1..] == a[1..] + b;
      KeyQuantityAppend(a[1..], b, e);
    }
  }

  /** Raising the quantity of a line carrying the key raises the key's quantity alike. */
  lemma KeyQuantityReplace(items: seq<LineItem>, k: int, q: int, e: Entry)
    requires 0 <= k < |items| && SameKey(items[k], e)
    ensures KeyQuantity(items[k := items[k].(quantity := items[k].quantity + q)], e) ==
            KeyQuantity(items, e) + q
  {
    var y := items[k].(quantity := items[k].quantity + q);
    var pre, post := items[..k], items[k + 1..];
    assert items == pre + [items[k]] + post;
    assert items[k := y] == pre + [y] + post;
    KeyQuantityAppend(pre + [items[k]], post, e);
    KeyQuantityAppend(pre + [y], post, e);
    KeyQuantityAppend(pre, [items[k]], e);
    KeyQuantityAppend(pre, [y], e);
    assert [items[k]][1..] == [] && [y][1..] == [];
  }

  lemma {:induction false} KeyQuantityNone(items: seq<LineItem>, e: Entry)
    requires forall i :: 0 <= i < |items| ==> !SameKey(items[i], e)
    ensures KeyQuantity(items, e) == 0
  {
    if items != [] {
      assert forall i :: 0 <= i < |items[1..]| ==> items[1..][i] == items[i + 1];
      KeyQuantityNone(items[1..], e);
    }
  }

  /** With distinct keys, the quantity under a key is the quantity of its one line. */
  lemma KeyQuantityOfLine(items: seq<LineItem>, e: Entry, k: int)
    requires KeysDistinct(items)
    requires 0 <= k < |items| && SameKey(items[k], e)
    ensures KeyQuantity(items, e) == items[k].quantity
  {
    KeyUnique(items, e, k);
    var pre, post := items[..k], items[k + 1..];
    assert items == pre + [items[k]] + post;
    KeyQuantityAppend(pre + [items[k]], post, e);
    KeyQuantityAppend(pre, [items[k]], e);
    assert [items[k]][1..] == [];
    assert forall i :: 0 <= i < |pre| ==> pre[i] == items[i];
    assert forall i :: 0 <= i < |post| ==> post[i] == items[k + 1 + i];
    KeyQuantityNone(pre, e);
    KeyQuantityNone(post, e);
  }

  /** One add of an entry with the key of `e` raises the quantity under that key by
      the entry's quantity, when no two lines share a key. */
  lemma AddKeyQuantity(items: seq<LineItem>, e': Entry, stamp: int, e: Entry)
    requires KeysDistinct(items)
    requires e'.id == e.id && e'.size == e.size && e'.color == e.color
    ensures KeyQuantity(AddLine(items, e', stamp), e) == KeyQuantity(items, e) + e'.quantity
  {
    var r := AddLine(items, e', stamp);
    if HasKey(items, e') {
      var k :| 0 <= k < |items| && SameKey(items[k], e');
      KeyUnique(items, e', k);
      AddMergeShape(items, e', stamp, k);
      KeyQuantityReplace(items, k, e'.quantity, e);
    } else {
      assert r == items + [Stamp(e', stamp)];
      KeyQuantityAppend(items, [Stamp(e', stamp)], e);
      assert [Stamp(e', stamp)][1..] == [];
    }
  }

  /** Repeated adds of the same product, size and colour, starting from a cart whose
      keys are distinct, end with exactly one line for that key whose quantity is what
      it held before plus the sum of the added quantities; the keys stay distinct. */
  lemma {:induction false} RepeatedAdds(items: seq<LineItem>, actions: seq<Action>, e: Entry)
    requires KeysDistinct(items)
    requires AllAddsOf(actions, e)
    ensures KeysDistinct(ReduceAll(items, actions))
    ensures KeyQuantity(ReduceAll(items, actions), e) == KeyQuantity(items, e) + AddedQuantity(actions)
    ensures actions != [] ==> HasKey(ReduceAll(items, actions), e)
    decreases |actions|
  {
    if actions != [] {
      var a := actions[0];
      var next := AddLine(items, a.entry, a.stamp);
      AddKeepsKeysDistinct(items, a.entry, a.stamp);
      AddKeyQuantity(items, a.entry, a.stamp, e);
      assert AllAddsOf(actions[1..], e) by {
        forall i | 0 <= i < |actions[1..]| ensures actions[1..][i] == actions[i + 1] {}
      }
      RepeatedAdds(next, actions[1..], e);
      if actions[1..] == [] {
        var k :| 0 <= k < |next| && SameKey(next[k], a.entry);
        assert SameKey(next[k], e);
      }
    }
  }

  /** Both totals of an empty cart are zero; for a cart of positive lines the count is
      at least the number of lines. */
  lemma {:induction false} CountBounds(items: seq<LineItem>)
    requires forall i :: 0 <= i < |items| ==> items[i].quantity > 0
    ensures Count(items) >= |items|
    ensures Count(items) == 0 <==> items == []
    decreases |items|
  {
    if items != [] {
      CountBounds(items[1..]);
    }
  }

  // ---------------------------------------------------------------- lemmas: REMOVE_ITEM

  /** `removeItem` drops every line with that cart id, keeps the rest in their order,
      and is a no-op for an unknown id. */
  lemma RemoveSpec(items: seq<LineItem>, cartId: int)
    ensures forall it :: it in RemoveLine(items, cartId) <==> it in items && it.cartId != cartId
    ensures Seqs.Subsequence(RemoveLine(items, cartId), items)
    ensures (forall i :: 0 <= i < |items| ==> items[i].cartId != cartId) ==>
              RemoveLine(items, cartId) == items
  {
    Seqs.FilterSubsequence(items, (it: LineItem) => it.cartId != cartId);
    Seqs.FilterMembers(items, (it: LineItem) => it.cartId != cartId);
    if forall i :: 0 <= i < |items| ==> items[i].cartId != cartId {
      Seqs.FilterKeepsAll(items, (it: LineItem) => it.cartId != cartId);
    }
  }

  lemma {:induction false} FilterDistinctIds(items: seq<LineItem>, p: LineItem -> bool)
    requires WellFormed(items)
    ensures WellFormed(Seqs.Filter(items, p))
    decreases |items|
  {
    if items != [] {
      var rest := Seqs.Filter(items[1..], p);
      FilterDistinctIds(items[1..], p);
      Seqs.FilterMembers(items[1..], p);
      Seqs.FilterMembers(items, p);
      var r := Seqs.Filter(items, p);
      if p(items[0]) {
        assert r == [items[0]] + rest;
        forall j | 0 < j < |r|
          ensures r[0].cartId != r[j].cartId
          ensures !(r[0].id == r[j].id && r[0].size == r[j].size && r[0].color == r[j].color)
        {
          assert r[j] in rest;
          assert r[j] in items[1..];
          var m :| 0 <= m < |items[1..]| && items[1..][m] == r[j];
          assert items[m + 1] == r[j];
        }
        forall i, j | 0 <= i < j < |r|
          ensures r[i].cartId != r[j].cartId
          ensures !(r[i].id == r[j].id && r[i].size == r[j].size && r[i].color == r[j].color)
        {
          if i > 0 {
            assert r[i] == rest[i - 1] && r[j] == rest[j - 1];
          }
        }
        forall i | 0 <= i < |r| ensures r[i].quantity > 0 {
          assert r[i] in items;
        }
      } else {
        assert r == rest;
      }
    }
  }

  lemma RemovePreservesWellFormed(items: seq<LineItem>, cartId: int)
    ensures WellFormed(items) ==> WellFormed(RemoveLine(items, cartId))
  {
    if WellFormed(items) {
      FilterDistinctIds(items, (it: LineItem) => it.cartId != cartId);
    }
  }

  // ---------------------------------------------------------------- lemmas: UPDATE_QUANTITY

  /** After `updateQuantity(cartId, q)` no line has a quantity of zero or less; the lines
      with `cartId` survive holding exactly `q` when `q` is positive and are gone
      otherwise (so in a cart of positive lines the update only changes quantities); a line
      with another cart id stays exactly when its quantity was positive, so a stale
      non-positive line elsewhere in the cart is dropped as well. */
  lemma UpdateSpec(items: seq<LineItem>, cartId: int, q: int)
    ensures forall it :: it in UpdateLine(items, cartId, q) ==> it.quantity > 0
    ensures forall it :: it in UpdateLine(items, cartId, q) && it.cartId == cartId ==> it.quantity == q
    ensures q <= 0 ==> forall it :: it in UpdateLine(items, cartId, q) ==> it.cartId != cartId
    ensures forall it :: it in items && it.cartId != cartId ==>
              (it in UpdateLine(items, cartId, q) <==> it.quantity > 0)
    ensures q > 0 ==> forall it :: it in items && it.cartId == cartId ==>
              it.(quantity := q) in UpdateLine(items, cartId, q)
    ensures Seqs.Subsequence(UpdateLine(items, cartId, q), Requantify(items, cartId, q))
    ensures q > 0 && (forall it :: it in items ==> it.quantity > 0) ==>
              UpdateLine(items, cartId, q) == Requantify(items, cartId, q)
  {
    var m := Requantify(items, cartId, q);
    Seqs.FilterSubsequence(m, (it: LineItem) => it.quantity > 0);
    Seqs.FilterMembers(m, (it: LineItem) => it.quantity > 0);
    if q > 0 {
      forall it | it in items && it.cartId == cartId
        ensures it.(quantity := q) in m
      {
        var i :| 0 <= i < |items| && items[i] == it;
        assert m[i] == it.(quantity := q);
      }
      if forall it :: it in items ==> it.quantity > 0 {
        forall it | it in m
          ensures it.quantity > 0
        {
          var i :| 0 <= i < |m| && m[i] == it;
          assert items[i] in items;
        }
        Seqs.FilterKeepsAll(m, (it: LineItem) => it.quantity > 0);
      }
    }
    forall it | it in items && it.cartId != cartId
      ensures it in m
    {
      var i :| 0 <= i < |items| && items[i] == it;
      assert m[i] == it;
    }
    forall it | it in m && it.cartId != cartId
      ensures it in items
    {
      var i :| 0 <= i < |m| && m[i] == it;
    }
  }

  lemma UpdatePreservesWellFormed(items: seq<LineItem>, cartId: int, q: int)
    ensures WellFormed(items) ==> WellFormed(UpdateLine(items, cartId, q))
  {
    if WellFormed(items) {
      var m := Requantify(items, cartId, q);
      assert forall i, j :: 0 <= i < j < |m| ==> m[i].cartId != m[j].cartId;
      assert forall i, j :: 0 <= i < j < |m| ==>
        !(m[i].id == m[j].id && m[i].size == m[j].size && m[i].color == m[j].color);
      FilterPositive(m);
    }
  }

  lemma {:induction false} FilterPositive(m: seq<LineItem>)
    requires forall i, j :: 0 <= i < j < |m| ==> m[i].cartId != m[j].cartId
    requires forall i, j :: 0 <= i < j < |m| ==>
               !(m[i].id == m[j].id && m[i].size == m[j].size && m[i].color == m[j].color)
    ensures WellFormed(Seqs.Filter(m, (it: LineItem) => it.quantity > 0))
    decreases |m|
  {
    var p := (it: LineItem) => it.quantity > 0;
    if m != [] {
      FilterPositive(m[1..]);
      Seqs.FilterMembers(m[1..], p);
      Seqs.FilterMembers(m, p);
      var rest := Seqs.Filter(m[1..], p);
      var r := Seqs.Filter(m, p);
      if p(m[0]) {
        assert r == [m[0]] + rest;
        forall j | 0 < j < |r|
          ensures r[0].cartId != r[j].cartId
          ensures !(r[0].id == r[j].id && r[0].size == r[j].size && r[0].color == r[j].color)
        {
          assert r[j] in rest;
          assert r[j] in m[1..];
          var k :| 0 <= k < |m[1..]| && m[1..][k] == r[j];
          assert m[k + 1] == r[j];
        }
        forall i, j | 0 <= i < j < |r|
          ensures r[i].cartId != r[j].cartId
          ensures !(r[i].id == r[j].id && r[i].size == r[j].size && r[i].color == r[j].color)
        {
          if i > 0 {
            assert r[i] == rest[i - 1] && r[j] == rest[j - 1];
          }
        }
        forall i | 0 <= i < |r| ensures r[i].quantity > 0 {
          assert r[i] in r;
        }
      } else {
        assert r == rest;
      }
    }
  }

  // ---------------------------------------------------------------- lemmas: CLEAR and LOAD

  /** CLEAR_CART empties the cart, so both totals are zero; LOAD_CART installs the
      snapshot, or an empty cart when there is none. */
  lemma ClearAndLoad(items: seq<LineItem>, saved: Option<seq<LineItem>>)
    ensures Reduce(items, Clear) == [] && Total(Reduce(items, Clear)) == 0.0
    ensures Count(Reduce(items, Clear)) == 0
    ensures saved.Some? ==> Reduce(items, Load(saved)) == saved.value
    ensures saved.None? ==> Reduce(items, Load(saved)) == []
    ensures Reduce(items, Unrecognised("")) == items
  {
  }

  /** The worked example: the same tee added once and then twice more makes one line of
      quantity 3 and a subtotal of 60. */
  lemma TeeExample(stamp1: int, stamp2: int)
    ensures var e1 := Entry(1, "Tee", 20.0, None, Some("M"), Some("Black"), 1);
            var e2 := e1.(quantity := 2);
            var cart := AddLine(AddLine([], e1, stamp1), e2, stamp2);
            |cart| == 1 && cart[0].quantity == 3 && Total(cart) == 60.0 && Count(cart) == 3
  {
    var e1 := Entry(1, "Tee", 20.0, None, Some("M"), Some("Black"), 1);
    var e2 := e1.(quantity := 2);
    var c1 := AddLine([], e1, stamp1);
    assert c1 == [Stamp(e1, stamp1)];
    assert SameKey(c1[0], e2);
    var c2 := AddLine(c1, e2, stamp2);
    assert c2 == [c1[0].(quantity := 3)];
    assert c2[1..] == [];
  }
}
