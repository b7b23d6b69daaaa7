/** The order table of `components/admin-order-management.jsx`: the listing filter,
    the per-row status change over the `orders` state, the status picker and the
    status badge colour. */
module AdminOrders {
  import opened Wrappers
  import Text
  import Seqs

  datatype OrderItem = OrderItem(name: string, quantity: int, price: real)
  datatype Shipping = Shipping(address: string, shippingMethod: string)

  datatype Order = Order(id: string, customer: string, email: string, amount: real,
                         status: string, date: string, items: seq<OrderItem>,
                         shipping: Shipping)

  /** The status filter's choices; "all" switches the filter off. */
  const Statuses: seq<string> := ["all", "pending", "processing", "shipped", "completed", "cancelled"]
  const AllStatuses := "all"
  const Gray := "bg-gray-100 text-gray-800"

  /** Id, customer or email contains the term ignoring ASCII case, and the status
      filter is "all" or the order's own status. */
  predicate Listed(o: Order, term: string, status: string) {
    (Text.ContainsIgnoreCase(o.id, term) || Text.ContainsIgnoreCase(o.customer, term) ||
     Text.ContainsIgnoreCase(o.email, term))
    && (status == AllStatuses || o.status == status)
  }

  /** `filteredOrders`. */
  function Listing(orders: seq<Order>, term: string, status: string): seq<Order> {
    Seqs.Filter(orders, (o: Order) => Listed(o, term, status))
  }

  /** `orders.map(o => o.id === id ? { ...o, status } : o)`: every order with the id
      gets the new status and nothing else about any order changes. */
  function WithStatus(orders: seq<Order>, id: string, status: string): (r: seq<Order>)
    ensures |r| == |orders|
    ensures forall i :: 0 <= i < |r| ==> r[i].(status := orders[i].status) == orders[i]
    ensures forall i :: 0 <= i < |r| ==>
              r[i].status == (if orders[i].id == id then status else orders[i].status)
  {
    seq(|orders|, i requires 0 <= i < |orders| =>
      if orders[i].id == id then orders[i].(status := status) else orders[i])
  }

  /** The per-row picker: `statuses.filter(s => s !== "all")`. */
  function PickerOptions(): seq<string> {
    Seqs.Filter(Statuses, (s: string) => s != AllStatuses)
  }

  /** `getStatusColor`: five known statuses have their own badge, every other status
      is gray. */
  function StatusColor(status: string): (r: string)
    ensures status == "completed" ==> r == "bg-green-100 text-green-800"
    ensures status == "processing" ==> r == "bg-blue-100 text-blue-800"
    ensures status == "shipped" ==> r == "bg-purple-100 text-purple-800"
    ensures status == "pending" ==> r == "bg-yellow-100 text-yellow-800"
    ensures status == "cancelled" ==> r == "bg-red-100 text-red-800"
    ensures r == Gray <==> status !in {"completed", "processing", "shipped", "pending", "cancelled"}
  {
    match status
    case "completed" => "bg-green-100 text-green-800"
    case "processing" => "bg-blue-100 text-blue-800"
    case "shipped" => "bg-purple-100 text-purple-800"
    case "pending" => "bg-yellow-100 text-yellow-800"
    case "cancelled" => "bg-red-100 text-red-800"
    case _ => Gray
  }

  class OrderManager {
    var orders: seq<Order>
    var searchTerm: string
    var selectedStatus: string
    var selectedOrder: Option<Order>

    constructor (initial: seq<Order>)
      ensures orders == initial && searchTerm == "" && selectedStatus == AllStatuses
      ensures selectedOrder == None
    {
      orders := initial;
      searchTerm := "";
      selectedStatus := AllStatuses;
      selectedOrder := None;
    }

    function FilteredOrders(): seq<Order>
      reads this
    {
      Listing(orders, searchTerm, selectedStatus)
    }

    /** `updateOrderStatus`. */
    method UpdateOrderStatus(id: string, status: string)
      modifies this
      ensures orders == WithStatus(old(orders), id, status)
      ensures searchTerm == old(searchTerm) && selectedStatus == old(selectedStatus)
      ensures selectedOrder == old(selectedOrder)
    {
      orders := WithStatus(orders, id, status);
    }
  }

  // ---------------------------------------------------------------- lemmas

  /** An order is listed iff its id, customer or email contains the term ignoring
      case and the filter is "all" or its status; the listing keeps the table order. */
  lemma ListingSpec(orders: seq<Order>, term: string, status: string)
    ensures forall o :: o in Listing(orders, term, status) <==>
      o in orders &&
      (Text.Contains(Text.Lower(o.id), Text.Lower(term)) ||
       Text.Contains(Text.Lower(o.customer), Text.Lower(term)) ||
       Text.Contains(Text.Lower(o.email), Text.Lower(term))) &&
      (status == "all" || o.status == status)
    ensures Seqs.Subsequence(Listing(orders, term, status), orders)
  {
    Seqs.FilterMembers(orders, (o: Order) => Listed(o, term, status));
    Seqs.FilterSubsequence(orders, (o: Order) => Listed(o, term, status));
  }

  /** The picker offers every status except "all", in the filter's order. */
  lemma PickerOptionsSpec()
    ensures PickerOptions() == ["pending", "processing", "shipped", "completed", "cancelled"]
    ensures forall s :: s in PickerOptions() <==> s in Statuses && s != "all"
  {
    Seqs.FilterMembers(Statuses, (s: string) => s != AllStatuses);
    var p := (s: string) => s != AllStatuses;
    assert Statuses[1..][1..][1..][1..][1..][1..] == [];
    assert Seqs.Filter(Statuses[1..], p) == Statuses[1..] by {
      Seqs.FilterKeepsAll(Statuses[1..], p);
    }
  }

  /** A status change with an id no order has leaves the table as it is. */
  lemma UnknownIdNoChange(orders: seq<Order>, id: string, status: string)
    requires forall o :: o in orders ==> o.id != id
    ensures WithStatus(orders, id, status) == orders
  {
    var r := WithStatus(orders, id, status);
    forall i | 0 <= i < |r| ensures r[i] == orders[i] {
      assert orders[i] in orders;
    }
  }

  /** After a status change, an order of that id matching the search term is listed
      under the new status's filter. */
  lemma ChangedOrderListed(orders: seq<Order>, id: string, status: string, term: string, i: int)
    requires 0 <= i < |orders| && orders[i].id == id
    requires Listed(orders[i], term, AllStatuses)
    ensures WithStatus(orders, id, status)[i] in Listing(WithStatus(orders, id, status), term, status)
  {
    var r := WithStatus(orders, id, status);
    assert r[i] == orders[i].(status := status);
    Seqs.FilterMembers(r, (o: Order) => Listed(o, term, status));
  }
}
