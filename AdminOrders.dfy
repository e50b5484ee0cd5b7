/** The order table of src/pages/Admin/AdminOrders.tsx: the search and
    status filter, the units column, the status choices, and the status
    change handler. */
module AdminOrders {
  import opened Types
  import Seqs
  import Text
  import CartContext
  import AdminData
  import AdminContext

  /** The lower-cased term is a substring of the lower-cased id, customer
      name or customer e-mail. */
  predicate OrderMatchesSearch(o: Order, term: string) {
    var t := Text.Lower(term);
    Text.Includes(Text.Lower(o.id), t) || Text.Includes(Text.Lower(o.userName), t)
      || Text.Includes(Text.Lower(o.userEmail), t)
  }

  /** The status select holds '' ("All Status", here `None`) or a status. */
  predicate MatchesStatus(o: Order, statusFilter: Option<OrderStatus>) {
    statusFilter.None? || o.status == statusFilter.value
  }

  predicate OrderMatches(term: string, statusFilter: Option<OrderStatus>, o: Order) {
    OrderMatchesSearch(o, term) && MatchesStatus(o, statusFilter)
  }

  /** `filteredOrders`: the orders meeting both conditions, in order. */
  function FilteredOrders(os: seq<Order>, term: string, statusFilter: Option<OrderStatus>): (r: seq<Order>)
    ensures Seqs.IsSubsequence(r, os)
    ensures forall o :: o in r <==>
      o in os && OrderMatchesSearch(o, term) && (statusFilter.None? || o.status == statusFilter.value)
    ensures forall o :: OrderMatches(term, statusFilter, o) ==> multiset(r)[o] == multiset(os)[o]
  {
    Seqs.Filter((o: Order) => OrderMatches(term, statusFilter, o), os)
  }

  /** With an empty search and "All Status" every order is listed. */
  lemma EmptyFiltersKeepAll(os: seq<Order>)
    ensures FilteredOrders(os, "", None) == os
  {
    forall i | 0 <= i < |os| ensures OrderMatches("", None, os[i]) {
      Text.IncludesEmpty(Text.Lower(os[i].id));
    }
    Seqs.FilterAll((o: Order) => OrderMatches("", None, o), os);
  }

  /** Choosing a status lists exactly the orders in that status. */
  lemma StatusFilterSelects(os: seq<Order>, status: OrderStatus)
    ensures forall o :: o in FilteredOrders(os, "", Some(status)) <==> o in os && o.status == status
  {
    forall o | o in os ensures OrderMatchesSearch(o, "") {
      Text.IncludesEmpty(Text.Lower(o.id));
    }
  }

  /** The units column: `items.reduce((total, item) => total + item.quantity, 0)`. */
  function Units(o: Order): (n: int) {
    CartContext.TotalItems(o.items)
  }

  /** An order's units are at least its number of lines when every line has
      a positive quantity. */
  lemma UnitsAtLeastLines(o: Order)
    requires CartContext.PositiveQuantities(o.items)
    ensures Units(o) >= |o.items|
  {
    CartContext.TotalItemsAtLeastLines(o.items);
  }

  /** The units of a one-line order are that line's quantity. */
  lemma SingleLineUnits(o: Order, item: CartItem)
    requires o.items == [item]
    ensures Units(o) == item.quantity
  {
    CartContext.SumSnoc([], item, CartContext.LineQuantity);
    assert [] + [item] == [item];
  }

  /** `statusOptions`. */
  const StatusOptions: seq<OrderStatus> := [Pending, Processing, Shipped, Delivered, Cancelled]

  /** Every status is offered, and each exactly once. */
  lemma StatusOptionsComplete()
    ensures forall s: OrderStatus :: s in StatusOptions
    ensures Seqs.NoDuplicates(StatusOptions)
  {
    forall s: OrderStatus ensures s in StatusOptions {
      match s
      case Pending => assert StatusOptions[0] == s;
      case Processing => assert StatusOptions[1] == s;
      case Shipped => assert StatusOptions[2] == s;
      case Delivered => assert StatusOptions[3] == s;
      case Cancelled => assert StatusOptions[4] == s;
    }
  }

  /** `handleStatusChange` forwards the id and status unchanged. */
  method HandleStatusChange(store: AdminContext.AdminStore, orderId: string, newStatus: OrderStatus)
    modifies store
    ensures store.State() ==
      AdminContext.AdminReducer(old(store.State()), AdminContext.UpdateOrderStatus(orderId, newStatus))
  {
    store.UpdateOrderStatus(orderId, newStatus);
  }
}
