/** The distributor's order list (src/components/distributor/OrdersPage.tsx):
    a status filter, the status cards, and the status buttons offered per row
    and in the order modal. Every status change goes through the store, which
    accepts any transition; only the buttons encode a progression. */
module OrdersPage {

  import opened Types
  import Seqs
  import DataStore

  // ---------------------------------------------------------------------------
  // The filter.

  function ShownBy(filter: string): Order -> bool
  {
    (o: Order) => filter == "" || OrderStatusName(o.status) == filter
  }

  /** `!filterStatus || order.status === filterStatus`. */
  function FilteredOrders(orders: seq<Order>, filter: string): (r: seq<Order>)
    ensures |r| <= |orders|
    ensures forall i :: 0 <= i < |r| ==> r[i] in orders && (filter == "" || OrderStatusName(r[i].status) == filter)
    ensures forall i :: 0 <= i < |orders| && (filter == "" || OrderStatusName(orders[i].status) == filter) ==>
      orders[i] in r
  {
    Seqs.Filter(orders, ShownBy(filter))
  }

  /** No filter shows every order, in order. */
  lemma NoFilterShowsAll(orders: seq<Order>)
    ensures FilteredOrders(orders, "") == orders
  {
    Seqs.FilterKeepsAll(orders, ShownBy(""));
  }

  /** Status names are distinct, so filtering by a status's name keeps that status only. */
  lemma StatusNamesDistinct(s: OrderStatus, t: OrderStatus)
    ensures OrderStatusName(s) == OrderStatusName(t) <==> s == t
  {
  }

  lemma FilterByStatus(orders: seq<Order>, s: OrderStatus, i: int)
    requires 0 <= i < |orders|
    ensures orders[i] in FilteredOrders(orders, OrderStatusName(s)) <==> orders[i].status == s
  {
    var r := FilteredOrders(orders, OrderStatusName(s));
    if orders[i] in r {
      var k :| 0 <= k < |r| && r[k] == orders[i];
      StatusNamesDistinct(orders[i].status, s);
    }
  }

  /** Filtering keeps the original relative order. */
  lemma FilterKeepsOrder(orders: seq<Order>, more: seq<Order>, filter: string)
    ensures FilteredOrders(orders + more, filter) == FilteredOrders(orders, filter) + FilteredOrders(more, filter)
  {
    Seqs.FilterAppend(orders, more, ShownBy(filter));
  }

  // ---------------------------------------------------------------------------
  // The status buttons.

  /** Position of a status on the delivery path; cancelled is off the path. */
  function Stage(s: OrderStatus): int
  {
    match s
    case Pending => 0
    case Processing => 1
    case Shipped => 2
    case Delivered => 3
    case Cancelled => -1
  }

  /** The one forward button of a row: Process, Ship or Deliver. */
  function NextStatus(s: OrderStatus): (r: Option<OrderStatus>)
    ensures r.Some? <==> s == OrderStatus.Pending || s == Processing || s == Shipped
    ensures r.Some? ==> r.value != Cancelled && Stage(r.value) == Stage(s) + 1
  {
    match s
    case Pending => Some(Processing)
    case Processing => Some(Shipped)
    case Shipped => Some(Delivered)
    case Delivered => None
    case Cancelled => None
  }

  /** The modal's buttons: every status on the path, whatever the current one. */
  const ModalTargets: seq<OrderStatus> := [OrderStatus.Pending, Processing, Shipped, Delivered]

  /** The modal offers exactly the non-cancelled statuses, so it can move an
      order backwards, which the row buttons never do. */
  lemma ModalOffersPath(s: OrderStatus)
    ensures s in ModalTargets <==> s != Cancelled
    ensures Stage(s) > 0 ==> exists t :: t in ModalTargets && Stage(t) < Stage(s)
  {
    assert OrderStatus.Pending in ModalTargets;
  }

  /** `handleStatusUpdate`: the id and status go through to the store unchanged. */
  method HandleStatusUpdate(store: DataStore.Store, orderId: string, status: OrderStatus)
    modifies store
    ensures store.orders == DataStore.SetOrderStatus(old(store.orders), orderId, status)
    ensures store.products == old(store.products) && store.wholesalerRequests == old(store.wholesalerRequests)
    ensures store.notifications == old(store.notifications) && store.companies == old(store.companies)
  {
    store.UpdateOrderStatus(orderId, status);
  }

  /** Pressing a row's forward button moves that order one stage along. */
  lemma RowButtonAdvances(orders: seq<Order>, i: int)
    requires 0 <= i < |orders| && NextStatus(orders[i].status).Some?
    ensures var after := DataStore.SetOrderStatus(orders, orders[i].id, NextStatus(orders[i].status).value);
      Stage(after[i].status) == Stage(orders[i].status) + 1 && after[i].status != Cancelled
  {
    DataStore.AnyStatusTransition(orders, orders[i].id, NextStatus(orders[i].status).value, i);
  }

  // ---------------------------------------------------------------------------
  // The status cards.

  function HasStatus(s: OrderStatus): Order -> bool
  {
    (o: Order) => o.status == s
  }

  /** `orders.filter(o => o.status === s).length`. */
  function CountStatus(orders: seq<Order>, s: OrderStatus): nat
  {
    |Seqs.Filter(orders, HasStatus(s))|
  }

  datatype OrderStats = OrderStats(total: nat, pending: nat, processing: nat, shipped: nat, delivered: nat)

  function Stats(orders: seq<Order>): OrderStats
  {
    OrderStats(|orders|, CountStatus(orders, OrderStatus.Pending), CountStatus(orders, Processing),
      CountStatus(orders, Shipped), CountStatus(orders, Delivered))
  }

  /** The five statuses partition the orders. */
  lemma {:induction false} StatusesPartition(orders: seq<Order>)
    ensures CountStatus(orders, OrderStatus.Pending) + CountStatus(orders, Processing) + CountStatus(orders, Shipped)
      + CountStatus(orders, Delivered) + CountStatus(orders, Cancelled) == |orders|
  {
    if orders != [] {
      StatusesPartition(orders[1..]);
    }
  }

  /** The four cards never add up to more than the total; the gap is the cancelled orders. */
  lemma StatsBound(orders: seq<Order>)
    ensures var st := Stats(orders);
      st.total == |orders| && st.pending + st.processing + st.shipped + st.delivered <= st.total
      && st.total - (st.pending + st.processing + st.shipped + st.delivered) == CountStatus(orders, Cancelled)
  {
    StatusesPartition(orders);
  }
}
