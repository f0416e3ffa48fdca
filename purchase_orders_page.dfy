/** The wholesaler's purchase order list
    (src/components/wholesaler/PurchaseOrdersPage.tsx): the orders the
    signed-in user created, their cards, and the status buttons. Status
    changes use the same store call as the distributor's order list. */
module PurchaseOrdersPage {

  import opened Types
  import Seqs
  import OrdersPage

  function CreatedBy(userId: Option<string>): Order -> bool
  {
    (o: Order) => userId.Some? && o.createdBy == userId.value
  }

  /** `orders.filter(order => order.createdBy === user?.id)`. */
  function PurchaseOrders(orders: seq<Order>, userId: Option<string>): (r: seq<Order>)
    ensures |r| <= |orders|
    ensures forall i :: 0 <= i < |r| ==> r[i] in orders && userId == Some(r[i].createdBy)
    ensures forall i :: 0 <= i < |orders| && userId == Some(orders[i].createdBy) ==> orders[i] in r
  {
    Seqs.Filter(orders, CreatedBy(userId))
  }

  function OrderTotal(o: Order): real { o.total }

  datatype PurchaseStats = PurchaseStats(totalOrders: nat, pendingOrders: nat, approvedOrders: nat, totalValue: real)

  /** The cards; "approved" counts the orders in `processing`. */
  function Stats(purchaseOrders: seq<Order>): PurchaseStats
  {
    PurchaseStats(|purchaseOrders|, OrdersPage.CountStatus(purchaseOrders, OrderStatus.Pending),
      OrdersPage.CountStatus(purchaseOrders, Processing), Seqs.Sum(purchaseOrders, OrderTotal))
  }

  /** Pending and approved orders are different orders, so together they are at most the total. */
  lemma StatsBound(purchaseOrders: seq<Order>)
    ensures var st := Stats(purchaseOrders);
      st.totalOrders == |purchaseOrders| && st.pendingOrders + st.approvedOrders <= st.totalOrders
  {
    Seqs.FilterDisjointLength(purchaseOrders, OrdersPage.HasStatus(OrderStatus.Pending), OrdersPage.HasStatus(Processing));
  }

  /** The total value grows by each new order's total. */
  lemma TotalValueAppend(purchaseOrders: seq<Order>, o: Order)
    ensures Stats(purchaseOrders + [o]).totalValue == Stats(purchaseOrders).totalValue + o.total
  {
    Seqs.SumAppend(purchaseOrders, [o], OrderTotal);
    assert [o][1..] == [];
  }

  /** The row offers Accept for pending orders only. */
  function RowAction(s: OrderStatus): (r: Option<OrderStatus>)
    ensures r.Some? <==> s == OrderStatus.Pending
    ensures r.Some? ==> r.value == Processing
  {
    if s == OrderStatus.Pending then Some(Processing) else None
  }

  /** The modal's Accept, Mark as Shipped and Mark as Delivered buttons. */
  function ModalAction(s: OrderStatus): Option<OrderStatus>
  {
    match s
    case Pending => Some(Processing)
    case Processing => Some(Shipped)
    case Shipped => Some(Delivered)
    case _ => None
  }

  /** The modal follows the same forward path as the distributor's rows, and
      the row button is its first step. */
  lemma ModalMatchesProgression(s: OrderStatus)
    ensures ModalAction(s) == OrdersPage.NextStatus(s)
    ensures RowAction(s).Some? ==> RowAction(s) == ModalAction(s)
  {
  }
}
