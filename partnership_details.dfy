/** The wholesaler's partnership screen
    (src/components/wholesaler/PartnershipDetails.tsx): the distributors that
    supply at least one product, a product selection with quantities, and the
    purchase order built from it. The signed-in company's name and address are
    opaque inputs: the session user holds its company as a plain string. */
module PartnershipDetails {

  import opened Types
  import Seqs
  import DataStore
  import Auth

  /** A distributor together with the products it supplies. */
  datatype Partner = Partner(company: Company, productCount: nat, products: seq<Product>)

  /** One selected product: quantity and the price at selection time. */
  datatype Selected = Selected(productId: string, quantity: int, price: real)

  datatype CreateOutcome = NothingSelected | MissingContext | Created

  /** The quantity a newly selected product starts with. */
  const DefaultQuantity: int := 1

  // ---------------------------------------------------------------------------
  // The partner list.

  function SuppliedBy(id: string): Product -> bool
  {
    (p: Product) => p.distributorId == Some(id)
  }

  /** `products.filter(p => p.distributorId === id)`. */
  function ProductsOf(products: seq<Product>, id: string): (r: seq<Product>)
    ensures forall i :: 0 <= i < |r| ==> r[i] in products && r[i].distributorId == Some(id)
    ensures forall i :: 0 <= i < |products| && products[i].distributorId == Some(id) ==> products[i] in r
  {
    Seqs.Filter(products, SuppliedBy(id))
  }

  /** The entry shown for one distributor: its products and their number. */
  function Listing(products: seq<Product>, c: Company): (d: Partner)
    ensures d.company == c && d.products == ProductsOf(products, c.id) && d.productCount == |d.products|
  {
    var supplied := ProductsOf(products, c.id);
    Partner(c, |supplied|, supplied)
  }

  /** A distributor company that supplies at least one of the products. */
  predicate Supplies(products: seq<Product>, c: Company)
  {
    c.businessType == DistributorBusiness && ProductsOf(products, c.id) != []
  }

  /** `distributorsWithProducts`: the distributor companies with at least one
      product, each with its products and their count, in company order. */
  function Partners(companies: seq<Company>, products: seq<Product>): (r: seq<Partner>)
    ensures forall i :: 0 <= i < |r| ==>
      r[i].company in companies && Supplies(products, r[i].company) && r[i] == Listing(products, r[i].company)
    decreases |companies|
  {
    if companies == [] then []
    else
      var rest := Partners(companies[1..], products);
      if Supplies(products, companies[0]) then [Listing(products, companies[0])] + rest else rest
  }

  /** Every distributor that supplies a product is listed. */
  lemma PartnersComplete(companies: seq<Company>, products: seq<Product>, j: int)
    requires 0 <= j < |companies| && Supplies(products, companies[j])
    ensures exists i :: 0 <= i < |Partners(companies, products)| && Partners(companies, products)[i].company == companies[j]
  {
    var i := PartnerIndex(companies, products, j);
  }

  /** Where a supplying distributor is listed. */
  lemma {:induction false} PartnerIndex(companies: seq<Company>, products: seq<Product>, j: int) returns (i: int)
    requires 0 <= j < |companies| && Supplies(products, companies[j])
    ensures 0 <= i < |Partners(companies, products)| && Partners(companies, products)[i].company == companies[j]
  {
    PartnersCons(companies, products);
    if j == 0 {
      i := 0;
    } else {
      var k := PartnerIndex(companies[1..], products, j - 1);
      i := if Supplies(products, companies[0]) then k + 1 else k;
    }
  }

  lemma PartnersCons(companies: seq<Company>, products: seq<Product>)
    requires companies != []
    ensures Partners(companies, products)
      == (if Supplies(products, companies[0]) then [Listing(products, companies[0])] else [])
         + Partners(companies[1..], products)
  {
  }

  // ---------------------------------------------------------------------------
  // The selection and the order built from it.

  function NotSelected(id: string): Selected -> bool
  {
    (s: Selected) => s.productId != id
  }

  /** `handleProductSelection`: nothing for an unknown product; otherwise
      checking appends an entry priced from the product, unchecking drops every
      entry for it. */
  function Select(selection: seq<Selected>, products: seq<Product>, id: string, selected: bool, quantity: int)
    : (r: seq<Selected>)
    ensures FindProduct(products, id).None? ==> r == selection
    ensures FindProduct(products, id).Some? && selected ==>
      r == selection + [Selected(id, quantity, FindProduct(products, id).value.price)]
    ensures FindProduct(products, id).Some? && !selected ==>
      (forall i :: 0 <= i < |r| ==> r[i].productId != id && r[i] in selection)
      && forall i :: 0 <= i < |selection| && selection[i].productId != id ==> selection[i] in r
  {
    match FindProduct(products, id)
    case None => selection
    case Some(p) =>
      if selected then selection + [Selected(id, quantity, p.price)]
      else Seqs.Filter(selection, NotSelected(id))
  }

  /** `handleQuantityChange`: only the entries for that product get the new quantity. */
  function ChangeQuantity(selection: seq<Selected>, id: string, quantity: int): (r: seq<Selected>)
    ensures |r| == |selection|
    ensures forall i :: 0 <= i < |selection| ==>
      r[i] == if selection[i].productId == id then selection[i].(quantity := quantity) else selection[i]
  {
    if selection == [] then []
    else
      var head := if selection[0].productId == id then selection[0].(quantity := quantity) else selection[0];
      [head] + ChangeQuantity(selection[1..], id, quantity)
  }

  /** `product?.vatRate || 0`. */
  function RateOf(products: seq<Product>, id: string): real
  {
    match FindProduct(products, id)
    case Some(p) => p.vatRate
    case None => 0.0
  }

  /** `product?.name || ''`. */
  function NameOf(products: seq<Product>, id: string): string
  {
    match FindProduct(products, id)
    case Some(p) => p.name
    case None => ""
  }

  function OrderLine(products: seq<Product>, s: Selected): (r: OrderItem)
    ensures r.productId == s.productId && r.quantity == s.quantity && r.price == s.price
    ensures LineConsistent(r, RateOf(products, s.productId))
  {
    var total := s.quantity as real * s.price;
    OrderItem(s.productId, NameOf(products, s.productId), s.quantity, s.price, total,
      total * RateOf(products, s.productId) / 100.0)
  }

  /** One order line per selected entry, priced consistently with its product's VAT rate. */
  function OrderLines(selection: seq<Selected>, products: seq<Product>): (r: seq<OrderItem>)
    ensures |r| == |selection|
    ensures forall i :: 0 <= i < |r| ==>
      r[i].productId == selection[i].productId && r[i].quantity == selection[i].quantity
      && r[i].price == selection[i].price && LineConsistent(r[i], RateOf(products, selection[i].productId))
  {
    Seqs.Map(selection, (s: Selected) => OrderLine(products, s))
  }

  /** The purchase order sent to the distributor. `stamp` is the one clock
      reading both numbers are made from. */
  function PurchaseOrder(selection: seq<Selected>, products: seq<Product>, distributor: Company,
                         userId: string, address: string, stamp: string, date: string): Order
  {
    var lines := OrderLines(selection, products);
    var subtotal := Seqs.Sum(lines, ItemTotal);
    var totalVat := Seqs.Sum(lines, ItemVat);
    Order("", "PO-" + stamp, distributor.id, distributor.name, lines, subtotal + totalVat, OrderStatus.Pending,
      date, Some("PO-INV-" + stamp), totalVat, address, "Net 30 days", userId)
  }

  function PurchaseNotice(companyName: string, orderNumber: string, now: string): (r: Notification)
    ensures r.ntype == OrderPlaced && r.priority == Medium && !r.read && r.timestamp == now
    ensures r.wholesaler == Some(companyName) && r.orderNumber == Some(orderNumber)
    ensures |companyName| <= |r.message| && r.message[..|companyName|] == companyName
    ensures |orderNumber| <= |r.message| && r.message[|r.message| - |orderNumber|..] == orderNumber
  {
    Notification("", OrderPlaced, "New Purchase Order Received",
      companyName + " has placed a purchase order #" + orderNumber,
      now, false, Medium, Some(companyName), None, Some(orderNumber), None, None)
  }

  /** The order's money adds up, its lines are priced from the selection, it
      starts pending, and it is addressed to the distributor on behalf of the user. */
  lemma PurchaseOrderConsistent(selection: seq<Selected>, products: seq<Product>, distributor: Company,
                                userId: string, address: string, stamp: string, date: string)
    ensures var o := PurchaseOrder(selection, products, distributor, userId, address, stamp, date);
      && TotalsConsistent(o)
      && o.status == OrderStatus.Pending && o.createdBy == userId && o.customerId == distributor.id
      && |o.products| == |selection|
      && Seqs.Sum(o.products, ItemTotal) == Seqs.Sum(selection, SelectedAmount)
  {
    LineTotals(selection, products);
  }

  function SelectedAmount(s: Selected): real { s.quantity as real * s.price }

  lemma {:induction false} LineTotals(selection: seq<Selected>, products: seq<Product>)
    ensures Seqs.Sum(OrderLines(selection, products), ItemTotal) == Seqs.Sum(selection, SelectedAmount)
  {
    if selection != [] {
      LineTotals(selection[1..], products);
      assert OrderLines(selection, products)[1..] == OrderLines(selection[1..], products);
    }
  }

  // ---------------------------------------------------------------------------
  // The page state.

  class PartnerOrdering {
    const store: DataStore.Store
    var selectedDistributor: Option<Partner>
    var showDistributorModal: bool
    var showOrderModal: bool
    var selection: seq<Selected>

    constructor (store: DataStore.Store)
      ensures this.store == store && selectedDistributor == None && selection == []
      ensures !showDistributorModal && !showOrderModal
    {
      this.store := store;
      selectedDistributor := None;
      showDistributorModal := false;
      showOrderModal := false;
      selection := [];
    }

    method ViewDistributor(d: Partner)
      modifies this
      ensures selectedDistributor == Some(d) && showDistributorModal
      ensures selection == old(selection) && showOrderModal == old(showOrderModal)
    {
      selectedDistributor := Some(d);
      showDistributorModal := true;
    }

    /** `quantity` is `None` when the caller relies on the default of one. */
    method HandleProductSelection(productId: string, selected: bool, quantity: Option<int>)
      modifies this
      ensures selection == Select(old(selection), store.products, productId, selected, quantity.GetOr(DefaultQuantity))
      ensures selectedDistributor == old(selectedDistributor)
      ensures showDistributorModal == old(showDistributorModal) && showOrderModal == old(showOrderModal)
    {
      var product := FindProduct(store.products, productId);
      if product.None? {
        return;
      }
      if selected {
        selection := selection + [Selected(productId, quantity.GetOr(DefaultQuantity), product.value.price)];
      } else {
        selection := Seqs.Filter(selection, NotSelected(productId));
      }
    }

    method HandleQuantityChange(productId: string, quantity: int)
      modifies this
      ensures selection == ChangeQuantity(old(selection), productId, quantity)
      ensures selectedDistributor == old(selectedDistributor)
      ensures showDistributorModal == old(showDistributorModal) && showOrderModal == old(showOrderModal)
    {
      selection := ChangeQuantity(selection, productId, quantity);
    }

    /** Places the order: one order and one `order_placed` notification sharing
        its order number, then the selection is cleared and the modals close. */
    method HandleCreateOrder(user: Option<Auth.User>, companyName: string, companyAddress: string,
                             stamp: string, now: string, orderId: string, noticeId: string)
      returns (outcome: CreateOutcome)
      modifies this, store
      ensures outcome == NothingSelected <==> old(selection) == []
      ensures outcome == MissingContext <==>
        old(selection) != [] && (old(selectedDistributor).None? || user.None?)
      ensures outcome != Created ==>
        store.orders == old(store.orders) && store.notifications == old(store.notifications)
        && selection == old(selection) && showOrderModal == old(showOrderModal)
        && showDistributorModal == old(showDistributorModal)
      ensures outcome == Created ==>
        var o := PurchaseOrder(old(selection), old(store.products), old(selectedDistributor).value.company,
          user.value.id, companyAddress, stamp, now);
        && store.orders == old(store.orders) + [o.(id := orderId)]
        && store.notifications == [PurchaseNotice(companyName, o.orderNumber, now).(id := noticeId)] + old(store.notifications)
        && selection == [] && !showOrderModal && !showDistributorModal
      ensures store.products == old(store.products) && store.wholesalerRequests == old(store.wholesalerRequests)
      ensures store.companies == old(store.companies) && selectedDistributor == old(selectedDistributor)
    {
      if |selection| == 0 {
        return NothingSelected;
      }
      if selectedDistributor.None? || user.None? {
        return MissingContext;
      }
      var order := PurchaseOrder(selection, store.products, selectedDistributor.value.company,
        user.value.id, companyAddress, stamp, now);
      store.AddOrder(order, orderId);
      store.AddNotification(PurchaseNotice(companyName, order.orderNumber, now), noticeId);
      showOrderModal := false;
      selection := [];
      showDistributorModal := false;
      outcome := Created;
    }
  }
}
