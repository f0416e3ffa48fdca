/** The shared in-memory domain store (src/context/DataContext.tsx): five
    collections and the ten mutators that replace them by append, merge by
    id, removal by id or prepend. Ids come from the clock in the source; here
    the caller supplies them, and they need not be unique. */
module DataStore {

  import opened Types
  import Seqs

  // ---------------------------------------------------------------------------
  // What each mutator does to its collection, as functions of the old value.

  /** `prev.map(p => p.id === id ? { ...p, ...updates } : p)`. */
  function UpdateProducts(ps: seq<Product>, id: string, u: ProductPatch): (r: seq<Product>)
    ensures |r| == |ps|
    ensures forall i :: 0 <= i < |ps| ==>
      r[i] == if ps[i].id == id then MergeProduct(ps[i], u) else ps[i]
  {
    if ps == [] then []
    else [if ps[0].id == id then MergeProduct(ps[0], u) else ps[0]] + UpdateProducts(ps[1..], id, u)
  }

  function HasOtherId(id: string): Product -> bool
  {
    (p: Product) => p.id != id
  }

  /** `prev.filter(p => p.id !== id)`. */
  function RemoveProducts(ps: seq<Product>, id: string): (r: seq<Product>)
    ensures |r| <= |ps|
    ensures forall i :: 0 <= i < |r| ==> r[i].id != id && r[i] in ps
    ensures forall i :: 0 <= i < |ps| && ps[i].id != id ==> ps[i] in r
  {
    Seqs.Filter(ps, HasOtherId(id))
  }

  /** `prev.map(o => o.id === id ? { ...o, status } : o)`. */
  function SetOrderStatus(os: seq<Order>, id: string, status: OrderStatus): (r: seq<Order>)
    ensures |r| == |os|
    ensures forall i :: 0 <= i < |os| ==>
      r[i] == if os[i].id == id then os[i].(status := status) else os[i]
  {
    if os == [] then []
    else [if os[0].id == id then os[0].(status := status) else os[0]] + SetOrderStatus(os[1..], id, status)
  }

  /** `prev.map(r => r.id === id ? { ...r, ...updates } : r)`. */
  function UpdateRequests(rs: seq<WholesalerRequest>, id: string, u: RequestPatch): (r: seq<WholesalerRequest>)
    ensures |r| == |rs|
    ensures forall i :: 0 <= i < |rs| ==>
      r[i] == if rs[i].id == id then MergeRequest(rs[i], u) else rs[i]
  {
    if rs == [] then []
    else [if rs[0].id == id then MergeRequest(rs[0], u) else rs[0]] + UpdateRequests(rs[1..], id, u)
  }

  /** `prev.map(n => n.id === id ? { ...n, read: true } : n)`. */
  function MarkRead(ns: seq<Notification>, id: string): (r: seq<Notification>)
    ensures |r| == |ns|
    ensures forall i :: 0 <= i < |ns| ==>
      r[i] == if ns[i].id == id then ns[i].(read := true) else ns[i]
  {
    if ns == [] then []
    else [if ns[0].id == id then ns[0].(read := true) else ns[0]] + MarkRead(ns[1..], id)
  }

  // ---------------------------------------------------------------------------
  // Properties of the mutators.

  /** Updating an id that no product has changes nothing. */
  lemma {:induction false} UpdateProductsAbsent(ps: seq<Product>, id: string, u: ProductPatch)
    requires forall i :: 0 <= i < |ps| ==> ps[i].id != id
    ensures UpdateProducts(ps, id, u) == ps
  {
    if ps != [] {
      UpdateProductsAbsent(ps[1..], id, u);
    }
  }

  /** `updateProduct(id, { stock: n })`: every product with that id now has
      stock n and is otherwise as before; every other product is untouched. */
  lemma StockUpdateOnlyStock(ps: seq<Product>, id: string, n: int)
    ensures forall i :: 0 <= i < |ps| ==>
      UpdateProducts(ps, id, StockPatch(n))[i] == if ps[i].id == id then ps[i].(stock := n) else ps[i]
  {
  }

  /** A later stock update of the same id overrides an earlier one. */
  lemma {:induction false} StockUpdateOverrides(ps: seq<Product>, id: string, m: int, n: int)
    ensures UpdateProducts(UpdateProducts(ps, id, StockPatch(m)), id, StockPatch(n))
         == UpdateProducts(ps, id, StockPatch(n))
  {
    var a := UpdateProducts(UpdateProducts(ps, id, StockPatch(m)), id, StockPatch(n));
    var b := UpdateProducts(ps, id, StockPatch(n));
    assert |a| == |b|;
    forall i | 0 <= i < |a| ensures a[i] == b[i] {
    }
  }

  /** Deleting an id that no product has changes nothing. */
  lemma DeleteProductAbsent(ps: seq<Product>, id: string)
    requires forall i :: 0 <= i < |ps| ==> ps[i].id != id
    ensures RemoveProducts(ps, id) == ps
  {
    Seqs.FilterKeepsAll(ps, HasOtherId(id));
  }

  /** Deletion keeps the relative order of what it keeps: deleting from a
      concatenation deletes from each part. */
  lemma DeleteProductKeepsOrder(ps: seq<Product>, qs: seq<Product>, id: string)
    ensures RemoveProducts(ps + qs, id) == RemoveProducts(ps, id) + RemoveProducts(qs, id)
  {
    Seqs.FilterAppend(ps, qs, HasOtherId(id));
  }

  /** The store accepts every transition: whatever the current status, the
      matching orders end with the requested one, and nothing else moves. */
  lemma AnyStatusTransition(os: seq<Order>, id: string, target: OrderStatus, i: int)
    requires 0 <= i < |os| && os[i].id == id
    ensures SetOrderStatus(os, id, target)[i].status == target
    ensures SetOrderStatus(os, id, target)[i] == os[i].(status := target)
  {
  }

  /** Marking a notification as read twice is the same as once. */
  lemma {:induction false} MarkReadIdempotent(ns: seq<Notification>, id: string)
    ensures MarkRead(MarkRead(ns, id), id) == MarkRead(ns, id)
  {
    if ns != [] {
      MarkReadIdempotent(ns[1..], id);
    }
  }

  /** Marking only ever sets `read`; unread notifications of other ids stay unread. */
  lemma MarkReadOnlyRead(ns: seq<Notification>, id: string, i: int)
    requires 0 <= i < |ns|
    ensures MarkRead(ns, id)[i].read == (ns[i].read || ns[i].id == id)
    ensures MarkRead(ns, id)[i] == ns[i].(read := MarkRead(ns, id)[i].read)
  {
  }

  // ---------------------------------------------------------------------------
  // Seed data.

  const SeedCompanies: seq<Company> := [
    Company("1", "Himalayan Distributors Pvt. Ltd.", "301234567", "VAT-301234567",
      "Kathmandu, Nepal", "+977-1-4567890", "info@himalayandist.com", "REG-2020-001",
      "2020-01-15", DistributorBusiness, "Rajesh Sharma", "12-34-56-78901", "1234567890",
      "Nepal Bank Limited", Some("LIC-2020-001"), Some("2025-01-15")),
    Company("2", "Valley Wholesale Mart", "401234567", "VAT-401234567",
      "Thamel, Kathmandu", "+977-1-4567891", "info@valleywholesale.com", "REG-2021-002",
      "2021-02-20", WholesalerBusiness, "Sita Patel", "12-34-56-78902", "2345678901",
      "Rastriya Banijya Bank", None, None)
  ]

  const SeedProducts: seq<Product> := [
    Product("1", "Wai Wai Noodles - Chicken", "WW-CHK-001", "8850100129016", "Food & Beverages",
      "Wai Wai", 25.0, 500, 50, "Instant noodles with chicken flavor",
      "https://images.pexels.com/photos/4518654/pexels-photo-4518654.jpeg?auto=compress&cs=tinysrgb&w=300&h=300&dpr=1",
      Some("1"), "1902.30.00", 13.0, "pieces"),
    Product("2", "Coca Cola - 250ml", "CC-250-001", "5000112545029", "Beverages",
      "Coca Cola", 35.0, 200, 30, "Refreshing cola drink",
      "https://images.pexels.com/photos/50593/coca-cola-cold-drink-soft-drink-coke-50593.jpeg?auto=compress&cs=tinysrgb&w=300&h=300&dpr=1",
      Some("1"), "2202.10.00", 13.0, "bottles"),
    Product("3", "Sunsilk Shampoo - 200ml", "SS-200-001", "8901030875472", "Personal Care",
      "Sunsilk", 180.0, 150, 25, "Hair care shampoo for silky hair",
      "https://images.pexels.com/photos/4465831/pexels-photo-4465831.jpeg?auto=compress&cs=tinysrgb&w=300&h=300&dpr=1",
      Some("1"), "3305.10.00", 13.0, "bottles"),
    Product("4", "Biscuits - Tiger", "TG-BIS-001", "8901030001234", "Snacks",
      "Britannia", 15.0, 800, 100, "Crunchy glucose biscuits",
      "https://images.pexels.com/photos/230325/pexels-photo-230325.jpeg?auto=compress&cs=tinysrgb&w=300&h=300&dpr=1",
      Some("1"), "1905.31.00", 13.0, "packets"),
    Product("5", "Daal - Moong", "DL-MNG-001", "8901030002345", "Groceries",
      "Tata", 120.0, 75, 20, "Premium quality moong dal",
      "https://images.pexels.com/photos/1393095/pexels-photo-1393095.jpeg?auto=compress&cs=tinysrgb&w=300&h=300&dpr=1",
      Some("1"), "0713.31.00", 0.0, "kg"),
    Product("6", "Cooking Oil - Fortune", "FT-OIL-001", "8901030003456", "Groceries",
      "Fortune", 250.0, 120, 15, "Refined sunflower oil",
      "https://images.pexels.com/photos/33783/olive-oil-salad-dressing-cooking-olive.jpg?auto=compress&cs=tinysrgb&w=300&h=300&dpr=1",
      Some("1"), "1512.11.00", 5.0, "liters")
  ]

  const SeedOrders: seq<Order> := [
    Order("1", "ORD-2025-001", "2", "Valley Wholesale Mart",
      [ OrderItem("1", "Wai Wai Noodles - Chicken", 100, 25.0, 2500.0, 325.0),
        OrderItem("2", "Coca Cola - 250ml", 50, 35.0, 1750.0, 227.5) ],
      4802.5, Processing, "2025-01-15T10:30:00Z", Some("INV-2025-001"), 552.5,
      "Thamel, Kathmandu", "Net 30 days", "1"),
    Order("2", "ORD-2025-002", "4", "Mountain Trading Co.",
      [ OrderItem("3", "Sunsilk Shampoo - 200ml", 25, 180.0, 4500.0, 585.0),
        OrderItem("4", "Biscuits - Tiger", 200, 15.0, 3000.0, 390.0) ],
      8475.0, Shipped, "2025-01-14T14:20:00Z", Some("INV-2025-002"), 975.0,
      "Patan, Lalitpur", "Net 15 days", "1")
  ]

  const SeedRequests: seq<WholesalerRequest> := [
    WholesalerRequest("1", "1", "Himalayan Distributors Pvt. Ltd.", "2", "Valley Wholesale Mart",
      SeedProducts, RequestStatus.Pending, "2025-01-15T09:00:00Z", None, None,
      Some("Request for product partnership"))
  ]

  const SeedNotifications: seq<Notification> := [
    Notification("1", LowStock, "Low Stock Alert",
      "Daal - Moong stock is running low (75 units remaining)", "2025-01-15T10:30:00Z",
      false, High, None, Some("Daal - Moong"), None, None, None),
    Notification("2", WholesalerRequestKind, "New Wholesaler Request",
      "Valley Wholesale Mart has sent a partnership request", "2025-01-15T09:00:00Z",
      false, Medium, Some("Valley Wholesale Mart"), None, None, None, Some("1")),
    Notification("3", OrderPlaced, "New Order Received",
      "Mountain Trading Co. has placed order #ORD-2025-002", "2025-01-14T14:20:00Z",
      true, Medium, Some("Mountain Trading Co."), None, Some("ORD-2025-002"), None, None)
  ]

  /** The seed orders are priced at 13% VAT line by line and their aggregates add up. */
  lemma SeedOrdersConsistent()
    ensures forall o :: o in SeedOrders ==> TotalsConsistent(o)
    ensures forall o, it :: o in SeedOrders && it in o.products ==> LineConsistent(it, 13.0)
  {
    var o1, o2 := SeedOrders[0], SeedOrders[1];
    assert Seqs.Sum(o1.products, ItemVat) == 552.5 by {
      assert o1.products[1..][1..] == [];
    }
    assert Seqs.Sum(o1.products, ItemTotal) == 4250.0 by {
      assert o1.products[1..][1..] == [];
    }
    assert Seqs.Sum(o2.products, ItemVat) == 975.0 by {
      assert o2.products[1..][1..] == [];
    }
    assert Seqs.Sum(o2.products, ItemTotal) == 7500.0 by {
      assert o2.products[1..][1..] == [];
    }
  }

  // ---------------------------------------------------------------------------
  // The provider's state.

  class Store {
    var products: seq<Product>
    var orders: seq<Order>
    var wholesalerRequests: seq<WholesalerRequest>
    var notifications: seq<Notification>
    var companies: seq<Company>

    /** A fresh provider starts from the seed collections. */
    constructor ()
      ensures products == SeedProducts && orders == SeedOrders
      ensures wholesalerRequests == SeedRequests && notifications == SeedNotifications
      ensures companies == SeedCompanies
    {
      products := SeedProducts;
      orders := SeedOrders;
      wholesalerRequests := SeedRequests;
      notifications := SeedNotifications;
      companies := SeedCompanies;
    }

    /** Appends the product under the new id; nothing else changes. */
    method AddProduct(product: Product, newId: string)
      modifies this
      ensures products == old(products) + [product.(id := newId)]
      ensures orders == old(orders) && wholesalerRequests == old(wholesalerRequests)
      ensures notifications == old(notifications) && companies == old(companies)
    {
      products := products + [product.(id := newId)];
    }

    method UpdateProduct(id: string, updates: ProductPatch)
      modifies this
      ensures products == UpdateProducts(old(products), id, updates)
      ensures orders == old(orders) && wholesalerRequests == old(wholesalerRequests)
      ensures notifications == old(notifications) && companies == old(companies)
    {
      products := UpdateProducts(products, id, updates);
    }

    /** Removes every product with the id; orders and requests that mention
        it are left as they are. */
    method DeleteProduct(id: string)
      modifies this
      ensures products == RemoveProducts(old(products), id)
      ensures orders == old(orders) && wholesalerRequests == old(wholesalerRequests)
      ensures notifications == old(notifications) && companies == old(companies)
    {
      products := RemoveProducts(products, id);
    }

    /** Appends the order as given: its totals are not recomputed. */
    method AddOrder(order: Order, newId: string)
      modifies this
      ensures orders == old(orders) + [order.(id := newId)]
      ensures products == old(products) && wholesalerRequests == old(wholesalerRequests)
      ensures notifications == old(notifications) && companies == old(companies)
    {
      orders := orders + [order.(id := newId)];
    }

    method UpdateOrderStatus(id: string, status: OrderStatus)
      modifies this
      ensures orders == SetOrderStatus(old(orders), id, status)
      ensures products == old(products) && wholesalerRequests == old(wholesalerRequests)
      ensures notifications == old(notifications) && companies == old(companies)
    {
      orders := SetOrderStatus(orders, id, status);
    }

    method AddWholesalerRequest(request: WholesalerRequest, newId: string)
      modifies this
      ensures wholesalerRequests == old(wholesalerRequests) + [request.(id := newId)]
      ensures products == old(products) && orders == old(orders)
      ensures notifications == old(notifications) && companies == old(companies)
    {
      wholesalerRequests := wholesalerRequests + [request.(id := newId)];
    }

    method UpdateWholesalerRequest(id: string, updates: RequestPatch)
      modifies this
      ensures wholesalerRequests == UpdateRequests(old(wholesalerRequests), id, updates)
      ensures products == old(products) && orders == old(orders)
      ensures notifications == old(notifications) && companies == old(companies)
    {
      wholesalerRequests := UpdateRequests(wholesalerRequests, id, updates);
    }

    /** Prepends: the newest notification comes first. */
    method AddNotification(notification: Notification, newId: string)
      modifies this
      ensures notifications == [notification.(id := newId)] + old(notifications)
      ensures |notifications| == |old(notifications)| + 1
      ensures products == old(products) && orders == old(orders)
      ensures wholesalerRequests == old(wholesalerRequests) && companies == old(companies)
    {
      notifications := [notification.(id := newId)] + notifications;
    }

    method MarkNotificationAsRead(id: string)
      modifies this
      ensures notifications == MarkRead(old(notifications), id)
      ensures products == old(products) && orders == old(orders)
      ensures wholesalerRequests == old(wholesalerRequests) && companies == old(companies)
    {
      notifications := MarkRead(notifications, id);
    }

    method AddCompany(company: Company, newId: string)
      modifies this
      ensures companies == old(companies) + [company.(id := newId)]
      ensures products == old(products) && orders == old(orders)
      ensures wholesalerRequests == old(wholesalerRequests) && notifications == old(notifications)
    {
      companies := companies + [company.(id := newId)];
    }
  }
}
