/** The point-of-sale bridge (src/hooks/usePOSSync.ts). The HTTP calls are
    not modelled: each POS response is an input (`None` for a failed request
    or a response without data), and the clock and notification ids are
    caller-supplied strings. What is modelled is what the hook does to the
    store and to its own three state fields. */
module PosSync {

  import opened Types
  import opened Text
  import Seqs
  import DataStore
  import Auth

  datatype ConnectionStatus = Connected | Disconnected | Checking

  datatype SaleItem = SaleItem(productId: string, quantity: int, price: real, total: real)

  datatype Sale = Sale(
    id: string,
    products: seq<SaleItem>,
    total: real,
    vatAmount: real,
    paymentMethod: string,
    customerName: Option<string>,
    timestamp: string,
    wholesalerId: string)

  /** The record sent to the POS for one product. */
  datatype PosProduct = PosProduct(
    id: string,
    name: string,
    sku: string,
    barcode: string,
    price: real,
    stock: int,
    category: string,
    brand: string,
    image: string,
    vatRate: real,
    wholesalerId: string,
    distributorId: Option<string>)

  /** The product's own fields, stamped with the signed-in user's id. */
  function PosRecord(p: Product, wholesalerId: string): (r: PosProduct)
    ensures r.id == p.id && r.name == p.name && r.sku == p.sku && r.barcode == p.barcode
    ensures r.price == p.price && r.stock == p.stock && r.category == p.category && r.brand == p.brand
    ensures r.image == p.image && r.vatRate == p.vatRate && r.distributorId == p.distributorId
    ensures r.wholesalerId == wholesalerId
  {
    PosProduct(p.id, p.name, p.sku, p.barcode, p.price, p.stock, p.category, p.brand,
      p.image, p.vatRate, wholesalerId, p.distributorId)
  }

  /** One POS record per product, in order, all stamped with the signed-in user. */
  function PosRecords(ps: seq<Product>, wholesalerId: string): (r: seq<PosProduct>)
    ensures |r| == |ps|
    ensures forall i :: 0 <= i < |ps| ==> r[i] == PosRecord(ps[i], wholesalerId)
  {
    Seqs.Map(ps, (p: Product) => PosRecord(p, wholesalerId))
  }

  /** `Math.max(0, n)`. */
  function Floor0(n: int): (r: int)
    ensures r >= 0 && r >= n && (n >= 0 ==> r == n)
  {
    if n < 0 then 0 else n
  }

  // ---------------------------------------------------------------------------
  // The sales reconciliation, stated item by item over the flattened sales.

  /** Every sale item of `sales`, sale by sale. */
  function AllItems(sales: seq<Sale>): seq<SaleItem>
  {
    if sales == [] then [] else AllItems(sales[..|sales| - 1]) + sales[|sales| - 1].products
  }

  /** The effect of one sale item on the current products: the stock of the
      product (looked up in the snapshot) becomes max(0, snapshot stock - quantity). */
  function ApplyItem(current: seq<Product>, snapshot: seq<Product>, it: SaleItem): (r: seq<Product>)
    ensures |r| == |current|
  {
    match FindProduct(snapshot, it.productId)
    case None => current
    case Some(p) => DataStore.UpdateProducts(current, p.id, StockPatch(Floor0(p.stock - it.quantity)))
  }

  /** The products after processing `items` in order against the same snapshot. */
  function Restock(current: seq<Product>, snapshot: seq<Product>, items: seq<SaleItem>): (r: seq<Product>)
    ensures |r| == |current|
  {
    if items == [] then current
    else ApplyItem(Restock(current, snapshot, items[..|items| - 1]), snapshot, items[|items| - 1])
  }

  /** An unread, high-priority low-stock notice naming the product and its new stock. */
  function LowStockAlert(p: Product, newStock: int, now: string, newId: string): (r: Notification)
    ensures r.ntype == LowStock && r.priority == High && !r.read && r.product == Some(p.name)
    ensures r.timestamp == now && |p.name| <= |r.message| && r.message[..|p.name|] == p.name
  {
    Notification(newId, LowStock, "Low Stock Alert from POS",
      p.name + " is running low after POS sale (" + IntToString(newStock) + " remaining)",
      now, false, High, None, Some(p.name), None, None, None)
  }

  /** The alert one sale item raises: exactly when its product is known and the
      unfloored new stock is at or below the minimum. */
  function AlertFor(snapshot: seq<Product>, it: SaleItem, now: string, newId: string): (r: seq<Notification>)
    ensures |r| <= 1
    ensures var found := FindProduct(snapshot, it.productId);
      r != [] <==> (found.Some? && found.value.stock - it.quantity <= found.value.minStock)
    ensures forall i :: 0 <= i < |r| ==> r[i].ntype == LowStock && r[i].priority == High && !r[i].read
  {
    match FindProduct(snapshot, it.productId)
    case None => []
    case Some(p) =>
      if p.stock - it.quantity <= p.minStock then [LowStockAlert(p, p.stock - it.quantity, now, newId)] else []
  }

  /** The alerts raised by `items`, in the order they are raised. */
  function Alerts(snapshot: seq<Product>, items: seq<SaleItem>, now: string, newId: string): (r: seq<Notification>)
    ensures |r| <= |items|
    ensures forall i :: 0 <= i < |r| ==> r[i].ntype == LowStock && r[i].priority == High
  {
    if items == [] then []
    else Alerts(snapshot, items[..|items| - 1], now, newId) + AlertFor(snapshot, items[|items| - 1], now, newId)
  }

  /** What `addNotification` called once per element of `emitted` leaves:
      the last one emitted comes first, the old list follows. */
  function Prepended(ns: seq<Notification>, emitted: seq<Notification>): (r: seq<Notification>)
    ensures |r| == |ns| + |emitted|
    ensures r[|emitted|..] == ns
  {
    if emitted == [] then ns else [emitted[|emitted| - 1]] + Prepended(ns, emitted[..|emitted| - 1])
  }

  /** The emitted notifications come first, newest first. */
  lemma {:induction false} PrependedNewestFirst(ns: seq<Notification>, emitted: seq<Notification>)
    ensures forall k :: 0 <= k < |emitted| ==> Prepended(ns, emitted)[k] == emitted[|emitted| - 1 - k]
  {
    if emitted != [] {
      var init := emitted[..|emitted| - 1];
      var rest := Prepended(ns, init);
      PrependedNewestFirst(ns, init);
      assert Prepended(ns, emitted) == [emitted[|emitted| - 1]] + rest;
      forall k | 0 <= k < |emitted|
        ensures Prepended(ns, emitted)[k] == emitted[|emitted| - 1 - k]
      {
        if k > 0 {
          assert rest[k - 1] == init[|init| - 1 - (k - 1)];
        }
      }
    }
  }

  /** An unread, medium-priority system notice carrying the number of sales. */
  function SummaryNotice(count: nat, now: string, newId: string): (r: Notification)
    ensures r.ntype == System && r.priority == Medium && !r.read && r.timestamp == now
    ensures |NatToString(count)| <= |r.message| && r.message[..|NatToString(count)|] == NatToString(count)
  {
    Notification(newId, System, "POS Sales Synced",
      NatToString(count) + " sales synced from POS system. Revenue: NPR ",
      now, false, Medium, None, None, None, None, None)
  }

  /** An unread, low-priority system notice carrying the number of products sent. */
  function ProductsPushedNotice(count: nat, now: string, newId: string): (r: Notification)
    ensures r.ntype == System && r.priority == Low && !r.read && r.timestamp == now
    ensures |NatToString(count)| <= |r.message| && r.message[..|NatToString(count)|] == NatToString(count)
  {
    Notification(newId, System, "POS Sync Completed",
      NatToString(count) + " products synced to POS system",
      now, false, Low, None, None, None, None, None)
  }

  function SaleTotal(s: Sale): real { s.total }

  function SaleIds(sales: seq<Sale>): (r: seq<string>)
    ensures |r| == |sales| && forall i :: 0 <= i < |sales| ==> r[i] == sales[i].id
  {
    Seqs.Map(sales, (s: Sale) => s.id)
  }

  // One more item at the end: the recursive definitions taken one step.

  lemma RestockSnoc(current: seq<Product>, snapshot: seq<Product>, items: seq<SaleItem>, x: SaleItem)
    ensures Restock(current, snapshot, items + [x]) == ApplyItem(Restock(current, snapshot, items), snapshot, x)
  {
    assert (items + [x])[..|items + [x]| - 1] == items;
  }

  lemma AlertsSnoc(snapshot: seq<Product>, items: seq<SaleItem>, x: SaleItem, now: string, newId: string)
    ensures Alerts(snapshot, items + [x], now, newId)
      == Alerts(snapshot, items, now, newId) + AlertFor(snapshot, x, now, newId)
  {
    assert (items + [x])[..|items + [x]| - 1] == items;
  }

  lemma PrependedSnoc(ns: seq<Notification>, emitted: seq<Notification>, x: Notification)
    ensures Prepended(ns, emitted + [x]) == [x] + Prepended(ns, emitted)
  {
    assert (emitted + [x])[..|emitted + [x]| - 1] == emitted;
  }

  /** Emitting at most one more notification puts it in front. */
  lemma PrependedShort(ns: seq<Notification>, emitted: seq<Notification>, more: seq<Notification>)
    requires |more| <= 1
    ensures Prepended(ns, emitted + more) == more + Prepended(ns, emitted)
  {
    if more == [] {
      assert emitted + more == emitted;
    } else {
      PrependedSnoc(ns, emitted, more[0]);
      assert more == [more[0]];
    }
  }

  lemma {:induction false} RestockAppend(current: seq<Product>, snapshot: seq<Product>, xs: seq<SaleItem>, ys: seq<SaleItem>)
    ensures Restock(current, snapshot, xs + ys) == Restock(Restock(current, snapshot, xs), snapshot, ys)
    decreases |ys|
  {
    if ys == [] {
      assert xs + ys == xs;
    } else {
      var init, x := ys[..|ys| - 1], ys[|ys| - 1];
      assert ys == init + [x];
      assert xs + ys == (xs + init) + [x];
      RestockSnoc(current, snapshot, xs + init, x);
      RestockAppend(current, snapshot, xs, init);
      RestockSnoc(Restock(current, snapshot, xs), snapshot, init, x);
    }
  }

  lemma {:induction false} AlertsAppend(snapshot: seq<Product>, xs: seq<SaleItem>, ys: seq<SaleItem>, now: string, newId: string)
    ensures Alerts(snapshot, xs + ys, now, newId) == Alerts(snapshot, xs, now, newId) + Alerts(snapshot, ys, now, newId)
    decreases |ys|
  {
    if ys == [] {
      assert xs + ys == xs;
    } else {
      var init, x := ys[..|ys| - 1], ys[|ys| - 1];
      assert ys == init + [x];
      assert xs + ys == (xs + init) + [x];
      var one := AlertFor(snapshot, x, now, newId);
      calc {
        Alerts(snapshot, xs + ys, now, newId);
        { AlertsSnoc(snapshot, xs + init, x, now, newId); }
        Alerts(snapshot, xs + init, now, newId) + one;
        { AlertsAppend(snapshot, xs, init, now, newId); }
        (Alerts(snapshot, xs, now, newId) + Alerts(snapshot, init, now, newId)) + one;
        Alerts(snapshot, xs, now, newId) + (Alerts(snapshot, init, now, newId) + one);
        { AlertsSnoc(snapshot, init, x, now, newId); }
        Alerts(snapshot, xs, now, newId) + Alerts(snapshot, ys, now, newId);
      }
    }
  }

  lemma {:induction false} PrependedAppend(ns: seq<Notification>, xs: seq<Notification>, ys: seq<Notification>)
    ensures Prepended(ns, xs + ys) == Prepended(Prepended(ns, xs), ys)
    decreases |ys|
  {
    if ys == [] {
      assert xs + ys == xs;
    } else {
      var init, x := ys[..|ys| - 1], ys[|ys| - 1];
      assert ys == init + [x];
      assert xs + ys == (xs + init) + [x];
      PrependedSnoc(ns, xs + init, x);
      PrependedAppend(ns, xs, init);
      PrependedSnoc(Prepended(ns, xs), init, x);
    }
  }

  // ---------------------------------------------------------------------------
  // Properties of the reconciliation.

  /** A stock update never makes a stock negative. */
  lemma {:induction false} RestockNonNegative(current: seq<Product>, snapshot: seq<Product>, items: seq<SaleItem>)
    requires forall i :: 0 <= i < |current| ==> current[i].stock >= 0
    ensures forall i :: 0 <= i < |Restock(current, snapshot, items)| ==> Restock(current, snapshot, items)[i].stock >= 0
  {
    if items != [] {
      RestockNonNegative(current, snapshot, items[..|items| - 1]);
    }
  }

  /** After one item for a known product, every product with its id has stock
      max(0, snapshot stock - quantity), and every other product is untouched. */
  lemma ApplyItemSetsStock(current: seq<Product>, snapshot: seq<Product>, it: SaleItem, i: int)
    requires FindProduct(snapshot, it.productId).Some?
    requires 0 <= i < |current|
    ensures |ApplyItem(current, snapshot, it)| == |current|
    ensures current[i].id == it.productId ==>
      ApplyItem(current, snapshot, it)[i]
      == current[i].(stock := Floor0(FindProduct(snapshot, it.productId).value.stock - it.quantity))
    ensures current[i].id != it.productId ==> ApplyItem(current, snapshot, it)[i] == current[i]
  {
    var p := FindProduct(snapshot, it.productId).value;
    assert p.id == it.productId && p.stock == FindProduct(snapshot, it.productId).value.stock;
    DataStore.StockUpdateOnlyStock(current, p.id, Floor0(p.stock - it.quantity));
  }

  /** A sale item for a product the snapshot does not have changes nothing and raises nothing. */
  lemma UnknownItemIgnored(current: seq<Product>, snapshot: seq<Product>, it: SaleItem, now: string, newId: string)
    requires forall i :: 0 <= i < |snapshot| ==> snapshot[i].id != it.productId
    ensures ApplyItem(current, snapshot, it) == current
    ensures AlertFor(snapshot, it, now, newId) == []
  {
  }

  /** Stock is taken from the snapshot, so two items for the same product do
      not compound: the second one's result replaces the first one's. */
  lemma {:induction false} LastItemWins(current: seq<Product>, snapshot: seq<Product>, items: seq<SaleItem>, a: SaleItem, b: SaleItem)
    requires a.productId == b.productId
    ensures Restock(current, snapshot, items + [a, b]) == Restock(current, snapshot, items + [b])
  {
    var before := Restock(current, snapshot, items);
    assert items + [a, b] == (items + [a]) + [b];
    RestockSnoc(current, snapshot, items + [a], b);
    RestockSnoc(current, snapshot, items, a);
    RestockSnoc(current, snapshot, items, b);
    ApplyTwice(before, snapshot, a, b);
  }

  /** The second of two items for one product overrides the first. */
  lemma ApplyTwice(current: seq<Product>, snapshot: seq<Product>, a: SaleItem, b: SaleItem)
    requires a.productId == b.productId
    ensures ApplyItem(ApplyItem(current, snapshot, a), snapshot, b) == ApplyItem(current, snapshot, b)
  {
    match FindProduct(snapshot, a.productId)
    case None =>
    case Some(p) =>
      DataStore.StockUpdateOverrides(current, p.id, Floor0(p.stock - a.quantity), Floor0(p.stock - b.quantity));
  }

  /** `it` changes the products with this id: it is for that id and the
      snapshot knows it. */
  predicate Touches(snapshot: seq<Product>, it: SaleItem, id: string)
  {
    it.productId == id && FindProduct(snapshot, id).Some?
  }

  /** A whole batch changes at most the stock of each product. */
  lemma {:induction false} RestockOnlyStock(current: seq<Product>, snapshot: seq<Product>, items: seq<SaleItem>, k: int)
    requires 0 <= k < |current|
    ensures Restock(current, snapshot, items)[k] == current[k].(stock := Restock(current, snapshot, items)[k].stock)
    decreases |items|
  {
    if items != [] {
      var init, x := items[..|items| - 1], items[|items| - 1];
      RestockOnlyStock(current, snapshot, init, k);
      var before := Restock(current, snapshot, init);
      match FindProduct(snapshot, x.productId)
      case None =>
      case Some(_) => ApplyItemSetsStock(before, snapshot, x, k);
    }
  }

  /** A product that no known item of the batch is for keeps its record. */
  lemma {:induction false} RestockUntouched(current: seq<Product>, snapshot: seq<Product>, items: seq<SaleItem>, k: int)
    requires 0 <= k < |current|
    requires forall j :: 0 <= j < |items| ==> !Touches(snapshot, items[j], current[k].id)
    ensures Restock(current, snapshot, items)[k] == current[k]
    decreases |items|
  {
    if items != [] {
      var init, x := items[..|items| - 1], items[|items| - 1];
      assert forall j :: 0 <= j < |init| ==> init[j] == items[j];
      RestockUntouched(current, snapshot, init, k);
      var before := Restock(current, snapshot, init);
      match FindProduct(snapshot, x.productId)
      case None =>
      case Some(_) => ApplyItemSetsStock(before, snapshot, x, k);
    }
  }

  /** Over a whole batch, a product's stock is set by the LAST known item for
      it, from the snapshot stock: max(0, snapshot stock - that item's
      quantity). Earlier items for it leave no trace. */
  lemma {:induction false} RestockLastWins(current: seq<Product>, snapshot: seq<Product>, items: seq<SaleItem>, k: int, j: int)
    requires 0 <= k < |current| && 0 <= j < |items|
    requires Touches(snapshot, items[j], current[k].id)
    requires forall m :: j < m < |items| ==> items[m].productId != current[k].id
    ensures Restock(current, snapshot, items)[k]
      == current[k].(stock := Floor0(FindProduct(snapshot, current[k].id).value.stock - items[j].quantity))
    decreases |items|
  {
    var init, x := items[..|items| - 1], items[|items| - 1];
    var before := Restock(current, snapshot, init);
    if j == |items| - 1 {
      RestockOnlyStock(current, snapshot, init, k);
      ApplyItemSetsStock(before, snapshot, x, k);
    } else {
      assert forall m :: 0 <= m < |init| ==> init[m] == items[m];
      RestockLastWins(current, snapshot, init, k, j);
      match FindProduct(snapshot, x.productId)
      case None =>
      case Some(_) => ApplyItemSetsStock(before, snapshot, x, k);
    }
  }

  /** Two items for the same product restock exactly as the second one alone. */
  lemma SameProductPair(current: seq<Product>, snapshot: seq<Product>, a: SaleItem, b: SaleItem)
    requires a.productId == b.productId
    ensures Restock(current, snapshot, [a, b]) == ApplyItem(current, snapshot, b)
  {
    LastItemWins(current, snapshot, [], a, b);
    assert [] + [a, b] == [a, b] && [] + [b] == [b];
    RestockSnoc(current, snapshot, [], b);
  }

  /** Concretely: for a product in the snapshot, two items of the same product
      leave max(0, snapshot stock - second quantity), not a sum of both. */
  lemma TwoItemsNoCompounding(snapshot: seq<Product>, a: SaleItem, b: SaleItem, i: int)
    requires a.productId == b.productId
    requires 0 <= i < |snapshot| && snapshot[i].id == b.productId
    ensures Restock(snapshot, snapshot, [a, b])[i].stock
      == Floor0(FindProduct(snapshot, b.productId).value.stock - b.quantity)
  {
    SameProductPair(snapshot, snapshot, a, b);
    ApplyItemSetsStock(snapshot, snapshot, b, i);
  }

  /** One more item of a sale, processed against the snapshot. */
  lemma ItemStep(current: seq<Product>, snapshot: seq<Product>, ns: seq<Notification>, items: seq<SaleItem>,
                 j: int, now: string, newId: string)
    requires 0 <= j < |items|
    ensures Restock(current, snapshot, items[..j + 1])
      == ApplyItem(Restock(current, snapshot, items[..j]), snapshot, items[j])
    ensures Prepended(ns, Alerts(snapshot, items[..j + 1], now, newId))
      == AlertFor(snapshot, items[j], now, newId) + Prepended(ns, Alerts(snapshot, items[..j], now, newId))
  {
    assert items[..j + 1] == items[..j] + [items[j]];
    RestockSnoc(current, snapshot, items[..j], items[j]);
    AlertsSnoc(snapshot, items[..j], items[j], now, newId);
    PrependedShort(ns, Alerts(snapshot, items[..j], now, newId), AlertFor(snapshot, items[j], now, newId));
  }

  lemma RevenueStep(sales: seq<Sale>, i: int)
    requires 0 <= i < |sales|
    ensures Seqs.Sum(sales[..i + 1], SaleTotal) == Seqs.Sum(sales[..i], SaleTotal) + sales[i].total
  {
    assert sales[..i + 1] == sales[..i] + [sales[i]];
    Seqs.SumAppend(sales[..i], [sales[i]], SaleTotal);
  }

  lemma AllItemsStep(sales: seq<Sale>, i: int)
    requires 0 <= i < |sales|
    ensures AllItems(sales[..i + 1]) == AllItems(sales[..i]) + sales[i].products
  {
    assert sales[..i + 1][..i] == sales[..i];
  }

  /** One more sale: its items restock and alert after those of the earlier sales. */
  lemma SaleStep(snapshot: seq<Product>, ns: seq<Notification>, sales: seq<Sale>, i: int, now: string, newId: string)
    requires 0 <= i < |sales|
    ensures Restock(Restock(snapshot, snapshot, AllItems(sales[..i])), snapshot, sales[i].products)
      == Restock(snapshot, snapshot, AllItems(sales[..i + 1]))
    ensures Prepended(Prepended(ns, Alerts(snapshot, AllItems(sales[..i]), now, newId)), Alerts(snapshot, sales[i].products, now, newId))
      == Prepended(ns, Alerts(snapshot, AllItems(sales[..i + 1]), now, newId))
  {
    var done := AllItems(sales[..i]);
    AllItemsStep(sales, i);
    RestockAppend(snapshot, snapshot, done, sales[i].products);
    AlertsAppend(snapshot, done, sales[i].products, now, newId);
    PrependedAppend(ns, Alerts(snapshot, done, now, newId), Alerts(snapshot, sales[i].products, now, newId));
  }

  // ---------------------------------------------------------------------------
  // The hook's state.

  class PosBridge {
    var isSyncing: bool
    var lastSyncTime: Option<string>
    var connectionStatus: ConnectionStatus
    const store: DataStore.Store

    /** `lastSyncTime` starts from the `lastPOSSync` storage slot. */
    constructor (store: DataStore.Store, storedSyncTime: Option<string>)
      ensures this.store == store
      ensures !isSyncing && lastSyncTime == storedSyncTime && connectionStatus == Checking
    {
      this.store := store;
      isSyncing := false;
      lastSyncTime := storedSyncTime;
      connectionStatus := Checking;
    }

    /** The health check: `checking` while in flight, then its outcome. */
    method TestConnection(healthy: bool) returns (ok: bool)
      modifies this
      ensures ok == healthy
      ensures connectionStatus == if healthy then Connected else Disconnected
      ensures isSyncing == old(isSyncing) && lastSyncTime == old(lastSyncTime)
    {
      connectionStatus := Checking;
      connectionStatus := if healthy then Connected else Disconnected;
      ok := healthy;
    }

    /** Pushes every product to the POS. `accepted` is the POS's answer. */
    method SyncProductsToPOS(user: Option<Auth.User>, accepted: bool, now: string, newId: string)
      returns (ok: bool, sent: seq<PosProduct>)
      modifies this, store
      ensures ok <==> user.Some? && accepted
      ensures user.Some? ==> sent == PosRecords(old(store.products), user.value.id)
      ensures user.None? ==> sent == [] && isSyncing == old(isSyncing)
      ensures user.Some? ==> !isSyncing
      ensures ok ==>
        lastSyncTime == Some(now) && store.notifications == [ProductsPushedNotice(|sent|, now, newId)] + old(store.notifications)
      ensures !ok ==> lastSyncTime == old(lastSyncTime) && store.notifications == old(store.notifications)
      ensures store.products == old(store.products) && store.orders == old(store.orders)
      ensures store.wholesalerRequests == old(store.wholesalerRequests) && store.companies == old(store.companies)
      ensures connectionStatus == old(connectionStatus)
    {
      if user.None? {
        return false, [];
      }
      isSyncing := true;
      sent := PosRecords(store.products, user.value.id);
      if accepted {
        lastSyncTime := Some(now);
        store.AddNotification(ProductsPushedNotice(|sent|, now, newId), newId);
        ok := true;
      } else {
        ok := false;
      }
      isSyncing := false;
    }

    /** Pushes one product; nothing in the store or the hook changes. */
    method SyncProductToPOS(user: Option<Auth.User>, product: Product, accepted: bool)
      returns (ok: bool, sent: Option<PosProduct>)
      ensures ok <==> user.Some? && accepted
      ensures user.None? ==> sent == None
      ensures user.Some? ==> sent == Some(PosRecord(product, user.value.id))
    {
      if user.None? {
        return false, None;
      }
      sent := Some(PosRecord(product, user.value.id));
      ok := accepted;
    }

    /** One sale item: the stock update and the low-stock check, against the
        snapshot taken when the sync started. */
    method ProcessItem(snapshot: seq<Product>, item: SaleItem, now: string, newId: string)
      modifies store
      ensures store.products == ApplyItem(old(store.products), snapshot, item)
      ensures store.notifications == AlertFor(snapshot, item, now, newId) + old(store.notifications)
      ensures store.orders == old(store.orders) && store.wholesalerRequests == old(store.wholesalerRequests)
      ensures store.companies == old(store.companies)
    {
      var found := FindProduct(snapshot, item.productId);
      if found.Some? {
        var product := found.value;
        var newStock := product.stock - item.quantity;
        store.UpdateProduct(product.id, StockPatch(Floor0(newStock)));
        if newStock <= product.minStock {
          store.AddNotification(LowStockAlert(product, newStock, now, newId), newId);
        }
      }
    }

    /** Every item of one sale, in order. */
    method ProcessSale(snapshot: seq<Product>, sale: Sale, now: string, newId: string)
      modifies store
      ensures store.products == Restock(old(store.products), snapshot, sale.products)
      ensures store.notifications == Prepended(old(store.notifications), Alerts(snapshot, sale.products, now, newId))
      ensures store.orders == old(store.orders) && store.wholesalerRequests == old(store.wholesalerRequests)
      ensures store.companies == old(store.companies)
    {
      ghost var products0, notes0 := store.products, store.notifications;
      var j := 0;
      while j < |sale.products|
        invariant 0 <= j <= |sale.products|
        invariant store.products == Restock(products0, snapshot, sale.products[..j])
        invariant store.notifications == Prepended(notes0, Alerts(snapshot, sale.products[..j], now, newId))
        invariant store.orders == old(store.orders) && store.wholesalerRequests == old(store.wholesalerRequests)
        invariant store.companies == old(store.companies)
      {
        ProcessItem(snapshot, sale.products[j], now, newId);
        ItemStep(products0, snapshot, notes0, sale.products, j, now, newId);
        j := j + 1;
      }
      assert sale.products[..j] == sale.products;
    }

    /** Every sale of one sync, in order; the result is the revenue counted. */
    method ProcessSales(sales: seq<Sale>, now: string, newId: string) returns (revenue: real)
      modifies store
      ensures revenue == Seqs.Sum(sales, SaleTotal)
      ensures store.products == Restock(old(store.products), old(store.products), AllItems(sales))
      ensures store.notifications
        == Prepended(old(store.notifications), Alerts(old(store.products), AllItems(sales), now, newId))
      ensures store.orders == old(store.orders) && store.wholesalerRequests == old(store.wholesalerRequests)
      ensures store.companies == old(store.companies)
    {
      var snapshot := store.products;
      ghost var notes0 := store.notifications;
      revenue := 0.0;
      var i := 0;
      while i < |sales|
        invariant 0 <= i <= |sales|
        invariant revenue == Seqs.Sum(sales[..i], SaleTotal)
        invariant store.products == Restock(snapshot, snapshot, AllItems(sales[..i]))
        invariant store.notifications == Prepended(notes0, Alerts(snapshot, AllItems(sales[..i]), now, newId))
        invariant store.orders == old(store.orders) && store.wholesalerRequests == old(store.wholesalerRequests)
        invariant store.companies == old(store.companies)
      {
        revenue := revenue + sales[i].total;
        RevenueStep(sales, i);
        ProcessSale(snapshot, sales[i], now, newId);
        SaleStep(snapshot, notes0, sales, i, now, newId);
        i := i + 1;
      }
      assert sales[..i] == sales;
    }

    /** Pulls the sales recorded since the last sync and reconciles stock.
        `fetched` is the POS answer (`None` when the request fails); the
        result lists the sale ids acknowledged back to the POS. */
    method SyncSalesFromPOS(user: Option<Auth.User>, fetched: Option<seq<Sale>>, now: string, newId: string)
      returns (acknowledged: seq<string>, totalSales: nat, totalRevenue: real)
      modifies this, store
      ensures user.None? ==> isSyncing == old(isSyncing)
      ensures user.Some? ==> !isSyncing
      ensures user.None? || fetched.None? ==>
        store.products == old(store.products) && store.notifications == old(store.notifications)
        && lastSyncTime == old(lastSyncTime) && acknowledged == []
      ensures user.Some? && fetched.Some? ==>
        var sales := fetched.value;
        var snapshot := old(store.products);
        var alerts := Alerts(snapshot, AllItems(sales), now, newId);
        && totalSales == |sales| && totalRevenue == Seqs.Sum(sales, SaleTotal)
        && store.products == Restock(snapshot, snapshot, AllItems(sales))
        && store.notifications == Prepended(old(store.notifications),
             if |sales| > 0 then alerts + [SummaryNotice(|sales|, now, newId)] else alerts)
        && acknowledged == (if |sales| > 0 then SaleIds(sales) else [])
        && lastSyncTime == Some(now)
      ensures store.orders == old(store.orders) && store.wholesalerRequests == old(store.wholesalerRequests)
      ensures store.companies == old(store.companies) && connectionStatus == old(connectionStatus)
    {
      acknowledged, totalSales, totalRevenue := [], 0, 0.0;
      if user.None? {
        return;
      }
      isSyncing := true;
      if fetched.None? {
        isSyncing := false;
        return;
      }
      var sales := fetched.value;
      var snapshot := store.products;
      ghost var notes0 := store.notifications;
      totalRevenue := ProcessSales(sales, now, newId);
      totalSales := |sales|;
      ghost var alerts := Alerts(snapshot, AllItems(sales), now, newId);
      if totalSales > 0 {
        var summary := SummaryNotice(totalSales, now, newId);
        assert summary.(id := newId) == summary;
        store.AddNotification(summary, newId);
        PrependedSnoc(notes0, alerts, summary);
        acknowledged := SaleIds(sales);
      }
      lastSyncTime := Some(now);
      isSyncing := false;
    }

    /** One tick of the five-minute timer: it syncs only while connected,
        and then has exactly the effect of `SyncSalesFromPOS`. */
    method AutoSyncTick(user: Option<Auth.User>, fetched: Option<seq<Sale>>, now: string, newId: string)
      returns (synced: bool, acknowledged: seq<string>, totalSales: nat, totalRevenue: real)
      modifies this, store
      ensures synced <==> old(connectionStatus) == Connected
      ensures !synced ==>
        store.products == old(store.products) && store.notifications == old(store.notifications)
        && lastSyncTime == old(lastSyncTime) && isSyncing == old(isSyncing) && acknowledged == []
      ensures synced && user.Some? ==> !isSyncing
      ensures synced && (user.None? || fetched.None?) ==>
        store.products == old(store.products) && store.notifications == old(store.notifications)
        && lastSyncTime == old(lastSyncTime) && acknowledged == []
      ensures synced && user.Some? && fetched.Some? ==>
        var sales := fetched.value;
        var snapshot := old(store.products);
        var alerts := Alerts(snapshot, AllItems(sales), now, newId);
        && totalSales == |sales| && totalRevenue == Seqs.Sum(sales, SaleTotal)
        && store.products == Restock(snapshot, snapshot, AllItems(sales))
        && store.notifications == Prepended(old(store.notifications),
             if |sales| > 0 then alerts + [SummaryNotice(|sales|, now, newId)] else alerts)
        && acknowledged == (if |sales| > 0 then SaleIds(sales) else [])
        && lastSyncTime == Some(now)
      ensures store.orders == old(store.orders) && store.wholesalerRequests == old(store.wholesalerRequests)
      ensures store.companies == old(store.companies) && connectionStatus == old(connectionStatus)
    {
      synced := connectionStatus == Connected;
      acknowledged, totalSales, totalRevenue := [], 0, 0.0;
      if synced {
        acknowledged, totalSales, totalRevenue := SyncSalesFromPOS(user, fetched, now, newId);
      }
    }
  }
}
