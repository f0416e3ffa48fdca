/** The domain records of the dashboard (src/types/index.ts): products, orders,
    companies, partnership requests and notifications, together with the
    closed string unions they use. Money is exact (`real`), counts are `int`. */
module Types {

  import Seqs

  datatype Option<T> = None | Some(value: T) {
    function GetOr(default: T): T
    {
      match this
      case Some(v) => v
      case None => default
    }
  }

  /** A key the patch leaves out of a spread `{...a, ...b}` keeps the old value. */
  function Override<T>(current: T, patch: Option<T>): T
  {
    patch.GetOr(current)
  }

  datatype OrderStatus = Pending | Processing | Shipped | Delivered | Cancelled

  /** The string the views compare with (`order.status === filterStatus`). */
  function OrderStatusName(s: OrderStatus): string
  {
    match s
    case Pending => "pending"
    case Processing => "processing"
    case Shipped => "shipped"
    case Delivered => "delivered"
    case Cancelled => "cancelled"
  }

  datatype RequestStatus = Pending | Approved | Rejected

  datatype NotificationType =
    LowStock | OrderPlaced | PaymentReceived | OrderShipped | System | WholesalerRequestKind

  function NotificationTypeName(t: NotificationType): string
  {
    match t
    case LowStock => "low_stock"
    case OrderPlaced => "order_placed"
    case PaymentReceived => "payment_received"
    case OrderShipped => "order_shipped"
    case System => "system"
    case WholesalerRequestKind => "wholesaler_request"
  }

  datatype Priority = High | Medium | Low

  datatype BusinessType = DistributorBusiness | WholesalerBusiness | RetailerBusiness

  datatype Product = Product(
    id: string,
    name: string,
    sku: string,
    barcode: string,
    category: string,
    brand: string,
    price: real,
    stock: int,
    minStock: int,
    description: string,
    image: string,
    distributorId: Option<string>,
    hsCode: string,
    vatRate: real,
    unitOfMeasure: string)

  /** `Partial<Product>`: every field may be given or left out. */
  datatype ProductPatch = ProductPatch(
    id: Option<string>,
    name: Option<string>,
    sku: Option<string>,
    barcode: Option<string>,
    category: Option<string>,
    brand: Option<string>,
    price: Option<real>,
    stock: Option<int>,
    minStock: Option<int>,
    description: Option<string>,
    image: Option<string>,
    distributorId: Option<Option<string>>,
    hsCode: Option<string>,
    vatRate: Option<real>,
    unitOfMeasure: Option<string>)

  /** `{ stock: n }`, the only patch the POS sync sends. */
  function StockPatch(n: int): ProductPatch
  {
    ProductPatch(None, None, None, None, None, None, None, Some(n), None, None, None, None, None, None, None)
  }

  /** `{ ...p, ...patch }` for products. */
  function MergeProduct(p: Product, u: ProductPatch): Product
  {
    Product(
      Override(p.id, u.id), Override(p.name, u.name), Override(p.sku, u.sku),
      Override(p.barcode, u.barcode), Override(p.category, u.category),
      Override(p.brand, u.brand), Override(p.price, u.price),
      Override(p.stock, u.stock), Override(p.minStock, u.minStock),
      Override(p.description, u.description), Override(p.image, u.image),
      Override(p.distributorId, u.distributorId), Override(p.hsCode, u.hsCode),
      Override(p.vatRate, u.vatRate), Override(p.unitOfMeasure, u.unitOfMeasure))
  }

  /** `products.find(p => p.id === id)`: the first product with that id. */
  function FindProduct(ps: seq<Product>, id: string): (r: Option<Product>)
    ensures r.Some? <==> exists i :: 0 <= i < |ps| && ps[i].id == id
    ensures r.Some? ==> r.value.id == id
  {
    if ps == [] then None
    else if ps[0].id == id then Some(ps[0])
    else FindProduct(ps[1..], id)
  }

  /** The product found is the first one with that id. */
  lemma {:induction false} FindProductFirst(ps: seq<Product>, id: string) returns (i: int)
    requires FindProduct(ps, id).Some?
    ensures 0 <= i < |ps| && ps[i] == FindProduct(ps, id).value
    ensures forall j :: 0 <= j < i ==> ps[j].id != id
  {
    if ps[0].id == id {
      i := 0;
    } else {
      var k := FindProductFirst(ps[1..], id);
      i := k + 1;
    }
  }

  /** The one stock rule of the domain: a product is low on stock at or below its minimum. */
  predicate IsLowStock(p: Product)
  {
    p.stock <= p.minStock
  }

  datatype OrderItem = OrderItem(
    productId: string,
    productName: string,
    quantity: int,
    price: real,
    total: real,
    vatAmount: real)

  datatype Order = Order(
    id: string,
    orderNumber: string,
    customerId: string,
    customerName: string,
    products: seq<OrderItem>,
    total: real,
    status: OrderStatus,
    date: string,
    invoiceNumber: Option<string>,
    vatAmount: real,
    deliveryAddress: string,
    paymentTerms: string,
    createdBy: string)

  function ItemTotal(i: OrderItem): real { i.total }
  function ItemVat(i: OrderItem): real { i.vatAmount }

  /** A line is priced consistently: total = quantity x price, VAT = total x rate / 100. */
  predicate LineConsistent(i: OrderItem, vatRate: real)
  {
    i.total == i.quantity as real * i.price && i.vatAmount == i.total * vatRate / 100.0
  }

  /** An order's aggregates agree with its lines: vatAmount = sum of line VAT,
      total = sum of line totals + vatAmount. */
  predicate TotalsConsistent(o: Order)
  {
    o.vatAmount == Seqs.Sum(o.products, ItemVat)
    && o.total == Seqs.Sum(o.products, ItemTotal) + o.vatAmount
  }

  datatype Company = Company(
    id: string,
    name: string,
    pan: string,
    vatNumber: string,
    address: string,
    phone: string,
    email: string,
    registrationNumber: string,
    establishmentDate: string,
    businessType: BusinessType,
    ownerName: string,
    ownerCitizenship: string,
    bankAccountNumber: string,
    bankName: string,
    licenseNumber: Option<string>,
    licenseExpiryDate: Option<string>)

  /** One product a wholesaler picked when accepting a partnership request. */
  datatype RequestSelection = RequestSelection(productId: string, quantity: int)

  datatype WholesalerRequest = WholesalerRequest(
    id: string,
    distributorId: string,
    distributorName: string,
    wholesalerId: string,
    wholesalerName: string,
    products: seq<Product>,
    status: RequestStatus,
    requestDate: string,
    responseDate: Option<string>,
    selectedProducts: Option<seq<RequestSelection>>,
    message: Option<string>)

  /** `Partial<WholesalerRequest>`. */
  datatype RequestPatch = RequestPatch(
    id: Option<string>,
    distributorId: Option<string>,
    distributorName: Option<string>,
    wholesalerId: Option<string>,
    wholesalerName: Option<string>,
    products: Option<seq<Product>>,
    status: Option<RequestStatus>,
    requestDate: Option<string>,
    responseDate: Option<Option<string>>,
    selectedProducts: Option<Option<seq<RequestSelection>>>,
    message: Option<Option<string>>)

  /** `{ ...r, ...patch }` for partnership requests. */
  function MergeRequest(r: WholesalerRequest, u: RequestPatch): WholesalerRequest
  {
    WholesalerRequest(
      Override(r.id, u.id), Override(r.distributorId, u.distributorId),
      Override(r.distributorName, u.distributorName), Override(r.wholesalerId, u.wholesalerId),
      Override(r.wholesalerName, u.wholesalerName), Override(r.products, u.products),
      Override(r.status, u.status), Override(r.requestDate, u.requestDate),
      Override(r.responseDate, u.responseDate), Override(r.selectedProducts, u.selectedProducts),
      Override(r.message, u.message))
  }

  datatype Notification = Notification(
    id: string,
    ntype: NotificationType,
    title: string,
    message: string,
    timestamp: string,
    read: bool,
    priority: Priority,
    wholesaler: Option<string>,
    product: Option<string>,
    orderNumber: Option<string>,
    amount: Option<real>,
    requestId: Option<string>)
}
