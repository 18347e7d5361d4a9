/** The persisted state behind the order and payment controllers: order
    documents, the per-product stock counters and the OTP records, held in
    memory. A Mongo `findById` is a map lookup, `save` a map update,
    `deleteOne` a key removal, and "the newest OTP record for a phone" is the
    last one appended. */
module OrderModel {

  datatype Option<T> = None | Some(value: T)

  type OrderId = nat
  type UserId = nat
  type ProductId = string

  datatype PaymentStatus = Pending | Paid | Failed
  datatype OrderStatus = Pending | Processing | Shipped | Delivered

  /** The name Mongo stores and the query filters compare with. */
  function PaymentStatusName(s: PaymentStatus): string
  {
    match s
    case Pending => "Pending"
    case Paid => "Paid"
    case Failed => "Failed"
  }

  function OrderStatusName(s: OrderStatus): string
  {
    match s
    case Pending => "Pending"
    case Processing => "Processing"
    case Shipped => "Shipped"
    case Delivered => "Delivered"
  }

  datatype OrderItem = OrderItem(productId: ProductId, name: string, price: int, quantity: int)

  /** The shipping address as the client sends it; only the phone number is
      read by the code modelled here. */
  datatype ShippingInfo = ShippingInfo(address: string, phone: string)

  /** An order document. Money is in paise, exactly as the client sent it;
      `createdAt` is the Mongo timestamp in milliseconds. */
  datatype Order = Order(
    user: UserId,
    orderItems: seq<OrderItem>,
    shippingInfo: ShippingInfo,
    subTotal: int,
    tax: int,
    discount: int,
    shippingCharges: int,
    total: int,
    paymentMethod: string,
    paymentStatus: PaymentStatus,
    status: OrderStatus,
    createdAt: int)

  /** An OTP record: the phone number and the SMS provider's session id. */
  datatype OtpRecord = OtpRecord(phoneNumber: string, otp: string)

  /** The whole store as a value. */
  datatype Db = Db(
    orders: map<OrderId, Order>,
    stock: map<ProductId, int>,
    otps: seq<OtpRecord>,
    nextId: OrderId)
  {
    /** Every stored id was handed out before `nextId`, so `nextId` is fresh. */
    predicate Valid()
    {
      forall id :: id in orders ==> id < nextId
    }
  }

  // ---------------------------------------------------------------------
  // Stock. The body of the source's reduceStock is not part of this model;
  // it is taken to lower each ordered product's counter by the item's
  // quantity, item by item, with no floor and no rollback.
  // ---------------------------------------------------------------------

  function Decrement(stock: map<ProductId, int>, item: OrderItem): map<ProductId, int>
  {
    if item.productId in stock then stock[item.productId := stock[item.productId] - item.quantity]
    else stock
  }

  function ReduceStock(stock: map<ProductId, int>, items: seq<OrderItem>): map<ProductId, int>
  {
    if items == [] then stock
    else Decrement(ReduceStock(stock, items[..|items| - 1]), items[|items| - 1])
  }

  /** Total quantity of product p over the items. */
  function QuantityOf(items: seq<OrderItem>, p: ProductId): int
  {
    if items == [] then 0
    else QuantityOf(items[..|items| - 1], p)
         + (if items[|items| - 1].productId == p then items[|items| - 1].quantity else 0)
  }

  /** Reducing stock for a list of items lowers each known product's counter
      by the total quantity ordered of it, and adds no products. */
  lemma {:induction false} ReduceStockPerProduct(stock: map<ProductId, int>, items: seq<OrderItem>)
    ensures ReduceStock(stock, items).Keys == stock.Keys
    ensures forall p :: p in stock ==> ReduceStock(stock, items)[p] == stock[p] - QuantityOf(items, p)
  {
    if items != [] {
      ReduceStockPerProduct(stock, items[..|items| - 1]);
    }
  }

  /** Nothing guards against a repeat: reducing twice for the same items
      takes the quantities off twice. */
  lemma ReduceStockTwice(stock: map<ProductId, int>, items: seq<OrderItem>)
    ensures ReduceStock(ReduceStock(stock, items), items).Keys == stock.Keys
    ensures forall p :: p in stock ==>
      ReduceStock(ReduceStock(stock, items), items)[p] == stock[p] - 2 * QuantityOf(items, p)
  {
    ReduceStockPerProduct(stock, items);
    ReduceStockPerProduct(ReduceStock(stock, items), items);
  }

  // ---------------------------------------------------------------------
  // OTP records
  // ---------------------------------------------------------------------

  /** `Otp.findOne({ phoneNumber }).sort({ createdAt: -1 })`: the record for
      the phone that was created last. */
  function LatestOtp(otps: seq<OtpRecord>, phone: string): (r: Option<OtpRecord>)
    ensures r.Some? ==> r.value in otps && r.value.phoneNumber == phone
    ensures r.None? <==> forall i :: 0 <= i < |otps| ==> otps[i].phoneNumber != phone
  {
    if otps == [] then None
    else if otps[|otps| - 1].phoneNumber == phone then Some(otps[|otps| - 1])
    else LatestOtp(otps[..|otps| - 1], phone)
  }

  /** A new record for a phone supersedes the older ones for that phone and
      leaves every other phone's latest record as it was. */
  lemma LatestAfterCreate(otps: seq<OtpRecord>, rec: OtpRecord, phone: string)
    ensures LatestOtp(otps + [rec], phone)
         == if phone == rec.phoneNumber then Some(rec) else LatestOtp(otps, phone)
  {
    assert (otps + [rec])[..|otps|] == otps;
  }

  // ---------------------------------------------------------------------
  // The store as mutable state
  // ---------------------------------------------------------------------

  /** The database the handlers read and write in place. */
  class Database {
    var orders: map<OrderId, Order>
    var stock: map<ProductId, int>
    var otps: seq<OtpRecord>
    var nextId: OrderId

    function Snapshot(): Db
      reads this
    {
      Db(orders, stock, otps, nextId)
    }

    ghost predicate Valid()
      reads this
    {
      Snapshot().Valid()
    }

    constructor (initialStock: map<ProductId, int>)
      ensures Valid()
      ensures Snapshot() == Db(map[], initialStock, [], 0)
    {
      orders, stock, otps, nextId := map[], initialStock, [], 0;
    }
  }
}
