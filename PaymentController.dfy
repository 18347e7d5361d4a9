/** The payment handlers of the server: the status helper shared by every
    payment path, the gateway order request, the gateway payment
    verification, and the cash-on-delivery OTP send and verify.

    Each handler that changes the store appears twice: as a function from the
    store's state (a `Db`) and the outside world's answers to the new state
    and the reply, which is where its properties are stated, and as a method
    that performs it step by step on a `Database`, proved to end in the state
    the function gives. createRazorpayOrder changes nothing and is a
    function only.
    The HMAC-SHA256 primitive, the gateway's payment fetch and the SMS
    provider's replies are parameters. */
module PaymentController {
  import opened OrderModel
  import opened Api

  // ---------------------------------------------------------------------
  // updateOrderPaymentStatus
  // ---------------------------------------------------------------------

  datatype Update = Updated(db: Db) | OrderNotFound

  /** The helper sets the payment status, sets the delivery status only when
      one is given, and reduces stock unless the new payment status is
      Failed. It has no guard against being applied twice. */
  function PaymentOutcome(db: Db, id: OrderId, paymentStatus: PaymentStatus, orderStatus: Option<OrderStatus>): (r: Update)
    ensures r.OrderNotFound? <==> id !in db.orders
    ensures r.Updated? ==> r.db.orders.Keys == db.orders.Keys
    ensures r.Updated? ==>
      var o, o' := db.orders[id], r.db.orders[id];
      && r.db.orders == db.orders[id := o']
      && o'.paymentStatus == paymentStatus
      && o'.status == (if orderStatus.Some? then orderStatus.value else o.status)
      && o'.(paymentStatus := o.paymentStatus, status := o.status) == o
      && r.db.otps == db.otps && r.db.nextId == db.nextId
    ensures r.Updated? && paymentStatus == PaymentStatus.Failed ==> r.db.stock == db.stock
    ensures r.Updated? && paymentStatus != PaymentStatus.Failed ==>
      r.db.stock == ReduceStock(db.stock, db.orders[id].orderItems)
  {
    if id !in db.orders then OrderNotFound
    else
      var o := db.orders[id];
      var o' := o.(paymentStatus := paymentStatus,
                   status := if orderStatus.Some? then orderStatus.value else o.status);
      var stock' := if paymentStatus == PaymentStatus.Paid || paymentStatus == PaymentStatus.Pending
                    then ReduceStock(db.stock, o.orderItems) else db.stock;
      Updated(db.(orders := db.orders[id := o'], stock := stock'))
  }

  /** Per product: the counter drops by the ordered quantity on Paid or
      Pending and stays on Failed. */
  lemma PaymentOutcomeStock(db: Db, id: OrderId, ps: PaymentStatus, os: Option<OrderStatus>, p: ProductId)
    requires id in db.orders && p in db.stock
    ensures p in PaymentOutcome(db, id, ps, os).db.stock
    ensures PaymentOutcome(db, id, ps, os).db.stock[p]
         == db.stock[p] - (if ps == PaymentStatus.Failed then 0 else QuantityOf(db.orders[id].orderItems, p))
  {
    ReduceStockPerProduct(db.stock, db.orders[id].orderItems);
  }

  /** Two successful outcomes for the same order take its items off the
      stock twice. */
  lemma RepeatedSuccessReducesTwice(db: Db, id: OrderId, p: ProductId)
    requires id in db.orders && p in db.stock
    ensures
      var once := PaymentOutcome(db, id, PaymentStatus.Paid, Some(OrderStatus.Processing)).db;
      var twice := PaymentOutcome(once, id, PaymentStatus.Paid, Some(OrderStatus.Processing)).db;
      p in twice.stock && twice.stock[p] == db.stock[p] - 2 * QuantityOf(db.orders[id].orderItems, p)
  {
    var once := PaymentOutcome(db, id, PaymentStatus.Paid, Some(OrderStatus.Processing)).db;
    assert once.orders[id].orderItems == db.orders[id].orderItems;
    ReduceStockTwice(db.stock, db.orders[id].orderItems);
  }

  /** `updateOrderPaymentStatus`; `found` is false where the source throws
      its 404. */
  method UpdateOrderPaymentStatus(db: Database, id: OrderId, paymentStatus: PaymentStatus, orderStatus: Option<OrderStatus>)
    returns (found: bool)
    modifies db
    ensures found <==> id in old(db.orders)
    ensures found ==> PaymentOutcome(old(db.Snapshot()), id, paymentStatus, orderStatus) == Updated(db.Snapshot())
    ensures !found ==> db.Snapshot() == old(db.Snapshot())
  {
    if id !in db.orders {
      return false;
    }
    var order := db.orders[id];
    order := order.(paymentStatus := paymentStatus);
    if orderStatus.Some? {
      order := order.(status := orderStatus.value);
    }
    if paymentStatus == PaymentStatus.Paid || paymentStatus == PaymentStatus.Pending {
      db.stock := ReduceStock(db.stock, order.orderItems);
    }
    db.orders := db.orders[id := order];
    found := true;
  }

  // ---------------------------------------------------------------------
  // createRazorpayOrder
  // ---------------------------------------------------------------------

  /** The request body; `amount` is already in paise (`Math.round(amount * 100)`),
      None when absent; an empty `receipt` is an absent one. */
  datatype RazorpayOrderRequest = RazorpayOrderRequest(amount: Option<int>, receipt: string, orderId: Option<OrderId>)

  /** The receipt sent to the gateway: the client's, or `rcpt_` and the clock. */
  datatype Receipt = GivenReceipt(text: string) | TimestampReceipt(now: int)

  /** The order the server asks the gateway to create. */
  datatype GatewayOrder = GatewayOrder(amount: int, currency: string, receipt: Receipt, notesOrderId: OrderId)

  datatype GatewayOrderResult = CreateGatewayOrder(order: GatewayOrder) | Rejected(reply: Reply)

  const MinimumPaise: int := 100

  /** The guards of createRazorpayOrder in their order: the order id first,
      then a missing (or zero) amount, then the one-rupee minimum; past them
      the gateway is asked for exactly the paise amount in INR. */
  function CreateRazorpayOrder(req: RazorpayOrderRequest, now: int): (r: GatewayOrderResult)
    ensures req.orderId.None? ==> r == Rejected(Error(400, "Order ID required for Razorpay"))
    ensures req.orderId.Some? && (req.amount.None? || req.amount.value == 0) ==>
      r == Rejected(Error(400, "Please provide amount"))
    ensures r.CreateGatewayOrder? <==> req.orderId.Some? && req.amount.Some? && req.amount.value >= MinimumPaise
    ensures r.Rejected? ==> r.reply.Error? && r.reply.code == 400
    ensures r.CreateGatewayOrder? ==>
      && r.order.amount == req.amount.value
      && r.order.currency == "INR"
      && r.order.notesOrderId == req.orderId.value
      && r.order.receipt == (if req.receipt == "" then TimestampReceipt(now) else GivenReceipt(req.receipt))
  {
    if req.orderId.None? then Rejected(Error(400, "Order ID required for Razorpay"))
    else if req.amount.None? || req.amount.value == 0 then Rejected(Error(400, "Please provide amount"))
    else if req.amount.value < MinimumPaise then Rejected(Error(400, "Amount must be at least \U{20B9}1."))
    else
      var receipt := if req.receipt == "" then TimestampReceipt(now) else GivenReceipt(req.receipt);
      CreateGatewayOrder(GatewayOrder(req.amount.value, "INR", receipt, req.orderId.value))
  }

  /** What `razorpay.orders.create` gave: the created order's id, amount
      and currency, or a rejection carrying the thrown value's `message`
      ("" when it has none). */
  datatype GatewayAnswer = GatewayCreated(id: string, amount: int, currency: string) | GatewayThrew(message: string)

  /** The handler's answer: the 200 body with the public key and the
      gateway order's id, amount and currency, or an error reply. */
  datatype RazorpayOrderReply = OrderCreated(key: string, orderId: string, amount: int, currency: string)
                              | OrderRefused(reply: Reply)

  /** createRazorpayOrder to its reply, with `create` the gateway's answer
      to an order and `key` the configured public key. A rejection by the
      gateway is not caught in the handler: the server's error middleware
      answers `err.status || 500` with `err.message || "Server Error"`, and
      the gateway's rejection carries no `status`. */
  function RazorpayOrderResponse(req: RazorpayOrderRequest, now: int, key: string,
                                 create: GatewayOrder -> GatewayAnswer): (r: RazorpayOrderReply)
    ensures CreateRazorpayOrder(req, now).Rejected? ==> r == OrderRefused(CreateRazorpayOrder(req, now).reply)
    ensures r.OrderCreated? <==>
      CreateRazorpayOrder(req, now).CreateGatewayOrder? && create(CreateRazorpayOrder(req, now).order).GatewayCreated?
    ensures r.OrderCreated? ==>
      var g := create(CreateRazorpayOrder(req, now).order);
      r == OrderCreated(key, g.id, g.amount, g.currency)
    ensures CreateRazorpayOrder(req, now).CreateGatewayOrder? && create(CreateRazorpayOrder(req, now).order).GatewayThrew? ==>
      var m := create(CreateRazorpayOrder(req, now).order).message;
      r == OrderRefused(Error(500, if m == "" then "Server Error" else m))
    ensures r.OrderRefused? ==> r.reply.Error? && (r.reply.code == 400 || r.reply.code == 500)
  {
    match CreateRazorpayOrder(req, now)
    case Rejected(reply) => OrderRefused(reply)
    case CreateGatewayOrder(order) =>
      match create(order)
      case GatewayCreated(id, amount, currency) => OrderCreated(key, id, amount, currency)
      case GatewayThrew(m) => OrderRefused(Error(500, if m == "" then "Server Error" else m))
  }

  // ---------------------------------------------------------------------
  // verifyRazorpayPayment
  // ---------------------------------------------------------------------

  /** The request body; an empty string is an absent field. */
  datatype VerifyRequest = VerifyRequest(
    orderId: Option<OrderId>,
    razorpayOrderId: string,
    razorpayPaymentId: string,
    razorpaySignature: string)

  /** What `razorpay.payments.fetch` gave: it threw (with its `description`,
      empty when it had none), or it returned the payment's status and error
      texts (empty when absent). */
  datatype PaymentFetch = FetchFailed(description: string) | Fetched(status: string, errorReason: string, errorDescription: string)

  predicate HasAllFields(req: VerifyRequest)
  {
    req.orderId.Some? && req.razorpayOrderId != "" && req.razorpayPaymentId != "" && req.razorpaySignature != ""
  }

  /** The string the gateway signs: `{razorpay_order_id}|{razorpay_payment_id}`. */
  function SignedPayload(req: VerifyRequest): (s: string)
    ensures |s| == |req.razorpayOrderId| + 1 + |req.razorpayPaymentId|
    ensures s[|req.razorpayOrderId|] == '|'
    ensures s[..|req.razorpayOrderId|] == req.razorpayOrderId
    ensures s[|req.razorpayOrderId| + 1..] == req.razorpayPaymentId
  {
    req.razorpayOrderId + "|" + req.razorpayPaymentId
  }

  /** `hmac` is HMAC-SHA256 under the server's secret, as lower-case hex;
      the comparison is plain string equality. */
  predicate SignatureMatches(req: VerifyRequest, hmac: string -> string)
  {
    hmac(SignedPayload(req)) == req.razorpaySignature
  }

  predicate Captured(fetch: PaymentFetch)
  {
    fetch.Fetched? && fetch.status == "captured"
  }

  /** What verification decides before any order is touched. */
  datatype Settlement = RejectRequest(reply: Reply) | Settle(paymentStatus: PaymentStatus, orderStatus: OrderStatus, reply: Reply)

  /** `error_reason || error_description || "Payment not captured"`: never
      empty, and the first non-empty of the three. */
  function FailureReason(fetch: PaymentFetch): (r: string)
    requires fetch.Fetched?
    ensures r != ""
    ensures fetch.errorReason != "" ==> r == fetch.errorReason
    ensures fetch.errorReason == "" && fetch.errorDescription != "" ==> r == fetch.errorDescription
    ensures fetch.errorReason == "" && fetch.errorDescription == "" ==> r == "Payment not captured"
  {
    if fetch.errorReason != "" then fetch.errorReason
    else if fetch.errorDescription != "" then fetch.errorDescription
    else "Payment not captured"
  }

  /** A request missing a field is refused outright; every other request
      settles the order, as Paid and Processing exactly when the signature
      matches and the gateway reports the payment captured, and as Failed
      with delivery Pending otherwise. */
  function VerifyDecision(req: VerifyRequest, hmac: string -> string, fetch: PaymentFetch): (d: Settlement)
    ensures d.RejectRequest? <==> !HasAllFields(req)
    ensures d.RejectRequest? ==> d.reply == Error(400, "Missing payment verification fields")
    ensures (d.Settle? && d.paymentStatus == PaymentStatus.Paid)
        <==> (HasAllFields(req) && SignatureMatches(req, hmac) && Captured(fetch))
    ensures d.Settle? && d.paymentStatus == PaymentStatus.Paid ==>
      d.orderStatus == OrderStatus.Processing && d.reply == Ok(200, "Payment successful")
    ensures d.Settle? && d.paymentStatus != PaymentStatus.Paid ==>
      d.paymentStatus == PaymentStatus.Failed && d.orderStatus == OrderStatus.Pending
      && d.reply.Error? && d.reply.code == 400
    ensures HasAllFields(req) && !SignatureMatches(req, hmac) ==>
      d == Settle(PaymentStatus.Failed, OrderStatus.Pending, Error(400, "Invalid payment signature"))
    ensures HasAllFields(req) && SignatureMatches(req, hmac) && fetch.FetchFailed? ==>
      d.reply == Error(400, "Payment fetch failed: " + (if fetch.description != "" then fetch.description else "Unknown"))
    ensures HasAllFields(req) && SignatureMatches(req, hmac) && fetch.Fetched? && fetch.status != "captured" ==>
      d.reply == Error(400, "Payment failed: " + FailureReason(fetch))
  {
    if !HasAllFields(req) then RejectRequest(Error(400, "Missing payment verification fields"))
    else if !SignatureMatches(req, hmac) then
      Settle(PaymentStatus.Failed, OrderStatus.Pending, Error(400, "Invalid payment signature"))
    else if fetch.FetchFailed? then
      Settle(PaymentStatus.Failed, OrderStatus.Pending,
             Error(400, "Payment fetch failed: " + (if fetch.description != "" then fetch.description else "Unknown")))
    else if fetch.status != "captured" then
      Settle(PaymentStatus.Failed, OrderStatus.Pending, Error(400, "Payment failed: " + FailureReason(fetch)))
    else
      Settle(PaymentStatus.Paid, OrderStatus.Processing, Ok(200, "Payment successful"))
  }

  /** verifyRazorpayPayment on the store. */
  function PaymentVerification(db: Db, req: VerifyRequest, hmac: string -> string, fetch: PaymentFetch): (out: (Db, Reply))
    ensures out.0.orders.Keys == db.orders.Keys
    ensures !HasAllFields(req) ==> out == (db, Error(400, "Missing payment verification fields"))
    ensures HasAllFields(req) && req.orderId.value !in db.orders ==> out == (db, Error(404, "Order not found"))
    ensures out.1.Ok? <==>
      HasAllFields(req) && req.orderId.value in db.orders && SignatureMatches(req, hmac) && Captured(fetch)
    ensures out.1.Ok? ==>
      var id := req.orderId.value;
      && out.0.orders[id].paymentStatus == PaymentStatus.Paid
      && out.0.orders[id].status == OrderStatus.Processing
      && out.0.stock == ReduceStock(db.stock, db.orders[id].orderItems)
    ensures out.1.Error? ==> out.0.stock == db.stock
    ensures HasAllFields(req) && req.orderId.value in db.orders && !SignatureMatches(req, hmac) ==>
      var id := req.orderId.value;
      && out.0.orders == db.orders[id := db.orders[id].(paymentStatus := PaymentStatus.Failed, status := OrderStatus.Pending)]
      && out.1 == Error(400, "Invalid payment signature")
    ensures HasAllFields(req) && req.orderId.value in db.orders && !Captured(fetch) ==>
      var id := req.orderId.value;
      && out.0.orders == db.orders[id := db.orders[id].(paymentStatus := PaymentStatus.Failed, status := OrderStatus.Pending)]
    ensures forall j :: j in db.orders && Some(j) != req.orderId ==> out.0.orders[j] == db.orders[j]
    ensures out.0.otps == db.otps && out.0.nextId == db.nextId
  {
    match VerifyDecision(req, hmac, fetch)
    case RejectRequest(reply) => (db, reply)
    case Settle(ps, os, reply) =>
      var u := PaymentOutcome(db, req.orderId.value, ps, Some(os));
      if u.OrderNotFound? then (db, Error(404, "Order not found")) else (u.db, reply)
  }

  /** Every request path of verifyRazorpayPayment applies the status helper
      at most once. */
  lemma PaymentVerificationUpdatesOnce(db: Db, req: VerifyRequest, hmac: string -> string, fetch: PaymentFetch)
    ensures var out := PaymentVerification(db, req, hmac, fetch);
      || out.0 == db
      || (req.orderId.Some? && exists ps: PaymentStatus, os: OrderStatus ::
            PaymentOutcome(db, req.orderId.value, ps, Some(os)) == Updated(out.0))
  {
    var d := VerifyDecision(req, hmac, fetch);
    if d.Settle? && req.orderId.value in db.orders {
      assert PaymentOutcome(db, req.orderId.value, d.paymentStatus, Some(d.orderStatus))
          == Updated(PaymentVerification(db, req, hmac, fetch).0);
    }
  }

  /** `verifyRazorpayPayment`. */
  method VerifyRazorpayPayment(db: Database, req: VerifyRequest, hmac: string -> string, fetch: PaymentFetch)
    returns (reply: Reply)
    modifies db
    ensures (db.Snapshot(), reply) == PaymentVerification(old(db.Snapshot()), req, hmac, fetch)
  {
    if req.orderId.None? || req.razorpayOrderId == "" || req.razorpayPaymentId == "" || req.razorpaySignature == "" {
      return Error(400, "Missing payment verification fields");
    }
    var orderId := req.orderId.value;
    var sign := req.razorpayOrderId + "|" + req.razorpayPaymentId;
    var expectedSignature := hmac(sign);
    var found: bool;
    if expectedSignature != req.razorpaySignature {
      found := UpdateOrderPaymentStatus(db, orderId, PaymentStatus.Failed, Some(OrderStatus.Pending));
      if !found { return Error(404, "Order not found"); }
      return Error(400, "Invalid payment signature");
    }
    if fetch.FetchFailed? {
      found := UpdateOrderPaymentStatus(db, orderId, PaymentStatus.Failed, Some(OrderStatus.Pending));
      if !found { return Error(404, "Order not found"); }
      return Error(400, "Payment fetch failed: " + (if fetch.description != "" then fetch.description else "Unknown"));
    }
    if fetch.status != "captured" {
      var reason := if fetch.errorReason != "" then fetch.errorReason
                    else if fetch.errorDescription != "" then fetch.errorDescription
                    else "Payment not captured";
      found := UpdateOrderPaymentStatus(db, orderId, PaymentStatus.Failed, Some(OrderStatus.Pending));
      if !found { return Error(404, "Order not found"); }
      return Error(400, "Payment failed: " + reason);
    }
    found := UpdateOrderPaymentStatus(db, orderId, PaymentStatus.Paid, Some(OrderStatus.Processing));
    if !found { return Error(404, "Order not found"); }
    reply := Ok(200, "Payment successful");
  }

  // ---------------------------------------------------------------------
  // sendOtpForCod
  // ---------------------------------------------------------------------

  /** What the SMS provider's OTP request gave: the call threw (with the
      message the handler reports), or it answered with a status and, in
      `details`, the session id. */
  datatype SmsSend = SendThrew(message: string) | SendReplied(status: string, details: string)

  /** sendOtpForCod on the store: a phone number is required; a record is
      stored only when the provider answers "Success", and it is then the
      phone's latest record. */
  function OtpSending(db: Db, phone: string, provider: SmsSend): (out: (Db, Reply))
    ensures phone == "" ==> out == (db, Error(400, "Phone number is required"))
    ensures out.1.Ok? <==> phone != "" && provider.SendReplied? && provider.status == "Success"
    ensures out.1.Ok? ==>
      && out.0 == db.(otps := db.otps + [OtpRecord(phone, provider.details)])
      && LatestOtp(out.0.otps, phone) == Some(OtpRecord(phone, provider.details))
    ensures out.1.Error? ==> out.0 == db && out.1.code == 400
  {
    if phone == "" then (db, Error(400, "Phone number is required"))
    else match provider
      case SendThrew(m) => (db, Error(400, m))
      case SendReplied(status, details) =>
        if status != "Success" then (db, Error(400, "Failed to send OTP via SMS"))
        else
          LatestAfterCreate(db.otps, OtpRecord(phone, details), phone);
          (db.(otps := db.otps + [OtpRecord(phone, details)]), Ok(200, "OTP sent successfully"))
  }

  /** `sendOtpForCod`. */
  method SendOtpForCod(db: Database, phone: string, provider: SmsSend) returns (reply: Reply)
    modifies db
    ensures (db.Snapshot(), reply) == OtpSending(old(db.Snapshot()), phone, provider)
  {
    if phone == "" {
      return Error(400, "Phone number is required");
    }
    if provider.SendThrew? {
      return Error(400, provider.message);
    }
    if provider.status != "Success" {
      return Error(400, "Failed to send OTP via SMS");
    }
    db.otps := db.otps + [OtpRecord(phone, provider.details)];
    reply := Ok(200, "OTP sent successfully");
  }

  // ---------------------------------------------------------------------
  // verifyOtpForCod
  // ---------------------------------------------------------------------

  /** The request body; an empty string is an absent field. */
  datatype CodRequest = CodRequest(phone: string, otp: string, orderId: Option<OrderId>)

  /** What an SMS provider call gave: it threw, or it answered with a status. */
  datatype ProviderReply = ProviderThrew(message: string) | ProviderReplied(status: string)

  function MarkPaymentFailed(db: Db, id: OrderId): Db
    requires id in db.orders
  {
    db.(orders := db.orders[id := db.orders[id].(paymentStatus := PaymentStatus.Failed)])
  }

  /** The guards that leave the order untouched, in their order. */
  predicate CodGuardsPass(db: Db, req: CodRequest)
  {
    req.orderId.Some? && req.orderId.value in db.orders && req.phone != "" && req.otp != ""
  }

  /** The OTP check proper: the latest record for the phone exists and the
      provider confirms the code against that record's session. */
  predicate OtpConfirmed(db: Db, req: CodRequest, verify: (string, string) -> ProviderReply)
  {
    var rec := LatestOtp(db.otps, req.phone);
    rec.Some? && verify(rec.value.otp, req.otp) == ProviderReplied("Success")
  }

  /** verifyOtpForCod on the store, with `verify` the provider's answer for a
      (session, code) pair and `sms` its answer to the confirmation SMS. */
  function CodVerification(db: Db, req: CodRequest, verify: (string, string) -> ProviderReply, sms: ProviderReply): (out: (Db, Reply))
    ensures out.0.orders.Keys == db.orders.Keys
    ensures out.0.otps == db.otps && out.0.nextId == db.nextId
    ensures req.orderId.None? ==> out == (db, Error(400, "Order ID required for COD verification"))
    ensures req.orderId.Some? && req.orderId.value !in db.orders ==> out == (db, Error(400, "Order not found"))
    ensures req.orderId.Some? && req.orderId.value in db.orders && (req.phone == "" || req.otp == "") ==>
      out == (db, Error(400, "All fields are required"))
    ensures out.1.Error? ==> out.1.code == 400 && out.0.stock == db.stock
    ensures out.1.Ok? <==> CodGuardsPass(db, req) && OtpConfirmed(db, req, verify) && sms.ProviderReplied?
    ensures CodGuardsPass(db, req) && LatestOtp(db.otps, req.phone).None? ==>
      out == (MarkPaymentFailed(db, req.orderId.value), Error(400, "Otp not found"))
    ensures CodGuardsPass(db, req) && LatestOtp(db.otps, req.phone).Some?
            && verify(LatestOtp(db.otps, req.phone).value.otp, req.otp).ProviderReplied?
            && !OtpConfirmed(db, req, verify) ==>
      out == (MarkPaymentFailed(db, req.orderId.value), Error(400, "Invalid or expired OTP"))
    ensures CodGuardsPass(db, req) && LatestOtp(db.otps, req.phone).Some?
            && verify(LatestOtp(db.otps, req.phone).value.otp, req.otp).ProviderThrew? ==>
      out == (db, Error(400, verify(LatestOtp(db.otps, req.phone).value.otp, req.otp).message))
    ensures CodGuardsPass(db, req) && OtpConfirmed(db, req, verify) && sms.ProviderThrew? ==>
      out == (db, Error(400, sms.message))
    ensures out.1.Ok? ==>
      var id := req.orderId.value;
      var o, o' := db.orders[id], out.0.orders[id];
      && out.0.orders == db.orders[id := o']
      && o' == o.(paymentMethod := "Cod", paymentStatus := PaymentStatus.Pending, status := OrderStatus.Processing)
      && out.0.stock == ReduceStock(db.stock, o.orderItems)
      && out.0.otps == db.otps
  {
    if req.orderId.None? then (db, Error(400, "Order ID required for COD verification"))
    else
      var id := req.orderId.value;
      if id !in db.orders then (db, Error(400, "Order not found"))
      else if req.phone == "" || req.otp == "" then (db, Error(400, "All fields are required"))
      else match LatestOtp(db.otps, req.phone)
        case None => (MarkPaymentFailed(db, id), Error(400, "Otp not found"))
        case Some(record) =>
          match verify(record.otp, req.otp)
          case ProviderThrew(m) => (db, Error(400, m))
          case ProviderReplied(status) =>
            if status != "Success" then (MarkPaymentFailed(db, id), Error(400, "Invalid or expired OTP"))
            else if sms.ProviderThrew? then (db, Error(400, sms.message))
            else
              var asCod := db.(orders := db.orders[id := db.orders[id].(paymentMethod := "Cod")]);
              (PaymentOutcome(asCod, id, PaymentStatus.Pending, Some(OrderStatus.Processing)).db,
               Ok(200, "COD confirmed successfully"))
  }

  /** `verifyOtpForCod`. */
  method VerifyOtpForCod(db: Database, req: CodRequest, verify: (string, string) -> ProviderReply, sms: ProviderReply)
    returns (reply: Reply)
    modifies db
    ensures (db.Snapshot(), reply) == CodVerification(old(db.Snapshot()), req, verify, sms)
  {
    if req.orderId.None? {
      return Error(400, "Order ID required for COD verification");
    }
    var orderId := req.orderId.value;
    if orderId !in db.orders {
      return Error(400, "Order not found");
    }
    var order := db.orders[orderId];
    if req.phone == "" || req.otp == "" {
      return Error(400, "All fields are required");
    }
    var record := LatestOtp(db.otps, req.phone);
    if record.None? {
      order := order.(paymentStatus := PaymentStatus.Failed);
      db.orders := db.orders[orderId := order];
      return Error(400, "Otp not found");
    }
    var data := verify(record.value.otp, req.otp);
    if data.ProviderThrew? {
      return Error(400, data.message);
    }
    if data.status != "Success" {
      order := order.(paymentStatus := PaymentStatus.Failed);
      db.orders := db.orders[orderId := order];
      return Error(400, "Invalid or expired OTP");
    }
    if sms.ProviderThrew? {
      return Error(400, sms.message);
    }
    // A confirmation SMS the provider did not accept is only logged.
    order := order.(paymentMethod := "Cod");
    db.orders := db.orders[orderId := order];
    var found := UpdateOrderPaymentStatus(db, orderId, PaymentStatus.Pending, Some(OrderStatus.Processing));
    if !found {
      return Error(400, "Order not found");
    }
    reply := Ok(200, "COD confirmed successfully");
  }
}
