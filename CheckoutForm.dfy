/** The checkout page: the error-message helper, the submit handler with its
    COD and online branches, the gateway's success and dismiss callbacks,
    the popup's onVerified callback, and the redirect guard of the page
    wrapper. Side effects the page performs (toasts, requests it posts,
    resetting the cart, navigation) are returned as a list of effects in
    the order they happen; each asynchronous step ends where it awaits. */
module CheckoutForm {
  import opened Api
  import opened OrderModel
  import opened PaymentController
  import opened OrderController
  import opened OtpPopup

  // ---------------------------------------------------------------------
  // extractMessage
  // ---------------------------------------------------------------------

  /** A JavaScript value as far as extractMessage inspects one. */
  datatype JsValue =
    | Undefined
    | Null
    | Bool(b: bool)
    | Num(n: int)
    | Str(s: string)
    | Obj(fields: map<string, JsValue>)

  /** The string at `v[key]`, when v is an object holding a string there. */
  function StringField(v: JsValue, key: string): Option<string>
  {
    if v.Obj? && key in v.fields && v.fields[key].Str? then Some(v.fields[key].s) else None
  }

  /** `extractMessage(err, fallback)`: `err.data.message` when err is an
      object whose `data` is an object with a string `message`; else
      `err.message` when that is a string; else the fallback. */
  function ExtractMessage(err: JsValue, fallback: string): (m: string)
    ensures !err.Obj? ==> m == fallback
    ensures err.Obj? && "data" in err.fields && StringField(err.fields["data"], "message").Some? ==>
      m == StringField(err.fields["data"], "message").value
    ensures err.Obj? && ("data" !in err.fields || StringField(err.fields["data"], "message").None?) ==>
      m == (if StringField(err, "message").Some? then StringField(err, "message").value else fallback)
  {
    if err.Obj? then
      var fromData :=
        if "data" in err.fields then
          var data := err.fields["data"];
          if data.Obj? && "message" in data.fields && data.fields["message"].Str? then Some(data.fields["message"].s)
          else None
        else None;
      if fromData.Some? then fromData.value
      else if "message" in err.fields && err.fields["message"].Str? then err.fields["message"].s
      else fallback
    else fallback
  }

  /** What `unwrap()` rejects with when a request fails: for an error reply
      the status and the server's JSON body `{ success: false, message }`;
      when no reply came, a FETCH_ERROR with an `error` text. */
  function RtkError(r: HttpResult): JsValue
  {
    if r.Answered? then
      Obj(map["status" := Num(r.reply.code),
              "data" := Obj(map["success" := Bool(false), "message" := Str(r.reply.message)])])
    else
      Obj(map["status" := Str("FETCH_ERROR"), "error" := Str("TypeError: Failed to fetch")])
  }

  /** For a rejected request the page shows the server's message verbatim
      (even an empty one), and the fallback only when no reply came. */
  lemma RejectedRequestMessage(r: HttpResult, fallback: string)
    requires !Succeeded(r)
    ensures r.Answered? ==> ExtractMessage(RtkError(r), fallback) == r.reply.message
    ensures r.Unreachable? ==> ExtractMessage(RtkError(r), fallback) == fallback
  {
    var e := RtkError(r);
    if r.Answered? {
      assert "data" in e.fields && StringField(e.fields["data"], "message") == Some(r.reply.message);
    } else {
      assert "data" !in e.fields && StringField(e, "message").None?;
    }
  }

  /** The error a reference to an undeclared variable throws: an object
      with its name and a string message (V8 writes "x is not defined"). */
  function ReferenceError(message: string): JsValue
  {
    Obj(map["name" := Str("ReferenceError"), "message" := Str(message)])
  }

  // ---------------------------------------------------------------------
  // The page
  // ---------------------------------------------------------------------

  /** The cart slice of the store the page reads (money in paise). */
  datatype Cart = Cart(
    shippingInfo: ShippingInfo,
    cartItems: seq<OrderItem>,
    subTotal: int,
    tax: int,
    discount: int,
    shippingCharges: int,
    total: int)

  datatype Effect =
    | Notify(toast: Toast)
    | PostNewOrder(order: NewOrderRequest)
    | ResetCart
    | Navigate(path: string)

  /** The `orderData` submit builds: the cart's totals and items; it has no
      `paymentMethod` field. */
  function OrderData(cart: Cart): (o: NewOrderRequest)
    ensures o.paymentMethod.None?
    ensures o.orderItems == Some(cart.cartItems) && o.shippingInfo == Some(cart.shippingInfo)
    ensures o.total == cart.total && o.subTotal == cart.subTotal && o.tax == cart.tax
    ensures o.discount == cart.discount && o.shippingCharges == cart.shippingCharges
  {
    NewOrderRequest(Some(cart.cartItems), Some(cart.shippingInfo), cart.discount, cart.shippingCharges,
                    cart.subTotal, cart.tax, cart.total, None)
  }

  /** The body of `createRazorpayOrder({ amount: total })`. */
  function GatewayRequest(total: int): (r: RazorpayOrderRequest)
    ensures r.orderId.None? && r.receipt == ""
    ensures r.amount == Some(total)
  {
    RazorpayOrderRequest(Some(total), "", None)
  }

  /** The body the gateway handler posts to verify-payment: the three
      gateway fields and no orderId. */
  function HandlerVerifyRequest(razorpayOrderId: string, razorpayPaymentId: string, razorpaySignature: string): (r: VerifyRequest)
    ensures r.orderId.None?
    ensures r.razorpayOrderId == razorpayOrderId && r.razorpayPaymentId == razorpayPaymentId
    ensures r.razorpaySignature == razorpaySignature
  {
    VerifyRequest(None, razorpayOrderId, razorpayPaymentId, razorpaySignature)
  }

  /** `Checkout`'s effect: `!total || total <= 0` sends the visitor back to
      the cart (an absent total is None). */
  function RedirectsToCart(total: Option<int>): (r: bool)
    ensures !r <==> total.Some? && total.value > 0
  {
    total.None? || total.value == 0 || total.value <= 0
  }

  class Page {
    const user: Option<UserId>
    const cart: Cart
    var paymentMethod: string
    var showOtpPopup: bool
    var isProcessing: bool

    constructor (user: Option<UserId>, cart: Cart)
      ensures this.user == user && this.cart == cart
      ensures paymentMethod == "" && !showOtpPopup && !isProcessing
    {
      this.user := user;
      this.cart := cart;
      paymentMethod := "";
      showOtpPopup := false;
      isProcessing := false;
    }

    /** `disabled={isProcessing || !user}` on the submit button. */
    predicate SubmitEnabled()
      reads this
    {
      !isProcessing && user.Some?
    }

    /** A radio button's onChange: "online" or "cod". */
    method ChoosePaymentMethod(value: string)
      modifies this
      ensures paymentMethod == value
      ensures showOtpPopup == old(showOtpPopup) && isProcessing == old(isProcessing)
    {
      paymentMethod := value;
    }

    /** `submitHandler` up to its first await. Without a user only a toast
        appears; "cod" opens the popup and leaves nothing processing; every
        other method, the initial "" included, posts a gateway order for
        the cart total and waits. */
    method Submit() returns (effects: seq<Effect>, gatewayRequest: Option<RazorpayOrderRequest>)
      modifies this
      ensures paymentMethod == old(paymentMethod)
      ensures user.None? ==>
        && effects == [Notify(Toast("Please login to place order", false))]
        && gatewayRequest.None?
        && isProcessing == old(isProcessing) && showOtpPopup == old(showOtpPopup)
      ensures user.Some? && paymentMethod == "cod" ==>
        effects == [] && gatewayRequest.None? && !isProcessing && showOtpPopup
      ensures user.Some? && paymentMethod != "cod" ==>
        && effects == [] && gatewayRequest == Some(GatewayRequest(cart.total))
        && isProcessing && showOtpPopup == old(showOtpPopup)
      ensures SubmitEnabled() <==> user.Some? && paymentMethod == "cod"
    {
      if user.None? {
        return [Notify(Toast("Please login to place order", false))], None;
      }
      isProcessing := true;
      if paymentMethod == "cod" {
        isProcessing := false;
        showOtpPopup := true;
        isProcessing := false;
        effects, gatewayRequest := [], None;
      } else {
        effects, gatewayRequest := [], Some(GatewayRequest(cart.total));
      }
    }

    /** The catch of the online branch: the gateway order was refused. */
    method GatewayOrderFailed(result: HttpResult) returns (effects: seq<Effect>)
      requires !Succeeded(result)
      modifies this
      ensures !isProcessing && showOtpPopup == old(showOtpPopup) && paymentMethod == old(paymentMethod)
      ensures SubmitEnabled() <==> user.Some?
      ensures effects == [Notify(Toast(ExtractMessage(RtkError(result), "Payment initialization failed"), false))]
    {
      effects := [Notify(Toast(ExtractMessage(RtkError(result), "Payment initialization failed"), false))];
      isProcessing := false;
    }

    /** `modal.ondismiss`: the shopper closed the gateway window. */
    method Dismiss() returns (effects: seq<Effect>)
      modifies this
      ensures !isProcessing && showOtpPopup == old(showOtpPopup) && paymentMethod == old(paymentMethod)
      ensures SubmitEnabled() <==> user.Some?
      ensures effects == [Notify(Toast("Payment cancelled", false))]
    {
      isProcessing := false;
      effects := [Notify(Toast("Payment cancelled", false))];
    }

    /** The gateway handler once verify-payment has settled: only a
        successful verification goes on to post the order; a failure shows
        the error and ends processing. */
    method VerifySettled(result: HttpResult) returns (effects: seq<Effect>)
      modifies this
      ensures showOtpPopup == old(showOtpPopup) && paymentMethod == old(paymentMethod)
      ensures Succeeded(result) ==> effects == [PostNewOrder(OrderData(cart))] && isProcessing == old(isProcessing)
      ensures !Succeeded(result) ==>
        && effects == [Notify(Toast(ExtractMessage(RtkError(result), "Payment verification failed"), false))]
        && !isProcessing
      ensures Succeeded(result) ==> SubmitEnabled() == old(SubmitEnabled())
      ensures !Succeeded(result) ==> (SubmitEnabled() <==> user.Some?)
      ensures forall e :: e in effects ==> !e.ResetCart? && !e.Navigate?
    {
      if Succeeded(result) {
        effects := [PostNewOrder(OrderData(cart))];
      } else {
        effects := [Notify(Toast(ExtractMessage(RtkError(result), "Payment verification failed"), false))];
        isProcessing := false;
      }
    }

    /** The gateway handler once the order post has settled: on success the
        cart is reset and the shopper sent to /my-orders. Processing ends
        either way. */
    method NewOrderSettled(result: HttpResult) returns (effects: seq<Effect>)
      modifies this
      ensures !isProcessing && showOtpPopup == old(showOtpPopup) && paymentMethod == old(paymentMethod)
      ensures SubmitEnabled() <==> user.Some?
      ensures Succeeded(result) ==>
        effects == [ResetCart, Notify(Toast("Order placed successfully", true)), Navigate("/my-orders")]
      ensures !Succeeded(result) ==>
        effects == [Notify(Toast(ExtractMessage(RtkError(result), "Payment verification failed"), false))]
    {
      if Succeeded(result) {
        effects := [ResetCart, Notify(Toast("Order placed successfully", true)), Navigate("/my-orders")];
      } else {
        effects := [Notify(Toast(ExtractMessage(RtkError(result), "Payment verification failed"), false))];
      }
      isProcessing := false;
    }

    /** The popup's onVerified callback refers to `orderData`, which is
        local to the submit handler; the reference throws, the catch shows
        its message, and no order is posted. */
    method OnVerified() returns (effects: seq<Effect>)
      ensures effects == [Notify(Toast("orderData is not defined", false))]
      ensures forall e :: e in effects ==> !e.PostNewOrder? && !e.ResetCart? && !e.Navigate?
    {
      var err := ReferenceError("orderData is not defined");
      assert "data" !in err.fields;
      assert StringField(err, "message") == Some("orderData is not defined");
      var message := ExtractMessage(err, "Order placement failed");
      effects := [Notify(Toast(message, false))];
    }

    /** The popup's onClose callback. */
    method OnClose()
      modifies this
      ensures !showOtpPopup && isProcessing == old(isProcessing) && paymentMethod == old(paymentMethod)
    {
      showOtpPopup := false;
    }

    /** The popup the page renders: the shipping phone and no orderId. */
    method OpenPopup() returns (p: Popup)
      ensures fresh(p) && p.Valid()
      ensures p.phone == cart.shippingInfo.phone && p.orderId.None?
      ensures p.otp == "" && !p.sent && p.resendTimer == 0
    {
      p := new Popup(cart.shippingInfo.phone, None);
    }
  }

  // ---------------------------------------------------------------------
  // What the server makes of the page's requests
  // ---------------------------------------------------------------------

  /** The online branch never reaches the gateway: the request carries no
      orderId, so the server refuses it, and the page shows that refusal. */
  lemma OnlineCheckoutRefused(total: int, now: int)
    ensures CreateRazorpayOrder(GatewayRequest(total), now) == Rejected(Error(400, "Order ID required for Razorpay"))
    ensures ExtractMessage(RtkError(Answered(Error(400, "Order ID required for Razorpay"))), "Payment initialization failed")
         == "Order ID required for Razorpay"
  {
    RejectedRequestMessage(Answered(Error(400, "Order ID required for Razorpay")), "Payment initialization failed");
  }

  /** Were the gateway ever to call the handler, its verify request would be
      refused without touching the store. */
  lemma HandlerVerifyRefused(db: Db, razorpayOrderId: string, razorpayPaymentId: string, razorpaySignature: string,
                             hmac: string -> string, fetch: PaymentFetch)
    ensures PaymentVerification(db, HandlerVerifyRequest(razorpayOrderId, razorpayPaymentId, razorpaySignature), hmac, fetch)
         == (db, Error(400, "Missing payment verification fields"))
  {
  }

  /** The popup's verify request has no orderId, so the server refuses it
      without touching the store, and the popup never calls onVerified. */
  lemma PopupVerifyRefused(db: Db, phone: string, otp: string,
                           verify: (string, string) -> ProviderReply, sms: ProviderReply)
    ensures CodVerification(db, CodRequest(phone, otp, None), verify, sms)
         == (db, Error(400, "Order ID required for COD verification"))
    ensures !Succeeded(Answered(CodVerification(db, CodRequest(phone, otp, None), verify, sms).1))
  {
  }

  /** An order built from the page's orderData is stored as an online order
      whatever method the shopper chose. */
  lemma PageOrdersStoredOnline(user: UserId, cart: Cart, now: int)
    ensures ValidOrderRequest(OrderData(cart)) <==> |cart.cartItems| > 0
    ensures |cart.cartItems| > 0 ==>
      CreatedOrder(user, OrderData(cart), now).paymentMethod == "Online"
  {
  }

  /** A page that is not redirected posts an amount that passes the
      server's "Please provide amount" check. */
  lemma ShownPageHasAmount(total: int)
    requires !RedirectsToCart(Some(total))
    ensures GatewayRequest(total).amount.Some? && GatewayRequest(total).amount.value != 0
  {
  }

  /** A total of 1 to 99 paise keeps the page on screen, yet the server's
      one-rupee minimum refuses it: the request as the page sends it stops
      at the missing order id, and with an order id added it stops at the
      minimum. */
  lemma SubRupeeTotalRefused(total: int, orderId: OrderId, now: int)
    requires 0 < total < MinimumPaise
    ensures !RedirectsToCart(Some(total))
    ensures CreateRazorpayOrder(GatewayRequest(total), now) == Rejected(Error(400, "Order ID required for Razorpay"))
    ensures CreateRazorpayOrder(GatewayRequest(total).(orderId := Some(orderId)), now)
      == Rejected(Error(400, "Amount must be at least \U{20B9}1."))
  {
  }
}
