/** The order handlers of the server: creating an order, the two admin status
    setters, deletion, and the arithmetic and filter building of the two
    listing handlers. */
module OrderController {
  import opened JsText
  import opened JsDate
  import opened OrderModel
  import opened Api

  // ---------------------------------------------------------------------
  // newOrder
  // ---------------------------------------------------------------------

  /** The request body. Money is in paise; a field the client left out is
      None. */
  datatype NewOrderRequest = NewOrderRequest(
    orderItems: Option<seq<OrderItem>>,
    shippingInfo: Option<ShippingInfo>,
    discount: int,
    shippingCharges: int,
    subTotal: int,
    tax: int,
    total: int,
    paymentMethod: Option<string>)

  /** `(paymentMethod || "").toLowerCase().trim()` compared with "Cod": the
      text is lower-cased before it is compared with a capitalised word, so
      the comparison never succeeds and every order is stored as "Online". */
  function NormalizePaymentMethod(paymentMethod: Option<string>): (r: string)
    ensures r == "Online"
  {
    var lowered := Lower(if paymentMethod.Some? then paymentMethod.value else "");
    var normalized := Trim(lowered);
    if normalized == "Cod" then "Cod" else "Online"
  }

  const ShippingInfoRequired: string := "shippingInfo is required"
  const OrderItemsRequired: string := "orderItems is required"
  const PaymentMethodRequired: string := "paymentMethod is required"

  /** The messages newOrder's checks produce, in the order of the checks. */
  function MissingFieldErrors(req: NewOrderRequest, normalizedPaymentMethod: string): seq<string>
  {
    (if req.shippingInfo.None? then [ShippingInfoRequired] else [])
    + (if req.orderItems.None? || |req.orderItems.value| == 0 then [OrderItemsRequired] else [])
    + (if normalizedPaymentMethod == "" then [PaymentMethodRequired] else [])
  }

  /** Each check contributes its message exactly when it fails, at most once
      and in check order; no message means every check passed. */
  lemma MissingFieldErrorsSpec(req: NewOrderRequest, normalizedPaymentMethod: string)
    ensures var errors := MissingFieldErrors(req, normalizedPaymentMethod);
      && (ShippingInfoRequired in errors <==> req.shippingInfo.None?)
      && (OrderItemsRequired in errors <==> (req.orderItems.None? || |req.orderItems.value| == 0))
      && (PaymentMethodRequired in errors <==> normalizedPaymentMethod == "")
      && |errors| <= 3
      && (req.shippingInfo.None? ==> errors[0] == ShippingInfoRequired)
      && (errors == [] <==> ValidOrderRequest(req) && normalizedPaymentMethod != "")
  {
    var a := if req.shippingInfo.None? then [ShippingInfoRequired] else [];
    var b := if req.orderItems.None? || |req.orderItems.value| == 0 then [OrderItemsRequired] else [];
    var c := if normalizedPaymentMethod == "" then [PaymentMethodRequired] else [];
    assert MissingFieldErrors(req, normalizedPaymentMethod) == a + b + c;
    assert forall x :: x in a + b + c <==> x in a || x in b || x in c;
    assert ShippingInfoRequired != OrderItemsRequired && ShippingInfoRequired != PaymentMethodRequired;
    assert OrderItemsRequired != PaymentMethodRequired;
  }

  /** The `errors` array of newOrder, pushed to check by check. */
  method ValidationErrors(req: NewOrderRequest, normalizedPaymentMethod: string) returns (errors: seq<string>)
    ensures errors == MissingFieldErrors(req, normalizedPaymentMethod)
  {
    errors := [];
    if req.shippingInfo.None? {
      errors := errors + [ShippingInfoRequired];
    }
    if req.orderItems.None? || |req.orderItems.value| == 0 {
      errors := errors + [OrderItemsRequired];
    }
    if normalizedPaymentMethod == "" {
      errors := errors + [PaymentMethodRequired];
    }
  }

  /** The normalised method is never empty, so "paymentMethod is required"
      is never reported. */
  lemma PaymentMethodNeverMissing(req: NewOrderRequest)
    ensures PaymentMethodRequired !in MissingFieldErrors(req, NormalizePaymentMethod(req.paymentMethod))
  {
    MissingFieldErrorsSpec(req, NormalizePaymentMethod(req.paymentMethod));
  }

  /** A request with neither shipping info nor items is refused with both
      messages joined by ", " in check order:
      "shippingInfo is required, orderItems is required". */
  lemma BothFieldsMissingMessage(req: NewOrderRequest)
    requires req.shippingInfo.None? && req.orderItems.None?
    ensures Join(MissingFieldErrors(req, NormalizePaymentMethod(req.paymentMethod)), ", ")
         == ShippingInfoRequired + ", " + OrderItemsRequired
  {
    var errors := MissingFieldErrors(req, NormalizePaymentMethod(req.paymentMethod));
    assert errors == [ShippingInfoRequired, OrderItemsRequired];
    assert Join(errors, ", ") == ShippingInfoRequired + ", " + OrderItemsRequired;
  }

  predicate ValidOrderRequest(req: NewOrderRequest)
  {
    req.shippingInfo.Some? && req.orderItems.Some? && |req.orderItems.value| > 0
  }

  /** The document newOrder stores: payment Pending, delivery Pending (the
      schema's default), method normalised, totals as the client sent them. */
  function CreatedOrder(user: UserId, req: NewOrderRequest, now: int): (o: Order)
    requires ValidOrderRequest(req)
    ensures o.paymentStatus == PaymentStatus.Pending && o.status == OrderStatus.Pending
    ensures o.paymentMethod == "Online"
    ensures o.user == user && o.createdAt == now
    ensures o.orderItems == req.orderItems.value && o.shippingInfo == req.shippingInfo.value
    ensures o.subTotal == req.subTotal && o.tax == req.tax && o.discount == req.discount
    ensures o.shippingCharges == req.shippingCharges && o.total == req.total
  {
    Order(user, req.orderItems.value, req.shippingInfo.value, req.subTotal, req.tax, req.discount,
          req.shippingCharges, req.total, NormalizePaymentMethod(req.paymentMethod),
          PaymentStatus.Pending, OrderStatus.Pending, now)
  }

  /** `newOrder`, with `user` the authenticated user (None when there is
      none) and `now` the creation time. The source's stock reduction for COD
      orders sits behind a comparison NormalizePaymentMethod shows is never
      true, so it has no counterpart here. */
  method NewOrder(db: Database, user: Option<UserId>, req: NewOrderRequest, now: int)
    returns (reply: Reply, orderId: Option<OrderId>)
    requires db.Valid()
    modifies db
    ensures db.Valid()
    ensures user.None? ==> reply == Error(401, "User not authenticated")
    ensures user.Some? && !ValidOrderRequest(req) ==>
      reply == Error(400, "Order validation failed: " + Join(MissingFieldErrors(req, "Online"), ", "))
    ensures orderId.Some? <==> user.Some? && ValidOrderRequest(req)
    ensures orderId.None? ==> db.Snapshot() == old(db.Snapshot())
    ensures orderId.Some? ==>
      && reply == Ok(201, "Order placed successfully")
      && orderId.value !in old(db.orders)
      && db.orders == old(db.orders)[orderId.value := CreatedOrder(user.value, req, now)]
      && db.stock == old(db.stock) && db.otps == old(db.otps)
  {
    var normalizedPaymentMethod := NormalizePaymentMethod(req.paymentMethod);
    if user.None? {
      return Error(401, "User not authenticated"), None;
    }
    var errors := ValidationErrors(req, normalizedPaymentMethod);
    MissingFieldErrorsSpec(req, normalizedPaymentMethod);
    if |errors| > 0 {
      return Error(400, "Order validation failed: " + Join(errors, ", ")), None;
    }
    var id := db.nextId;
    var order := Order(user.value, req.orderItems.value, req.shippingInfo.value, req.subTotal, req.tax,
                       req.discount, req.shippingCharges, req.total, normalizedPaymentMethod,
                       PaymentStatus.Pending, OrderStatus.Pending, now);
    db.orders := db.orders[id := order];
    db.nextId := db.nextId + 1;
    reply, orderId := Ok(201, "Order placed successfully"), Some(id);
  }

  // ---------------------------------------------------------------------
  // Admin setters and delete
  // ---------------------------------------------------------------------

  /** `updateOrderStatus` (the id comes from the body). For an unknown order
      the handler sets 404 and throws a plain Error; the error middleware of
      the server answers `err.status || 500`, and a plain Error has no
      status, so the client sees 500. */
  method UpdateOrderStatus(db: Database, orderId: Option<OrderId>, status: OrderStatus) returns (reply: Reply)
    requires db.Valid()
    modifies db
    ensures db.Valid()
    ensures (orderId.None? || orderId.value !in old(db.orders)) ==>
      reply == Error(500, "Order not found") && db.Snapshot() == old(db.Snapshot())
    ensures orderId.Some? && orderId.value in old(db.orders) ==>
      && reply == Ok(200, "Order status updated successfully")
      && db.orders == old(db.orders)[orderId.value := old(db.orders)[orderId.value].(status := status)]
      && db.stock == old(db.stock) && db.otps == old(db.otps) && db.nextId == old(db.nextId)
  {
    if orderId.None? || orderId.value !in db.orders {
      return Error(500, "Order not found");
    }
    var order := db.orders[orderId.value];
    order := order.(status := status);
    db.orders := db.orders[orderId.value := order];
    reply := Ok(200, "Order status updated successfully");
  }

  /** `updatePaymentStatus` (the id comes from the route); an unknown order
      fails as in UpdateOrderStatus. */
  method UpdatePaymentStatus(db: Database, orderId: OrderId, paymentStatus: PaymentStatus) returns (reply: Reply)
    requires db.Valid()
    modifies db
    ensures db.Valid()
    ensures orderId !in old(db.orders) ==>
      reply == Error(500, "Order not found") && db.Snapshot() == old(db.Snapshot())
    ensures orderId in old(db.orders) ==>
      && reply == Ok(200, "Order's payment status updated successfully.")
      && db.orders == old(db.orders)[orderId := old(db.orders)[orderId].(paymentStatus := paymentStatus)]
      && db.stock == old(db.stock) && db.otps == old(db.otps) && db.nextId == old(db.nextId)
  {
    if orderId !in db.orders {
      return Error(500, "Order not found");
    }
    var order := db.orders[orderId];
    order := order.(paymentStatus := paymentStatus);
    db.orders := db.orders[orderId := order];
    reply := Ok(200, "Order's payment status updated successfully.");
  }

  /** `deleteOrder`: removes exactly the order found. */
  method DeleteOrder(db: Database, orderId: OrderId) returns (reply: Reply)
    requires db.Valid()
    modifies db
    ensures db.Valid()
    ensures orderId !in old(db.orders) ==>
      reply == Error(404, "Order not found") && db.Snapshot() == old(db.Snapshot())
    ensures orderId in old(db.orders) ==>
      && reply == Ok(200, "Order deleted successfully")
      && db.orders == old(db.orders) - {orderId}
      && |db.orders| == |old(db.orders)| - 1
      && db.stock == old(db.stock) && db.otps == old(db.otps) && db.nextId == old(db.nextId)
  {
    if orderId !in db.orders {
      return Error(404, "Order not found");
    }
    db.orders := db.orders - {orderId};
    reply := Ok(200, "Order deleted successfully");
  }

  // ---------------------------------------------------------------------
  // Listing: pagination
  // ---------------------------------------------------------------------

  /** `(currentPage - 1) * pageSize`. */
  function Skip(currentPage: int, pageSize: int): int
  {
    (currentPage - 1) * pageSize
  }

  /** Page 1 skips nothing and each page starts one page size after the
      previous one. */
  lemma SkipAdvancesByPageSize(currentPage: int, pageSize: int)
    ensures Skip(1, pageSize) == 0
    ensures Skip(currentPage + 1, pageSize) == Skip(currentPage, pageSize) + pageSize
  {
  }

  /** `Math.ceil(totalItems / pageSize)`: a page size of 0 divides by zero. */
  datatype PageCount = Finite(pages: int) | Infinity | NaN

  /** For a positive page size, the fewest pages that hold every item. */
  function TotalPages(totalItems: nat, pageSize: int): (r: PageCount)
    ensures pageSize > 0 ==>
      && r.Finite? && r.pages >= 0
      && r.pages * pageSize >= totalItems
      && (r.pages - 1) * pageSize < totalItems
    ensures pageSize > 0 ==> (r.pages == 0 <==> totalItems == 0)
    ensures pageSize == 0 ==> r == (if totalItems == 0 then NaN else Infinity)
    ensures pageSize < 0 ==> r.Finite? && r.pages <= 0
    ensures pageSize < 0 ==>
      && r.pages * pageSize <= totalItems
      && (r.pages - 1) * pageSize > totalItems
  {
    if pageSize > 0 then
      var q := (totalItems + pageSize - 1) / pageSize;
      assert q * pageSize + (totalItems + pageSize - 1) % pageSize == totalItems + pageSize - 1;
      assert q * pageSize - pageSize == (q - 1) * pageSize;
      Finite(q)
    else if pageSize == 0 then
      if totalItems == 0 then NaN else Infinity
    else
      var q := totalItems / -pageSize;
      assert q * -pageSize + totalItems % -pageSize == totalItems;
      assert -q * pageSize == q * -pageSize;
      Finite(-q)
  }

  /** Every page up to totalPages starts inside the collection, and the
      page after the last starts past its end. */
  lemma {:induction false} PagesCoverItems(totalItems: nat, pageSize: int, currentPage: int)
    requires pageSize > 0
    ensures 1 <= currentPage <= TotalPages(totalItems, pageSize).pages ==> 0 <= Skip(currentPage, pageSize) < totalItems
    ensures currentPage > TotalPages(totalItems, pageSize).pages ==> Skip(currentPage, pageSize) >= totalItems
  {
    var n := TotalPages(totalItems, pageSize).pages;
    if 1 <= currentPage <= n {
      assert (currentPage - 1) * pageSize <= (n - 1) * pageSize;
    } else if currentPage > n {
      assert (currentPage - 1) * pageSize >= n * pageSize;
    }
  }

  // ---------------------------------------------------------------------
  // Listing: the month/year window
  // ---------------------------------------------------------------------

  /** `Number(year) || new Date().getFullYear()`: an absent year or year 0
      gives the current year. */
  function EffectiveYear(year: Option<int>, currentYear: int): int
  {
    if year.Some? && year.value != 0 then year.value else currentYear
  }

  /** The createdAt window of both listing handlers, `[start, end]` in
      milliseconds: `new Date(y, start month, 1)` and
      `new Date(y, end month, 0, 23, 59, 59, 999)`, where the constructor maps
      the year and MakeDay, MakeTime and MakeDate give the time. With a month
      m the month indices are m - 1 and m; with only a year they are 0 and
      12. */
  function DateWindow(month: Option<int>, year: Option<int>, currentYear: int): (w: Option<(int, int)>)
    ensures w.Some? <==> month.Some? || year.Some?
  {
    if month.None? && year.None? then None
    else
      var y := ConstructorYear(EffectiveYear(year, currentYear));
      var startDate := MakeDate(MakeDay(y, if month.Some? then month.value - 1 else 0, 1), MakeTime(0, 0, 0, 0));
      var endDate := MakeDate(MakeDay(y, if month.Some? then month.value else 12, 0), MakeTime(23, 59, 59, 999));
      Some((startDate, endDate))
  }

  /** The window is never empty. With a month m it ends at 23:59:59.999 on
      the last day of month index m - 1 (in leap years too) and spans that
      many whole days; with only a year it ends at 23:59:59.999 on
      31 December and spans the year's days. */
  lemma DateWindowSpan(month: Option<int>, year: Option<int>, currentYear: int)
    requires month.Some? || year.Some?
    ensures DateWindow(month, year, currentYear).value.0 < DateWindow(month, year, currentYear).value.1
    ensures month.Some? ==>
      var w := DateWindow(month, year, currentYear).value;
      var y := ConstructorYear(EffectiveYear(year, currentYear));
      var m := month.value - 1;
      var days := DaysInMonth(CarryYear(y, m), CarryMonth(m));
      && w.1 == MakeDate(MakeDay(y, m, days), MakeTime(23, 59, 59, 999))
      && w.1 - w.0 + 1 == DaysToMs(days)
    ensures month.None? ==>
      var w := DateWindow(month, year, currentYear).value;
      var y := ConstructorYear(EffectiveYear(year, currentYear));
      && w.1 == MakeDate(MakeDay(y, 11, 31), MakeTime(23, 59, 59, 999))
      && w.1 - w.0 + 1 == DaysToMs(DaysInYear(y))
  {
    var y := ConstructorYear(EffectiveYear(year, currentYear));
    if month.Some? {
      var m := month.value;
      assert DateWindow(month, year, currentYear).value
        == (MakeDate(MakeDay(y, m - 1, 1), MakeTime(0, 0, 0, 0)), MakeDate(MakeDay(y, m, 0), MakeTime(23, 59, 59, 999)));
      MonthWindow(y, m);
    } else {
      assert DateWindow(month, year, currentYear).value
        == (MakeDate(MakeDay(y, 0, 1), MakeTime(0, 0, 0, 0)), MakeDate(MakeDay(y, 12, 0), MakeTime(23, 59, 59, 999)));
      YearWindow(y);
    }
  }

  /** The window for end-month index `month`: day 0 of it is the last day of
      month index month - 1, and from 00:00 on day 1 of that month the window
      spans its days. */
  lemma MonthWindow(y: int, month: int)
    ensures
      var days := DaysInMonth(CarryYear(y, month - 1), CarryMonth(month - 1));
      var startDate := MakeDate(MakeDay(y, month - 1, 1), MakeTime(0, 0, 0, 0));
      var endDate := MakeDate(MakeDay(y, month, 0), MakeTime(23, 59, 59, 999));
      && endDate == MakeDate(MakeDay(y, month - 1, days), MakeTime(23, 59, 59, 999))
      && endDate - startDate + 1 == DaysToMs(days)
  {
    MonthSpan(y, month);
    DaySpan(MakeDay(y, month - 1, 1), MakeDay(y, month, 0));
  }

  /** The same for a whole year: 1 January to 31 December. */
  lemma YearWindow(y: int)
    ensures
      var startDate := MakeDate(MakeDay(y, 0, 1), MakeTime(0, 0, 0, 0));
      var endDate := MakeDate(MakeDay(y, 12, 0), MakeTime(23, 59, 59, 999));
      && endDate == MakeDate(MakeDay(y, 11, 31), MakeTime(23, 59, 59, 999))
      && endDate - startDate + 1 == DaysToMs(DaysInYear(y))
  {
    YearSpan(y);
    DaySpan(MakeDay(y, 0, 1), MakeDay(y, 12, 0));
  }

  lemma MonthSpan(y: int, month: int)
    ensures MakeDay(y, month, 0) == MakeDay(y, month - 1, DaysInMonth(CarryYear(y, month - 1), CarryMonth(month - 1)))
    ensures MakeDay(y, month, 0) - MakeDay(y, month - 1, 1) + 1 == DaysInMonth(CarryYear(y, month - 1), CarryMonth(month - 1))
  {
    DayZeroIsLastDay(y, month);
  }

  lemma YearSpan(y: int)
    ensures MakeDay(y, 12, 0) == MakeDay(y, 11, 31)
    ensures MakeDay(y, 12, 0) - MakeDay(y, 0, 1) + 1 == DaysInYear(y)
  {
    DayZeroIsLastDay(y, 12);
    DayZeroOfMonthTwelve(y);
    assert CarryYear(y, 11) == y && CarryMonth(11) == 11;
  }

  /** From 00:00 on day a to 23:59:59.999 on day b the window covers
      b - a + 1 whole days. */
  lemma DaySpan(a: int, b: int)
    ensures MakeDate(b, MakeTime(23, 59, 59, 999)) - MakeDate(a, MakeTime(0, 0, 0, 0)) + 1 == DaysToMs(b - a + 1)
  {
  }

  /** In a leap year the February window (`month=2`) has 29 days,
      otherwise 28. */
  lemma FebruaryWindow(month: int, year: int, currentYear: int)
    requires month == 2 && !(0 <= year <= 99)
    ensures
      var w := DateWindow(Some(month), Some(year), currentYear).value;
      w.1 - w.0 + 1 == DaysToMs(if IsLeapYear(year) then 29 else 28)
  {
    DateWindowSpan(Some(month), Some(year), currentYear);
    assert EffectiveYear(Some(year), currentYear) == year && ConstructorYear(year) == year;
    assert CarryYear(year, month - 1) == year && CarryMonth(month - 1) == 1;
  }

  /** A two-digit year in the query is read by the `Date` constructor as a
      year of the 1900s: `?year=24` gives 1924's window. Year 0 is the
      exception, since `Number(year) || ...` replaces it by the current
      year first. */
  lemma TwoDigitYearWindow(month: Option<int>, year: int, currentYear: int)
    requires 1 <= year <= 99
    ensures DateWindow(month, Some(year), currentYear) == DateWindow(month, Some(1900 + year), currentYear)
  {
    assert ConstructorYear(EffectiveYear(Some(year), currentYear)) == 1900 + year;
    assert ConstructorYear(EffectiveYear(Some(1900 + year), currentYear)) == 1900 + year;
  }

  // ---------------------------------------------------------------------
  // Listing: filters and counts
  // ---------------------------------------------------------------------

  /** The query string after defaults (`currentPage = 1`, `pageSize = 10`);
      an empty string is an absent filter. */
  datatype ListQuery = ListQuery(
    currentPage: int,
    pageSize: int,
    month: Option<int>,
    year: Option<int>,
    paymentStatus: string,
    paymentMethod: string,
    status: string)

  /** The Mongo filter object. */
  datatype Filter = Filter(
    user: Option<UserId>,
    createdAt: Option<(int, int)>,
    paymentStatus: Option<string>,
    paymentMethod: Option<string>,
    status: Option<string>)

  /** Whether Mongo selects an order with the filter. */
  predicate Matches(o: Order, f: Filter)
  {
    && (f.user.Some? ==> o.user == f.user.value)
    && (f.createdAt.Some? ==> f.createdAt.value.0 <= o.createdAt <= f.createdAt.value.1)
    && (f.paymentStatus.Some? ==> PaymentStatusName(o.paymentStatus) == f.paymentStatus.value)
    && (f.paymentMethod.Some? ==> o.paymentMethod == f.paymentMethod.value)
    && (f.status.Some? ==> OrderStatusName(o.status) == f.status.value)
  }

  function MatchingIds(orders: map<OrderId, Order>, f: Filter): set<OrderId>
  {
    set id | id in orders && Matches(orders[id], f)
  }

  function UserOrderIds(orders: map<OrderId, Order>, user: UserId): set<OrderId>
  {
    set id | id in orders && orders[id].user == user
  }

  /** The filter of getUserOrders, built field by field: the user always,
      the window when a month or year is given, the three status filters
      verbatim when present. */
  method UserOrdersFilter(user: UserId, q: ListQuery, currentYear: int) returns (filter: Filter)
    ensures filter.user == Some(user)
    ensures filter.createdAt.Some? <==> q.month.Some? || q.year.Some?
    ensures filter.createdAt == DateWindow(q.month, q.year, currentYear)
    ensures filter.paymentStatus == (if q.paymentStatus == "" then None else Some(q.paymentStatus))
    ensures filter.paymentMethod == (if q.paymentMethod == "" then None else Some(q.paymentMethod))
    ensures filter.status == (if q.status == "" then None else Some(q.status))
  {
    filter := Filter(Some(user), None, None, None, None);
    if q.month.Some? || q.year.Some? {
      filter := filter.(createdAt := DateWindow(q.month, q.year, currentYear));
    }
    if q.paymentStatus != "" {
      filter := filter.(paymentStatus := Some(q.paymentStatus));
    }
    if q.paymentMethod != "" {
      filter := filter.(paymentMethod := Some(q.paymentMethod));
    }
    if q.status != "" {
      filter := filter.(status := Some(q.status));
    }
  }

  /** The filter of getAllOrders: no user; the method and delivery-status
      filters get their first character upper-cased and the rest kept. */
  method AllOrdersFilter(q: ListQuery, currentYear: int) returns (filter: Filter)
    ensures filter.user.None?
    ensures filter.createdAt == DateWindow(q.month, q.year, currentYear)
    ensures filter.paymentStatus == (if q.paymentStatus == "" then None else Some(q.paymentStatus))
    ensures filter.paymentMethod == (if q.paymentMethod == "" then None else Some(CapitalizeFirst(q.paymentMethod)))
    ensures filter.status == (if q.status == "" then None else Some(CapitalizeFirst(q.status)))
    ensures filter.paymentMethod.Some? <==> q.paymentMethod != ""
    ensures filter.paymentMethod.Some? ==>
      var f := filter.paymentMethod.value;
      |f| == |q.paymentMethod| && f[0] == UpperChar(q.paymentMethod[0]) && f[1..] == q.paymentMethod[1..]
    ensures filter.status.Some? <==> q.status != ""
    ensures filter.status.Some? ==>
      var f := filter.status.value;
      |f| == |q.status| && f[0] == UpperChar(q.status[0]) && f[1..] == q.status[1..]
  {
    filter := Filter(None, None, None, None, None);
    if q.month.Some? || q.year.Some? {
      filter := filter.(createdAt := DateWindow(q.month, q.year, currentYear));
    }
    if q.paymentStatus != "" {
      filter := filter.(paymentStatus := Some(q.paymentStatus));
    }
    if q.paymentMethod != "" {
      filter := filter.(paymentMethod := Some(CapitalizeFirst(q.paymentMethod)));
    }
    if q.status != "" {
      filter := filter.(status := Some(CapitalizeFirst(q.status)));
    }
  }

  /** What a listing handler answers besides the page itself. */
  datatype Listing = Listing(filter: Filter, skip: int, limit: int, totalItems: nat, totalPages: PageCount)

  /** A listing, or the failure of the query: MongoDB refuses a negative
      `skip`, the rejection reaches the server's error middleware, and that
      answers 500. */
  datatype ListReply = Listed(listing: Listing) | ListFailed(code: int)

  /** `getUserOrders`: the filter selects the page, but totalItems counts
      every order of the user whatever the filters say. */
  method GetUserOrders(db: Database, user: UserId, q: ListQuery, currentYear: int) returns (reply: ListReply)
    ensures reply.ListFailed? <==> Skip(q.currentPage, q.pageSize) < 0
    ensures reply.ListFailed? ==> reply.code == 500
    ensures reply.Listed? ==>
      var l := reply.listing;
      && l.filter.user == Some(user)
      && l.filter.createdAt == DateWindow(q.month, q.year, currentYear)
      && l.filter.paymentStatus == (if q.paymentStatus == "" then None else Some(q.paymentStatus))
      && l.filter.paymentMethod == (if q.paymentMethod == "" then None else Some(q.paymentMethod))
      && l.filter.status == (if q.status == "" then None else Some(q.status))
      && l.skip == Skip(q.currentPage, q.pageSize) && l.limit == q.pageSize
      && l.totalItems == |UserOrderIds(db.orders, user)|
      && l.totalPages == TotalPages(l.totalItems, q.pageSize)
  {
    var skip := Skip(q.currentPage, q.pageSize);
    var filter := UserOrdersFilter(user, q, currentYear);
    if skip < 0 {
      return ListFailed(500);
    }
    var totalItems := |UserOrderIds(db.orders, user)|;
    reply := Listed(Listing(filter, skip, q.pageSize, totalItems, TotalPages(totalItems, q.pageSize)));
  }

  /** `getAllOrders`: totalItems counts every order. */
  method GetAllOrders(db: Database, q: ListQuery, currentYear: int) returns (reply: ListReply)
    ensures reply.ListFailed? <==> Skip(q.currentPage, q.pageSize) < 0
    ensures reply.ListFailed? ==> reply.code == 500
    ensures reply.Listed? ==>
      var l := reply.listing;
      && l.filter.user.None?
      && l.filter.createdAt == DateWindow(q.month, q.year, currentYear)
      && l.filter.paymentStatus == (if q.paymentStatus == "" then None else Some(q.paymentStatus))
      && l.filter.paymentMethod == (if q.paymentMethod == "" then None else Some(CapitalizeFirst(q.paymentMethod)))
      && l.filter.status == (if q.status == "" then None else Some(CapitalizeFirst(q.status)))
      && l.skip == Skip(q.currentPage, q.pageSize) && l.limit == q.pageSize
      && l.totalItems == |db.orders|
      && l.totalPages == TotalPages(l.totalItems, q.pageSize)
  {
    var skip := Skip(q.currentPage, q.pageSize);
    var filter := AllOrdersFilter(q, currentYear);
    if skip < 0 {
      return ListFailed(500);
    }
    var totalItems := |db.orders|;
    reply := Listed(Listing(filter, skip, q.pageSize, totalItems, TotalPages(totalItems, q.pageSize)));
  }

  /** Which queries fail: the skip is negative exactly for a page before the
      first with a positive page size, or a page after the first with a
      negative one. */
  lemma NegativeSkip(currentPage: int, pageSize: int)
    ensures Skip(currentPage, pageSize) < 0
        <==> (currentPage < 1 && pageSize > 0) || (currentPage > 1 && pageSize < 0)
  {
    if currentPage < 1 && pageSize > 0 {
      assert (currentPage - 1) * pageSize <= -pageSize;
    } else if currentPage > 1 && pageSize < 0 {
      assert (currentPage - 1) * pageSize <= pageSize;
    } else if currentPage >= 1 && pageSize >= 0 {
      assert (currentPage - 1) * pageSize >= 0;
    } else if currentPage <= 1 && pageSize <= 0 {
      assert (currentPage - 1) * pageSize == (1 - currentPage) * -pageSize;
      assert (1 - currentPage) * -pageSize >= 0;
    }
  }

  /** The orders a user filter selects never outnumber totalItems, so
      totalPages is an upper bound on the pages the filtered list needs. */
  lemma FilteredNeverExceedsTotal(orders: map<OrderId, Order>, user: UserId, f: Filter)
    requires f.user == Some(user)
    ensures |MatchingIds(orders, f)| <= |UserOrderIds(orders, user)|
  {
    assert MatchingIds(orders, f) <= UserOrderIds(orders, user);
    SubsetCard(MatchingIds(orders, f), UserOrderIds(orders, user));
  }

  lemma {:induction false} SubsetCard<T>(a: set<T>, b: set<T>)
    requires a <= b
    ensures |a| <= |b|
  {
    if a != {} {
      var x :| x in a;
      SubsetCard(a - {x}, b - {x});
    }
  }

  /** ...and it can outnumber them: one Failed order and a filter for Paid
      orders select nothing while totalItems is 1. */
  lemma FilteredCanBeFewer(o: Order)
    requires o.paymentStatus == PaymentStatus.Failed
    ensures
      var orders := map[0 := o];
      var f := Filter(Some(o.user), None, Some("Paid"), None, None);
      |MatchingIds(orders, f)| == 0 && |UserOrderIds(orders, o.user)| == 1
  {
    var orders := map[0 := o];
    var f := Filter(Some(o.user), None, Some("Paid"), None, None);
    assert MatchingIds(orders, f) == {};
    assert UserOrderIds(orders, o.user) == {0};
  }
}
