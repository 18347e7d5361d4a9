# Orders and payments of the shop, in Dafny

This project models the order and payment core of a small web shop. The
server side is an Express/Mongoose application. The client side is a React
single-page application. The model covers:

- **Server, `order.controller.ts`**: placing an order (`newOrder`), the two
  admin status setters, deletion, and the pagination, month/year window and
  filter building of the two listing handlers.
- **Server, `payment.controller.ts`**: the shared status helper
  (`updateOrderPaymentStatus`), the gateway order request, gateway payment
  verification (HMAC signature and captured status), and the
  cash-on-delivery (COD) OTP send and verify handlers.
- **Client**: the checkout page (`CheckoutForm.tsx`), its OTP popup
  (`OtpPopup.tsx`), the payment-method cell of the "my orders" table
  (`MyOrders.tsx`) and the sort state of the admin products table
  (`AdminProducts.tsx`).

The four payment handlers that change the store (`updateOrderPaymentStatus`,
`verifyRazorpayPayment`, `sendOtpForCod`, `verifyOtpForCod`) appear twice:

- as a function from the store's state (`OrderModel.Db`) and the outside
  world's answers to the new state and the reply; its properties are stated
  and proved there;
- as a method on the mutable `OrderModel.Database`, proved to end in exactly
  the state and reply the function gives.

`createRazorpayOrder` changes nothing and is a function only. The order
handlers (`newOrder`, the two admin setters, `deleteOrder`, `getUserOrders`,
`getAllOrders`) are methods only, whose contracts state the new store and
the reply directly.

The client components are classes whose fields are the React state.
Asynchronous handlers are split at their `await`: a Begin method runs up to
the request, and an End method runs the rest once the request has settled.
Side effects are returned as lists, in order: toasts, posted requests,
resetting the cart, navigation.

Support modules:

- `JsText`: the JavaScript string operations involved (`toLowerCase`,
  `toUpperCase`, `trim`, `join`, capitalise-first).
- `JsDate`: the `Date` constructor arithmetic of ECMA-262 section 21.4.1
  (DayFromYear, MakeDay, MakeTime, MakeDate).
- `Api`: replies and the client's view of an HTTP call.

Behaviour of the code that the model makes explicit, with the lemma that
shows each:

- `newOrder` lower-cases the payment method and then compares it with
  `"Cod"`. The comparison can never succeed, so every order is stored as
  `"Online"` and the COD stock reduction in `newOrder` never runs
  (`OrderController.NormalizePaymentMethod`,
  `OrderController.PaymentMethodNeverMissing`,
  `MyOrders.StoredMethodLabels`).
- `updateOrderPaymentStatus` has no guard against running twice for the
  same order. A repeated success takes the ordered quantities off the
  stock again (`PaymentController.RepeatedSuccessReducesTwice`).
- The checkout page never sends an `orderId` in any of these three places:
  the gateway order request, the gateway handler's verify request, and the
  OTP popup's verify request. The server refuses each of them before it
  touches any order (`CheckoutForm.OnlineCheckoutRefused`,
  `CheckoutForm.HandlerVerifyRefused`, `CheckoutForm.PopupVerifyRefused`).
- The popup's `onVerified` callback uses `orderData`, a variable that is
  local to the submit handler. Calling it throws a ReferenceError, and the
  page only shows that error's message (`CheckoutForm.Page.OnVerified`).
- The admin setters `updateOrderStatus` and `updatePaymentStatus` set status
  404 and then throw a plain `Error`. The server's error middleware
  (`server/src/index.ts:84-90`) answers `err.status || 500`, so the client
  sees 500.
- `verifyOtpForCod` answers an unknown order with 400, not 404.
- `getUserOrders` counts every order of the user for `totalItems`,
  whatever the filters select (`OrderController.FilteredCanBeFewer`).

`utils/ApiError`, `utils/asyncHandler`, `utils/utils` (which holds
`reduceStock`) and the order model file are not part of this model. An
`ApiError` is taken to answer with the status it was raised with. The stock
reduction is taken to lower each ordered product's counter by the item's
quantity. A new order's delivery status is taken to be the schema default
`Pending`.

## Model

| member | source | states |
|---|---|---|
| `JsText.Upper` | client/src/pages/MyOrders.tsx:90-92 | `toUpperCase` keeps the length and maps every character through `UpperChar` (ASCII letters upper-cased, all else kept) |
| `JsText.Lower` | server/src/controllers/order.controller.ts:26-28 | `toLowerCase` keeps the length and maps every character through `LowerChar` |
| `JsText.LowerIdempotent` | client/src/pages/MyOrders.tsx:93-98 | lower-casing twice is lower-casing once |
| `JsText.Trim` | server/src/controllers/order.controller.ts:26-28 | `trim` yields a contiguous slice of the input with only white space (ECMAScript's WhiteSpace and LineTerminator characters) before and after it; the slice neither starts nor ends with white space, and is the input itself when that has no outer white space |
| `JsText.Join` | server/src/controllers/order.controller.ts:43-47 | joining no messages gives ""; one gives that message; two give the first, the separator, then the second; with two or more the result starts with the first part and the separator and ends with the last part |
| `JsText.CapitalizeFirst` | server/src/controllers/order.controller.ts:254-264 | the first character is upper-cased, the rest and the length are kept; "" stays "" |
| `JsText.CapitalizeFirstIdempotent` | server/src/controllers/order.controller.ts:254-264 | capitalising the first character twice is capitalising it once |
| `JsDate.DaysInMonth` | server/src/controllers/order.controller.ts:166-174 | every month has 28 to 31 days, and February has 29 exactly in leap years |
| `JsDate.MonthsFillYear` | server/src/controllers/order.controller.ts:166-174 | the twelve months add up to the year's 365 or 366 days |
| `JsDate.NextYearStart` | server/src/controllers/order.controller.ts:160-174 | consecutive years start DaysInYear days apart, which ties the leap-year rule to the closed DayFromYear formula |
| `JsDate.DayZeroIsLastDay` | server/src/controllers/order.controller.ts:166-169 | day 0 of month index m+1 is the last day of month m, for any month index (carried into the year) and in leap years too |
| `JsDate.DayZeroOfMonthTwelve` | server/src/controllers/order.controller.ts:166-169 | day 0 of month index 12 is 31 December of the same year |
| `OrderModel.ReduceStockPerProduct` | server/src/controllers/payment.controller.ts:29-32 | reducing stock lowers each known product's counter by the total quantity ordered of it and adds no product |
| `OrderModel.ReduceStockTwice` | server/src/controllers/payment.controller.ts:29-32 | reducing twice for the same items takes twice the quantity off each product |
| `OrderModel.LatestOtp` | server/src/controllers/payment.controller.ts:197-199 | the latest record, when there is one, is a stored record for that phone; there is none exactly when no record has that phone |
| `OrderModel.LatestAfterCreate` | server/src/controllers/payment.controller.ts:163-166 | a newly stored record becomes its phone's latest and leaves every other phone's latest as it was |
| `OrderModel.Database.constructor` | server/src/models/otp.model.ts:3-15 | the store starts with no orders and no OTP records, with the given stock |
| `PaymentController.PaymentOutcome` | server/src/controllers/payment.controller.ts:11-36 | an unknown order fails; otherwise only that order changes: the payment status is set, the delivery status is set only when given, all other fields are kept; stock is reduced by the order's items unless the payment status is Failed |
| `PaymentController.PaymentOutcomeStock` | server/src/controllers/payment.controller.ts:29-32 | per product, the helper lowers the counter by the ordered quantity on Paid or Pending and leaves it on Failed |
| `PaymentController.RepeatedSuccessReducesTwice` | server/src/controllers/payment.controller.ts:11-36 | two successful outcomes for the same order take its quantities off the stock twice |
| `PaymentController.UpdateOrderPaymentStatus` | server/src/controllers/payment.controller.ts:11-36 | the method reports "not found" exactly for an unknown order and leaves the store unchanged then; otherwise it ends in PaymentOutcome's state |
| `PaymentController.CreateRazorpayOrder` | server/src/controllers/payment.controller.ts:38-71 | the guards come in order: a missing order id, then a missing or zero amount, then the one-rupee minimum, each a 400; the gateway is asked for exactly the paise amount in INR, with the given receipt or a timestamp one, exactly when all guards pass |
| `PaymentController.RazorpayOrderResponse` | server/src/controllers/payment.controller.ts:38-71 | a request the guards refuse gets their 400; otherwise a gateway order yields the 200 body with the public key and the gateway's order id, amount and currency, and a gateway rejection yields 500 with its message or "Server Error" |
| `PaymentController.SignedPayload` | server/src/controllers/payment.controller.ts:92-96 | the signed text is the gateway order id, a `\|`, then the payment id |
| `PaymentController.VerifyDecision` | server/src/controllers/payment.controller.ts:73-140 | a request missing a field is refused; every other request settles as Paid/Processing exactly when the signature matches and the payment is captured, and otherwise as Failed/Pending with a 400; a bad signature gives "Invalid payment signature", a failed fetch "Payment fetch failed: " and the gateway's description or "Unknown", and an uncaptured payment "Payment failed: " and the first non-empty of the error reason, the error description and "Payment not captured" |
| `PaymentController.PaymentVerification` | server/src/controllers/payment.controller.ts:73-140 | the reply is Ok exactly when all fields are present, the order exists, the signature matches and the payment is captured; then the order is Paid/Processing and stock is reduced; every error leaves stock alone; a missing field or an unknown order changes nothing; a bad signature or an uncaptured payment marks the order Failed/Pending; no other order, no OTP record and no id changes |
| `PaymentController.PaymentVerificationUpdatesOnce` | server/src/controllers/payment.controller.ts:73-140 | every request path leaves the store as it was or applies the status helper exactly once |
| `PaymentController.VerifyRazorpayPayment` | server/src/controllers/payment.controller.ts:73-140 | the step-by-step handler ends in PaymentVerification's state and reply |
| `PaymentController.OtpSending` | server/src/controllers/payment.controller.ts:142-179 | a phone is required; a record is stored, and becomes that phone's latest, exactly when the provider answers "Success"; every failure is a 400 and stores nothing |
| `PaymentController.SendOtpForCod` | server/src/controllers/payment.controller.ts:142-179 | the step-by-step handler ends in OtpSending's state and reply |
| `PaymentController.CodVerification` | server/src/controllers/payment.controller.ts:181-270 | the guards come in order (order id, order found, phone and OTP); no OTP record or a code the provider rejects marks the payment Failed; the reply is Ok exactly when the guards pass, the provider confirms the code against the phone's latest session and the SMS call does not throw; then the order becomes Cod, Pending, Processing and stock is reduced; a provider verify call or confirmation SMS that throws leaves the store exactly as it was; every error is a 400 and leaves stock alone; OTP records and the next id never change |
| `PaymentController.VerifyOtpForCod` | server/src/controllers/payment.controller.ts:181-270 | the step-by-step handler ends in CodVerification's state and reply |
| `OrderController.NormalizePaymentMethod` | server/src/controllers/order.controller.ts:26-31 | the normalised payment method is always "Online", whatever the client sent |
| `OrderController.MissingFieldErrorsSpec` | server/src/controllers/order.controller.ts:38-42 | each check's message appears exactly when that check fails; there are at most three, the shipping message comes first, and there are none exactly when the request is complete |
| `OrderController.ValidationErrors` | server/src/controllers/order.controller.ts:38-42 | the pushed-to array equals the messages of the failed checks, in check order |
| `OrderController.PaymentMethodNeverMissing` | server/src/controllers/order.controller.ts:26-42 | "paymentMethod is required" is never reported |
| `OrderController.BothFieldsMissingMessage` | server/src/controllers/order.controller.ts:38-47 | a request with neither shipping info nor items is refused with "shippingInfo is required, orderItems is required" |
| `OrderController.CreatedOrder` | server/src/controllers/order.controller.ts:50-63 | the stored order has payment Pending, delivery Pending and method "Online", and copies the user, time, items, shipping info and every money field |
| `OrderController.NewOrder` | server/src/controllers/order.controller.ts:9-77 | no user gives 401; an incomplete request gives 400 with the joined messages; an order is created, under a fresh id, exactly when there is a user and the request is complete; stock and OTP records never change |
| `OrderController.UpdateOrderStatus` | server/src/controllers/order.controller.ts:80-99 | an unknown or missing id answers 500 and changes nothing; otherwise only that order's delivery status changes |
| `OrderController.UpdatePaymentStatus` | server/src/controllers/order.controller.ts:101-122 | an unknown id answers 500 and changes nothing; otherwise only that order's payment status changes |
| `OrderController.DeleteOrder` | server/src/controllers/order.controller.ts:125-140 | an unknown id answers 404 and changes nothing; otherwise exactly that order is removed |
| `OrderController.SkipAdvancesByPageSize` | server/src/controllers/order.controller.ts:154 | page 1 skips nothing and each later page starts one page size further on |
| `OrderController.TotalPages` | server/src/controllers/order.controller.ts:199 | `Math.ceil(totalItems / pageSize)`: for a positive page size, the fewest pages that hold every item (0 exactly when there are no items); page size 0 gives NaN or Infinity; for a negative page size the ceiling of the negative quotient, at most 0 |
| `OrderController.PagesCoverItems` | server/src/controllers/order.controller.ts:154-199 | every page from 1 to totalPages starts inside the collection, and any later page starts past its end |
| `OrderController.DateWindow` | server/src/controllers/order.controller.ts:159-177 | there is a window exactly when a month or a year is given |
| `OrderController.DateWindowSpan` | server/src/controllers/order.controller.ts:159-177 | the window is never empty; with a month it ends at 23:59:59.999 on that month's last day and spans its days; with only a year it ends at 23:59:59.999 on 31 December and spans the year's days |
| `OrderController.FebruaryWindow` | server/src/controllers/order.controller.ts:159-177 | the window for month 2 spans 29 days in leap years and 28 otherwise |
| `OrderController.TwoDigitYearWindow` | server/src/controllers/order.controller.ts:159-177 | a query year 1..99 gives the window of the year 1900 more (`?year=24` lists 1924's orders), because the `Date` constructor reads two-digit years that way |
| `OrderController.UserOrdersFilter` | server/src/controllers/order.controller.ts:157-189 | the filter always holds the user, holds the date window exactly when a month or year is given, and holds each status filter verbatim exactly when present |
| `OrderController.AllOrdersFilter` | server/src/controllers/order.controller.ts:228-264 | there is no user filter; the payment-method and delivery-status filters are present exactly when given, with the first character upper-cased and the rest kept |
| `OrderController.GetUserOrders` | server/src/controllers/order.controller.ts:143-212 | a negative skip fails with 500; otherwise the filter holds the user, the date window of the query and its status filters verbatim, skip and limit come from the page and page size, totalItems counts all the user's orders and totalPages is computed from them |
| `OrderController.GetAllOrders` | server/src/controllers/order.controller.ts:215-285 | a negative skip fails with 500; otherwise there is no user filter, the filter holds the query's date window, its payment status verbatim and its method and delivery status capitalised, totalItems counts every order and totalPages is computed from it |
| `OrderController.NegativeSkip` | server/src/controllers/order.controller.ts:154 | the skip is negative, and the listing fails, exactly for a page before the first with a positive page size or a page after the first with a negative one |
| `OrderController.FilteredNeverExceedsTotal` | server/src/controllers/order.controller.ts:191-199 | the orders a user's filter selects never outnumber the user's totalItems |
| `OrderController.FilteredCanBeFewer` | server/src/controllers/order.controller.ts:191-199 | they can be fewer: a Paid filter over one Failed order selects nothing while totalItems is 1 |
| `OtpPopup.CountdownClamps` | client/src/components/OtpPopup.tsx:26-30 | from a non-negative start the countdown falls by one per second and stops at 0 |
| `OtpPopup.ResendUnlocksAfterCooldown` | client/src/components/OtpPopup.tsx:26-30 | after a send, the resend timer reaches 0 exactly after 60 ticks |
| `OtpPopup.ResendButtonUnlocks` | client/src/components/OtpPopup.tsx:129-131 | after a successful send or resend the resend button (`disabled={loadingForResend \|\| resendTimer > 0}`) is enabled again exactly once 60 ticks have passed, and never while a resend is loading |
| `OtpPopup.Popup.constructor` | client/src/components/OtpPopup.tsx:19-23 | empty input, not sent, not loading, timer 0 |
| `OtpPopup.Popup.Tick` | client/src/components/OtpPopup.tsx:26-30 | one interval tick lowers a positive timer by one and changes nothing else |
| `OtpPopup.Popup.Input` | client/src/components/OtpPopup.tsx:112-117 | the input keeps at most the first six characters typed |
| `OtpPopup.Popup.BeginSend` | client/src/components/OtpPopup.tsx:33-36 | the spinner starts and the phone is posted; the `disabled` rules of the send and verify buttons both hold |
| `OtpPopup.Popup.EndSend` | client/src/components/OtpPopup.tsx:36-47 | success opens the entry step, starts the 60-second cooldown (the resend button is disabled) and shows "OTP sent successfully!"; failure shows the server's message or "Failed to send OTP"; the spinner stops and the send button's `disabled` flag is cleared either way (after a success that button is no longer rendered, since `sent` switches the popup to the entry step) |
| `OtpPopup.Popup.BeginResend` | client/src/components/OtpPopup.tsx:51-55 | a request is posted exactly when the cooldown is over, so always when the resend button was enabled, and the button is then disabled |
| `OtpPopup.Popup.EndResend` | client/src/components/OtpPopup.tsx:55-65 | success restarts the cooldown and keeps the resend button disabled; failure shows the server's message or "Failed to resend OTP" and enables the button exactly when the cooldown is over |
| `OtpPopup.Popup.BeginVerify` | client/src/components/OtpPopup.tsx:69-76 | phone, OTP and the orderId prop are posted as they are; the `disabled` rules of the send and verify buttons both hold |
| `OtpPopup.Popup.EndVerify` | client/src/components/OtpPopup.tsx:76-84 | success calls onVerified and then onClose; failure calls neither and shows the server's message or "Invalid OTP"; afterwards the send button's `disabled` flag is cleared (that button is only rendered before sending) and the verify button's is clear exactly when six characters are entered |
| `OtpPopup.VerifyEnabledMeansFullOtp` | client/src/components/OtpPopup.tsx:114-123 | an enabled verify button means exactly six characters and no request in flight |
| `Api.ErrorMessage` | client/src/components/OtpPopup.tsx:41-43 | `err?.response?.data?.message \|\| fallback` is the server's message when it is non-empty and the fallback otherwise, so it is never empty with a non-empty fallback |
| `CheckoutForm.ExtractMessage` | client/src/components/CheckoutForm.tsx:40-55 | a non-object gives the fallback; `data.message` wins when it is a string; otherwise `message` when it is a string; otherwise the fallback |
| `CheckoutForm.RejectedRequestMessage` | client/src/components/CheckoutForm.tsx:40-55 | for a rejected request the page shows the server's message verbatim, and the fallback only when no reply came |
| `CheckoutForm.OrderData` | client/src/components/CheckoutForm.tsx:68-77 | the order body carries the cart's items, shipping info and totals, and no payment method |
| `CheckoutForm.GatewayRequest` | client/src/components/CheckoutForm.tsx:96-98 | the gateway order request carries the total as its amount and no orderId |
| `CheckoutForm.HandlerVerifyRequest` | client/src/components/CheckoutForm.tsx:138-143 | the handler's verify body carries the three gateway fields and no orderId |
| `CheckoutForm.RedirectsToCart` | client/src/components/CheckoutForm.tsx:316-318 | the page stays exactly when the total is present and positive |
| `CheckoutForm.Page.constructor` | client/src/components/CheckoutForm.tsx:33-38 | no method chosen, popup hidden, not processing |
| `CheckoutForm.Page.ChoosePaymentMethod` | client/src/components/CheckoutForm.tsx:228-253 | a radio button sets the method and nothing else |
| `CheckoutForm.Page.Submit` | client/src/components/CheckoutForm.tsx:58-98 | without a user only the login toast appears; "cod" opens the popup and ends processing; any other method posts the gateway request for the total and keeps processing; afterwards the submit button (`disabled={isProcessing \|\| !user}`, line 259) is enabled exactly in the COD case |
| `CheckoutForm.Page.GatewayOrderFailed` | client/src/components/CheckoutForm.tsx:178-186 | a refused gateway order shows its message, or "Payment initialization failed", and ends processing, which enables the submit button for a logged-in user |
| `CheckoutForm.Page.Dismiss` | client/src/components/CheckoutForm.tsx:162-167 | closing the gateway window ends processing, which enables the submit button for a logged-in user, and shows "Payment cancelled" |
| `CheckoutForm.Page.VerifySettled` | client/src/components/CheckoutForm.tsx:136-160 | only a successful verification posts the order; a failure shows its message, or "Payment verification failed", and ends processing (enabling the submit button for a logged-in user); neither resets the cart or navigates |
| `CheckoutForm.Page.NewOrderSettled` | client/src/components/CheckoutForm.tsx:144-160 | a stored order resets the cart, shows "Order placed successfully" and goes to /my-orders; a failure shows its message; processing ends either way, so the submit button is enabled for a logged-in user |
| `CheckoutForm.Page.OnVerified` | client/src/components/CheckoutForm.tsx:272-288 | the callback only shows "orderData is not defined": it posts no order, resets nothing and does not navigate |
| `CheckoutForm.Page.OnClose` | client/src/components/CheckoutForm.tsx:271 | the popup is hidden and nothing else changes |
| `CheckoutForm.Page.OpenPopup` | client/src/components/CheckoutForm.tsx:268-290 | the popup gets the shipping phone and no orderId |
| `CheckoutForm.OnlineCheckoutRefused` | client/src/components/CheckoutForm.tsx:96-98 | the server refuses the page's gateway request for its missing orderId, and the page shows that message |
| `CheckoutForm.HandlerVerifyRefused` | client/src/components/CheckoutForm.tsx:138-143 | the server refuses the handler's verify request as missing fields and the store is unchanged |
| `CheckoutForm.PopupVerifyRefused` | client/src/components/OtpPopup.tsx:72-76 | the server refuses the popup's verify request for its missing orderId, the store is unchanged and the popup's request fails |
| `CheckoutForm.PageOrdersStoredOnline` | client/src/components/CheckoutForm.tsx:68-77 | the page's order body is complete exactly when the cart has items, and it is then stored as "Online" |
| `CheckoutForm.ShownPageHasAmount` | client/src/components/CheckoutForm.tsx:316-318 | a page that is not redirected posts an amount that passes the server's "Please provide amount" check |
| `CheckoutForm.SubRupeeTotalRefused` | client/src/components/CheckoutForm.tsx:316-318 | a total of 1 to 99 paise is not redirected, yet createRazorpayOrder refuses it: without an order id as the page posts it, and by the one-rupee minimum once an order id is present |
| `AdminProducts.HandleSort` | client/src/pages/admin/AdminProducts.tsx:97-105 | the sort moves to the clicked column; clicking the sorted column flips the direction, and a new column starts ascending |
| `AdminProducts.HandleSortTwice` | client/src/pages/admin/AdminProducts.tsx:97-105 | two clicks on the sorted column restore the sort; two clicks on a new column leave it descending |
| `AdminProducts.HeaderClick` | client/src/pages/admin/AdminProducts.tsx:214-222 | a column with sorting disabled leaves the sort alone; any other column calls handleSort with its id |
| `AdminProducts.ClicksKeepSortable` | client/src/pages/admin/AdminProducts.tsx:58-92 | whatever headers are clicked, the table is never sorted by the image or actions column |
| `AdminProducts.InitialSortStaysSortable` | client/src/pages/admin/AdminProducts.tsx:25-30 | the same, starting from the initial unsorted state |
| `MyOrders.PaymentMethodLabel` | client/src/pages/MyOrders.tsx:88-98 | "Cod" reads "Cash on delivery"; any other method keeps its length, with the first character upper-cased and the rest lower-cased |
| `MyOrders.LabelIdempotent` | client/src/pages/MyOrders.tsx:88-98 | formatting a label again gives it back, for "Cod" and for every method that does not lower-case to "cod" |
| `MyOrders.LowercaseCodLabel` | client/src/pages/MyOrders.tsx:88-98 | "cod" is labelled "Cod", and that label would be shown as "Cash on delivery" |
| `MyOrders.StoredMethodLabels` | client/src/pages/MyOrders.tsx:88-98 | an order placed through newOrder reads "Online", and the order a successful COD verification updates reads "Cash on delivery" |

## Left out

- HTTP and Express wiring (routes, authentication middleware, `asyncHandler`, JSON bodies) and RTK Query: handlers take their inputs as parameters and return a reply. The `updateOrderStatus` route is `PUT /:id` while the handler reads the id from the body; routing is not modelled.
- Mongoose: documents are map entries, `findById` a lookup, `save` an update. Schema validation (enum checks on status fields), timestamps other than `createdAt`, and the `order.model` file are not part of this model.
- The Razorpay SDK and the HMAC-SHA256 primitive are parameters (`PaymentFetch`, `hmac`). The 2Factor SMS provider's replies are parameters (`SmsSend`, `ProviderReply`). Nodemailer is not modelled.
- `reduceStock` in `utils/utils` is not part of this model. It is taken to lower each known product's counter by the item's quantity, to leave unknown products alone, and to have no floor.
- Floating point: money is integer paise throughout. `Math.round(amount * 100)` and `toFixed` are not modelled.
- PaymentController.CreateRazorpayOrder: a rupee amount that is non-zero but rounds to 0 paise would fail the minimum check in the source, but is reported as "Please provide amount" here. The minimum-amount message leaves out the echoed amount. The public key is a parameter, and the gateway's rejection is taken to carry no `status`, so the error middleware answers 500.
- JsText.Upper and JsText.Lower map ASCII letters only; other characters are kept as they are.
- JsDate: local time is taken with a zero offset. TimeClip, NaN dates and non-numeric `month`/`year` query strings (`Number` giving NaN) are not modelled.
- OrderController.GetUserOrders and OrderController.GetAllOrders: the page that Mongo's `sort`, `skip` and `limit` select is not modelled, nor `limit(0)`, nor array-valued query parameters that the `typeof` checks reject. `currentPage` and `pageSize` are integers here: non-numeric values (which make `skip` and `totalPages` NaN, sent as JSON `null`) and fractional ones (a fractional `skip` and `limit`, and `Math.ceil` of a fractional quotient) are not modelled. The two queries' `Promise.all` concurrency is not modelled. MongoDB is taken to refuse a negative `skip`, and that refusal to reach the error middleware as a 500; its wording is not modelled.
- The clock (`Date.now()`, `new Date().getFullYear()`) is a parameter (`now`, `currentYear`).
- A non-string `paymentMethod` in `newOrder` would throw a TypeError in `toLowerCase`. It is modelled as a string or absent.
- `getUserOrders` without an authenticated user (a TypeError on `user._id`) is not modelled.
- OTP storage: no expiry, no rate limit and no bcrypt hashing are modelled. The imports exist in the source but are not used on these paths.
- CheckoutForm.Page.OnVerified: the ReferenceError message is taken in V8's wording, "orderData is not defined".
- MyOrders.LabelIdempotent excludes the methods other than "Cod" that lower-case to "cod": they are labelled "Cod", which is then labelled "Cash on delivery" (MyOrders.LowercaseCodLabel).
- JSX rendering, styling and toasts as displayed are not modelled. Also not modelled: `handlePageChange`, AdminOrders, the admin order details page, ConfirmPopup, the Vite configuration and `mergeProject.js`.
- The error middleware is not modelled; its effect is written into the replies (500 for the admin setters' plain errors). `ApiError` in `utils/ApiError` is not part of this model, and it is taken to answer with the status it carries.
