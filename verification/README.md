# Maha storefront: payment, cart, checkout, tracking and admin logic in Dafny

This project models the decision logic of the Maha e-commerce storefront (a
Next.js shop that takes payment through SSLCommerz and stores orders in
Firestore) and proves properties of it. The model covers these parts:

- **Payment routes.** The route that opens a payment session
  (`api/payment/initiate`), the gateway's success, failure and instant
  payment notification callbacks, and the older success and failure routes
  that still ship next to the new ones.
- **Cart and wishlist.** The client-side cart and wishlist contexts.
- **Checkouts.** The payment checkout component and the cash-on-delivery
  checkout page.
- **Order tracking.** The order-tracking page and its progress bar.
- **Admin dashboard.** The order search, the delete-confirmation dialog,
  the per-status order counts and the dashboard page's handlers.
- **Route guard.** The middleware that guards `/dashboard`.
- **Auth forms.** The submit logic of the login, forgot-password and
  reset-password pages.

Every handler is a pure function:

- **Inputs.** It takes the process environment, the parsed request and the
  outcome of each collaborator it awaits. The collaborators are the gateway's
  validation call, Firestore, the mailer and the Firebase Auth SDK.
- **Output.** It returns the response together with the external calls it
  made, in order.

The JavaScript value rules that the code relies on are written out in module
`Js`:

- a missing property or an empty string is falsy;
- `a || b` is modelled as written;
- a missing value interpolates as the text "undefined", and a missing query
  parameter as "null".

Redirect statuses are the literal ones:

- 303 for the `.ts` routes, which build `new Response(null, {status: 303})`;
- 307 for `NextResponse.redirect`.

Redirect locations are kept as the routes write them: a path and the
name/value pairs of the query template, in order. Nothing is encoded. Module
`Http` defines two views of a location:

- `LocationText` is the raw text of the template.
- `PageParam` is what the receiving page reads back with
  `searchParams.get`. It cuts at `#`, splits on `&`, and takes the name up to
  the first `=`.

`Http.PageReadsWritten` proves that the two agree whenever the names and
values are printable ASCII without `&`, `#`, `+` or `%` and the last value
does not end in a space. `FailRoute.UnencodedErrorSplits` shows what happens
when a value holds an `&`.

The `.ts` routes hand the raw text to `new Response(...)` as the `Location`
header. The Fetch standard's header check throws on a character above
U+00FF, and on NUL, CR or LF once trailing tabs, newlines and spaces are
trimmed. `Http.Sendable` states that check. A throw inside the POST
handlers' `try` ends on the error page; the GET handlers have no `try`, so it
becomes the framework's 500 (`UncaughtError`). The `.js` routes build their
locations with `new URL(...)`, which encodes such characters instead.

Modules: `Js`, `Http`, `Strings`, `Seqs` (shared definitions), `Gateway`,
`InitiateRoute`, `SuccessRoute`, `LegacySuccessRoute`, `IpnRoute`,
`FailRoute`, `LegacyFailRoute`, `Correlation`, `Cart`, `Wishlist`,
`Checkout`, `CheckoutPage`, `ProgressBar`, `TrackOrder`, `Dashboard`,
`DashboardPage`, `RouteGuard`, `Ui`, `Login`, `ForgotPassword`,
`ResetPassword`.

## Model

| member | source | states |
|---|---|---|
| InitiateRoute.Post | src/app/api/payment/initiate/route.js:8-102 | no answer is a redirect; the answer is the framework's uncaught 500 (not JSON) exactly when the credentials are set and the body is the JSON value `null`, and JSON otherwise; a session request is sent to the gateway exactly when both store credentials are set, the body is a JSON object and amount, customer name and customer e-mail are all truthy |
| InitiateRoute.ConfigErrorFirst | src/app/api/payment/initiate/route.js:9-15 | without credentials the answer is the same 500 "Server configuration error" for every body and gateway reply, and no session is opened |
| InitiateRoute.RequestChecks | src/app/api/payment/initiate/route.js:17-34 | a non-JSON body gets 400 "Invalid request body"; the JSON value `null` is destructured outside the `try` and throws, giving the uncaught 500; a missing amount, name or e-mail gets 400 "Missing required fields"; the order id is not required |
| InitiateRoute.SessionContents | src/app/api/payment/initiate/route.js:36-68 | the session carries the posted amount and customer, currency BDT, a `TRN_` id, callback URLs under `BASE_URL` (default localhost:3000) and no pass-through `value_a` |
| InitiateRoute.TranIdShape | src/app/api/payment/initiate/route.js:36 | a transaction id is "TRN_" followed by decimal digits, and sessions opened at different milliseconds get different ids |
| InitiateRoute.ReplyClassifies | src/app/api/payment/initiate/route.js:70-101 | 200 with the gateway page iff the gateway answered status SUCCESS with a page URL; any other answer is 400 carrying the answer; a thrown error is 500 carrying its message |
| InitiateRoute.ForwardingPayload | src/app/api/payment/initiate/route.js:44-68 | the corrected session request: identical to the one sent except that `value_a` carries the checkout's order id |
| InitiateRoute.SessionPayload | src/app/api/payment/initiate/route.js:36-68 | a session request carries the posted amount (non-zero), customer name and e-mail (non-empty), currency BDT and no `value_a` |
| SuccessRoute.Post | src/app/api/payment/success/route.ts:50-153 | every answer is a 303 redirect; the validation call, when made, is the first call and is made only once |
| Http.PageReadsWritten | src/app/api/payment/fail/route.ts:22 | for a path of printable ASCII without `?`, `#` or a trailing space, and parameters whose names and values are printable ASCII without `&`, `#`, `+` or `%` (names also no `=`) and whose last value does not end in a space, what the page reads with `searchParams.get` from the unencoded redirect text is the first value written under that name |
| SuccessRoute.ConfigErrorIgnoresRequest | src/app/api/payment/success/route.ts:53-57 | without store credentials the redirect to `reason=config_error` is the same for every body and collaborator outcome, and nothing is called |
| SuccessRoute.MissingFieldsCallNothing | src/app/api/payment/success/route.ts:64-70 | a callback lacking `val_id`, `tran_id`, `amount` or `value_a` is sent to `reason=missing_data` before any call |
| SuccessRoute.WriteIffValidated | src/app/api/payment/success/route.ts:72-99 | the order is written iff credentials, form and all four fields are present and validation answers exactly VALID or VALIDATED; then it is written exactly once, for `value_a` with the posted `tran_id` |
| SuccessRoute.SuccessRedirectIgnoresStoreAndMail | src/app/api/payment/success/route.ts:87-152 | a validated callback has written the payment for `value_a` with the posted `tran_id`, and ends on the same page whatever fetching, writing or mailing did: the success page with those ids when the header check accepts its text, the error page otherwise |
| SuccessRoute.WideTranIdWritesThenErrs | src/app/api/payment/success/route.ts:97-152 | a validated callback whose `tran_id` holds a character above U+00FF is written to the store exactly once, yet ends on the error page |
| SuccessRoute.OtherStatusFails | src/app/api/payment/success/route.ts:143-152 | any other validation answer makes no further call and goes to the failure page with transaction id, reported status and order id, or to the error page when the header check refuses that text |
| SuccessRoute.MailsNeedDetails | src/app/api/payment/success/route.ts:103-138 | mail is sent only for a validated payment whose details were fetched; the customer's confirmation goes first to the stored address, the admin notice second and only after the customer mail succeeded; mail failures never change the response |
| SuccessRoute.ExceptionsReachErrorPage | src/app/api/payment/success/route.ts:148-152 | an unreadable body or a thrown validation call ends on `/payment/error` |
| SuccessRoute.Get | src/app/api/payment/success/route.ts:158-176 | every GET answer is a 303 redirect or, when the header check refuses the text, the framework's 500 |
| SuccessRoute.GetClassifies | src/app/api/payment/success/route.ts:158-176 | the GET targets the success page iff a transaction id (`tran_id`, else `transactionId`) and an order id are present and the status is Success, DONE or absent, carrying those ids; the failure page iff the status is FAILED or CANCELLED, carrying the id as written ("null" when absent), the status and the order id or ""; otherwise the error page with no parameters, which always goes out; the first two are a 500 exactly when the header check refuses their text |
| SuccessRoute.WideOrderIdIsUncaught | src/app/api/payment/success/route.ts:160-175 | a GET whose `orderId` holds a character above U+00FF gets the framework's 500 when it targets the success or failure page, and the error page otherwise |
| SuccessRoute.GetSuccessPageReads | src/app/api/payment/success/route.ts:167-175 | when the success condition holds and both ids are printable ASCII without `&`, `#`, `+` or `%`, the order id not ending in a space, the GET redirects to the success page and `searchParams.get` returns both ids as sent |
| SuccessRoute.GetFailurePageReads | src/app/api/payment/success/route.ts:169-175 | when the status is FAILED or CANCELLED and the written id and order id are printable ASCII without `&`, `#`, `+` or `%`, the order id not ending in a space, the GET redirects to the failure page and `searchParams.get` returns the id as written ("null" when absent), the status and the order id or "" |
| SuccessRoute.Mails | src/app/api/payment/success/route.ts:103-138 | at most two mails; mail is sent iff the order details were fetched; the first is the customer's confirmation to the stored address; the admin notice follows iff the customer mail succeeded and the order has a payment method |
| LegacySuccessRoute.Post | src/app/api/payment/success/route.js:8-84 | every answer is a 307 redirect, and at most one call is made, the validation call |
| LegacySuccessRoute.ValidatesEveryForm | src/app/api/payment/success/route.js:17-76 | every readable form is validated, however incomplete; the answer alone picks success (with the posted id and amount), failure or the error page |
| LegacySuccessRoute.NeverWrites | src/app/api/payment/success/route.js:51-83 | no path writes the order or sends mail; an unreadable body skips validation |
| LegacySuccessRoute.GetIgnoresStatus | src/app/api/payment/success/route.js:87-94 | the GET always goes to the success page, and no parameter but `transactionId` changes it |
| LegacySuccessRoute.Get | src/app/api/payment/success/route.js:87-94 | the GET is a 307 to `/payment/success` carrying `transactionId`, or the text "null" when it is missing |
| IpnRoute.Post | src/app/api/payment/ipn/route.js:8-52 | every answer is JSON, and at most one call is made, the validation call |
| IpnRoute.StatusClassifies | src/app/api/payment/ipn/route.js:19-51 | 200 iff validation answered VALID or VALIDATED, 400 for any other answer, 500 with the message when something threw; nothing is written or mailed |
| FailRoute.Post | src/app/api/payment/fail/route.ts:9-37 | every POST answer is a 303 redirect; it goes to `/payment/error`, without parameters, exactly when the body cannot be read as a form or the header check refuses the failure page's text, and otherwise to `/payment-failed` with the `tran_id` (default "unknown") and `error` (default "Payment failed") |
| FailRoute.PostReadsOnlyTwoFields | src/app/api/payment/fail/route.ts:20-27 | the POST answer depends only on `tran_id` (default "unknown") and `error` (default "Payment failed"), and when the header check accepts the failure page it writes them as its two parameters |
| FailRoute.PostPageReadsFields | src/app/api/payment/fail/route.ts:22-24 | when the written id and error are printable ASCII without `&`, `#`, `+` or `%` and the error does not end in a space, the POST reaches the failure page and the page reads both back as written |
| FailRoute.UnencodedErrorSplits | src/app/api/payment/fail/route.ts:22-24 | because nothing is encoded, a posted error `a&b=c` reaches the failure page as the error `a` plus a stray parameter `b` with value `c`, not as the posted text |
| FailRoute.WideErrorReachesErrorPage | src/app/api/payment/fail/route.ts:22-35 | a posted error holding a character above U+00FF makes `new Response` throw inside the `try`, so the POST ends on `/payment/error` |
| FailRoute.Get | src/app/api/payment/fail/route.ts:39-50 | the GET is a 303 to the failure page exactly when the header check accepts its text, and the framework's 500 otherwise; the page has exactly one parameter, `transactionId`, which is never empty: the incoming value when truthy, "unknown" otherwise |
| FailRoute.GetReadsOnlyTransactionId | src/app/api/payment/fail/route.ts:39-50 | the GET answer depends on `transactionId` alone and writes the same id as the POST does for a form posting that id as `tran_id` |
| FailRoute.GetPageReadsId | src/app/api/payment/fail/route.ts:44-46 | when the id is printable ASCII without `&`, `#`, `+` or `%` and does not end in a space, the GET redirects and the failure page reads the id back as written |
| FailRoute.WideIdIsUncaught | src/app/api/payment/fail/route.ts:44-49 | a GET whose `transactionId` holds a character above U+00FF gets the framework's 500 |
| LegacyFailRoute.Post | src/app/api/payment/fail/route.js:4-30 | every POST answer is a 307 redirect; it goes to `/payment/error`, without parameters, exactly when the body cannot be read as a form, and to `/payment/failed` otherwise |
| LegacyFailRoute.NoUnknownDefault | src/app/api/payment/fail/route.js:15-22 | a missing `tran_id` is written as "undefined", a present one as is; `error` defaults to "Payment failed" |
| LegacyFailRoute.PostPageReadsFields | src/app/api/payment/fail/route.js:20-22 | when the written id and error are printable ASCII without `&`, `#`, `+` or `%` and the error does not end in a space, the page reads both back as written |
| LegacyFailRoute.Get | src/app/api/payment/fail/route.js:32-39 | the GET goes to `/payment/failed` with exactly one parameter, `transactionId`: the incoming value, or the text "null" when it is missing |
| LegacyFailRoute.GetReadsOnlyTransactionId | src/app/api/payment/fail/route.js:32-39 | the GET answer depends on `transactionId` alone, and writes the same id as the newer route's GET exactly when that id is truthy |
| LegacyFailRoute.GetPageReadsId | src/app/api/payment/fail/route.js:37 | when the written id is printable ASCII without `&`, `#`, `+` or `%` and does not end in a space, the page reads it back as written |
| Correlation.AsWrittenCallbackMissingData | src/app/api/payment/success/route.ts:64-70 | a success callback for any session the initiate route opens is refused with `missing_data`, because the session never carries `value_a` |
| Correlation.ForwardedCallbackReachesSuccess | src/app/api/payment/success/route.ts:87-152 | with the order id forwarded in `value_a`, a validated callback records the payment against that order and reaches its success page, or the error page when the header check refuses the success page's text |
| Cart.SizesGetDistinctIds | src/context/CartContext.tsx:7-10 | the same product in two different sizes, or sized and unsized, gets two different cart keys |
| Cart.CartItemId | src/context/CartContext.tsx:7-10 | a cart key is the product id, a dash and a suffix, and the suffix is "NOSIZE" exactly when no size was chosen |
| Cart.ItemIdDeterminesProductAndSize | src/context/CartContext.tsx:7-10 | for non-negative sizes a cart key determines the product id and the size |
| Cart.IncreaseQuantity | src/context/CartContext.tsx:79-85 | every line with the key gains exactly one; all other lines and all other fields are unchanged |
| Cart.AddExisting | src/context/CartContext.tsx:52-64 | adding a product already present raises only its lines by one, keeps the line count, and raises the total by those lines' unit prices |
| Cart.AddNew | src/context/CartContext.tsx:52-69 | adding a new product appends one line of quantity 1 with its size and key, and raises the total by its unit price |
| Cart.AddPreservesInvariants | src/context/CartContext.tsx:52-70 | adding keeps keys unique and quantities positive |
| Cart.AddToCart | src/context/CartContext.tsx:52-70 | afterwards the product's key is in the cart; the line count grows by one exactly when the key was new; every other key keeps its membership |
| Cart.RemoveSpec | src/context/CartContext.tsx:72-74 | removing keeps exactly the lines with another key, in order; it lowers the total by the removed lines' total and keeps keys unique |
| Cart.RemoveFromCart | src/context/CartContext.tsx:72-74 | afterwards no line has the key; every line with another key is kept; no line is added |
| Cart.ClearCart | src/context/CartContext.tsx:76 | the cleared cart has no keys and totals 0 |
| Cart.LowerMatching | src/context/CartContext.tsx:89-94 | the lines with the key lose one, never going below 0; the others are unchanged |
| Cart.DecreaseSpec | src/context/CartContext.tsx:88-98 | afterwards every quantity is positive; other positive lines survive unchanged; a matching line survives with one less exactly when it had more than one; an unknown key changes a positive cart not at all |
| Cart.DecreaseQuantity | src/context/CartContext.tsx:88-98 | afterwards every quantity is positive, the cart is no longer, and no key appears that was not there |
| Cart.IncreaseSpec | src/context/CartContext.tsx:79-85 | an unknown key changes nothing; the total grows by the matching lines' unit prices; keys stay unique |
| Cart.TotalIsSum | src/context/CartContext.tsx:100-104 | the total is 0 for the empty cart, unit price times quantity for one line, and additive over concatenation, with the sale price used when it is non-zero |
| Cart.TotalNonNegative | src/context/CartContext.tsx:100-104 | with non-negative prices and quantities the total is non-negative |
| Wishlist.ToggleFlips | src/context/WishlistContext.tsx:30-41 | toggling flips whether the toggled id is wishlisted and leaves every other id's membership alone |
| Wishlist.Toggle | src/context/WishlistContext.tsx:30-38 | toggling flips whether the product id is wishlisted, and every entry afterwards was there before or is the toggled product |
| Wishlist.ToggleShape | src/context/WishlistContext.tsx:30-38 | adding puts the product last after the unchanged list; removing keeps the other entries in order and shortens the list |
| Wishlist.ToggleTwice | src/context/WishlistContext.tsx:30-38 | toggling an absent product twice restores the list; toggling a present one twice moves it to the end |
| Wishlist.TogglePreservesUnique | src/context/WishlistContext.tsx:30-38 | toggling keeps product ids unique |
| Checkout.GatewayOrder | src/components/checkout/index.tsx:35-64 | the saved order has one line per cart line with key, size and effective price, the cart total, status "Pending" and payment status "Awaiting Payment" |
| Checkout.GatewayOrderAddsUp | src/components/checkout/index.tsx:43-55 | the saved lines add up to the saved total |
| Checkout.RenderPayment | src/components/checkout/index.tsx:120-126 | the empty-cart notice is shown iff the cart is empty; otherwise the summary shows the cart total |
| Checkout.HandleReply | src/components/checkout/index.tsx:67-103 | the browser goes to the gateway iff the reply is ok, JSON, has status "success" and a non-empty page URL, and then to that URL; every other reply shows a toast |
| Checkout.Submit | src/components/checkout/index.tsx:105-118 | the order is always built from the cart; a payment request (cart total, customer, order id, return URLs) is sent iff the save gave a non-empty id |
| Checkout.RequestFor | src/components/checkout/index.tsx:67-84 | the payment request's amount is the cart total, which is the saved order's total, and it carries the form's name and e-mail and the saved order id |
| Checkout.NoPaymentWithoutOrder | src/components/checkout/index.tsx:105-118 | without a saved order there is no payment request and no redirect, whatever the route would answer; a rejected save shows the save-failure toast |
| Checkout.ToastsAreKnown | src/components/checkout/index.tsx:56-103 | every toast is the save failure, the unexpected-error text, or starts with "Payment initiation failed: " |
| Checkout.AsInitiateRequest | src/components/checkout/index.tsx:74-84 | the body carries the order id, and the route's required-field test passes iff amount, name and e-mail are non-zero/non-empty |
| Checkout.CheckoutThroughInitiate | src/components/checkout/index.tsx:67-103 | checkout and initiate route together: the browser goes to the gateway exactly when the route opened a session and the gateway answered SUCCESS with a page URL, and to that URL; a zero total shows "Payment initiation failed: Missing required fields" |
| CheckoutPage.PlainOrder | src/app/checkout/page.tsx:72-118 | the saved order has one line per cart line at list price, the cart total at sale prices, status "Pending" and no payment status |
| CheckoutPage.PlainLine | src/app/checkout/page.tsx:83-91 | a stored line has the list price and the cart quantity, and its price agrees with the payment checkout's line exactly when no sale price is in effect |
| CheckoutPage.PlainOrderAddsUpWithoutSales | src/app/checkout/page.tsx:83-91 | when nothing is on sale the stored lines add up to the stored total |
| CheckoutPage.SaleLineDisagreesWithTotal | src/app/checkout/page.tsx:83-91 | one item listed at 1000 and sold at 800 is stored as a line of 1000 in an order whose total is 800 |
| CheckoutPage.Render | src/app/checkout/page.tsx:138-143 | the empty-cart notice iff the cart is empty; otherwise one summary amount per line and the cart total |
| CheckoutPage.SummaryShowsStoredLines | src/app/checkout/page.tsx:281-295 | the summary's line amounts are the stored order's line amounts |
| CheckoutPage.Submit | src/app/checkout/page.tsx:122-136 | with a saved id: the order id is recorded, the cart cleared, and the page goes to "/thank-you"; otherwise the order id and cart are kept; an alert is shown iff the save was rejected |
| ProgressBar.RenderShape | src/components/track-order/ProgressBar.tsx:37-82 | the filled segments are the first `visibleSections`; the current one is the last filled one; there is a current one iff `visibleSections` is between 1 and the section count; the filled count is `visibleSections` clamped |
| ProgressBar.Segment | src/components/track-order/ProgressBar.tsx:37-118 | section `i` is filled iff `i < visibleSections`, current iff `i == visibleSections - 1` (and then filled), labelled with a prefix of its title holding no ':', coloured when filled and grey otherwise |
| ProgressBar.Labels | src/components/track-order/ProgressBar.tsx:87-118 | each label is `title.split(':')[0]` and is coloured with the section colour exactly when lit, grey otherwise |
| TrackOrder.FetchShowsOnlyMatches | src/app/track-order/page.tsx:98-129 | the order is shown iff the id addresses a stored document under "orders" whose e-mail, lowered, equals the entered e-mail trimmed and lowered, and then under the document id; the error banner is shown iff the order is not; the generic error appears iff `doc` refuses the id, the read fails, or the order has no e-mail |
| TrackOrder.FetchOrder | src/app/track-order/page.tsx:98-129 | without an id or e-mail nothing changes; otherwise exactly one of the order and the banner shows, and a shown order's e-mail matches the entered one lowered and trimmed |
| TrackOrder.PlainIdAddressesOrder | src/app/track-order/page.tsx:106 | an id without '/' addresses the document of that name in "orders" |
| TrackOrder.SlashIdFails | src/app/track-order/page.tsx:106-129 | an id with one inner '/' names a collection path, so `doc` throws and the page shows the generic error rather than "no order found" |
| TrackOrder.MismatchLooksLikeUnknownId | src/app/track-order/page.tsx:108-121 | a wrong e-mail for an existing order and an id that names no order give the same page: no order and the "no order found" banner |
| TrackOrder.BlankInputIgnored | src/app/track-order/page.tsx:98-101 | without an id or with a blank e-mail nothing changes |
| TrackOrder.EmailCaseAndSpaceInsensitive | src/app/track-order/page.tsx:99-118 | lowering or trimming the entered e-mail does not change the outcome |
| TrackOrder.FetchKeepsOneOutcome | src/app/track-order/page.tsx:103-128 | the order shown and the error banner are never both present |
| TrackOrder.UrlIdIsNotTrimmed | src/app/track-order/page.tsx:138-146 | an id with a trailing space finds its order, under the trimmed id, from the form but gets "no order found" from the link |
| TrackOrder.Submit | src/app/track-order/page.tsx:144-146 | a blank id or e-mail changes nothing; otherwise exactly one of the order and the banner shows |
| TrackOrder.FromUrl | src/app/track-order/page.tsx:138-142 | without both query parameters nothing changes; with both and a non-blank e-mail exactly one of the order and the banner shows |
| TrackOrder.ProgressFollowsSections | src/app/track-order/page.tsx:149-171 | each section's status maps to its index and a quarter per stage reached; "Cancelled" maps to -1 and 100; any other status to 0 and 0 |
| TrackOrder.GetProgressInfo | src/app/track-order/page.tsx:156-171 | the index is in -1..3 and is -1 exactly for "Cancelled"; the percent is a multiple of 25 up to 100, and for a stage index with a non-zero percent it is 25 per stage reached |
| TrackOrder.Progress | src/app/track-order/page.tsx:173-176 | index in -1..3, percent in 0..100, and index -1 only for a shown cancelled order |
| TrackOrder.TrackerShowsStage | src/app/track-order/page.tsx:173-176 | an order in stage k lights stages 0..k, marks k current, and reports 25(k+1) percent |
| TrackOrder.UnknownStatusShowsPending | src/app/track-order/page.tsx:156-176 | an unknown or missing status still shows the bar with "Pending" lit and current and 0 percent |
| TrackOrder.CancelledShowsNotice | src/app/track-order/page.tsx:256-269 | a cancelled order shows the cancellation notice, not the bar |
| TrackOrder.Show | src/app/track-order/page.tsx:256-269 | nothing is shown iff there is no order; the cancellation notice iff the order is cancelled; otherwise the four-segment bar with the first stage lit and a percent in 0..100 |
| TrackOrder.StatusColor | src/app/track-order/page.tsx:40-48 | each of the four stages is coloured with its own section's colour, "Cancelled" red (#EF4444), and a missing or any other status grey (#6B7280) |
| Dashboard.FilterSpec | src/components/dashboard/index.tsx:68-77 | an empty search lists every order; otherwise exactly the orders whose name, e-mail or id contain the term ignoring case, or whose phone contains it as typed, in list order |
| Dashboard.FilterOrders | src/components/dashboard/index.tsx:68-77 | the list never gains an order, lists only orders it was given, and is every order for an empty term |
| Dashboard.TypingNarrows | src/components/dashboard/index.tsx:68-77 | typing more of a term never adds an order to the list |
| Dashboard.HandleSpec | src/components/dashboard/index.tsx:59-130 | confirming without a pending id does nothing; confirming or cancelling otherwise closes the dialog and clears the pending id; only a confirm deletes, and it deletes the pending id; the details dialog opens and closes with its order |
| Dashboard.Handle | src/components/dashboard/index.tsx:59-130 | a store call is made iff a toast is shown, only for a confirmed delete or a status pick; a status pick leaves the dialogs alone and updates the picked order to the picked status |
| Dashboard.OnlyClickedOrdersDeleted | src/components/dashboard/index.tsx:109-125 | from the initial panel only orders whose delete button was clicked are ever deleted, and there are no more deletes than confirmations |
| DashboardPage.ChartData | src/app/dashboard/page.tsx:110-120 | one chart entry per distinct status in first-appearance order, each with the number of orders carrying it |
| DashboardPage.ChartSummary | src/app/dashboard/page.tsx:110-120 | a status is charted iff some order has it, each once, and the counts add up to the number of orders |
| DashboardPage.HandleDelete | src/app/dashboard/page.tsx:137-150 | the order is deleted iff the admin confirms, and an alert is shown iff a confirmed delete fails |
| DashboardPage.HandleStatusChange | src/app/dashboard/page.tsx:125-135 | an alert is shown iff the status update fails |
| RouteGuard.Middleware | src/middleware.ts:6-28 | a 307 to `/login` carrying the path in `redirect` iff the path starts with "/dashboard" and there is no non-empty `session-token` cookie |
| RouteGuard.GuardSpec | src/middleware.ts:6-33 | with the matcher applied, a visitor is redirected iff the path is "/dashboard" or below it and the cookie is absent or empty; any non-empty cookie passes |
| RouteGuard.LookalikePathNotGuarded | src/middleware.ts:31-33 | "/dashboards" would be refused by the middleware but the matcher never passes it on |
| RouteGuard.LoginAlwaysReachable | src/middleware.ts:6-33 | "/login" is let through with or without a cookie |
| ResetPassword.ErrorMessage | src/app/dashboard/reset-password/page.tsx:77-92 | wrong password, recent-login and weak-password codes each get their own message; anything else the generic one |
| ResetPassword.Submit | src/app/dashboard/reset-password/page.tsx:45-92 | at most two SDK calls; the dashboard redirect and the form reset happen iff the success toast is shown; the page goes to "/login" iff no user is signed in |
| ResetPassword.ChecksComeFirst | src/app/dashboard/reset-password/page.tsx:45-61 | the checks run in order (signed in, matching confirmation, at least 6 characters), and no SDK call is made unless all pass |
| ResetPassword.UpdateOnlyAfterReauth | src/app/dashboard/reset-password/page.tsx:63-92 | the password is updated only right after a successful re-authentication with the current password; success, the form reset and the dashboard redirect happen iff both calls succeed |
| Login.MessagesByCode | src/app/login/page.tsx:32-80 | an unknown account and a bad credential share one message, a wrong password has its own, other codes the default with a generic toast, no code the default without a toast; only a full success navigates; loading always ends |
| Login.Submit | src/app/login/page.tsx:32-80 | loading always ends; the page navigates iff every call resolved, and then to "/dashboard"; an error message is shown iff it does not navigate |
| Login.AccountExistenceVisible | src/app/login/page.tsx:53-66 | an unknown account and a wrong password produce different messages |
| ForgotPassword.Submit | src/app/forgot-password/page.tsx:30-75 | a success message with a success toast and a disabled button iff the link was sent; otherwise an error message with an error toast and the button enabled |
| ForgotPassword.ErrorMessages | src/app/forgot-password/page.tsx:51-71 | an unknown account, any other string code and a code-less error each get their own message |
| ForgotPassword.UnknownAddressDistinguishable | src/app/forgot-password/page.tsx:38-71 | as written, an unknown address produces a different page from a sent link: another text, an error toast, an enabled button |
| ForgotPassword.SubmitUniform | src/app/forgot-password/page.tsx:30-75 | the corrected handler agrees with the page on every outcome except an unknown account |
| ForgotPassword.UniformHidesRegistration | src/app/forgot-password/page.tsx:38-56 | with the correction an unknown address produces exactly the page of a sent link |

## Left out

- Persistence of the cart and wishlist in `localStorage`, and the cart sheet's open flag. These are browser state that does not change the lists' contents.
- The time and randomness inputs:
  - `Date.now()` is a parameter (`nowMillis`);
  - the Firestore server timestamp `orderDate` is not modelled;
  - the forgot-password page's 60-second timer that re-enables the button is left out, so a run ends with the button disabled after a success.
- Collaborators as parameters. The gateway's HTTP calls, Firestore reads and writes, the mailer and the Firebase Auth SDK each appear only as their outcome: resolved, rejected, or the data they return.
- Collaborators outside this model. `src/firebase/admin.ts` does not export `fetchOrderDetails` or `updatePaymentStatus`, so what they do inside is not part of this model.
- Logging. `console.log` and `console.error` are left out.
- Floating point. Prices and amounts are whole BDT as unbounded integers. `parseFloat` is not modelled.
- Unicode. `toLowerCase` is modelled for ASCII letters only. Password length is counted in characters rather than UTF-16 code units.
- Percent-decoding and encoding of redirect parameters. The receiving page's decoding of `+` and `%XX` is not modelled. Contracts that use `QueryValue` speak about the pairs as the handler writes them. What the page reads is stated by `Http.PageReadsWritten` for any location, and by the per-route page-read lemmas for the failure routes and the success route's GET. All of these require printable ASCII values without `&`, `#`, `+` or `%`, and a last value that does not end in a space. A value holding an `&` is covered only by the `FailRoute.UnencodedErrorSplits` example. The WHATWG URL parser behind `new URL(...)` in the `.js` routes percent-encodes spaces and non-ASCII characters; this is not modelled. The middleware's `URLSearchParams.set` encodes the `redirect` value; the model keeps that value as a key/value pair.
- Form validation. The react-hook-form rules (required fields, the e-mail pattern) run before `onSubmit` and are not modelled; the model starts from a submitted form.
- Rendering beyond what the properties need:
  - the revenue chart in `src/components/dashboard/index.tsx:79-95`;
  - the order-detail dialog, apart from its status colour;
  - the truck animation on the tracking page;
  - loading and submitting flags, except where a handler sets them.
- Routes outside this model. The `/api/login` session-cookie route is not part of this model, and the login page does not inspect its reply.
- The `order_id` field the checkout sends to the initiate route. The route never reads it, so it is carried but unused.
- Key order in `chartData`. A JavaScript object lists integer-like keys first; the model keeps first-appearance order, which agrees for every status the shop uses.
- Thrown exceptions. Exceptions inside the success route's mail block are caught and logged; the model keeps only their effect on which mails are sent.
- The progress bar's overlay width, `(progressPercentage % (100 / total)) * total` at `src/components/track-order/ProgressBar.tsx:75`. This is floating-point styling, so the model keeps only which segment carries the overlay.
- Http.PageReadsWritten: what the page reads is not stated for text outside printable ASCII. The URL parser removes tabs and newlines and trims a trailing space, and the `.js` routes' `new URL(...)` encodes other characters, so for such text the page's reading differs from the text as written, and the model does not define it.
- SuccessRoute.GetSuccessPageReads: not stated for ids with characters outside printable ASCII or an order id ending in a space, for the reason given under `Http.PageReadsWritten`.
- SuccessRoute.GetFailurePageReads: not stated for ids with characters outside printable ASCII or an order id ending in a space, for the reason given under `Http.PageReadsWritten`.
- FailRoute.PostPageReadsFields: not stated for an id or error with characters outside printable ASCII or an error ending in a space, for the reason given under `Http.PageReadsWritten`. An error above U+00FF is covered by `FailRoute.WideErrorReachesErrorPage`.
- FailRoute.UnencodedErrorSplits: stated only for printable ASCII pieces and a last piece that does not end in a space, for the reason given under `Http.PageReadsWritten`.
- FailRoute.GetPageReadsId: not stated for an id with characters outside printable ASCII or ending in a space, for the reason given under `Http.PageReadsWritten`. An id above U+00FF is covered by `FailRoute.WideIdIsUncaught`.
- LegacyFailRoute.PostPageReadsFields: not stated for an id or error with characters outside printable ASCII or an error ending in a space. `new URL(...)` percent-encodes them, and that encoding is not modelled.
- LegacyFailRoute.GetPageReadsId: not stated for an id with characters outside printable ASCII or ending in a space. `new URL(...)` percent-encodes them, and that encoding is not modelled.
- Cart.CartItemId: sizes are modelled as whole numbers. In `CartContext.tsx` a size is a JavaScript `number`, and `${size}` prints fractions and exponents (`1e-7`), which the model does not produce.
- Cart.ItemIdDeterminesProductAndSize: proved for whole, non-negative sizes only. With JavaScript numbers two different items can share a key; for example product "a-1e" with size 7 and product "a" with size `1e-7` both give "a-1e-7".
- TrackOrder.StatusColor: `statusColors` is a plain object, so a status naming an inherited member such as "toString" picks up that member instead of grey. The model gives grey for it.
- TrackOrder.FetchOrder: only `doc`'s own path checks are modelled, that is an empty segment (`//`) and an odd segment count. Document ids that the Firestore server itself refuses, such as `__.*__` names or over-long ids, are not modelled; their reads would fail like an unreachable store. A stored `id` field would override the document id in the `{id, ...data}` spread, and the model does not model it because neither checkout writes one.

## Findings

| source | as written | input that shows it | evidently intended | confidence | as-written member | corrected member |
|---|---|---|---|---|---|---|
| src/app/api/payment/initiate/route.js:44-68 | the session request never sets the pass-through field `value_a`, while the success callback refuses any post without `value_a` (`src/app/api/payment/success/route.ts:64-70`) | any checkout: the gateway echoes `tran_id`, `val_id` and `amount` only, so the callback redirects to `reason=missing_data` and the payment is never validated or recorded | forward the checkout's `order_id` as `value_a` | high, not executed | Correlation.AsWrittenCallbackMissingData | Correlation.ForwardedCallbackReachesSuccess |
| src/app/forgot-password/page.tsx:51-56 | `auth/user-not-found` shows an error toast with a shorter text and leaves the button enabled, while a sent link shows a success toast and disables it | any unregistered address, compared with a registered one | answer an unknown address exactly like a sent link, as the message's own wording ("If that email is registered…") suggests | medium, not executed | ForgotPassword.UnknownAddressDistinguishable | ForgotPassword.UniformHidesRegistration |

Observations that are modelled as written and proved, but are not claimed as
defects:

- **Cash-on-delivery checkout.** It stores list prices on the order lines but
  the sale-price total (`CheckoutPage.SaleLineDisagreesWithTotal`).
- **Tracking link.** The link does not trim the order id
  (`TrackOrder.UrlIdIsNotTrimmed`).
- **Middleware matcher.** The matcher never shows "/dashboards" to the
  middleware (`RouteGuard.LookalikePathNotGuarded`).
- **Order ids with '/'.** On the tracking page, an order id with an inner '/'
  makes `doc` throw, so the page shows the generic error instead of "no order
  found" (`TrackOrder.SlashIdFails`).
- **Tracking page answers.** A wrong e-mail for an existing order and an
  unknown order id give the same page (`TrackOrder.MismatchLooksLikeUnknownId`).
- **Paid but sent to the error page.** A validated success callback whose
  `tran_id` or `value_a` holds a character above U+00FF writes the payment and
  sends the mails. Then `new Response` refuses the success page's text, and
  the payer lands on the error page (`SuccessRoute.WideTranIdWritesThenErrs`).
- **Unencoded failure redirects.** The failure redirects interpolate the
  posted `error` text without encoding. An `&` inside it cuts the message
  short on the failure page (`FailRoute.UnencodedErrorSplits`).
