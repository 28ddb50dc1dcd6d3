# Storefront cart, checkout, order and token-refresh logic in Dafny

This project models the parts of the ECOM full-stack storefront that carry state:

- **Client cart store** (`CartContext`, `CartLaws`). This is the `cartReducer` over an ordered list of line items:
  - add, remove, update quantity, clear, load, and unknown actions;
  - the derived `cartTotal` and `cartCount`;
  - load-on-mount and save-after-every-change against local storage.
- **Checkout wizard** of the cart page (`Checkout`, `CheckoutLaws`). The steps are cart → address → payment → confirmation → cart. It also covers:
  - the two back buttons;
  - the payment-processing flag and its delayed completion;
  - the 10% tax.
- **Server store and views** (`ServerStore`, `CartViews`, `CartViewLaws`, `OrderViews`, `OrderViewLaws`):
  - the cart endpoints `add_item`, `update_item`, `remove_item` and `clear`;
  - the order endpoints `get_queryset`, `create`, `update_status` and `confirm_payment`.

  The database is an immutable `Store` value: products, one cart per user, orders, and two id counters. Each view is one step from a store to a status code and the store after the request.
- **Serializer validators** (`Serializers`): registration's password check and user creation, the cart-item product and stock checks, and a category's active-product count.
- **API client** (`ApiClient`, `ApiClientLaws`):
  - the request hook that attaches `Authorization: Bearer <token>`;
  - the response hook that refreshes once on a 401 and resends;
  - login and logout token storage.

  The server and the refresh endpoint are function parameters.

Money is `real`, so every total is exact. Quantities and stock are unbounded `int`.

Where the code behaves in a way that is easy to miss, the model follows the code:

- `add_item` runs `get_or_create` on the caller's cart before it looks up the product. So its 404 and 400 replies still leave the caller's cart created (`AddItem`).
- `confirm_payment` sets `payment_status`, not `status`, to completed (`ConfirmPayment`).
- The address form's only gate is the browser's `required` check on its four inputs. The submit handler checks nothing (`AddressSubmitGate`).
- The payment page's back button stays enabled while a payment is processing. The completion can therefore land on the address step and still clear the cart (`CompletionAfterBack`).
- "Continue shopping" does not discard the typed address (`ContinueShoppingReturns`).
- The resend after a refresh is returned without being awaited inside the `try`. A failing resend therefore reaches the caller without clearing tokens or leaving the page (`PersistentUnauthorized`).
- Nothing re-checks stock at payment time, and orders do not reserve stock. As far as the views are concerned, stock can go negative (`StockCanGoNegative`). Whether the database would refuse the negative value depends on the field type of `stock`; database-level range constraints are not modelled (see "Left out").

## Model

| member | source | states |
|---|---|---|
| CartContext.FindIndex | Fronted/src/Context/CartContext.jsx:8 | -1 exactly when no line carries the id; otherwise the first line with that id |
| CartContext.Add | Fronted/src/Context/CartContext.jsx:7-14 | existing id: same length, the first matching line's quantity +1, every other line unchanged; absent id: the old list followed by one new line of quantity 1 |
| CartContext.Remove | Fronted/src/Context/CartContext.jsx:16-20 | no remaining line has the id; a line remains iff it was there and has another id; length drops by the number of matching lines |
| CartLaws.RemoveAppend | Fronted/src/Context/CartContext.jsx:19 | removal distributes over concatenation, so with `RemoveSingle` it is exactly the filter: kept lines stay in their original order, each as often as it occurred |
| CartLaws.RemoveSingle | Fronted/src/Context/CartContext.jsx:19 | the empty list stays empty; a single line is kept iff its id differs from the removed one |
| CartContext.Update | Fronted/src/Context/CartContext.jsx:22-29 | length kept; non-matching lines unchanged; matching lines keep every field but quantity, which becomes q when q ≥ 1 and 1 otherwise |
| CartContext.Reduce | Fronted/src/Context/CartContext.jsx:5-39 | add leaves a line with the product's id and grows the list only for a new id; remove leaves no line with the id; update keeps the length and the set of ids present; clear yields the empty cart; load installs its payload as is; an unknown action returns the state unchanged |
| CartContext.Mount | Fronted/src/Context/CartContext.jsx:43-50 | nothing saved gives the empty cart; a saved list is loaded as is |
| CartContext.Dispatch | Fronted/src/Context/CartContext.jsx:52-57 | the new state is the reducer's answer to the action, and the saved list reloads to exactly that state |
| CartLaws.TotalsBounds | Fronted/src/Context/CartContext.jsx:62-63 | with every quantity ≥ 1, `cartCount` is at least the number of lines; with no negative price, `cartTotal` is not negative |
| CartLaws.TotalsAfterReplace | Fronted/src/Context/CartContext.jsx:62-63 | replacing one line changes `cartCount` and `cartTotal` by that line's difference |
| CartLaws.TotalsAfterAppend | Fronted/src/Context/CartContext.jsx:62-63 | appending a line adds its quantity to the count and price × quantity to the total |
| CartLaws.AddTotals | Fronted/src/Context/CartContext.jsx:7-14 | add raises the count by exactly 1 and the total by the grown line's price (the stored line's price for an existing id, the product's for a new one) |
| CartLaws.RemoveAbsent | Fronted/src/Context/CartContext.jsx:16-20 | removing an id no line carries returns the same list |
| CartLaws.RemoveKeepsUnique | Fronted/src/Context/CartContext.jsx:16-20 | removal keeps ids distinct |
| CartLaws.ReducePreservesValid | Fronted/src/Context/CartContext.jsx:5-39 | add, remove, update, clear and unknown actions keep ids unique and quantities ≥ 1 |
| CartLaws.LoadDoesNotEstablishValid | Fronted/src/Context/CartContext.jsx:34-35 | load installs its payload verbatim, duplicates included |
| CartLaws.AddSameTwice | Fronted/src/Context/CartContext.jsx:7-14 | adding one product twice to an empty cart yields one line of quantity 2, count 2, total 2 × price |
| Checkout.Tax | Fronted/src/components/CartPage.jsx:17 | the tax is a tenth of the subtotal |
| Checkout.GrandTotal | Fronted/src/components/CartPage.jsx:18 | the total is 11/10 of the subtotal and exceeds it by the tax |
| Checkout.HandleCheckout | Fronted/src/components/CartPage.jsx:20-23 | the step becomes the address step unless the cart is empty, when it stays; nothing else changes |
| Checkout.HandleAddressSubmit | Fronted/src/components/CartPage.jsx:25-28 | the step becomes the payment step whatever the address holds; nothing else changes |
| Checkout.HandlePayment | Fronted/src/components/CartPage.jsx:30-32 | raises the flag and schedules one more completion; starting from no payment in flight it keeps one in flight, while a second call during a payment would leave two |
| Checkout.CompletePayment | Fronted/src/components/CartPage.jsx:32-36 | lowers the flag, shows the confirmation, empties the cart, keeps the address, and ends the one payment in flight |
| Checkout.StepOn | Fronted/src/components/CartPage.jsx:20-37 | an event the page does not offer changes nothing; only address edits on the address step change the address; only cart actions and the completion change the cart; only an enabled pay button schedules a completion or raises the flag |
| CheckoutLaws.ProceedToCheckoutGuard | Fronted/src/components/CartPage.jsx:20-23 | no-op on an empty cart; otherwise cart step → address step with nothing else changed |
| CheckoutLaws.AddressSubmitGate | Fronted/src/components/CartPage.jsx:25-28 | the handler moves to payment unconditionally; the form reaches it from the address step iff all four fields are non-empty |
| CheckoutLaws.BackToAddressEdge | Fronted/src/components/CartPage.jsx:118 | payment → address, cart, address and flag untouched |
| CheckoutLaws.BackToCartEdge | Fronted/src/components/CartPage.jsx:183 | address → cart, cart and address untouched |
| CheckoutLaws.PaymentPhases | Fronted/src/components/CartPage.jsx:30-37 | pay raises the flag and schedules one completion; completion lowers it, shows the confirmation and empties the cart |
| CheckoutLaws.DoubleSubmitIgnored | Fronted/src/components/CartPage.jsx:123-125 | pressing pay while processing changes nothing |
| CheckoutLaws.ContinueShoppingReturns | Fronted/src/components/CartPage.jsx:54-58 | confirmation → cart step, address kept |
| CheckoutLaws.RunKeepsOneInFlight | Fronted/src/components/CartPage.jsx:30-37 | over any event sequence one completion is pending exactly while processing, never more |
| CheckoutLaws.AtMostOnePaymentInFlight | Fronted/src/components/CartPage.jsx:123-125 | from a freshly mounted page at most one payment is ever in flight |
| CheckoutLaws.StepEdges | Fronted/src/components/CartPage.jsx:20-37 | every step change is a wizard edge, or the completion jumping to confirmation while processing |
| CheckoutLaws.CompletionAfterBack | Fronted/src/components/CartPage.jsx:30-37 | pay, back, completion: the confirmation is reached from the address step and the cart is emptied |
| CheckoutLaws.GrandTotalCoversSubtotal | Fronted/src/components/CartPage.jsx:17-18 | for a non-negative subtotal the tax is non-negative and the total is at least the subtotal |
| CheckoutLaws.TenDollarScenario | Fronted/src/components/CartPage.jsx:17-18 | one line at 10, the same product added again: quantity 2, subtotal 20, total 22 |
| ServerStore.EnsureCart | Backend/views.py:74 | the caller has a cart afterwards, holding its old lines or none; every other cart and table is unchanged |
| CartViews.AddItem | Backend/views.py:72-100 | 404 iff the product is missing or inactive; 400 iff the request or the existing line plus the request exceeds stock; an error leaves only the newly ensured cart; nothing outside the caller's cart changes; the item counter moves only when a line is created |
| CartViews.AddToLines | Backend/views.py:87-97 | every existing line keeps its row id and product and only the product's own line may change; a new line with the next row id and quantity q is appended iff the cart had none for the product |
| CartViewLaws.AddItemAgreesWithSerializer | Backend/views.py:78-97 | for a product not yet in the cart, `add_item` answers 200 iff the cart-item serializer accepts, 404 iff it reports the product missing, and 400 iff it reports the stock; with the product already in the cart, whatever the view accepts the serializer accepts too |
| CartViewLaws.AddItemQuantities | Backend/views.py:87-97 | on success the product's quantity becomes old + q (old = 0 for a new line) and stays ≤ stock; other products' quantities are unchanged |
| CartViewLaws.AddToLinesQuantities | Backend/views.py:87-97 | bumping or appending a line changes the quantity of that product only |
| CartViewLaws.AddItemPreservesWellFormed | Backend/views.py:87-97 | add keeps one line per product, resolvable products and fresh row ids |
| CartViews.UpdateItem | Backend/views.py:102-121 | 404 iff no cart or no such line; 400 iff q exceeds that product's stock; on success only that line's quantity becomes q; errors change nothing |
| CartViewLaws.UpdateItemPreservesWellFormed | Backend/views.py:113-118 | update keeps the store invariants |
| CartViews.RemoveItem | Backend/views.py:123-136 | 404 iff no cart or no such line; on success exactly the named line is cut out, others kept in order |
| CartViewLaws.RemoveItemPreservesWellFormed | Backend/views.py:128-130 | remove keeps the store invariants |
| CartViews.Clear | Backend/views.py:138-143 | 404 iff no cart; otherwise the caller's cart is empty and nothing else changes |
| CartViewLaws.ClearPreservesWellFormed | Backend/views.py:139-141 | clear keeps the store invariants |
| OrderViews.VisibleOrders | Backend/views.py:150-153 | staff see all orders, others exactly their own |
| OrderViewLaws.SubtotalNonNegative | Backend/views.py:176-178 | with no negative price or quantity, `cart.total_price` (modelled as `Subtotal`) is not negative and the order total is at least the subtotal |
| OrderViews.Snapshot | Backend/views.py:191-197 | one item per cart line with its quantity and the product's current price; items total = cart subtotal |
| OrderViews.CreateOrder | Backend/views.py:155-204 | 404 iff no cart; 400 iff empty cart, invalid shipping, or a line above stock, with no order made; on success one new pending order with a fresh id, price-snapshot items, tax = subtotal/10, total = subtotal + tax, and the cart emptied |
| OrderViewLaws.CreateOrderVisible | Backend/views.py:150-199 | a created order becomes visible to its owner and to staff, and to no other user |
| OrderViewLaws.CreateOrderPreservesWellFormed | Backend/views.py:176-199 | order creation keeps the store invariants |
| OrderViewLaws.OrderTotalMatchesCheckout | Backend/views.py:176-178 | the server's tax and total equal the checkout page's for the same items |
| OrderViews.UpdateStatus | Backend/views.py:206-218 | 403 iff not staff; 404 iff no such order; 400 iff the status is not a choice; otherwise only that order's status changes |
| OrderViewLaws.UpdateStatusPreservesWellFormed | Backend/views.py:214-215 | status change keeps the store invariants |
| OrderViews.DecrementStock | Backend/views.py:264-268 | each product's stock drops by the total ordered quantity of it, with no lower bound |
| OrderViews.ConfirmPayment | Backend/views.py:250-273 | 404 unless the order is the caller's and pending; otherwise payment becomes completed and stock drops by the ordered quantities, nothing else changes |
| OrderViewLaws.ConfirmPaymentPreservesWellFormed | Backend/views.py:260-268 | confirmation keeps the store invariants |
| OrderViewLaws.ConfirmPaymentOnce | Backend/views.py:253-258 | a confirmed order cannot be confirmed again, so stock is taken once per order |
| OrderViewLaws.StockCanGoNegative | Backend/views.py:264-268 | two orders for the last unit both pass creation and both confirm, leaving stock −1 |
| Serializers.ValidateRegistration | Backend/serializers.py:22-26 | error iff the passwords differ; otherwise the attributes unchanged |
| Serializers.UserFields | Backend/serializers.py:28-31 | the user is built from every field but `password2` |
| Serializers.RegistrationFlow | Backend/serializers.py:22-31 | registration succeeds iff the passwords match, and the user gets the password and all other fields but never `password2` |
| Serializers.ValidateProductId | Backend/serializers.py:66-69 | error iff no active product has the id |
| Serializers.ValidateCartItem | Backend/serializers.py:66-75 | accepted iff the product is active and quantity ≤ stock, attributes unchanged; otherwise not-found or the available stock |
| Serializers.ProductCount | Backend/serializers.py:52-53 | at most the number of products; zero iff the category has no active product |
| Serializers.ProductCountChanges | Backend/serializers.py:52-53 | deactivating an active product of the category lowers the count by one; other categories' products do not affect it |
| ApiClient.AttachBearer | Fronted/src/services/api.js:14-25 | `Bearer <token>` is set iff a non-empty access token is stored; otherwise the request is untouched |
| ApiClient.Send | Fronted/src/services/api.js:28-58 | at most one refresh and two sends; a refresh iff the first reply is 401 on an unretried request; a retried request is never refreshed; going to /login implies both tokens removed and a rejection |
| ApiClientLaws.RefreshThenResend | Fronted/src/services/api.js:37-47 | on refresh success the token is stored, put in the header, and the request resent once; its reply is the caller's |
| ApiClientLaws.RefreshFailureLogsOut | Fronted/src/services/api.js:48-54 | on refresh failure both tokens are dropped, the page goes to /login, and the refresh error is propagated |
| ApiClientLaws.OtherRepliesPassThrough | Fronted/src/services/api.js:29-56 | any reply but a first 401 reaches the caller unchanged with storage untouched |
| ApiClientLaws.PersistentUnauthorized | Fronted/src/services/api.js:34-47 | a second 401 after a refresh is propagated, with no second refresh |
| ApiClient.Login | Fronted/src/services/api.js:69-75 | both tokens stored, other keys unchanged |
| ApiClient.Logout | Fronted/src/services/api.js:78-81 | both tokens removed, other keys unchanged |
| ApiClientLaws.LoginLogoutHeaders | Fronted/src/services/api.js:69-81 | after logout no header is attached; after login with a non-empty token it is |

## Left out

- Rendering is not modelled: JSX, the admin dashboard, header, product pages, shop filtering and debounce, and `getStatusColor`. They are presentation or request plumbing.
- The confirmation step is modelled as a step only. Its markup reads `order.order_id`, but `order` is never defined in the cart page, so rendering that step throws a `ReferenceError` and the confirmation is never actually displayed.
- Checkout.StepOn: "Continue shopping" also calls `onNavigate('home')`, which leaves the cart page. The model keeps only the step change back to the cart step, because navigation between pages is outside the model.
- `LoginPage` error-message extraction is not modelled. It depends on dynamic typing and object key order.
- The one-line HTTP wrappers are not modelled: `cartAPI`, `authAPI`, `ordersAPI`, `productsAPI`, `categoriesAPI` and the endpoint objects in `api.js`.
- These server endpoints are not modelled: product and category CRUD, `low_stock`, `analytics` (clock and SQL aggregation), registration and profile views, the cart `list` view, and the order viewset's generic list/retrieve/update/destroy.
- Local storage, timers and navigation are abstracted. Storage is a map. The payment delay is a discrete `PaymentDelayElapsed` event. The redirect to /login is a flag.
- JSON serialisation of the saved cart is taken to round-trip exactly. A corrupt saved value, which would make `JSON.parse` throw, is not modelled.
- Floating point and `toFixed` formatting are not modelled. All amounts are exact reals.
- Django's `validate_password` validators are not modelled. The model uses only `password2`.
- The request parsing `int(request.data.get('quantity', 1))` is not modelled. Quantity arrives as an integer. The views enforce no lower bound on quantity, so the model allows any integer.
- Database-level constraints on field ranges are not modelled.
- `Backend/models.py` is not part of this model. Three things it defines are assumed:
  - `Order.STATUS_CHOICES` is the `choices` parameter of `UpdateStatus`;
  - the order status default is taken to be "pending";
  - `Cart.total_price` is taken to be Σ price × quantity.
- If `total_price` were a `Decimal`, `subtotal * 0.1` would raise a type error in Python. The model does not capture this.
- `CreateOrderSerializer` is truncated in the source (and `OrderItemSerializer` refers to an undefined module name). Shipping validation is therefore an `Option<Shipping>`, where None means invalid.
- CartContext.Add: `ADD_TO_CART` on an existing id increments `quantity` on the line object it shares with the previous state (`newItems[existingIndex].quantity += 1` copies the array, not the line). A reducer run twice on the same state, as React's StrictMode does in development, therefore adds 2 in the source. The model's `Add` is a pure function and always adds 1.
- CartContext.NewLine: a new line spreads every field of the product it is given (`{...action.payload, quantity: 1}`). The model's line keeps only id, name, price and image, the fields the cart and its totals read.
- Concurrency is left out. Each view is one atomic step and the client is single-threaded.
- OrderViews.CreateOrder: the three 400 replies carry different messages in the source. The model keeps only the status code.
- CartViews.AddItem: the two 400 replies are likewise not told apart.
