# Cart stores and order shaping of the privacy-phone shop front end

This project models the client-side cart logic of a Next.js shop front end.
It covers four independent cart stores, each over a browser localStorage key:

- the React cart context (`CartContext`), with a reducer and three handlers;
- the "simple" cart utility (`SimpleCart`);
- the "centralized" cart storage utility (`CartStorage`);
- the mini cart (`MiniCart`).

On top of the carts it models two order steps:

- the checkout page's submit handler (`Checkout`);
- the mock order-creation endpoint (`CreateOrder`).

A localStorage key is a `Carts.Slot` object. `stored` is None when the key is missing or its text does not parse. `writable` is false when the browser refuses writes, which makes `setItem` throw.

Every store reads, changes the item list, recomputes the totals from scratch and writes back. Each handler is a method with `modifies` whose postcondition gives the new slot contents in terms of specification functions (`AddLine`, `UpdateLines`, `RemoveLines`, `UpdatedItems`, `RemainingItems`, `Totalled`, ...). The lemmas beside those methods prove the promised properties about the functions:

- merging;
- identity sensitivity;
- totals that never drift;
- the not-found return values;
- add-then-remove round trips;
- the sync test's independence from line order.

Modelling conventions:

- **Money** is integer cents, so the source's `parseFloat(x.toFixed(2))` is exact and does not appear.
- **Clock and randomness.** `Date.now()`, `new Date()` and `Math.random()` readings are parameters.
- **Absent fields.** An absent string field of a line is written "". An absent field never equals a string argument (`Carts.Names`).
- **Add-on selection.** The selection JSON is a plain encoder of group names and labels, with no escaping (`CartContext.SelectionJson`).

Behaviour of the code worth noting:

- Only the context store merges lines. `SimpleCart`, `CartStorage` and `MiniCart` always append a new line.
- The context store's `updateCartItem` does not clamp. Updating to 0 or less removes the line (`CartContext.UpdateDropsNonPositive`).
- The two 'cart' utilities clamp updates to at least 1.
- The checkout page does not build `product_id`/`meta_data` line items. It sends its cart as stored.
- The order endpoint maps the lines to `line_items` itself.

## Model

| member | source | states |
|---|---|---|
| Carts.ReadCart | src/utils/simpleCart.js:15-32 | `getCart` of both 'cart' utilities never fails. A missing or unparsable value gives the empty cart. A non-array `items` becomes `[]` and a non-number total becomes 0 (the same code is src/utils/cartStorage.js:13-33). |
| Carts.ReadPersisted | src/utils/simpleCart.js:38-48 | Writing a normalised cart and reading it back gives the same cart. |
| Carts.Slot.SetItem | src/utils/simpleCart.js:48 | `setItem` stores the value when the key is writable. Otherwise it reports failure and leaves the value unchanged. |
| Carts.TotalsNonNegative | src/context/CartContext.js:235-236 | The two `reduce` totals (`TotalQuantity`, `TotalPrice`) of lines with non-negative quantity and price are non-negative. |
| Carts.SetQuantityWhere | src/context/CartContext.js:279-285 | The quantity-setting `map` keeps the length. A hit line gets the new quantity and every other line keeps its own. No field other than `quantity` changes. |
| Carts.TotalsAppend | src/context/CartContext.js:235-236 | The two `reduce` totals are additive over concatenation of item lists. |
| Carts.TotalsUpdateAt | src/context/CartContext.js:207-214 | Replacing one line changes the totals by exactly the difference of that line's quantity and of its price times quantity. |
| Carts.Filter | src/context/CartContext.js:327-329 | `filter` is never longer than its input. It is shorter exactly when some element fails the test, and equal to the input when all pass. |
| Carts.FilterMembers | src/context/CartContext.js:327-329 | The filtered list holds exactly the elements of the input that pass the test. |
| Carts.FilterAppend | src/context/CartContext.js:327-329 | Filtering distributes over concatenation, so the order of the kept elements is preserved. |
| Carts.FilterSplitsTotals | src/context/CartContext.js:327-335 | Totals of the kept lines plus totals of the dropped lines are the totals of the whole list. |
| StringSort.Sort | src/context/CartContext.js:379-380 | The string sort yields a sequence that is ordered and a permutation of its input. |
| StringSort.SortedUnique | src/context/CartContext.js:379-380 | Two sorted sequences with the same multiset are equal, so every correct sort gives the engine's result. |
| StringSort.SortEqualIff | src/context/CartContext.js:379-385 | Two id lists sort to the same list iff they have the same multiset. |
| CartContext.Reduce | src/context/CartContext.js:15-115 | Only `INITIALIZE`, `SET_CART` and the `*_SUCCESS` actions change items or totals. `isLoading` is set only by a `*_REQUEST`, and `SET_CART` and unknown actions keep the previous value. The error changes only on a request, a failure, or an `INITIALIZE` payload that carries one. |
| CartContext.RequestStartsLoading | src/context/CartContext.js:32-37 | Every `*_REQUEST` sets `isLoading`, clears `error` and keeps items and totals. |
| CartContext.ClearSuccessEmpties | src/context/CartContext.js:98-105 | `CLEAR_CART_SUCCESS` empties the items, zeroes both totals and stops loading, whatever its payload. |
| CartContext.FailureKeepsCart | src/context/CartContext.js:46-51 | Every `*_ERROR` stops loading, stores the message and keeps items and totals. |
| CartContext.UnknownLeavesState | src/context/CartContext.js:112-113 | An unknown action returns the state unchanged. |
| CartContext.ReducePreservesConsistency | src/context/CartContext.js:15-115 | From a state whose totals agree with its lines, every action with a consistent payload gives such a state. |
| CartContext.AnySelected | src/context/CartContext.js:180-181 | `hasAddons` holds iff some selected group has a non-empty option list. |
| CartContext.HasAddons | src/context/CartContext.js:180-181 | `hasAddons` holds iff `selected_addons` is present and some group has a non-empty option list. |
| CartContext.SelectionJson | src/context/CartContext.js:185 | The selection encodes as a JSON object: it is braced, and it is `{}` exactly when there is no group. |
| CartContext.UniqueIdOf | src/context/CartContext.js:184-186 | The unique id starts with the product id. It is longer than the id exactly when add-ons are selected, so an add-on variant never shares the plain product's unique id. |
| CartContext.KeyOf | src/context/CartContext.js:220 | The key is `item_` followed by the product id. It carries a suffix exactly when add-ons are selected. |
| CartContext.SameLine | src/context/CartContext.js:197-201 | The `findIndex` test: with add-ons, the line has the product's unique id. Without add-ons, the line has the product's id and no add-ons of its own. |
| CartContext.FindFirst | src/context/CartContext.js:197-201 | `findIndex` returns the first line passing the test, or -1 iff no line passes. |
| CartContext.NewLine | src/context/CartContext.js:215-232 | A new line has the product's identity, price base plus add-on, and the requested quantity. Identity (`SameLine`, the test `addToCart` passes to `findIndex`) is the same unique id with add-ons, otherwise the same id on a line without add-ons. |
| CartContext.MergeOrAppend | src/context/CartContext.js:197-232 | Merging keeps the line count when some line passes the test, and adds exactly one line otherwise. |
| CartContext.RaiseWhenPresent | src/context/CartContext.js:197-214 | Where some line passes the test, the first such line's quantity is raised by `quantity` and every other line is kept. The totals grow by `quantity` units and by that line's price times `quantity`. |
| CartContext.AppendWhenAbsent | src/context/CartContext.js:215-232 | Where no line passes the test, the new line is appended after the untouched lines, and the totals grow by that line's own totals. |
| CartContext.AddLine | src/context/CartContext.js:196-232 | `addToCart` keeps the line count when the product's identity is present, and adds one line otherwise. |
| CartContext.FirstAfterAppend | src/context/CartContext.js:197-201 | Where no line passes the test, after one line is appended the first match is that line if it passes, and there is none otherwise. |
| CartContext.AddMergesExisting | src/context/CartContext.js:197-214 | Adding a present identity keeps the line count, raises that line's quantity by exactly `quantity` and leaves the other lines alone. The totals grow by `quantity` units and by price times `quantity`. |
| CartContext.AddAppendsNew | src/context/CartContext.js:189-236 | Adding a new identity appends one line priced base plus add-on after the untouched lines. The totals grow accordingly. |
| CartContext.AddTwiceMerges | src/context/CartContext.js:197-232 | Adding one identity twice with q1 and q2 gives one line of quantity q1 + q2. |
| CartContext.DistinctSelectionsStaySeparate | src/context/CartContext.js:184-201 | Two add-on selections with different unique ids stay two lines. |
| CartContext.OneLabelSelectionsDiffer | src/context/CartContext.js:184-186 | For one product, two different labels selected in the same group give different unique ids, provided neither label holds a quote. |
| CartContext.OneLabelSelectionsStaySeparate | src/context/CartContext.js:184-232 | Two such selections, added to a cart holding neither, stay two lines. |
| CartContext.FaradayIdsDiffer | src/context/CartContext.js:184-186 | The Black and Red selections of one product give different unique ids. |
| CartContext.VariantsShareKey | src/context/CartContext.js:220 | All add-on variants of one product get the same `key`, so removing by that key drops every variant. |
| CartContext.UpdateLines | src/context/CartContext.js:279-285 | The updated list is never longer than the old one, and every line in it has a positive quantity. |
| CartContext.UpdateDropsNonPositive | src/context/CartContext.js:279-285 | After `updateCartItem` every line is positive. Updating to 0 or less removes the named lines. Updating to a positive quantity keeps every named line with that quantity, on any cart. Unnamed positive lines stay. |
| CartContext.UpdateKeepsLines | src/context/CartContext.js:279-285 | On an all-positive cart, updating to a positive quantity only sets the named lines' quantity. |
| CartContext.UpdateIdempotent | src/context/CartContext.js:279-285 | Updating twice to the same quantity equals updating once. |
| CartContext.RemoveLines | src/context/CartContext.js:327-329 | The list after removal is never longer, and every line in it came from the old list and is named neither by key nor by unique id. |
| CartContext.RemoveKeepsExactly | src/context/CartContext.js:327-329 | `removeCartItem` keeps exactly the lines whose key and unique id both differ from the argument. |
| CartContext.RemoveSubtractsTotals | src/context/CartContext.js:327-335 | After removal the totals drop by exactly the removed lines' totals. |
| CartContext.SyncIds | src/context/CartContext.js:379-380 | Each sync id is the line's unique id, or its id when the unique id is absent. |
| CartContext.NeedsSync | src/context/CartContext.js:379-385 | A stored cart identical to the state never needs a sync. A stored `totalItems` that differs from the state's always does. |
| CartContext.ListsDiffer | src/context/CartContext.js:382-384 | Two id lists differ iff their lengths differ or some position holds different ids, i.e. iff they are not equal. |
| CartContext.NeedsSyncIff | src/context/CartContext.js:379-385 | `needsSync` holds iff the two id multisets differ or the stored `totalItems` differs, whatever the line order. |
| CartContext.CartProvider.constructor | src/context/CartContext.js:6-12 | The provider starts from the empty, idle, error-free state. |
| CartContext.CartProvider.Store | src/context/CartContext.js:253-265 | The redundant write stores the cart with `isLoading: false, error: null` when writable, else nothing. |
| CartContext.CartProvider.AddToCart | src/context/CartContext.js:169-270 | The new items are the merge-or-append of the old ones, with consistent totals and no loading or error, and the slot is written. A missing product records the TypeError message and writes nothing. |
| CartContext.CartProvider.UpdateCartItem | src/context/CartContext.js:273-318 | The new items are `UpdateLines` of the old ones, with consistent totals, and the slot is written. |
| CartContext.CartProvider.RemoveCartItem | src/context/CartContext.js:321-365 | The new items are `RemoveLines` of the old ones, with consistent totals, and the slot is written. |
| CartContext.CartProvider.ClearCart | src/context/CartContext.js:404-428 | State and slot become the empty cart; the rest of the state is kept. |
| CartContext.CartProvider.SyncCartWithLocalStorage | src/context/CartContext.js:368-401 | It reports true iff the slot holds an item array and `needsSync` holds. Only then is the state re-initialised from the slot. |
| CartContext.PixelScenario | src/context/CartContext.js:169-365 | Pixel 7a at 699.99: added once, then twice more, gives one line of 3 and 2099.97. Updating to 1 gives 699.99; removing empties the cart. |
| CartContext.FaradayScenario | src/context/CartContext.js:169-236 | Faraday bag in Black and in Red: two lines, two items, 99.98, one shared key. |
| SimpleCart.SaveCart | src/utils/simpleCart.js:38-76 | Succeeds iff the key is writable and then reads back as the cart saved. A failure leaves the slot unchanged. |
| SimpleCart.RecalculateCart | src/utils/simpleCart.js:212-221 | One pass sets `totalItems` to the sum of quantities and `total` to the sum of price times quantity, keeping the items. |
| SimpleCart.DisplayName | src/utils/simpleCart.js:98 | The name is `name`, else `title`, else 'Product'; never empty. |
| SimpleCart.ParsedQuantity | src/utils/simpleCart.js:100 | `parseInt(q) \|\| 1`: never 0, and the parsed value when it is non-zero. |
| SimpleCart.StampedLine | src/utils/simpleCart.js:96-104 | The new line carries the product id and price, the parsed quantity, and one clock stamp each in unique id and key. |
| SimpleCart.UpdatedItems | src/utils/simpleCart.js:133-141 | The updated list has the old length. Every named line has quantity at least 1 and every other line is unchanged. |
| SimpleCart.RemainingItems | src/utils/simpleCart.js:170-172 | The list after removal is never longer, and every line in it came from the old list and is named neither by unique id nor by key. |
| SimpleCart.AddToCart | src/utils/simpleCart.js:84-118 | Succeeds iff the product and its id are present and the key is writable. The slot then reads as the old lines plus one stamped line, with consistent totals. Otherwise nothing is written. |
| SimpleCart.UpdateQuantity | src/utils/simpleCart.js:126-157 | Succeeds iff some line is named by unique id or key and the key is writable. Named lines get `max(1, q)`. Otherwise nothing is written. |
| SimpleCart.RemoveItem | src/utils/simpleCart.js:164-189 | Succeeds iff some line is named and the key is writable. The slot then holds exactly the unnamed lines, with consistent totals. |
| SimpleCart.ClearCart | src/utils/simpleCart.js:195-206 | On success the slot reads back as the empty cart. |
| SimpleCart.RemoveChangesLength | src/utils/simpleCart.js:170-178 | The length test of `removeItem` is exactly the "some line is named" test. |
| SimpleCart.AddNeverMerges | src/utils/simpleCart.js:107-110 | Adding always grows the line count by one and the unit count by the parsed quantity. |
| SimpleCart.AddThenRemoveRestores | src/utils/simpleCart.js:171-173 | Removing by a freshly stamped unique id, which names no earlier line, gives back the earlier lines. |
| SimpleCart.UpdateIdempotent | src/utils/simpleCart.js:133-141 | Updating twice equals updating once. Named lines end at `max(1, q)` and the other lines are unchanged. |
| CartStorage.ToSave | src/utils/cartStorage.js:42-46 | `saveCart` normalises `items`. A non-number `totalItems` becomes the number of lines. Building fails only when both `items` and `totalItems` are missing. |
| CartStorage.SaveCart | src/utils/cartStorage.js:39-59 | Succeeds iff the record can be built and the key is writable; then the record is stored. |
| CartStorage.SaveThenRead | src/utils/cartStorage.js:13-59 | Saving a cart with numeric totals and reading it back gives the same cart. |
| CartStorage.MissingTotalCountsLines | src/utils/cartStorage.js:44 | A record without `totalItems` is saved with the line count as `totalItems`. |
| CartStorage.StampedLine | src/utils/cartStorage.js:75-88 | The new line's unique id equals its key, `id_stamp`. Its quantity is the non-zero parsed quantity, or 1. |
| CartStorage.AddToCart | src/utils/cartStorage.js:67-107 | Succeeds iff the product id is present and the key is writable. The slot then reads as the old lines plus one stamped line, with consistent totals. |
| CartStorage.Hit | src/utils/cartStorage.js:124-126 | An empty id hits no line. A non-empty id hits every line of the product with that id. |
| CartStorage.UpdatedItems | src/utils/cartStorage.js:123-131 | The updated list is never longer than the old one, and every line in it has a positive quantity. |
| CartStorage.RemainingItems | src/utils/cartStorage.js:162-166 | The list after removal is never longer, and every line in it came from the old list and is hit by no field. |
| CartStorage.UpdateCartItem | src/utils/cartStorage.js:115-147 | Fails for an empty id, when nothing is hit by unique id, key or product id, or when the key is not writable. Otherwise the slot reads as `UpdatedItems`, with consistent totals. |
| CartStorage.RemoveCartItem | src/utils/cartStorage.js:154-182 | Fails for an empty id or when nothing is hit. Otherwise the slot holds exactly the lines no field names, with consistent totals. |
| CartStorage.ClearCart | src/utils/cartStorage.js:188-196 | On success the slot reads back as the empty cart. |
| CartStorage.RemoveChangesLength | src/utils/cartStorage.js:159-168 | The length test is exactly the "some line is hit" test. |
| CartStorage.UpdateKeepsHitLines | src/utils/cartStorage.js:123-131 | After an update every line is positive and every hit line survives with `max(1, q)`. Unhit positive lines survive; only unhit non-positive lines go. |
| CartStorage.UpdateKeepsPositiveCarts | src/utils/cartStorage.js:123-131 | On an all-positive cart the update keeps every line in place. |
| CartStorage.RemoveByProductId | src/utils/cartStorage.js:162-166 | Removing by a product id removes every line of that product, and keeps every line no field names. |
| CartStorage.AddThenRemoveRestores | src/utils/cartStorage.js:83-93 | Removing by a fresh stamped id gives back the earlier lines. |
| MiniCart.GetCart | src/utils/miniCart.js:10-21 | The parsed value unchanged, or `{items: [], count: 0}`. |
| MiniCart.SaveCart | src/utils/miniCart.js:24-45 | Stores the cart iff the key is writable. |
| MiniCart.MiniName | src/utils/miniCart.js:58 | The name is `title`, else `name`, else 'Product'. |
| MiniCart.MiniLine | src/utils/miniCart.js:56-64 | The new line has quantity 1, the product id and price, and a stamped unique id. |
| MiniCart.AddItem | src/utils/miniCart.js:48-76 | Succeeds iff the product and id are present, the stored `items` is an array and the key is writable. It then appends one line and `count == \|items\|`. |
| MiniCart.RemoveItem | src/utils/miniCart.js:79-99 | Succeeds iff some line has that unique id and the key is writable. It then keeps exactly the others and `count == \|items\|`. Otherwise nothing is written. |
| MiniCart.ClearCart | src/utils/miniCart.js:102-110 | On success the slot holds `{items: [], count: 0}`. |
| MiniCart.RemoveChangesLength | src/utils/miniCart.js:82-94 | The length test of `removeItem` is exactly the "some line has that unique id" test. |
| MiniCart.AddThenRemoveRestores | src/utils/miniCart.js:85 | Removing by a fresh stamped id gives back the earlier lines. |
| CreateOrder.RouteTitle | src/app/api/create-order/route.js:31-33 | bacs gives 'Direct Bank Transfer', cheque gives 'Check Payment', and anything else gives 'Credit Card'. |
| CreateOrder.LineItemOf | src/app/api/create-order/route.js:21-27 | A `line_items` entry copies the line's id, name, quantity and price, and takes its line total when it has one. |
| CreateOrder.MockOrder | src/app/api/create-order/route.js:15-34 | `line_items` maps the given lines one to one and in order. The number starts `PS-` and the status is 'processing'. The total, billing, shipping and method are echoed, and the title is `RouteTitle`. |
| CreateOrder.PostAsWritten | src/app/api/create-order/route.js:10-44 | The route as written fails with 'Server error' iff the cart has no item array or some line lacks `totals`. Otherwise it answers with the mock order. |
| CreateOrder.Post | src/app/api/create-order/route.js:15-36 | `line_items` has the cart's length and order, copying id, name, quantity and price and taking the optional line total. Status is 'processing'; `total`, billing, shipping and method are echoed. |
| CreateOrder.AgreesWhenTotalsPresent | src/app/api/create-order/route.js:21-27 | When every line has `totals`, the corrected route answers exactly as the route as written. |
| CreateOrder.CashOnDeliveryTitledCreditCard | src/app/api/create-order/route.js:31-33 | The client's title is ignored: a cash-on-delivery order comes back titled 'Credit Card'. |
| CreateOrder.ProductPageCartFails | src/app/api/create-order/route.js:26 | A one-line cart as the product page writes it gets a 500 from the route as written. The corrected route creates the order with the line total undefined. |
| Checkout.GetDirectCart | src/app/checkout/page.js:13-23 | The parsed 'direct_cart_v1' value, or `{items: [], count: 0}`. |
| Checkout.FindMethod | src/app/checkout/page.js:125 | `find` returns the first method with the id, or none iff no method has it. |
| Checkout.PaymentTitle | src/app/checkout/page.js:125 | The title is that of the first method with the id, or 'Cash on Delivery' when there is none or its title is empty. |
| Checkout.DefaultTitles | src/app/checkout/page.js:74-77 | With the offered methods, cod and stripe get their own titles and any other id gets 'Cash on Delivery'. |
| Checkout.OrderData | src/app/checkout/page.js:123-165 | Shipping is the form and the cart is sent as held. Billing is the billing form when ticked, else a copy of shipping. The title is `PaymentTitle`. |
| Checkout.ReplyOf | src/app/checkout/page.js:181-186 | An order response is an ok reply. A 500 is a non-ok reply carrying its `error` text. |
| Checkout.ErrorText | src/app/checkout/page.js:181-217 | A non-ok reply shows its `error`, or 'Failed to create order' when there is none. A rejected request shows its message. Success shows no error. |
| Checkout.CheckoutPage.constructor | src/app/checkout/page.js:9-81 | The page starts from the stored direct cart, blank forms, cash on delivery and the two offered methods. |
| Checkout.CheckoutPage.CompleteOrder | src/app/checkout/page.js:185-213 | The success branch: the order is recorded and the empty direct cart written (when writable) and read back. A Stripe order with a non-empty payment URL redirects there. The forms are kept. |
| Checkout.CheckoutPage.HandleSubmit | src/app/checkout/page.js:110-221 | An empty or missing cart sets the empty-cart error, sends nothing and writes nothing. Otherwise it sends `OrderData`. On an ok reply it records the order, writes and re-reads the empty direct cart, and redirects a Stripe order with a URL. On any other reply it shows `ErrorText` and keeps cart and slot. |
| Checkout.CartWithoutTotalsRefused | src/app/checkout/page.js:110-221 | A cart with a line lacking `totals` is refused with 'Server error' by the route as written, and the page keeps it. The corrected route accepts it. |

## Left out

- Event dispatch is not modelled. This covers `storage`, `cartUpdated`, `miniCartUpdated` and `directCartUpdated`, the synthetic `StorageEvent`, and the mini-cart page's polling. Listeners are observer plumbing outside the stores. The one exception is the checkout page's own listener, whose re-read is folded into `HandleSubmit`.
- The context provider's initial-load effect (src/context/CartContext.js:125-157) is not modelled. Neither is its write-on-every-state-change effect (src/context/CartContext.js:159-165). Both are React effects run by the renderer. The slot model also cannot tell a missing key from unparsable text, which the initial load treats differently.
- CartContext.CartProvider.AddToCart: the in-place conversion of a string `product.price` (src/context/CartContext.js:175-177) is not modelled. Prices arrive already parsed as cents.
- CartContext.Reduce: `INITIALIZE` treats a present field of the wrong JSON type as absent. JavaScript would spread the wrong-typed value into the state.
- CartContext.SelectionJson: the encoder does not escape quotes or backslashes in group names or labels, and keys follow insertion order, as `JSON.stringify` orders them.
- Product and line ids are modelled as strings. JavaScript's strict `===` and `!==` between a number and a string are not modelled: the key and unique-id tests of the context store (src/context/CartContext.js:280, 327-328) and the id tests of the centralized utility (src/utils/cartStorage.js:126 and 165). A WooCommerce numeric id compared there with a string argument never matches. The merge test of the context store (src/context/CartContext.js:200) is the loose `item.id == product.id`, under which a number and its decimal string are equal, so string ids model it as written.
- An absent line field and an empty string are both written "". An update or removal by the empty string is therefore modelled as naming no line. In JavaScript, a line whose key or unique id is literally "" would match.
- CartStorage.RemoveByProductId: "every line of that product goes" holds only when the line's `id` and the argument have the same JavaScript type, because ids are modelled as strings.
- StringSort.Sort compares characters by code point, where JavaScript's default sort compares UTF-16 code units. The two orders differ only on characters outside the Basic Multilingual Plane. The sync test depends only on multisets (`CartContext.NeedsSyncIff`), so it is unaffected.
- CartContext.SelectionJson is not injective in general. Labels holding a quote can collide, so identity sensitivity is proved for one-label selections of quote-free labels (`CartContext.OneLabelSelectionsDiffer`) and assumed as a hypothesis in `CartContext.DistinctSelectionsStaySeparate`.
- Floating-point arithmetic and the `toFixed(2)` rounding are not modelled. Money is integer cents.
- Extra fields are not modelled. This covers the images of every store, the mini cart's `image`, and the product fields the centralized utility spreads onto its lines. No operation reads them.
- SimpleCart.SaveCart takes a normalised cart. The `|| 0` fallbacks of src/utils/simpleCart.js:43-44 on non-number truthy values are not modelled, because every caller passes numeric totals.
- A thrown exception from JSON parsing on the checkout page's non-ok path is not distinguished. `errorData` that does not parse shows a parse-error message, which `FetchFailed` stands for.
- The checkout page's loading guard, the order confirmation view and all form input handlers are not modelled. They are rendering.
- The mock order's random `id` and `number` and its creation date are parameters.

## Findings

| source | as written | input that shows it | evidently intended | confidence | as-written member | corrected member |
|---|---|---|---|---|---|---|
| src/app/api/create-order/route.js:26 | `total: item.totals.line_total` reads `totals` on every line | The checkout page sends the direct cart as stored. Lines written by the product page (src/app/shop/product/[id]/page.js:222-234) have no `totals`. A one-line Pixel 7a cart therefore makes the route throw and answer 500 'Server error', and checkout shows that error and keeps the cart. | Read the line total optionally (`item.totals?.line_total`, as the checkout summary does at src/app/checkout/page.js:756), so that an order is created for every cart with an item array. | medium, not executed | CreateOrder.ProductPageCartFails | CreateOrder.Post |
