# choripam-frontend, modelled in Dafny

This project models the logic of the choripam storefront and its admin panel.
The storefront side covers the cart, the catalogue buttons, the per-variant
cart ids, the `PRIMERA10` coupon, and the checkout order ("pedido") with its
WhatsApp recipient. The admin side covers the new-order notifier, the status
flow of orders, and the four order lists ("mesa" for tables, "domicilio" for
home delivery, "recoger" for pickup, and all orders). It also covers the
dashboard and the analytics figures, and the bridge between the GraphQL
backend's string ids and the legacy numeric ids: the 32-bit string hash, the
converters and the id resolution of the service.

Each module follows one source file or component:

- `CartContext`, `ProductList`, `ProductVariantCard`, `CartPanel`, `Pricing`, `Checkout`: the storefront.
- `GraphQLTypes`: the type converters and `generateNumericId`.
- `GraphQLService`: the service operations, with the backend's answers given as parameters.
- `OrderNotifications`: the notifier hook, written as a class whose `CheckOrders` and `IntervalTick` methods perform one tick each.
- `OrderLists`: what the admin order pages share.
- `MesaOrders`, `DomicilioOrders`, `RecogerOrders`, `AdminOrders`: the order pages, each a class holding the page's state.
- `OrderStats`, `Dashboard`, `Analytics`: the figures.
- `Seqs`, `Text`, `Wrappers`: what JavaScript's arrays and strings provide (`filter`, `find`, `map`, `sort`, reducers into objects, `includes`, case mapping, decimal printing and `Number`), stated once and proved once.

Stateful components are classes. Their methods change the fields named in
`modifies` and state the new state in full. Network answers, the clock and
stored login data are method parameters. The pure parts are functions, with
lemmas relating each function to a partner: an inverse, an invariant, or an
independent reference definition.

Some behaviours of the source are modelled as written and stated as lemmas:

- Two different variants can share a cart id: `VariantCartIdCollides` shows that product 1 variant 12 and product 11 variant 2 both become 112.
- Two different backend ids can share a numeric id: `NumericIdCollides` shows that "Aa" and "BB" both hash to 2112.
- A phone typed with "+57" is sent with the country code twice (`WhatsAppRecipientRepeatsCountryCode`).
- Clearing the cart in the cart panel leaves an applied discount in place, so the total shown goes negative (`StaleDiscountAfterClear`).

## Model

| member | source | states |
|---|---|---|
| CartContext.Cart.constructor | src/contexts/CartContext.tsx:30 | the cart starts as the empty list, which satisfies the one-line-per-id invariant |
| CartContext.Cart.AddToCart | src/contexts/CartContext.tsx:32-42 | the new lines are `Added(old lines, p)` (merge by id or append one unit) and the one-line-per-id, quantity-at-least-1 invariant is kept |
| CartContext.Cart.RemoveFromCart | src/contexts/CartContext.tsx:44-46 | the new lines are the old ones without the id, and the invariant is kept |
| CartContext.Cart.ClearCart | src/contexts/CartContext.tsx:48-50 | the cart becomes empty (and valid) |
| CartContext.AddedExisting | src/contexts/CartContext.tsx:34-38 | adding an id already present keeps the length, adds one unit to that line (keeping its own product fields) and leaves every other line as it was |
| CartContext.AddedNew | src/contexts/CartContext.tsx:40 | adding an id not present appends one line of quantity 1 at the end |
| CartContext.AddedValid | src/contexts/CartContext.tsx:32-42 | adding keeps ids distinct and quantities at least 1 |
| CartContext.RemovedSpec | src/contexts/CartContext.tsx:45 | after removal no line has the id, every line with another id keeps its multiplicity, and the result is a subsequence (order kept) |
| CartContext.RemovedValid | src/contexts/CartContext.tsx:44-46 | removal keeps ids distinct and quantities at least 1 |
| CartContext.RemovedAbsent | src/contexts/CartContext.tsx:45 | removing an id the cart does not hold changes nothing |
| CartContext.AddThenRemoveNew | src/contexts/CartContext.tsx:32-46 | adding a new product then removing its id gives back the original cart |
| Pricing.CouponDiscount | src/components/CartPanel.tsx:17 | the discount `Math.round(subtotal * 0.1)` is the integer nearest a tenth of the subtotal, halves up: `10d - 5 <= subtotal < 10d + 5` |
| Pricing.ApplyCoupon | src/components/CartPanel.tsx:15-20 | a code that upper-cases to `PRIMERA10` on an unused coupon sets the discount from the current subtotal and marks it used; any other case leaves the state unchanged |
| Pricing.CouponAtMostOnce | src/components/CartPanel.tsx:15-20 | applying twice gives the first application's discount; once applied, any further application changes nothing |
| Pricing.CouponCaseInsensitive | src/components/CartPanel.tsx:16 | `primera10`, `Primera10` and `PRIMERA10` match; `PRIMERA1` and `PRIMERA10 ` (trailing space) do not |
| Pricing.Total | src/components/CartPanel.tsx:12-13 | the total shown (in the cart panel and, the same way, on the checkout page) plus the discount is the subtotal |
| Pricing.CouponTotal | src/components/CartPanel.tsx:12-17 | with non-negative prices and quantities the couponed total is non-negative and within half a peso of 90% of the subtotal |
| Pricing.SubtotalAfterAdd | src/contexts/CartContext.tsx:32-42 | adding a product raises the subtotal by the unit price of the line already holding the id, or by the new product's price |
| Pricing.BumpLineAmount | src/contexts/CartContext.tsx:37 | one more unit on a line adds its unit price to the line's amount; other lines are unchanged |
| Pricing.BumpSubtotal | src/contexts/CartContext.tsx:36-38 | incrementing the line with an id in a cart of distinct ids raises the subtotal by that line's price (by nothing when absent) |
| Pricing.SubtotalAfterRemove | src/contexts/CartContext.tsx:45 | removing an id lowers the subtotal by exactly the amount of the lines carrying it |
| CartPanel.CartPanelView.constructor | src/components/CartPanel.tsx:8-10 | the panel opens with no code typed, no discount and the coupon unused |
| CartPanel.CartPanelView.TypeCoupon | src/components/CartPanel.tsx:51-57 | typing changes the code only while the coupon is unused; discount and flag stay |
| CartPanel.CartPanelView.HandleApplyCoupon | src/components/CartPanel.tsx:15-20 | the new discount and flag are the shared coupon rule applied to the typed code and the current subtotal |
| CartPanel.CartPanelView.PressClear | src/components/CartPanel.tsx:90 | after "Vaciar carrito" the cart is empty and valid |
| CartPanel.StaleDiscountAfterClear | src/components/CartPanel.tsx:9-17 | the discount is not recomputed: applying it to a cart worth 5 or more and emptying the cart leaves a negative total, minus the discount |
| Checkout.BuildPedido | src/app/checkout/page.tsx:50-65 | the address is sent only for "domicilio", the table only for "mesa", one order line per cart line with id, name, quantity and price, and total plus discount equal to the subtotal |
| Checkout.PedidoLinesSum | src/app/checkout/page.tsx:56-62 | the order lines' price times quantity add up to the cart subtotal |
| Checkout.WhatsAppRecipient | src/app/checkout/page.tsx:80 | the address starts with `whatsapp:+57` and continues with digits only, no longer than the phone |
| Checkout.WhatsAppRecipientIgnoresSeparator | src/app/checkout/page.tsx:80 | a non-digit character anywhere in the phone does not change the address |
| Checkout.WhatsAppRecipientRepeatsCountryCode | src/app/checkout/page.tsx:80 | a phone typed as `+57…` is sent to `whatsapp:+5757…`: the country code appears twice |
| Checkout.PlusCountryCodeDigits | src/app/checkout/page.tsx:80 | stripping non-digits from `+57` followed by a phone keeps `57` in front of the phone's digits |
| Checkout.CheckoutForm.constructor | src/app/checkout/page.tsx:21-34 | cash payment, table delivery, every text empty, terms unticked, no discount, nothing sent, not loading, no error |
| Checkout.CheckoutForm.CurrentPedido | src/app/checkout/page.tsx:50-65 | the order built now carries the total shown |
| Checkout.CheckoutForm.HandleApplyCoupon | src/app/checkout/page.tsx:39-44 | the checkout applies the same coupon rule as the cart panel, touching nothing else |
| Checkout.CheckoutForm.HandleOrder | src/app/checkout/page.tsx:46-91 | the order posted is the one the form showed; the WhatsApp request is made only after an `ok` save; the order counts as sent and the cart is emptied only when the save is `ok` and the message request does not throw, otherwise the save error shows and the cart stays; loading ends false |
| Checkout.ChoripapaForTableFive | src/app/checkout/page.tsx:50-65 | two Choripapas at 16000 for table 5 give one line of two, total 32000, table "5" and no address |
| ProductList.GetQuantity | src/components/ProductList.tsx:17-19 | 0 when no line has the id, otherwise the quantity of a line with that id |
| ProductList.GetQuantityOfLine | src/components/ProductList.tsx:17-19 | in a valid cart the quantity shown for a line's id is that line's quantity |
| ProductList.MinusDisabledIffAbsent | src/components/ProductList.tsx:43 | in a valid cart "-" is disabled exactly when the product is not in the cart |
| ProductList.PlusAddsOne | src/components/ProductList.tsx:51 | "+" raises the quantity shown by exactly one |
| ProductList.MinusClears | src/components/ProductList.tsx:42 | "-" drops the shown quantity to 0, not by one |
| ProductList.PressMinus | src/components/ProductList.tsx:40-47 | an enabled "-" removes the product's line; a disabled one changes nothing; the cart stays valid |
| ProductList.PressPlus | src/components/ProductList.tsx:49-64 | "+" and "Agregar al carrito" add the product and raise its shown quantity by one |
| ProductVariantCard.VariantCartIdParses | src/components/ProductVariantCard.tsx:46 | the string `${id}${selected}` always reads back as a number |
| ProductVariantCard.VariantCartId | src/components/ProductVariantCard.tsx:46 | the variant's cart id is the number that string reads as |
| ProductVariantCard.VariantCartIdDigit | src/components/ProductVariantCard.tsx:46 | for an index up to 9 the cart id is the product id with the index as its last decimal digit (`10*id + i`, or `10*id - i` for a negative id) |
| ProductVariantCard.VariantCartIdInjective | src/components/ProductVariantCard.tsx:46 | with indexes up to 9 distinct (product, variant) pairs get distinct cart ids |
| ProductVariantCard.VariantCartIdCollides | src/components/ProductVariantCard.tsx:46 | from index 10 on ids collide: product 1 variant 12 and product 11 variant 2 both become 112 |
| ProductVariantCard.CartProductFor | src/components/ProductVariantCard.tsx:42-51 | nothing is added exactly when no variant is selected; otherwise the line carries the variant cart id, "name label", the variant's price and the product's description and image |
| ProductVariantCard.NoVariantsNoAdd | src/components/ProductVariantCard.tsx:30-40 | a product without variants never adds anything |
| ProductVariantCard.VariantCard.constructor | src/components/ProductVariantCard.tsx:29 | the first variant starts selected |
| ProductVariantCard.VariantCard.Select | src/components/ProductVariantCard.tsx:73 | clicking a variant button selects it |
| ProductVariantCard.VariantCard.HandleAdd | src/components/ProductVariantCard.tsx:42-54 | with variants, one unit of the selected variant's line is added to the cart; otherwise the cart is unchanged; the cart stays valid |
| GraphQLTypes.ToInt32 | src/types/graphql.ts:262-263 | the 32-bit wrap used by `<<` and `&` lands in [-2^31, 2^31) and differs from its argument by a multiple of 2^32 |
| GraphQLTypes.ToInt32Congruent | src/types/graphql.ts:262-263 | arguments equal modulo 2^32 wrap to the same value |
| GraphQLTypes.HashOf | src/types/graphql.ts:258-264 | the folded hash is always a signed 32-bit value |
| GraphQLTypes.HashOfIsWrappedPolynomial | src/types/graphql.ts:258-264 | wrapping after every step equals wrapping the unbounded polynomial hash `Σ c_i·31^(n-1-i)` once |
| GraphQLTypes.NumericIdOfUnits | src/types/graphql.ts:265 | `Math.abs` of the hash is at most 2^31 (2^31 itself for the hash -2^31) |
| GraphQLTypes.NumericId | src/types/graphql.ts:258-266 | the legacy id of a string id is a natural number at most 2^31 |
| GraphQLTypes.ShiftStepIsHashStep | src/types/graphql.ts:262-263 | `((hash << 5) - hash) + char` followed by `hash & hash` is the step `31*hash + char` wrapped to 32 bits |
| GraphQLTypes.GenerateNumericId | src/types/graphql.ts:258-266 | the loop over the UTF-16 code units returns `NumericId(str)`, at most 2^31 |
| GraphQLTypes.NumericIdEmpty | src/types/graphql.ts:259-265 | the empty id hashes to 0 |
| GraphQLTypes.HashOfPair | src/types/graphql.ts:260-264 | a two-unit id hashes to `31*x + y`, wrapped |
| GraphQLTypes.NumericIdCollides | src/types/graphql.ts:256-266 | the "unique" id is not unique: "Aa" and "BB" both get 2112 |
| GraphQLTypes.ConvertProductToLegacy | src/types/graphql.ts:189-205 | the legacy id is the hash of the string id, which is kept as `originalId`; every other field is copied |
| GraphQLTypes.ConvertOrderToLegacy | src/types/graphql.ts:210-231 | lines keep their order with hashed id, name, quantity as `cantidad` and price as `precio`; a missing email becomes ""; total, status and the other fields are copied, not recomputed |
| GraphQLTypes.ConvertOrderKeepsLineAmount | src/types/graphql.ts:217-222 | converting keeps Σ price × quantity over the lines |
| GraphQLTypes.ConvertLegacyOrderDataToGraphQL | src/types/graphql.ts:236-253 | the Spanish form fields map one to one onto the input, and each product id becomes its decimal string |
| GraphQLTypes.ConvertLegacyOrderDataIdsRoundTrip | src/types/graphql.ts:243 | every product id written with `toString()` reads back as the same number |
| GraphQLTypes.FindOriginalId | src/types/graphql.ts:271-274 | `null` exactly when no product hashes to the number; otherwise the string id of the first product that does |
| GraphQLTypes.FindOriginalIdOfConverted | src/types/graphql.ts:271-274 | looking up a converted product's legacy id finds that product's own string id when no earlier product collides with it |
| GraphQLService.FilterByCategory | src/services/graphql-api.ts:67-76 | without a (non-empty) category every product is kept; with one, exactly the products whose category id or name equals it are kept, each as often as before and in order |
| GraphQLService.GetProducts | src/services/graphql-api.ts:53-91 | a missing list counts as empty; the kept products are converted one for one, in order; `total` is their number; the restaurant id is echoed |
| GraphQLService.ResolveForGet | src/services/graphql-api.ts:100-111 | a non-numeric id is used as given; for a numeric one the first listed product whose legacy id equals `Number(productId)` is consulted, and the id resolves exactly when that product carries a non-empty `originalId`, which is returned; a fractional number or any other failure is "Producto no encontrado" |
| GraphQLService.DecimalIdResolves | src/services/graphql-api.ts:100-111 | the decimal text of a listed product's legacy id resolves to that product's `originalId` when it is the first product with that id |
| GraphQLService.GetProduct | src/services/graphql-api.ts:93-135 | the reply exists exactly when the id resolves and the backend returns a product; it is that product converted, with the restaurant id |
| GraphQLService.ResolveForUpdate | src/services/graphql-api.ts:195-239 | a non-empty `originalId` argument is used without a lookup; otherwise the exact legacy-id match, then the fallback match, must carry a non-empty `originalId`; it fails with "not found" exactly when neither does |
| GraphQLService.ResolveForDelete | src/services/graphql-api.ts:286-295 | a non-empty `originalId` is used directly; otherwise only the first exact legacy-id match counts, and it must carry a non-empty `originalId`; no fallback |
| GraphQLService.LooseMatchByIdIsExact | src/services/graphql-api.ts:221 | `String(a) === String(b)` exactly when `a === b`, so the fallback's first test adds nothing to the exact search |
| GraphQLService.DeleteResolutionImpliesUpdate | src/services/graphql-api.ts:196-238 | whenever a delete resolves an id, an update with the same arguments resolves the same backend id |
| GraphQLService.FallbackRescuesUpdate | src/services/graphql-api.ts:218-235 | the fallback can reach another product: a product whose backend id is "7" is updated when legacy product 7 has no `originalId`, while the delete fails |
| GraphQLService.DeleteResolutionIsFindOriginalId | src/services/graphql-api.ts:287-295 | over a listing converted from products with non-empty ids, resolving a legacy id without `originalId` agrees with `findOriginalId` |
| GraphQLService.BuildUpdateInput | src/services/graphql-api.ts:244-251 | the input carries exactly the defined fields of the form data, renamed; an empty `variants` list is sent |
| GraphQLService.EmptyUpdateInput | src/services/graphql-api.ts:244-251 | the input is empty exactly when the form defines none of the fields it carries (`restaurant_id` is never carried) |
| GraphQLService.MutationOutcome | src/services/graphql-api.ts:263-271 | a successful answer gives `{success: true, message}`; a failed one throws the backend's message |
| GraphQLService.UpdateProduct | src/services/graphql-api.ts:186-276 | nothing is sent when the id does not resolve; otherwise the mutation goes to the resolved id with the defined fields, and the answer decides the reply |
| GraphQLService.DeleteProduct | src/services/graphql-api.ts:278-320 | an unresolved id fails with "not found"; otherwise the answer decides the reply |
| GraphQLService.CreateInput | src/services/graphql-api.ts:145-154 | the create input copies the form fields, `category` as `categoryId`, with the given restaurant id |
| GraphQLService.ServiceNumericId | src/services/graphql-api.ts:547-555 | the service's private hash loop computes the same legacy id as the exported `generateNumericId` |
| GraphQLService.CreateProduct | src/services/graphql-api.ts:137-184 | on success the reply's `product_id` is the legacy id of the new backend id; a success without an id fails; a failure throws the backend's message |
| GraphQLService.CreateOrder | src/services/graphql-api.ts:325-358 | the converted legacy order is sent; the reply carries the new id and message on success, and the backend's message is thrown on failure |
| GraphQLService.GetOrders | src/services/graphql-api.ts:360-423 | no data fails with "No se recibieron datos del servidor GraphQL"; missing orders count as none; every order is converted, in order, and `total_count` is their number |
| GraphQLService.GetOrderStatus | src/services/graphql-api.ts:425-442 | the first order with the id is returned; it fails with "Pedido no encontrado" exactly when no order has the id |
| GraphQLService.UpdateOrderStatus | src/services/graphql-api.ts:444-475 | the reply succeeds exactly when the backend says so, else the backend's message is thrown |
| OrderNotifications.CleanRestaurantId | src/hooks/useOrderNotifications.ts:18 | an id starting with `rest_` loses exactly that prefix; any other id is kept |
| OrderNotifications.CleanRestaurantIdOnce | src/hooks/useOrderNotifications.ts:18 | only one prefix is removed (`rest_rest_x` becomes `rest_x`), and `choripam` is kept |
| OrderNotifications.TrackedIdsSpec | src/hooks/useOrderNotifications.ts:129-139 | the tracked set is exactly the ids of the pending and confirmed orders |
| OrderNotifications.FirstCheckSetsBaseline | src/hooks/useOrderNotifications.ts:143-150 | the first successful check records the current ids as baseline, clears the first-run flag and resets the errors, with no count and no alarm |
| OrderNotifications.LaterCheckCountsNewIds | src/hooks/useOrderNotifications.ts:152-185 | a later check adds the number of tracked ids not in the baseline to the counter, sounds the alarm exactly when there is one, and always replaces the baseline |
| OrderNotifications.FailedCheckCountsError | src/hooks/useOrderNotifications.ts:121-123 | a failed or invalid answer only adds one to the error count |
| OrderNotifications.ThreeFailuresPause | src/hooks/useOrderNotifications.ts:188-216 | after three failed ticks the count is 3 and further ticks change nothing, whatever the answer |
| OrderNotifications.SuccessResetsErrors | src/hooks/useOrderNotifications.ts:126 | a success between failures starts the error count again from zero |
| OrderNotifications.AlarmNotQueued | src/hooks/useOrderNotifications.ts:43-47 | a new order found while the alarm sounds still raises the counter; the alarm keeps sounding and nothing is queued |
| OrderNotifications.ThreeTickScenario | src/hooks/useOrderNotifications.ts:143-185 | orders A,B then A,B,C then A,B: only the second tick finds something (C); the third forgets C, so C counts again if it reappears |
| OrderNotifications.TrackedTwo | src/hooks/useOrderNotifications.ts:129-139 | two pending orders are tracked by their two ids |
| OrderNotifications.TrackedThree | src/hooks/useOrderNotifications.ts:129-139 | three pending orders are tracked by their three ids |
| OrderNotifications.OrderNotifier.constructor | src/hooks/useOrderNotifications.ts:20-27 | the notifier starts with an empty baseline, the first-run flag set, no count, no alarm and no errors |
| OrderNotifications.OrderNotifier.PlayAlarm | src/hooks/useOrderNotifications.ts:43-51 | the alarm starts only when it is not already sounding, and then it sounds |
| OrderNotifications.OrderNotifier.StopAlarm | src/hooks/useOrderNotifications.ts:34-36 | the alarm stops; nothing else changes |
| OrderNotifications.OrderNotifier.ResetNewOrdersCount | src/hooks/useOrderNotifications.ts:38-40 | the counter becomes 0; nothing else changes |
| OrderNotifications.OrderNotifier.CheckOrders | src/hooks/useOrderNotifications.ts:112-202 | the new state is one step of the check on the answer, and the ids reported new are the tracked ids missing from the old baseline (none on the first run or on failure) |
| OrderNotifications.OrderNotifier.IntervalTick | src/hooks/useOrderNotifications.ts:210-217 | the interval checks exactly when fewer than three errors in a row were seen, and otherwise changes nothing |
| OrderNotifications.OrderNotifier.CooldownElapsed | src/hooks/useOrderNotifications.ts:196-199 | after the one-minute pause the error count is 0; nothing else changes |
| OrderLists.NextStatusOptionsFlow | src/app/admin/orders/page.tsx:136-146 | every offered move other than a cancellation goes exactly one step forward along pending, confirmed, preparing, ready, delivered; cancelling is offered exactly from pending, confirmed and preparing; delivered, cancelled and unknown statuses offer nothing |
| OrderLists.NextStatusOptionsNoCycle | src/app/admin/orders/page.tsx:136-146 | no offered move leads back to the same status or to an earlier one |
| OrderLists.StatusLabel | src/app/admin/orders/page.tsx:73-83 | the six known statuses get a label of their own; any other status is shown as it is |
| OrderLists.DeliveryLabel | src/app/admin/orders/page.tsx:94-101 | mesa, domicilio and recoger get a label of their own; any other method is shown as it is |
| OrderLists.StatusLabelsDistinct | src/app/admin/orders/page.tsx:73-83 | two known statuses with the same label are the same status |
| OrderLists.SetStatus | src/app/admin/orders/page.tsx:47-51 | the local update keeps the length and the position of every order, changes the status of the orders with that id and nothing else |
| OrderLists.StatusCount | src/app/admin/orders/mesa/page.tsx:198-200 | a status counter never exceeds the number of orders |
| OrderLists.SetStatusAbsent | src/app/admin/orders/page.tsx:47-51 | updating an id no order carries leaves the list unchanged |
| OrderLists.SetStatusMovesCount | src/app/admin/orders/page.tsx:47-51 | when one order carries the id, the update takes one unit from its old status's counter and adds one to the new status's counter; every other counter stays |
| OrderLists.FilterCountsStatus | src/app/admin/orders/mesa/page.tsx:198-200 | the counter is the length of the orders filtered by that status |
| OrderLists.StatusStep | src/app/admin/orders/mesa/page.tsx:116-118 | filtering by status only when a status is chosen selects exactly the orders the status filter accepts |
| OrderLists.SearchFindsOrderId | src/app/admin/orders/mesa/page.tsx:128-134 | typing part of an order id finds that order whether typed in lower or upper case |
| OrderLists.TimeAmountOrderTotal | src/app/admin/orders/mesa/page.tsx:137-154 | each of the time and amount comparisons is a total preorder, so sorting by it is well defined |
| OrderLists.TimeAmountOrderMeaning | src/app/admin/orders/mesa/page.tsx:137-154 | a list sorted by "amount_high" has totals from the largest down, by "amount_low" from the smallest up, by "oldest" the earliest first, and by anything else the latest first |
| OrderLists.FormatTimeElapsed | src/app/admin/orders/mesa/page.tsx:222-235 | under an hour, the whole minutes (rounded down) followed by " min"; from an hour on, "Xh Ym" with X at least 1, Y below 60 and X*60+Y the whole minutes elapsed |
| OrderLists.ElapsedPartsUnique | src/app/admin/orders/mesa/page.tsx:231-233 | the hours and minutes shown are the only pair that fits the elapsed minutes |
| OrderLists.FormatTimeElapsedExamples | src/app/admin/orders/mesa/page.tsx:222-235 | 59 seconds show as "0 min", 125 minutes as "2h 5m", and a stamp one minute in the future as "-1 min" |
| MesaOrders.LoadedOrders | src/app/admin/orders/mesa/page.tsx:71-72 | the orders kept from an answer are exactly the restaurant's table orders, in the answer's order |
| MesaOrders.SortOrderTotal | src/app/admin/orders/mesa/page.tsx:137-154 | every sort order of the page, the table-name one included, is a total preorder |
| MesaOrders.View | src/app/admin/orders/mesa/page.tsx:112-157 | the list shown holds each loaded order that passes the status, table and search filters, as often as it was loaded, and none other, sorted by the chosen order |
| MesaOrders.FilterSteps | src/app/admin/orders/mesa/page.tsx:116-134 | applying each filter in turn, only when it is set, selects exactly the orders that pass all three |
| MesaOrders.ViewWithoutFilters | src/app/admin/orders/mesa/page.tsx:112-157 | with no filter set every loaded order is shown |
| MesaOrders.ViewByMesa | src/app/admin/orders/mesa/page.tsx:147-149 | sorted by "mesa", the table names shown are in code-unit order, a missing table counting as the empty name |
| MesaOrders.UniqueMesas | src/app/admin/orders/mesa/page.tsx:254-257 | the table names offered are sorted and each appears once |
| MesaOrders.UniqueMesasSpec | src/app/admin/orders/mesa/page.tsx:254-257 | a name is offered exactly when it is non-empty and some loaded order is at that table |
| MesaOrders.MesaActionsFollowFlow | src/app/admin/orders/mesa/page.tsx:530-590 | the status buttons of a table order card offer exactly the moves of the status flow |
| MesaOrders.SelectOrders | src/app/admin/orders/mesa/page.tsx:113-134 | the list after the three conditional filters is the loaded list filtered by "passes all filters" |
| MesaOrders.MesaOrdersPage.constructor | src/app/admin/orders/mesa/page.tsx:7-18 | the page starts loading, with no order, no filter and the newest first |
| MesaOrders.MesaOrdersPage.LoadOrders | src/app/admin/orders/mesa/page.tsx:29-110 | an answer with orders replaces the orders by its table orders and clears the error; an answer without an orders array or a failed request keeps the orders and sets the prefixed error message; loading ends either way |
| MesaOrders.MesaOrdersPage.ApplyFilters | src/app/admin/orders/mesa/page.tsx:112-157 | the list shown becomes the view of the orders, filters and sort order, and nothing else changes |
| MesaOrders.MesaOrdersPage.HandleFilterChange | src/app/admin/orders/mesa/page.tsx:182-187 | the field named by the key takes the value, the other fields stay |
| MesaOrders.MesaOrdersPage.SetSortBy | src/app/admin/orders/mesa/page.tsx:18 | the sort order takes the value chosen, nothing else changes |
| MesaOrders.MesaOrdersPage.ClearFilters | src/app/admin/orders/mesa/page.tsx:189-196 | every filter is emptied and the sort returns to the newest first |
| MesaOrders.MesaOrdersPage.UpdateOrderStatus | src/app/admin/orders/mesa/page.tsx:237-252 | the local orders take the new status only when the backend accepted the update |
| DomicilioOrders.View | src/app/admin/orders/domicilio/page.tsx:43-85 | the list shown holds each loaded order that passes the status, address and search filters, as often as it was loaded, and none other, sorted by the chosen order |
| DomicilioOrders.FilterSteps | src/app/admin/orders/domicilio/page.tsx:46-65 | applying each filter in turn, only when it is set, selects exactly the orders that pass all three |
| DomicilioOrders.NoAddressHidden | src/app/admin/orders/domicilio/page.tsx:52-56 | once an address is typed, an order without an address is never shown |
| DomicilioOrders.DomicilioActionsFollowFlow | src/app/admin/orders/domicilio/page.tsx:367-416 | a delivery card offers the moves of the status flow, except that a preparing order can only go to ready; cancelling is offered exactly from pending and confirmed; every button is a move of the flow |
| DomicilioOrders.SelectOrders | src/app/admin/orders/domicilio/page.tsx:44-65 | the list after the three conditional filters is the loaded list filtered by "passes all filters" |
| DomicilioOrders.DomicilioOrdersPage.constructor | src/app/admin/orders/domicilio/page.tsx:6-16 | the page starts loading, with no order, no filter and the newest first |
| DomicilioOrders.DomicilioOrdersPage.LoadOrders | src/app/admin/orders/domicilio/page.tsx:18-41 | a successful answer replaces the orders by its home-delivery orders, of any restaurant, and clears the error; a failure keeps the orders and sets the error message; loading ends either way |
| DomicilioOrders.DomicilioOrdersPage.ApplyFilters | src/app/admin/orders/domicilio/page.tsx:43-85 | the list shown becomes the view of the orders, filters and sort order, and nothing else changes |
| DomicilioOrders.DomicilioOrdersPage.HandleFilterChange | src/app/admin/orders/domicilio/page.tsx:96-101 | the field named by the key takes the value, the other fields stay |
| DomicilioOrders.DomicilioOrdersPage.SetSortBy | src/app/admin/orders/domicilio/page.tsx:16 | the sort order takes the value chosen, nothing else changes |
| DomicilioOrders.DomicilioOrdersPage.ClearFilters | src/app/admin/orders/domicilio/page.tsx:103-110 | every filter is emptied and the sort returns to the newest first |
| DomicilioOrders.DomicilioOrdersPage.UpdateOrderStatus | src/app/admin/orders/domicilio/page.tsx:151-166 | the local orders take the new status only when the backend accepted the update |
| RecogerOrders.View | src/app/admin/orders/recoger/page.tsx:42-77 | the list shown holds each loaded order that passes the status and search filters, as often as it was loaded, and none other, sorted by the chosen order |
| RecogerOrders.FilterSteps | src/app/admin/orders/recoger/page.tsx:45-57 | applying each filter in turn, only when it is set, selects exactly the orders that pass both |
| RecogerOrders.ViewMatchesCounter | src/app/admin/orders/recoger/page.tsx:103-105 | with only a status chosen, the list shows as many orders as that status's counter |
| RecogerOrders.RecogerActionsFollowFlow | src/app/admin/orders/recoger/page.tsx:353-413 | the status buttons of a pickup card offer exactly the moves of the status flow |
| RecogerOrders.SelectOrders | src/app/admin/orders/recoger/page.tsx:43-57 | the list after the two conditional filters is the loaded list filtered by "passes both filters" |
| RecogerOrders.RecogerOrdersPage.constructor | src/app/admin/orders/recoger/page.tsx:6-15 | the page starts loading, with no order, no filter and the newest first |
| RecogerOrders.RecogerOrdersPage.LoadOrders | src/app/admin/orders/recoger/page.tsx:17-40 | a successful answer replaces the orders by the restaurant's pickup orders and clears the error; a failure keeps the orders and sets the error message; loading ends either way |
| RecogerOrders.RecogerOrdersPage.ApplyFilters | src/app/admin/orders/recoger/page.tsx:42-77 | the list shown becomes the view of the orders, filters and sort order, and nothing else changes |
| RecogerOrders.RecogerOrdersPage.HandleFilterChange | src/app/admin/orders/recoger/page.tsx:88-93 | the field named by the key takes the value, the other fields stay |
| RecogerOrders.RecogerOrdersPage.SetSortBy | src/app/admin/orders/recoger/page.tsx:15 | the sort order takes the value chosen, nothing else changes |
| RecogerOrders.RecogerOrdersPage.ClearFilters | src/app/admin/orders/recoger/page.tsx:95-101 | every filter is emptied and the sort returns to the newest first |
| RecogerOrders.RecogerOrdersPage.UpdateOrderStatus | src/app/admin/orders/recoger/page.tsx:142-157 | the local orders take the new status only when the backend accepted the update |
| AdminOrders.StatusQuery | src/app/admin/orders/page.tsx:25 | no status is sent exactly when the filter is empty, otherwise the filter itself |
| AdminOrders.AdminOrdersPage.constructor | src/app/admin/orders/page.tsx:6-11 | the page starts loading, with no order, no error, every status and no card updating |
| AdminOrders.AdminOrdersPage.SetStatusFilter | src/app/admin/orders/page.tsx:10 | the status filter takes the value chosen; orders, error, loading and updating stay |
| AdminOrders.AdminOrdersPage.LoadOrders | src/app/admin/orders/page.tsx:13-34 | the status asked of the backend follows the filter; a successful answer replaces the orders by the restaurant's orders and clears the error; a failure keeps them and sets the error message; loading ends either way |
| AdminOrders.AdminOrdersPage.UpdateOrderStatus | src/app/admin/orders/page.tsx:41-59 | the local orders take the new status only when the backend accepted the update, and no card is left marked as updating |
| AdminOrders.UpdateMovesOneOrder | src/app/admin/orders/page.tsx:41-59 | moving an order with a unique id along the flow takes one from its old status's counter and adds one to the new status's counter |
| OrderStats.MethodCounts | src/app/admin/dashboard/page.tsx:96-98 | the orders of the three delivery methods and those of any other method together are all the orders |
| OrderStats.KnownMethodsBound | src/app/admin/dashboard/page.tsx:96-98 | the three method lists hold at most all the orders, and all of them exactly when every order has one of the three methods |
| OrderStats.RevenueSplits | src/app/admin/dashboard/page.tsx:105 | the revenue of the orders a filter keeps plus that of the ones it drops is the revenue of all the orders |
| OrderStats.AverageIsMean | src/app/admin/dashboard/page.tsx:106 | the average is 0 without orders, and otherwise the value that, taken once per order, gives the revenue |
| OrderStats.SumCountsOfTally | src/app/admin/dashboard/page.tsx:116-119 | adding up the stored counts of a list of keys gives the number of orders carrying those keys |
| OrderStats.CountsAddUp | src/app/admin/dashboard/page.tsx:116-119 | the counts of a count-by-key object add up to the number of orders: none is lost or counted twice |
| OrderStats.CountBy | src/app/admin/dashboard/page.tsx:111-119 | the reducer's object has as keys the distinct keys of the orders, in order of first occurrence, and under each the number of orders with that key |
| OrderStats.CountOrZeroIsFilterLength | src/app/admin/dashboard/page.tsx:129-131 | a key's count, 0 when absent, is the number of orders the filter on that key keeps |
| Dashboard.StoredRestaurantId | src/app/admin/dashboard/page.tsx:65-71 | an empty stored id gives "choripam"; a stored id starting with "rest_" gives what follows the prefix; any other is kept as it is |
| Dashboard.Partition | src/app/admin/dashboard/page.tsx:96-98 | each list holds only orders of its method and keeps the order in which they were loaded; every order of that method is in it, as often as in the loaded list |
| Dashboard.TotalActiveBound | src/app/admin/dashboard/page.tsx:236 | the active-orders total is at most the orders loaded, and equal exactly when every order has one of the three methods |
| Dashboard.ComputeAnalytics | src/app/admin/dashboard/page.tsx:104-135 | the figures are the number of orders, their revenue, the average, the counts of each delivery method (0 when absent) and the count-by-status object, over a 7-day period |
| Dashboard.DescribedTotals | src/app/admin/dashboard/page.tsx:124-135 | the method counts add up to the active-orders total and the status counts add up to all the orders |
| Dashboard.DashboardPage.constructor | src/app/admin/dashboard/page.tsx:29-37 | the page starts loading, with empty lists, no figures, no error and the restaurant "choripam" |
| Dashboard.DashboardPage.LoadDashboardData | src/app/admin/dashboard/page.tsx:49-157 | the orders are asked for the stored restaurant (cleaned) or the current one; an answer with orders sets the three lists and the figures and clears the error; an answer without an orders array or a failed request keeps them and sets the prefixed error message; loading ends either way |
| Analytics.Recent | src/app/admin/analytics/page.tsx:100-106 | the orders kept are exactly those created at or after the cutoff `days` days before now, each as often as it was loaded |
| Analytics.LongerRangeKeepsMore | src/app/admin/analytics/page.tsx:100-106 | a longer date range keeps every order a shorter one keeps, so at least as many |
| Analytics.SoldAtLeastIsTotal | src/app/admin/analytics/page.tsx:155 | the best-selling comparison is a total preorder, so sorting by it is well defined |
| Analytics.ProductRows | src/app/admin/analytics/page.tsx:153-154 | one row per accumulated product name, in key order, carrying that name's units and revenue |
| Analytics.ProductRowsHoldTotals | src/app/admin/analytics/page.tsx:142-156 | every row shown carries a product that was sold, with the units and revenue of all its lines, and no product appears twice |
| Analytics.ShownProductsSoldMost | src/app/admin/analytics/page.tsx:155-156 | a product left out of the table sold no more units than any product shown |
| Analytics.FirstRowsAreTopProducts | src/app/admin/analytics/page.tsx:153-156 | the first ten rows of the table sorted by units are the best-selling table |
| Analytics.TopProducts | src/app/admin/analytics/page.tsx:141-157 | the result has min(10, number of products sold) rows, one per product at most, each with its units and its revenue (price times quantity), in non-increasing units, and no product left out sold more than one shown |
| Analytics.NotLaterIsTotal | src/app/admin/analytics/page.tsx:137 | the by-date comparison is a total preorder, so sorting by it is well defined |
| Analytics.DayRows | src/app/admin/analytics/page.tsx:135-136 | one row per accumulated day, in key order, carrying that day's revenue and number of orders |
| Analytics.DayRowsHoldTotals | src/app/admin/analytics/page.tsx:124-138 | every row shown carries a day with orders, the sum of that day's totals and its number of orders |
| Analytics.ShownDaysIncrease | src/app/admin/analytics/page.tsx:137-138 | the days shown strictly increase |
| Analytics.ShownDaysAreLatest | src/app/admin/analytics/page.tsx:137-138 | a day with orders that is left out is earlier than every day shown |
| Analytics.LastRowsAreDailyRevenue | src/app/admin/analytics/page.tsx:135-138 | the last seven rows of the chart sorted by day are the daily-revenue chart |
| Analytics.DailyRevenue | src/app/admin/analytics/page.tsx:124-139 | the result has min(7, number of days with orders) rows: the latest days with orders, in strictly increasing order, each with its revenue and number of orders |
| Analytics.CalculateAnalytics | src/app/admin/analytics/page.tsx:39-81 | the figures are the number of orders, their revenue, the average, the counts of each delivery method (0 when absent), the count-by-status and count-by-payment objects, the daily-revenue chart and the best-selling table |
| Analytics.FiguresAgree | src/app/admin/analytics/page.tsx:67-80 | the status counts and the payment counts each add up to the number of orders, and the three method cards to at most that number |
| Analytics.AnalyticsPage.constructor | src/app/admin/analytics/page.tsx:33-37 | the page starts loading, with no figures, no error, the restaurant "choripam" and a 7-day range |
| Analytics.AnalyticsPage.SetDateRange | src/app/admin/analytics/page.tsx:37 | the range takes the value chosen, nothing else changes |
| Analytics.AnalyticsPage.LoadAnalytics | src/app/admin/analytics/page.tsx:83-118 | the request uses the restaurant id held before the call; the stored admin restaurant (or "choripam") becomes the page's restaurant; a successful answer gives the figures of its orders within the range and clears the error; a failure keeps the figures and sets the error message; loading ends either way |
| Seqs.Filter | src/app/admin/orders/mesa/page.tsx:71-72 | `Array.filter`: every element kept satisfies the predicate, each satisfying element is kept as often as it occurs, the others dropped, and the order is kept |
| Seqs.FilterCompose | src/app/admin/orders/mesa/page.tsx:71-72 | filtering twice is filtering once by both predicates |
| Seqs.FilterAppend | src/app/admin/orders/mesa/page.tsx:113-134 | filtering a concatenation filters each part |
| Seqs.FilterSplitsSum | src/app/admin/dashboard/page.tsx:105 | the sum over what a filter keeps plus the sum over what it drops is the sum over all |
| Seqs.Find | src/contexts/CartContext.tsx:34 | `Array.find`: the element found is the first in the list that satisfies the predicate; nothing is found exactly when no element does |
| Seqs.FirstIndex | src/types/graphql.ts:272 | the position `Array.find` stops at: the index found satisfies the predicate and no earlier one does; none is found exactly when no element does |
| Seqs.DistinctSpec | src/app/admin/orders/mesa/page.tsx:256 | `[...new Set(s)]`: the same elements as the list, none twice |
| Seqs.DistinctOrder | src/app/admin/orders/mesa/page.tsx:256 | `[...new Set(s)]` lists the elements in order of first occurrence: wherever a later one occurs in the list, every earlier one has occurred before it |
| Seqs.SortBy | src/app/admin/orders/mesa/page.tsx:137-154 | sorting by a total preorder gives a permutation of the list that is sorted by it |
| Seqs.Tally | src/app/admin/dashboard/page.tsx:116-119 | a reduce into an object: the keys in order of first occurrence, and under each the sum of the weights of the items with that key |
| Seqs.TallyPair | src/app/admin/analytics/page.tsx:125-133 | a reduce into an object holding two sums per key: the keys in order of first occurrence, and under each both sums over the items with that key |
| Seqs.TallyConserves | src/app/admin/dashboard/page.tsx:116-119 | the per-key sums of a reduce add up to the sum over all the items |
| Seqs.SumForCounts | src/app/admin/dashboard/page.tsx:116-119 | with weight 1, a key's sum is the number of items with that key |
| Text.UpperAsciiIdempotent | src/components/CartPanel.tsx:16 | upper-casing twice is upper-casing once |
| Text.LowerUpperAscii | src/app/admin/orders/mesa/page.tsx:128-134 | lower-casing after upper-casing is lower-casing, so a search is insensitive to the case typed |
| Text.Contains | src/app/admin/orders/mesa/page.tsx:123 | `includes` holds exactly when the text occurs at some position |
| Text.ContainsEmpty | src/app/admin/orders/mesa/page.tsx:123 | every text contains the empty text |
| Text.DigitsOnly | src/app/checkout/page.tsx:80 | the result has only digits and is no longer than the input |
| Text.DigitsOnlyAppend | src/app/checkout/page.tsx:80 | the digits of a concatenation are the digits of its parts, in order |
| Text.DigitsOnlyNonDigit | src/app/checkout/page.tsx:80 | a character that is not a digit is removed |
| Text.DigitsOnlyKeepsDigits | src/app/checkout/page.tsx:80 | a string of digits is kept as it is |
| Text.NatToDecimal | src/components/ProductVariantCard.tsx:46 | the decimal form of a number is a non-empty digit string with no leading zero |
| Text.IntToDecimal | src/components/ProductVariantCard.tsx:46 | the decimal form of an integer starts with a minus sign exactly when it is negative, followed by the decimal form of its magnitude |
| Text.DecimalRoundTrip | src/components/ProductVariantCard.tsx:46 | reading back the decimal form of a number gives the number |
| Text.DigitsValueAppend | src/components/ProductVariantCard.tsx:46 | the value of two digit strings written one after the other is the first shifted left by the length of the second plus the second |
| Text.ParseNatThenDigits | src/components/ProductVariantCard.tsx:46 | digits written after a number's decimal form are read as the number shifted left by that many places plus the digits |
| Text.ParseNatThenDigit | src/components/ProductVariantCard.tsx:46 | one digit written after a number's decimal form is read as ten times the number plus the digit |
| Text.ParseNegThenDigits | src/components/ProductVariantCard.tsx:46 | `Number` of a negative number's form followed by digits is the negated value of its magnitude's digits followed by them |
| Text.ParsePosThenDigits | src/components/ProductVariantCard.tsx:46 | `Number` of a non-negative number's form followed by digits is the value of the combined digits |
| Text.IntDecimalRoundTrip | src/app/checkout/page.tsx:57 | parsing the decimal form of an integer gives the integer |
| Text.Utf16 | src/types/graphql.ts:260-262 | a string has between one and two code units per character |
| Text.Utf16Bmp | src/types/graphql.ts:260-262 | a string of characters below U+10000 has one code unit per character, equal to the character's code |
| Text.LexLeqTotal | src/app/admin/orders/mesa/page.tsx:256 | any two code-unit sequences are ordered one way or the other |
| Text.LexLeqTransitive | src/app/admin/orders/mesa/page.tsx:256 | the code-unit order is transitive |
| Text.LexLeqAntisymmetric | src/app/admin/orders/mesa/page.tsx:256 | sequences ordered both ways are equal |
| Text.StringLeqTotalPreorder | src/app/admin/orders/mesa/page.tsx:148 | the string order is a total preorder, so sorting by table name is well defined |
| Seqs.Map | src/app/admin/orders/mesa/page.tsx:255 | `Array.map`: same length, each element the function applied to the element at the same place |
| Text.LowerAscii | src/app/admin/orders/mesa/page.tsx:123 | `toLowerCase` keeps the length and lower-cases each character on its own (A to Z only) |
| Text.UpperAscii | src/components/CartPanel.tsx:16 | `toUpperCase` keeps the length and upper-cases each character on its own (a to z only) |

## Left out

- GraphQLService.ResolveForGet, GraphQLService.GetProduct: `Number(productId)` is a parameter, tied to the id only for optionally negative decimal integers and for the empty string (0); padding whitespace, hexadecimal, exponents, a leading "+", decimals and Infinity are not modelled.
- Network I/O is not modelled: Apollo queries and mutations, `refetchQueries`, fetch policies, and the `fetch` calls of the checkout. Every backend answer is a parameter, either the data returned or a failure.
- `clearCache`, `getCategories`, `getRestaurantStats` and `getConnectionStatus` of `src/services/graphql-api.ts` are not modelled. They only query the backend or reset Apollo's cache.
- The text of a caught exception is not modelled. The service's outer `catch` wraps the message ("Error obteniendo …: msg"); the model returns a `ServiceError` value naming the case instead.
- `src/services/api-service.ts` is not part of this model. Its wrappers only forward to the service and log.
- Timers are not modelled: `setInterval`, `setTimeout` and the one-minute pause after three errors are method calls made by the caller (`IntervalTick`, `CooldownElapsed`, `StopAlarm`).
- The alarm sound (`AudioContext`) and the `Notification` API are left out. Only the `isPlaying` flag is kept.
- The hook's effect re-subscription when `previousOrderIds` changes is not modelled. One notifier object lives across ticks.
- A tick that overlaps a fetch still in flight is not modelled. Ticks run one at a time.
- Floating point is left out. The average order value is an exact `real`. `Math.round(subtotal * 0.1)` is `(subtotal + 5) / 10` on integers. Prices, totals and quantities are integers with no 2^53 limit. The analytics bar widths in percent are not modelled.
- Date parsing is left out. `created_at` is an integer timestamp in milliseconds. "Newest" and "oldest" compare it directly.
- The analytics day key (`toISOString().split('T')[0]`) is the UTC day number `created_at / 86400000`. It orders days the same way.
- The analytics cutoff is `now - days * 86400000`, with `now` a parameter. `setDate` across a daylight-saving change is not modelled.
- `parseInt(dateRange)` is taken as the integer number of days.
- `formatTimeElapsed` takes the elapsed milliseconds as a parameter instead of reading the clock.
- `toLowerCase` and `toUpperCase` are modelled on the ASCII letters only.
- `localeCompare` in the table sort and the default `sort()` of `getUniqueMesas` are both modelled as the order of UTF-16 code units. Locale collation is not modelled.
- `Intl.NumberFormat`, `toLocaleString`, the status colours and icons, and all rendering are left out.
- `localStorage` and `JSON.parse` are left out. The stored admin restaurant id is a parameter. A missing `restaurant_id` field and an empty one are both `""`.
- The router, the admin layout's redirect, `useClientSide`, `NotificationContext`, `NotificationBell`, the landing page and the static menu page are not part of this model.
- The WhatsApp message body and the `wa.me` link are not modelled. Only the recipient number is.
- `ORDER_STATUSES`, `PAYMENT_METHODS` and `DELIVERY_METHODS` of `src/types/graphql.ts` are not used as the status domain, because no page uses them. Statuses are the strings the pages compare against.
- Keys that name `Object.prototype` members ("constructor", "toString", "__proto__" and the like) are outside the model. The source's plain-object lookups find an inherited member under them instead of an own entry. The model treats every key as an ordinary one. The lines below name the members this affects.
- OrderLists.StatusLabel: a status named after an `Object.prototype` member makes `labels[s] || s` give the inherited function, not `s`. The model shows `s`.
- OrderLists.DeliveryLabel: the same holds for `labels[m] || m` with a delivery method named after an `Object.prototype` member.
- OrderLists.NextStatusOptionsFlow: for a status named after an `Object.prototype` member, `flow[s] || []` is a function and the `.map` that follows throws. The model offers no move.
- OrderStats.CountBy: for a key named after an `Object.prototype` member, `(acc[k] || 0) + 1` gives a string, and a `__proto__` key is dropped. The model counts such keys like any other. Dashboard.ComputeAnalytics and Analytics.CalculateAnalytics inherit this.
- Analytics.TopProducts: a product named after an `Object.prototype` member never gets an own entry under `if (!acc[name])`, so the source drops it from the table. The model gives it a row like any other product.
- `Object.keys` lists integer-like keys (such as a product named "123") before the others. The model keeps insertion order for every key. The statuses, payment methods and days used as keys are never integer-like.
- The in-place `filtered.sort(...)` of `applyFilters` is a sort on sequences (`Seqs.SortBy`). It returns a sorted permutation, so the update in place and the aliasing of `filtered` are not modelled.
- The order in which `sort` leaves ties is not stated. The best-selling table ties and the time and amount sorts are stated only up to ties.
- `setLoading(true)` before the request and `setLoading(false)` after it leave only the final `loading == false` in each page's load method. The intermediate render is not modelled.
- `SelectOrders` is the filtering half of each page's `applyFilters`. It is split out so that the method states the filter result before the sort.
- `Analytics.AnalyticsPage.LoadAnalytics` sends the request with the restaurant id held before the call, as the source does. The id read from storage takes effect only on the next load.
