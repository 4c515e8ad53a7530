# store-clean-arch storefront rules in Dafny

This project models the decision logic of a Vue storefront. That logic lives in its Pinia stores and composables:

- the cart ledger and its derived totals;
- the mini-cart drawer;
- keyboard navigation of dropdowns;
- the debounced, IME-aware text input;
- the card checkout, from validation through payment-intent confirmation to the stored order history;
- the mapping of validation errors to form fields;
- HTTP error classification;
- the product search filter and the category whitelist;
- product, category and section navigation;
- the small navigation, search and product-selection stores.

Every store is an immutable datatype, and every action is a pure function from state to state.

Some things the code hands to the outside world are inputs instead. These are:

- the backend's payment-intent answer;
- the card form's tokenization and confirmation;
- the payment provider's loading;
- the router's `push`;
- the clock and random ids.

Other effects become values the functions return:

- `localStorage` contents;
- calls to `onFlush`/`onClear`;
- toasts;
- pushed routes;
- log lines;
- outbound calls.

Prices and quantities are integers, so `totalPrice` is exact. The JavaScript built-ins the rules depend on are written out in `JsText`: `trim`, `\s`, ASCII `toLowerCase`, `includes`, `String(n)` and `Number(s)`.

Modules:

- `CartStore`: the cart ledger.
- `MiniCart`: the drawer state machine.
- `DropdownNavigation`: keyboard navigation of dropdowns.
- `BufferedInput`: the debounced input.
- `ErrorHandler`: HTTP error classification.
- `PaymentCard`: the card form.
- `CheckoutFlow`: `performCardPayment`.
- `CheckoutStore`: the checkout session.
- `ZodErrors`: validation errors to form fields.
- `CheckoutOrder`: `useCheckout`, which saves the order and empties the cart.
- `Orders`: the order history store and status labels.
- `PaymentNavigation`: the cart-summary link to checkout.
- `SearchStore` and `Search`: the search term and results.
- `Categories`: the category whitelist and fetch.
- `ProductStore`: the product list and selection.
- `ProductNavigation` and `LegacyProductNavigation`: the two product navigation variants.
- `NavStore` and `Navigation`: category and section navigation.
- `Truncation`: `truncate`.

`Wrappers`, `Catalog`, `CheckoutTypes`, `JsText` and `SeqFilter` hold shared types and helpers.

The repository's test files sometimes describe an older interface, for example `handlePayment(total, cardForm)` returning `{ok, reason}`, or a reset of `productId`. The model follows the code, not those tests.

## Model

| member | source | states |
|---|---|---|
| `CartStore.IndexOf` | src/domain/cart/stores/cartStore.ts:63-64 | the first entry with the id, -1 exactly when no entry has it |
| `CartStore.Load` | src/domain/cart/stores/cartStore.ts:22-34 | a stored array is taken as the entries; a missing, non-array or unparseable value leaves an empty cart; the total agrees with the entries |
| `CartStore.AddToCart` | src/domain/cart/stores/cartStore.ts:52-61 | a present product gets its first entry's quantity raised by one and nothing else changes; an absent one is appended with quantity 1 after the unchanged entries; the total is recomputed and saved |
| `CartStore.RemoveFromCart` | src/domain/cart/stores/cartStore.ts:63-71 | an absent id changes nothing, storage included; a present one removes exactly one entry, the first with that id, as a multiset difference, keeps the entries before it unchanged and the remaining ones in their order, whatever the stored array held |
| `CartStore.Trunc` | src/domain/cart/stores/cartStore.ts:76 | `Math.trunc` rounds toward zero on both signs |
| `CartStore.NewQuantity` | src/domain/cart/stores/cartStore.ts:76 | `max(0, trunc(q))` is never negative, is zero exactly when q < 1, and otherwise is the integer part of q |
| `CartStore.UpdateQuantity` | src/domain/cart/stores/cartStore.ts:73-82 | an absent id is a no-op; a quantity truncating to 0 gives the same cart as `removeFromCart`; otherwise only that entry's quantity changes, to the truncated value |
| `CartStore.ClearCart` | src/domain/cart/stores/cartStore.ts:84-88 | no entries, total 0, count 0, and an empty array saved |
| `CartStore.RecomputeTotal` | src/domain/cart/stores/cartStore.ts:44-49 | the reduce loop computes Σ price × quantity over the entries |
| `CartStore.AddToCartTotals` | src/domain/cart/stores/cartStore.ts:17 | adding raises `count` by one and `totalPrice` by the unit price of the touched entry |
| `CartStore.RemoveFromCartTotals` | src/domain/cart/stores/cartStore.ts:63-71 | removing takes exactly the removed line out of `totalPrice` and `count` |
| `CartStore.UpdateQuantityTotals` | src/domain/cart/stores/cartStore.ts:73-82 | a positive update moves `count` by the quantity difference and `totalPrice` by price × that difference |
| `CartStore.UpdateToZeroIsRemove` | src/domain/cart/stores/cartStore.ts:76-79 | any q < 1 (0.5, 0, negatives) gives the ledger of `removeFromCart(id)` |
| `CartStore.AddToCartKeepsValid` | src/domain/cart/stores/cartStore.ts:52-58 | unique product ids and quantities ≥ 1 survive `addToCart` |
| `CartStore.RemoveFromCartKeepsValid` | src/domain/cart/stores/cartStore.ts:63-71 | unique ids and quantities ≥ 1 survive `removeFromCart`, and the id is gone afterwards |
| `CartStore.UpdateQuantityKeepsValid` | src/domain/cart/stores/cartStore.ts:73-82 | unique ids and quantities ≥ 1 survive `updateQuantity` |
| `CartStore.RemoveFromCartIsFilter` | src/domain/cart/stores/cartStore.ts:63-71 | on a cart with unique ids, removal keeps every other entry in its order, matching an independent filter definition |
| `CartStore.PersistRoundTrip` | src/domain/cart/stores/cartStore.ts:22-42 | each mutation writes exactly the entries it keeps in memory, so the next load restores them with the same total (the JSON encoding itself is abstract) |
| `CartStore.TwoProductsScenario` | src/domain/cart/stores/cartStore.ts:17 | A (price 50) added twice and B (price 100) once give count 3 and total 200 |
| `MiniCart.GettersPartition` | src/domain/cart/stores/useMiniCartStore.ts:14-16 | `isOpen` exactly when not closed; exactly one of not-open, mini, expanded holds |
| `MiniCart.InitiallyClosed` | src/domain/cart/stores/useMiniCartStore.ts:10 | the drawer starts closed |
| `MiniCart.Transitions` | src/domain/cart/stores/useMiniCartStore.ts:19-33 | `openMini`/`openExpanded`/`close` reach their state from anywhere; `expand` only moves mini to expanded |
| `MiniCart.Idempotence` | src/domain/cart/stores/useMiniCartStore.ts:27-33 | `close` and `expand` are idempotent; `expand` never opens or closes the drawer |
| `MiniCart.OpenMini` | src/domain/cart/stores/useMiniCartStore.ts:19-21 | from any state the drawer reads as open and mini, not expanded |
| `MiniCart.OpenExpanded` | src/domain/cart/stores/useMiniCartStore.ts:23-25 | from any state the drawer reads as open and expanded, not mini |
| `MiniCart.Expand` | src/domain/cart/stores/useMiniCartStore.ts:27-29 | never opens or closes the drawer; an open drawer ends expanded; never mini afterwards |
| `MiniCart.Close` | src/domain/cart/stores/useMiniCartStore.ts:31-33 | from any state none of the three getters holds |
| `DropdownNavigation.SelectActive` | src/shared/composables/useDropdownNavigation.ts:18-23 | an item is handed to `onSelect` exactly when the index points into the list, and it is the item there |
| `DropdownNavigation.OnKeydown` | src/shared/composables/useDropdownNavigation.ts:25-44 | an inactive dropdown ignores every key; an index in [-1, len-1] stays there; `preventDefault` exactly for the arrows and Enter on an active dropdown; an item is selected exactly on Enter with the index in the list, and it is the item there; any key name other than the four handled ones changes nothing |
| `DropdownNavigation.OnItemsChanged` | src/shared/composables/useDropdownNavigation.ts:55 | after a new item list the index is in range for it and Enter selects nothing |
| `DropdownNavigation.SetActive` | src/shared/composables/useDropdownNavigation.ts:57 | the index becomes the given one, whatever it was |
| `DropdownNavigation.SetActiveThenEnter` | src/shared/composables/useDropdownNavigation.ts:18-23 | after `setActive(i)`, Enter on an active dropdown selects item i exactly when i indexes the list |
| `DropdownNavigation.InactiveIgnoresKeys` | src/shared/composables/useDropdownNavigation.ts:26-28 | a dropdown flagged closed, or with no items, ignores every key |
| `DropdownNavigation.ArrowKeys` | src/shared/composables/useDropdownNavigation.ts:30-37 | arrows step by one inside the list; at the ends they wrap only with `loop`, else stay |
| `DropdownNavigation.IndexStaysInRange` | src/shared/composables/useDropdownNavigation.ts:30-43 | from an index in [-1, len-1] every key keeps it there |
| `DropdownNavigation.EnterEscapeOther` | src/shared/composables/useDropdownNavigation.ts:38-43 | Enter selects without moving the index; Escape resets to -1; other keys change nothing; arrows select nothing |
| `DropdownNavigation.LoopingArrowsAreInverse` | src/shared/composables/useDropdownNavigation.ts:30-37 | with `loop`, ArrowUp undoes ArrowDown and back, on every item index |
| `BufferedInput.Init` | src/shared/composables/useBufferedInput.ts:14-16 | the initial value or '', not composing, no timer |
| `BufferedInput.Assign` | src/shared/composables/useBufferedInput.ts:25-32 | a changed value outside a composition replaces any timer by one carrying the new value; while composing, or unchanged, the timer is left alone |
| `BufferedInput.Apply` | src/shared/composables/useBufferedInput.ts:18-62 | each event runs at most one callback; `onClear` exactly on `clear`; `stop` cancels silently; only composition end ends a composition; the timer invariant is kept; a firing timer flushes the value it captured, if one is pending, and leaves none; composition start keeps any pending timer |
| `BufferedInput.ApplyKeepsTimerInvariant` | src/shared/composables/useBufferedInput.ts:18-62 | every event keeps "a pending timer outside a composition carries the current value" |
| `BufferedInput.RunKeepsTimerInvariant` | src/shared/composables/useBufferedInput.ts:18-62 | that invariant holds after any sequence of events |
| `BufferedInput.TimerFlushesCurrentValue` | src/shared/composables/useBufferedInput.ts:28-31 | outside a composition, the firing timer calls `onFlush` once with the shown value and leaves no timer |
| `BufferedInput.StaleTimerFiresDuringComposition` | src/shared/composables/useBufferedInput.ts:25-31 | a timer armed before a composition starts survives it and, firing mid-composition, flushes the value captured when it was armed rather than the text being composed |
| `BufferedInput.ComposingInputSchedulesNothing` | src/shared/composables/useBufferedInput.ts:25-26 | typing while composing schedules and calls nothing |
| `BufferedInput.FlushStopCompositionEnd` | src/shared/composables/useBufferedInput.ts:18-23 | `flush` and composition end cancel the timer and flush the current value once; `stop` cancels silently and is idempotent |
| `BufferedInput.ClearEmptiesValue` | src/shared/composables/useBufferedInput.ts:42-49 | `clear` empties the value and calls `onClear` once; its assignment re-arms a timer carrying '' exactly when the value was non-empty and not composing |
| `BufferedInput.DebouncedTypingFlushesLast` | src/shared/composables/useBufferedInput.ts:25-32 | typing several values then letting the timer fire flushes only the last value |
| `ErrorHandler.HandleError` | src/shared/composables/useErrorHandler.ts:8-58 | the status comes from the response; a toast is shown exactly when the status is ≥ 500 or the title is the connection error |
| `ErrorHandler.ResponseClassification` | src/shared/composables/useErrorHandler.ts:15-36 | 404/401/403/500 give their fixed pair; other statuses keep "Error" with `data.message` or "Error <status>: <statusText>" |
| `ErrorHandler.NoResponseClassification` | src/shared/composables/useErrorHandler.ts:11-44 | without a response: no message gives the defaults; a message containing "Network Error" gives the connection title and the connection message, and is toasted; any other message is shown as is |
| `ErrorHandler.ToastExamples` | src/shared/composables/useErrorHandler.ts:48-53 | a 503 is toasted under the title "Error"; a 404 is not toasted |
| `PaymentCard.DetectBrand` | src/domain/checkout/composables/usePaymentCard.ts:55-60 | visa iff the first char is 4; mastercard iff 51-55; amex iff 34 or 37; otherwise unknown |
| `PaymentCard.BrandIsPrefixDetermined` | src/domain/checkout/composables/usePaymentCard.ts:55-60 | the brand depends only on the first two characters |
| `PaymentCard.SelectMode` | src/domain/checkout/composables/usePaymentCard.ts:67-98 | the provider mode exactly when mock is not forced, a key exists, the provider loads without throwing, and the element mounts into a container |
| `PaymentCard.Last4` | src/domain/checkout/composables/usePaymentCard.ts:147 | the final ≤ 4 characters, a suffix of the number |
| `PaymentCard.Tokenize` | src/domain/checkout/composables/usePaymentCard.ts:118-158 | `processing` ends false and only `processing` and `error` change; in provider mode a rejected or thrown SDK call is returned as `{error}` with that error and its message shown, never rethrown, and a created payment method yields its id, last4 and brand with the form's cardholder |
| `PaymentCard.MockTokenize` | src/domain/checkout/composables/usePaymentCard.ts:141-151 | mock: an empty number, exp or cvc is the "Completa los datos de la tarjeta." error; otherwise last4 is exactly the last min(4, length) characters and brand the detected brand of the stripped number, with the fresh token and the cardholder |
| `PaymentCard.VisaExample` | src/domain/checkout/composables/usePaymentCard.ts:146-151 | "4242424242424242" tokenizes to last4 "4242", brand "visa" |
| `PaymentCard.TokenizePayload` | src/domain/checkout/composables/usePaymentCard.ts:165-180 | an `{error}` passes through unchanged; details keep token, last4 and brand; a result's own cardholder is kept as is, and a missing one is replaced by the form's |
| `PaymentCard.ConfirmPayment` | src/domain/checkout/composables/usePaymentCard.ts:189-216 | in provider mode a rejected or thrown confirmation is returned as `{error}` carrying that error, with its message shown, never rethrown; a resolved one returns its intent; the mock resolves to a succeeded intent with the fresh id; `processing` ends false |
| `PaymentCard.SdkErrorText` | src/domain/checkout/composables/usePaymentCard.ts:129 | the SDK error's message when truthy, else the fallback text, so never empty |
| `PaymentCard.ProviderFailuresAreReturned` | src/domain/checkout/composables/usePaymentCard.ts:128-131 | in provider mode `{error}` is returned exactly when the SDK rejected or threw, for both tokenizing and confirming, and a rejection always shows a non-empty message |
| `CheckoutFlow.Validate` | src/domain/checkout/composables/useCheckoutFlow.ts:30-36 | no error exactly when customer, method, positive total and a confirming card form are all present |
| `CheckoutFlow.PerformCardPayment` | src/domain/checkout/composables/useCheckoutFlow.ts:27-58 | nothing is called on a failed check; the intent is asked for `total` in "eur"; confirmation happens iff a client secret came back and receives it; confirmation errors are rethrown; an unfinished status gives success false |
| `CheckoutFlow.ValidationOrder` | src/domain/checkout/composables/useCheckoutFlow.ts:30-36 | the first failing check decides the error message |
| `CheckoutFlow.SuccessClassification` | src/domain/checkout/composables/useCheckoutFlow.ts:47-57 | a missing intent, missing status or "succeeded" counts as success; "requires_action" does not |
| `CheckoutStore.OnCustomerConfirm` | src/domain/checkout/stores/checkoutStore.ts:43-45 | sets the customer and nothing else |
| `CheckoutStore.OnPaymentSelect` | src/domain/checkout/stores/checkoutStore.ts:47-49 | sets the payment method and nothing else |
| `CheckoutStore.OnCardTokenized` | src/domain/checkout/stores/checkoutStore.ts:51-53 | the payment becomes a card payment with the given details; nothing else changes |
| `CheckoutStore.SetCardForm` | src/domain/checkout/stores/checkoutStore.ts:75-77 | sets the card-form handle and nothing else |
| `CheckoutStore.CanPay` | src/domain/checkout/stores/checkoutStore.ts:28-41 | enabled exactly when a customer is set and the payment has a non-empty method name; card details are not required |
| `CheckoutStore.CanPayAfterSelection` | src/domain/checkout/stores/checkoutStore.ts:28-49 | after confirming a customer and selecting a method, in either order, paying is enabled exactly when the method name is non-empty; without a customer it stays disabled |
| `CheckoutStore.ResetCheckout` | src/domain/checkout/stores/checkoutStore.ts:184-191 | all six fields back to their initial values |
| `CheckoutStore.AutoTokenizeCard` | src/domain/checkout/stores/checkoutStore.ts:66-73 | details exactly when the form offers `tokenizePayload` and it produced details; null for a missing entry point, `undefined` or an error |
| `CheckoutStore.Pay` | src/domain/checkout/stores/checkoutStore.ts:79-115 | `isProcessing` is false on every exit; `success` matches the result; no customer or method means no calls and an error; a non-card method succeeds without calls; a caught error is shown through `handleError` |
| `CheckoutStore.PerformPay` | src/domain/checkout/stores/checkoutStore.ts:117-132 | a payload exactly on success, carrying the store's customer and payment and the intent `pay` returned; state, calls and success are those of `pay`, and on failure its error is passed on |
| `CheckoutStore.HandlePayment` | src/domain/checkout/stores/checkoutStore.ts:150-174 | null with no effect without customer or method; a non-card method returns `{customer, payment}` without calls; a card is paid through `pay` on the auto-tokenized session, returning the payload exactly when that payment succeeded, with the tokenized payment and the returned intent |
| `CheckoutStore.AutoTokenization` | src/domain/checkout/stores/checkoutStore.ts:155-162 | a card without details is tokenized first, and its payload replaces the payment; a card with details is never re-tokenized; a failed tokenization leaves the payment as it was |
| `CheckoutStore.CardFailureOutcomes` | src/domain/checkout/stores/checkoutStore.ts:87-111 | an unfinished intent shows "Pago en estado: …"; a thrown error is handled and leaves `success` false; a succeeded one sets it |
| `CheckoutStore.RequiresActionIsNotPaid` | src/domain/checkout/stores/checkoutStore.ts:95-98 | "requires_action" makes `handlePayment` return null showing "Pago en estado: requires_action" |
| `CheckoutStore.WithCardToken` | src/domain/checkout/stores/checkoutStore.ts:155-162 | a card payment without details takes the details `autoTokenizeCard` produced, if any; every other session and every other field is left unchanged |
| `CheckoutStore.CardHandlePayment` | src/domain/checkout/stores/checkoutStore.ts:150-174 | for any card payment: the payload is returned exactly when `performCardPayment` on the tokenized session returned success, and it is `{customer, tokenized payment, paymentIntent}`; a null result leaves a message shown and `success` false |
| `CheckoutStore.SucceededCardPayment` | src/domain/checkout/stores/checkoutStore.ts:123-131 | a confirmed card payment returns `{customer, payment, paymentIntent}` after exactly the intent and confirm calls |
| `CheckoutStore.NonCardPay` | src/domain/checkout/stores/checkoutStore.ts:105-106 | a non-card method sets `success` without calling `performCardPayment` |
| `CheckoutStore.ResetDisablesPaying` | src/domain/checkout/stores/checkoutStore.ts:28-41 | after a reset `canPay` is false |
| `ZodErrors.IssueKey` | src/domain/checkout/helpers/mapZodErrors.ts:18-19 | the key is never empty: a path-less issue is filed under "_form" |
| `ZodErrors.FirstNonEmpty` | src/domain/checkout/helpers/mapZodErrors.ts:22 | the kept message, when non-empty, is the message of some issue filed under that key |
| `ZodErrors.FirstNonEmptyIsFirst` | src/domain/checkout/helpers/mapZodErrors.ts:22 | the first issue under a key with a non-empty message is the one kept |
| `ZodErrors.FileIssue` | src/domain/checkout/helpers/mapZodErrors.ts:22 | an issue whose key is a name `{}` inherits from `Object.prototype` is never filed |
| `ZodErrors.MapIssues` | src/domain/checkout/helpers/mapZodErrors.ts:9-24 | the keys are exactly the issues' keys other than the `Object.prototype` names, which `!mapped[key]` treats as already filled; each value is the first non-empty message filed under it |
| `ZodErrors.MapZodErrors` | src/domain/checkout/helpers/mapZodErrors.ts:8-36 | a falsy input maps to {}; issues as above, inherited names excluded; an Error gives exactly {_form: message}; anything else {_form: String(err)} |
| `CheckoutOrder.ToOrderItems` | src/domain/checkout/composables/useCheckout.ts:53-59 | one order line per cart entry, in order, with product id, title, price and quantity copied |
| `CheckoutOrder.SaveOrder` | src/domain/checkout/composables/useCheckout.ts:48-72 | a completed order with the given id, time, lines and total is stored first, followed by the newest previous orders in their order, at most 20 in all; unusable stored data throws |
| `CheckoutOrder.SaveEvictsOldest` | src/domain/checkout/composables/useCheckout.ts:71 | with 20 orders stored, the oldest is dropped |
| `CheckoutOrder.SaveThenLoad` | src/domain/checkout/composables/useCheckout.ts:63-71 | loading after a save shows the new order first, with status completed and the given total |
| `CheckoutOrder.CheckoutMutation` | src/domain/checkout/composables/useCheckout.ts:15-31 | a rejected completion changes nothing; success means the order was saved from the cart as it was, and the cart then emptied; a failed save leaves cart and storage as they were |
| `CheckoutOrder.MissingOrderIdIsUnknown` | src/domain/checkout/composables/useCheckout.ts:20 | a response without `orderId` stores the order under "unknown" |
| `CheckoutOrder.FallbackLeavesEntries` | src/domain/checkout/composables/useCheckout.ts:26-27 | the per-item fallback as written leaves B of a cart A, B, C |
| `CheckoutOrder.FallbackClearEmpties` | src/domain/checkout/composables/useCheckout.ts:23-28 | removing the ids of a snapshot of a valid cart empties it with total 0 |
| `Orders.Init` | src/domain/orders/stores/ordersStore.ts:6-7 | no orders and no success banner at first |
| `Orders.LoadOrders` | src/domain/orders/stores/ordersStore.ts:9-23 | a stored list is loaded with its length and order; nothing stored, or unusable data, gives [] without failing |
| `Orders.SetShowSuccess` | src/domain/orders/stores/ordersStore.ts:25-27 | only the flag changes |
| `Orders.ClearOrders` | src/domain/orders/stores/ordersStore.ts:29-32 | no orders and the storage key removed |
| `Orders.ClearThenLoad` | src/domain/orders/stores/ordersStore.ts:9-32 | a reload after clearing finds nothing |
| `Orders.GetStatusLabel` | src/domain/orders/helpers/formatters.ts:14-21 | the three known statuses get their Spanish label; a name the `labels` literal inherits from `Object.prototype` yields that inherited member, not a string; any other string is returned as is |
| `Orders.StatusLabel` | src/domain/orders/helpers/formatters.ts:14-21 | on a well-typed status the lookup always yields a string label |
| `Orders.LabelsAreDistinct` | src/domain/orders/helpers/formatters.ts:15-19 | different statuses get different labels, and no label equals a raw status name |
| `Orders.LabelExamples` | src/domain/orders/helpers/formatters.ts:15-20 | "completed" → "Completada", "pending" → "Pendiente", "cancelled" → "Cancelada", "refunded" unchanged, "constructor" the inherited member |
| `PaymentNavigation.OnQueryChange` | src/domain/cart-summary/composables/usePaymentNavigation.ts:22-28 | the id is set exactly when the parameter is non-empty and numeric, and it is that number |
| `PaymentNavigation.InitialProductIdAsWritten` | src/domain/cart-summary/composables/usePaymentNavigation.ts:17-19 | the argument, else `Number` of a non-empty parameter (possibly NaN), else null |
| `PaymentNavigation.InitialKeepsNaN` | src/domain/cart-summary/composables/usePaymentNavigation.ts:17-28 | `?productId=abc` starts as NaN, shown as "NaN", where the watcher gives null |
| `PaymentNavigation.InitialProductId` | src/domain/cart-summary/composables/usePaymentNavigation.ts:17-28 | the argument if given, else the parameter read exactly as the watcher reads it |
| `PaymentNavigation.InitialProductIdAgrees` | src/domain/cart-summary/composables/usePaymentNavigation.ts:17-28 | both readings agree on every numeric outcome |
| `PaymentNavigation.SetProductId` | src/domain/cart-summary/composables/usePaymentNavigation.ts:39-41 | numbers are kept; null and undefined become null |
| `PaymentNavigation.CanBeginPayment` | src/domain/cart-summary/composables/usePaymentNavigation.ts:30 | true exactly when the cart is non-empty |
| `PaymentNavigation.ProductIdString` | src/domain/cart-summary/composables/usePaymentNavigation.ts:32 | '' exactly for null; otherwise a string that reads back as the id |
| `PaymentNavigation.GoToCheckout` | src/domain/cart-summary/composables/usePaymentNavigation.ts:50-67 | no push with an empty cart; otherwise `/checkout` with `productId` iff it names a cart entry, `returnTo` iff non-empty, nothing else; a warning iff the id was dropped |
| `PaymentNavigation.QueryIdRoundTrip` | src/domain/cart-summary/composables/usePaymentNavigation.ts:22-66 | the id put in the checkout query is read back unchanged by the watcher |
| `SearchStore.SetSearchTerm` | src/domain/search/stores/searchStore.ts:7-9 | the term becomes the given one |
| `SearchStore.ClearSearch` | src/domain/search/stores/searchStore.ts:11-13 | the term becomes '' |
| `SearchStore.StoreLaws` | src/domain/search/stores/searchStore.ts:5-13 | the last write wins; clearing is idempotent, erases any earlier write and gives the initial state |
| `Search.QueryTerm` | src/domain/search/componsables/useSearch.ts:49 | the filtered term is never longer than the typed one |
| `Search.Results` | src/domain/search/componsables/useSearch.ts:49-56 | [] for an empty or too short term or no data; otherwise exactly the products whose lowercased title contains the term (sound and complete), each as many times as it occurs in the data |
| `Search.ResultsKeepOrder` | src/domain/search/componsables/useSearch.ts:54-56 | the results are a subsequence of the catalogue |
| `Search.SurroundingBlanksIgnored` | src/domain/search/componsables/useSearch.ts:49 | blanks around a typed word do not change the results |
| `Search.View` | src/domain/search/componsables/useSearch.ts:61-64 | `isLoading` iff the query loads and the untrimmed term is longer than `minChars`; `isError` iff the query reports an error |
| `Search.InitDebounce` | src/domain/search/componsables/useSearch.ts:22-23 | the debounced term starts as the store's term, with no timer |
| `Search.Watch` | src/domain/search/componsables/useSearch.ts:26-32 | a changed store term replaces the pending timer by one carrying it; the debounced term waits |
| `Search.StepSearch` | src/domain/search/componsables/useSearch.ts:22-32 | a store write sets the term and leaves the debounced term waiting; a firing timer publishes its term and leaves no timer; the sync invariant is kept |
| `Search.StepKeepsSync` | src/domain/search/componsables/useSearch.ts:26-32 | each event keeps "a pending timer carries the store's term, and with none the debounced term is the store's" |
| `Search.RunKeepsSync` | src/domain/search/componsables/useSearch.ts:26-32 | that holds after any sequence of events |
| `Search.LatestTermWins` | src/domain/search/componsables/useSearch.ts:26-32 | whatever was typed, once the timer fires the debounced term is the latest store term |
| `Categories.FilteredCategories` | src/domain/products/products/composables/useCategories.ts:29-31 | a category is kept iff its lowercased name is one of the five main slugs, as many times as it was fetched |
| `Categories.FilteredKeepsOrder` | src/domain/products/products/composables/useCategories.ts:29-31 | the kept categories are a subsequence in fetched order, and nothing else is kept |
| `Categories.CapitalisedNameIsMain` | src/domain/products/products/composables/useCategories.ts:7 | "Shoes" is main, "Toys" is not |
| `Categories.FetchStart` | src/domain/products/products/composables/useCategories.ts:15-16 | loading on, previous error cleared, list unchanged |
| `Categories.FetchErrorMessage` | src/domain/products/products/composables/useCategories.ts:21 | the error's message, or "Error al cargar categorías"; never empty |
| `Categories.FetchCategories` | src/domain/products/products/composables/useCategories.ts:14-25 | a response replaces the list and leaves no error; a failure keeps the list and records the message; loading is off afterwards |
| `Categories.RetryClearsError` | src/domain/products/products/composables/useCategories.ts:14-25 | a successful retry after a failure clears the error |
| `ProductStore.SetProductsList` | src/domain/products/products/stores/productStore.ts:18-20 | replaces the list; the selection is unchanged |
| `ProductStore.SelectProduct` | src/domain/products/products/stores/productStore.ts:22-25 | selects the product's id and record |
| `ProductStore.SelectProductById` | src/domain/products/products/stores/productStore.ts:27-30 | selects the id and drops the record |
| `ProductStore.ActionsKeepSelectionAgreement` | src/domain/products/products/stores/productStore.ts:8-30 | "the record is null or has the selected id" holds initially and after every action |
| `ProductStore.SelectByIdForgetsRecord` | src/domain/products/products/stores/productStore.ts:22-30 | selecting by the same id after a record keeps the id and drops the record |
| `ProductNavigation.NavigateToProduct` | src/domain/products/composables/useProductNavigation.ts:14-42 | a missing product or falsy id, then a falsy category id, throw their messages without routing; a valid product pushes `productDetail` with both ids in decimal; router failures are rethrown |
| `ProductNavigation.NavigateToProductById` | src/domain/products/composables/useProductNavigation.ts:46-62 | an empty argument throws; otherwise `productDetail` with the given strings; router failures are rethrown |
| `ProductNavigation.NavigateToCategory` | src/domain/products/composables/useProductNavigation.ts:65-84 | an empty slug throws; otherwise `productsByCategory` with the slug; router failures are rethrown |
| `ProductNavigation.ProductRouteRoundTrip` | src/domain/products/composables/useProductNavigation.ts:31-57 | the route parameters read back as the product's ids, and navigating by them reaches the same route |
| `ProductNavigation.ProductExample` | src/domain/products/composables/useProductNavigation.ts:14-37 | product 1 in category 2 goes to `productDetail` {categoryId: "2", id: "1"}; id 0 throws |
| `LegacyProductNavigation.NavigateToProduct` | src/domain/products/products/composables/useProductNavigation.ts:13-35 | an unroutable product throws without routing or logging; a valid one pushes its detail route |
| `LegacyProductNavigation.NavigateToProductById` | src/domain/products/products/composables/useProductNavigation.ts:39-53 | an empty argument throws; otherwise `productDetail` with the given strings |
| `LegacyProductNavigation.NavigateToCategory` | src/domain/products/products/composables/useProductNavigation.ts:55-69 | an empty slug throws; otherwise `productsByCategory` |
| `LegacyProductNavigation.VariantsAgree` | src/domain/products/products/composables/useProductNavigation.ts:13-69 | apart from logging, the older variant pushes the same routes and throws the same errors as the logged one |
| `NavStore.SetCategory` | src/stores/useNavStore.ts:15-17 | only `selectedCategory` changes |
| `NavStore.SetCurrentSection` | src/stores/useNavStore.ts:19-21 | only `currentSection` changes |
| `NavStore.ToggleNavCat` | src/stores/useNavStore.ts:23-25 | only the menu flag changes, and it flips |
| `NavStore.ToggleTwice` | src/stores/useNavStore.ts:11-25 | toggling twice is the identity; from the initial state one toggle opens the menu |
| `Navigation.HandleCategory` | src/shared/composables/useNavigation.ts:11-14 | the category is recorded and `/products/<id>` pushed, whose suffix reads back as the id |
| `Navigation.SectionPath` | src/shared/composables/useNavigation.ts:18-38 | a path exactly for the six known sections: "/" for home, "/<section>" for the others |
| `Navigation.HandleSection` | src/shared/composables/useNavigation.ts:16-40 | the section is always recorded; navigation happens only for a known one |
| `Navigation.SectionPathsDistinct` | src/shared/composables/useNavigation.ts:18-36 | different known sections go to different paths |
| `Navigation.UnknownSection` | src/shared/composables/useNavigation.ts:37-38 | an unknown section is recorded without navigating |
| `Truncation.Truncate` | src/domain/products/products/helpers/truncate.ts:3-5 | a text within `max` is unchanged; a longer one is its first max(0, max) characters followed by "..." |
| `Truncation.TruncateShape` | src/domain/products/products/helpers/truncate.ts:4 | for max ≥ 0 a cut result has length max + 3, and every result starts with the first min(length, max) characters |
| `Truncation.TruncateExamples` | src/domain/products/products/helpers/truncate.ts:4 | "Classic Tee" at 7 is "Classic..."; a short text is kept; a negative max gives "..." |

## Left out

- Floating point: prices, totals and quantities are integers. `updateQuantity` takes an exact real and truncates it. `NaN` quantities and non-numeric prices in stored carts are not modelled. Those are what `?? 0`, `|| 0` and `Number(...)` in `cartStore.ts` normalise.
- Storage and JSON: `localStorage` contents are a datatype of the possible parsed shapes. Write failures, which the cart store only logs, are not modelled. Stored arrays are taken as well-formed entries.
- Logging: logging through `console` is not modelled, except the log lines of the logger-based product navigation and the `goToCheckout` warning flag. Toast options and timeouts are not modelled either.
- Timers: delays are not modelled. These are the debounce milliseconds, the 600/800 ms mock waits and the 800 ms redirect to `/orders` after checkout. Timers are events in a sequence.
- Clock and randomness: mock token and payment-intent ids, and the order's ISO date, are parameters.
- Provider SDK: loading, card element creation, `createPaymentMethod` and `confirmCardPayment` are inputs describing how each call settled. DOM mounting, `onBeforeUnmount` and listener registration are not modelled.
- Query library: the query and mutation wiring (`useQuery`, `useMutation` state) is not modelled. The query's data, loading and error flags are inputs.
- Order history: `loadOrders` turns each stored date into a `Date` object; the model keeps the stored string. `formatDate` is left out because it is locale formatting through `Intl`.
- Route queries: a query parameter given as an array is not modelled, nor a `NaN` passed as `initialProductId`.
- `JsText.ToNumber`: only decimal integers are modelled; everything else is read as `NaN`. JavaScript reads several such spellings as numbers: hexadecimal (`"0x1A"`), binary (`"0b101"` is 5), octal (`"0o7"` is 7), exponent and fractional spellings, and `"Infinity"` and `"-Infinity"`. So for `?productId=Infinity` the source's watcher stores `Infinity`, while `PaymentNavigation.OnQueryChange` gives null.
- `JsText.Lower`: lowercases ASCII letters only. Full Unicode `toLowerCase` is not modelled.
- `Search.Results`: inherits the ASCII-only lowercasing. A title whose non-ASCII capitals would match after full Unicode lowercasing is not found.
- `Categories.FilteredCategories`: inherits the ASCII-only lowercasing. The five slugs are ASCII, so only non-ASCII capitals in a name are affected.
- `BufferedInput.Assign`: the watcher runs at the assignment itself. Vue's default `flush: 'pre'` queues it and compares values only when the queue runs. Calls made in one tick can therefore differ: `clear()` followed by `stop()` or `flush()` in the same handler re-arms a `''` timer in the program but not here, and two writes that end at the old value fire nothing there.
- `BufferedInput.Apply`: inherits the synchronous watcher of `Assign`; events are taken as separate ticks.
- `Search.Watch`: the same synchronous-watcher simplification. Several store writes in one tick that end at the old term start no timer in the program, while here each changing write re-arms one.
- `Truncation.Truncate`: lengths count Unicode scalar values. JavaScript's `length` and `substring` count UTF-16 code units, so a text with characters outside the Basic Multilingual Plane is cut at a different place (the program can split a surrogate pair).
- `PaymentCard.Last4`: the same difference; `slice(-4)` counts UTF-16 code units.
- `Search.View`: the `minChars` comparison uses the scalar-value length, not the UTF-16 length.
- `Search.Results`: the `minChars` comparison uses the scalar-value length, not the UTF-16 length.
- `DropdownNavigation.SelectActive`: an item that is falsy in JavaScript (`0`, `''`, `null`) at the active index is selected here. The source skips it.
- `PaymentCard.TokenizePayload`: `null` and `undefined` for last4, brand and cardholder are one absent value. A missing result from `tokenize` is not modelled, because `tokenize` always returns one.
- `CheckoutFlow.PerformCardPayment`: the total is an integer. `Number(total)` of a non-numeric total is not modelled.
- `CheckoutStore.Pay`: the `handleSuccess` toast on a confirmed card payment is not modelled.
- Glue code: network and service wrappers, components and configuration are outside this model. Their results appear only as inputs.

## Findings

| source | as written | input that shows it | evidently intended | confidence | as-written member | corrected member |
|---|---|---|---|---|---|---|
| src/domain/checkout/composables/useCheckout.ts:26-27 | the fallback calls `removeFromCart` for each entry while iterating with `forEach` over the cart's own array, which `removeFromCart` splices | a cart holding three distinct products A, B, C: A and C are removed and B stays | iterate over a copy so every entry is removed and the cart ends empty | not executed; the branch only runs when the store lacks `clearCart`, which this store always defines | `CheckoutOrder.FallbackLeavesEntries` | `CheckoutOrder.FallbackClearEmpties` |
| src/domain/cart-summary/composables/usePaymentNavigation.ts:17-19 | the initial `productId` is `Number(route.query.productId)` even when that is `NaN` | no argument and `?productId=abc`: `productId` is `NaN` and `productIdString` is "NaN" | null, as the watcher at lines 22-28 does for the same parameter | not executed | `PaymentNavigation.InitialKeepsNaN` | `PaymentNavigation.InitialProductId` |
