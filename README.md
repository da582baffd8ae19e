# Alliger House of Wings storefront: a verified model of its order logic

This project models the logic under the storefront "Alliger House of Wings". It is a Next.js shop built around Stripe for payments and Shippo for shipping rates. The model covers these parts:

- the order arithmetic in integer cents (`order_math.dfy`);
- the shopper's cart store (`cart.dfy`);
- the shipping-quote route: address normalisation and guards, bottle/gallon counting, packing into parcels from two weight tables, and the three-tier UPS rate filter with mapping and sorting (`shipping.dfy`);
- the checkout page as a state machine (`checkout.dfy`);
- the payment-intent route's amount rule and metadata snapshot (`payment_intent.dfy`);
- the two confirmation views, with screen selection and the totals fallbacks (`confirmation.dfy`);
- the cart purge mounted with the receipt (`purge.dfy`);
- the success page (`success.dfy`);
- the Stripe return redirect and its cookies (`redirect.dfy`);
- the product catalogue mapping (`catalog.dfy`).

`common.dfy` holds the JavaScript semantics the other modules share:
- `??` is written as `Option`;
- string truthiness for `||` is `Truthy`/`OrElse`;
- `Math.round` is `Round`, which is floor(x + 1/2);
- `Number.isFinite` is the `JsNum` type;
- ASCII case mapping, `indexOf`/`includes`, `split(sep)[0]`, `trim`, and decimal strings with their read-back.

The form follows the source:
- Pure code (map/filter/reduce chains, conditional expressions) is written as functions.
- State that the source replaces step by step is written as classes with `modifies` clauses: the cart's `items`; the checkout page's state; a view's `order`/`loading`; the storage areas; the redirect's cookie jar; the purge's run-once flag.
- The source's loops stay loops: `parseUnits`, the two packing loops, and the key scans with their `i--`.

The network calls are parameters of the model: Shippo, Stripe's create/retrieve/list, and the order lookup. So are the helpers that `src/lib/order-math.tsx` does not define: `sanitize` and `estimateTax` are uninterpreted functions.

## Model

| member | source | states |
|---|---|---|
| OrderMath.LineAmount | src/lib/order-math.tsx:16 | A line adds its price clamped at 0 times its quantity clamped at 1. A missing quantity counts as 1 and a missing price as 0. |
| OrderMath.SubtotalFrom | src/lib/order-math.tsx:14-19 | The subtotal is never negative, and it is 0 for no lines. |
| OrderMath.SubtotalAppend | src/lib/order-math.tsx:14-19 | The subtotal of a concatenation is the sum of the parts' subtotals. |
| OrderMath.SubtotalPermutation | src/lib/order-math.tsx:14-19 | Reordering the lines does not change the subtotal. |
| OrderMath.SubtotalRemoveAt | src/lib/order-math.tsx:14-19 | Dropping one line lowers the subtotal by exactly that line's amount. |
| OrderMath.ShippingFor | src/lib/order-math.tsx:21-23 | Shipping is 0 exactly when the subtotal is 0 or at least 7500. Otherwise it is the flat 599. |
| OrderMath.TaxAt | src/lib/order-math.tsx:25-27 | The tax lies within half a cent of subtotal × rate. |
| OrderMath.TaxFor | src/lib/order-math.tsx:25-27 | Definition, no contract: `taxFor(subtotal)` at the default rate `TAX_RATE` = 0.08. |
| OrderMath.TaxClosedForm | src/lib/order-math.tsx:25-27 | At the exact rate 8/100, the tax is (8s + 50) div 100 for every integer subtotal s. |
| OrderMath.TaxNeverTies | src/lib/order-math.tsx:26 | 8s mod 100 is never 50, so `Math.round` never meets a tie. |
| OrderMath.TaxNonNegative | src/lib/order-math.tsx:25-27 | A non-negative subtotal has a non-negative tax. |
| OrderMath.TaxMonotone | src/lib/order-math.tsx:25-27 | The tax is monotone in the subtotal. |
| OrderMath.Breakdown | src/lib/order-math.tsx:29-35 | Gives the subtotal of the lines, shipping and tax both taken from the subtotal alone, and total = subtotal + shipping + tax. |
| OrderMath.BreakdownBounds | src/lib/order-math.tsx:29-35 | total ≥ subtotal ≥ 0. An empty cart costs nothing. |
| OrderMath.BreakdownScenario | src/lib/order-math.tsx:29-35 | One line of 2 × 1000 gives (2000, 599, 160, 2759). |
| Cart.FindFrom | src/app/cart-provider.tsx:49 | Finds the first line with the key, or none when no line has it. |
| Cart.AddTo | src/app/cart-provider.tsx:47-56 | Definition, no contract: the first line with the same (productId, priceId) gains qty, keeping its own fields; otherwise a new line is appended. |
| Cart.AddMerges | src/app/cart-provider.tsx:49-54 | Adding a present key raises only that line's quantity, by n. The length and every other line stay the same. |
| Cart.AddAppends | src/app/cart-provider.tsx:55 | Adding a new key appends exactly one line with the given quantity. |
| Cart.AddKeepsKeysUnique | src/app/cart-provider.tsx:46-56 | If no two lines share (productId, priceId) before `add`, none do after. |
| Cart.RemoveFrom | src/app/cart-provider.tsx:58-65 | A line stays exactly when it was there and is not selected. With priceId omitted, every variant of the product is selected; otherwise only that variant is. |
| Cart.RemoveAppend | src/app/cart-provider.tsx:60-64 | Removal distributes over concatenation. |
| Cart.RemoveKeepsOrder | src/app/cart-provider.tsx:60-64 | A kept line sits after exactly the kept lines that preceded it, so order is preserved. |
| Cart.RemoveKeepsKeysUnique | src/app/cart-provider.tsx:58-65 | `remove` keeps the keys unique. |
| Cart.SetQtyIn | src/app/cart-provider.tsx:66-77 | Definition, no contract: qty ≤ 0 is `remove`; otherwise every selected line takes qty and the rest are kept. |
| Cart.SetQtyOverwrites | src/app/cart-provider.tsx:70-76 | A positive quantity overwrites the selected lines' quantity. It leaves the length and every other line as they were. |
| Cart.SetQtyNonPositiveIsRemove | src/app/cart-provider.tsx:67-69 | `setQty` with a quantity ≤ 0 is exactly `remove` with the same arguments. |
| Cart.SetQtyKeepsKeysUnique | src/app/cart-provider.tsx:66-77 | `setQty` keeps the keys unique. |
| Cart.Currency | src/app/cart-provider.tsx:82 | The currency is the first line's currency when that is non-empty, and null for an empty cart. |
| Cart.Count | src/app/cart-provider.tsx:80 | Definition, no contract: `items.reduce((n, i) => n + i.qty, 0)`. |
| Cart.Subtotal | src/app/cart-provider.tsx:81 | Definition, no contract: `items.reduce((s, i) => s + (i.price \|\| 0) * i.qty, 0)`. |
| Cart.CountUpdate | src/app/cart-provider.tsx:80 | Replacing one line changes the count by the difference of the quantities. |
| Cart.AddCount | src/app/cart-provider.tsx:80 | The count after `add(p, n)` is the count before plus n. |
| Cart.AddNewSubtotal | src/app/cart-provider.tsx:81 | Adding a new key raises the subtotal by price × n. |
| Cart.SubtotalAgreesWithOrderMath | src/app/cart-provider.tsx:81 | For lines with quantity ≥ 1 and non-negative prices, the cart's subtotal equals the order-math subtotal. |
| Cart.CartStore.constructor | src/app/cart-provider.tsx:30 | The store starts empty, with unique keys. |
| Cart.CartStore.Add | src/app/cart-provider.tsx:46-57 | The new `items` are the add-or-merge of the old, with n defaulting to 1. Unique keys are kept, and the count rises by n. In a store with unique keys, the one line with the product's key gains n and every other line is unchanged. |
| Cart.CartStore.Remove | src/app/cart-provider.tsx:58-65 | The new `items` are the filtered old ones, and unique keys are kept. |
| Cart.CartStore.SetQty | src/app/cart-provider.tsx:66-77 | The new `items` are the setQty of the old ones (removal for qty ≤ 0), and unique keys are kept. |
| Cart.CartStore.Clear | src/app/cart-provider.tsx:78 | `items` becomes empty. |
| Shipping.TableKeys | src/app/api/shipping/route.ts:73-94 | The bottle table is keyed exactly 1..12 and the gallon table exactly 1..4. |
| Shipping.Lookup | src/app/api/shipping/route.ts:131 | Definition, no contract: `config[chunk] ?? config[max]`. |
| Shipping.ParcelFor | src/app/api/shipping/route.ts:132-139 | Definition, no contract: the rule's box and `Math.max(1, Math.round(weightLbs * 16))` ounces. |
| Shipping.RoundCount | src/app/api/shipping/route.ts:127 | Definition, no contract: `Math.max(0, Math.round(count))`. |
| Shipping.Chunks | src/app/api/shipping/route.ts:129-141 | Every chunk the decrementing loop takes is between 1 and the cap. |
| Shipping.ChunksShape | src/app/api/shipping/route.ts:127-158 | The chunks sum to the rounded count, and there are ⌈n/cap⌉ of them. |
| Shipping.ParcelsFollowTable | src/app/api/shipping/route.ts:131-139 | Each parcel has its chunk's box and max(1, weightLbs × 16) ounces from the table. |
| Shipping.ParcelsOf | src/app/api/shipping/route.ts:129-140 | One parcel per chunk. |
| Shipping.PlannedParcels | src/app/api/shipping/route.ts:123-172 | Definition, no contract: the gallon parcels, then the bottle parcels, or the single fallback parcel when both are empty. |
| Shipping.ParcelCount | src/app/api/shipping/route.ts:123-173 | There are ⌈g/4⌉ + ⌈b/12⌉ parcels when anything is shipped, and otherwise exactly the fallback 7×7×14 in, 16 oz parcel. The result is never empty. |
| Shipping.ParcelWeights | src/app/api/shipping/route.ts:127-158 | Gallon parcels come first. Each holds ≤ 4 gallons or ≤ 12 bottles and carries that count's table weight. |
| Shipping.BuildParcelsFromCounts | src/app/api/shipping/route.ts:123-173 | The two while loops produce exactly the planned parcels: gallons, then bottles, or the fallback. |
| Shipping.UnitQty | src/app/api/shipping/route.ts:107-110 | Uses `quantity ?? qty ?? 1`, at least 1 when finite and 1 otherwise. |
| Shipping.IsGallon | src/app/api/shipping/route.ts:106-112 | Definition, no contract: the lower-cased name contains "gallon". |
| Shipping.Gallons | src/app/api/shipping/route.ts:105-114 | Definition, no contract: the sum of `UnitQty` over the gallon items. |
| Shipping.Bottles | src/app/api/shipping/route.ts:105-117 | Definition, no contract: the sum of `UnitQty` over all other items. |
| Shipping.UnitsPartition | src/app/api/shipping/route.ts:101-121 | Each item is counted once as bottles or as gallons. bottles + gallons = Σ per-item quantity ≥ the number of items. |
| Shipping.ClassificationIgnoresCase | src/app/api/shipping/route.ts:106-117 | Upper-casing a name does not move it between gallons and bottles. |
| Shipping.ParseUnits | src/app/api/shipping/route.ts:101-121 | The for loop's totals are the bottle and gallon counts of the items. |
| Shipping.ChosenAddress | src/app/api/shipping/route.ts:180-183 | Definition, no contract: `body.address ?? toAddress ?? addr ?? address_to ?? {}`, then its nested `address` when that is set. |
| Shipping.Normalize | src/app/api/shipping/route.ts:180-193 | The country is the upper-cased country, defaulting to "US". The ZIP is empty exactly when neither postal_code nor postalCode is set. |
| Shipping.Prepare | src/app/api/shipping/route.ts:195-220 | A non-US destination is refused before a missing ZIP. A US address with a ZIP is always accepted: the request goes to the normalised address with exactly `PlannedParcels` of the items' bottle and gallon counts, at least one parcel. |
| Shipping.MessageTexts | src/app/api/shipping/route.ts:267-271 | One text per upstream message, in order. |
| Shipping.IsUpsGround | src/app/api/shipping/route.ts:250-253 | Definition, no contract: currency "USD" and the lower-cased service-level token "ups_ground". |
| Shipping.IsAnyUps | src/app/api/shipping/route.ts:258-261 | Definition, no contract: currency "USD" and the upper-cased provider contains "UPS". |
| Shipping.Usable | src/app/api/shipping/route.ts:250-263 | Definition, no contract: the strict UPS Ground rates, or the any-UPS rates when there are none. |
| Shipping.Filter | src/app/api/shipping/route.ts:250-263 | A rate is kept exactly when it satisfies the tier's test. |
| Shipping.Estimate | src/app/api/shipping/route.ts:293 | Definition, no contract: `Number(estimated_days) \|\| undefined`. |
| Shipping.Label | src/app/api/shipping/route.ts:296-300 | Definition, no contract: "UPS " + the service-level name, else "UPS " + its token, else "UPS". |
| Shipping.ToRate | src/app/api/shipping/route.ts:292-305 | Days are 2..5 without an estimate and est..est+1 with one, so daysMin < daysMax. The amount is within half a cent of dollars × 100. |
| Shipping.MapRates | src/app/api/shipping/route.ts:291-305 | One mapped rate per usable rate, in order. |
| Shipping.Insert | src/app/api/shipping/route.ts:306 | An insertion adds exactly one copy of the rate to the multiset of rates. |
| Shipping.InsertSorted | src/app/api/shipping/route.ts:306 | Inserting into rates sorted by amount keeps them sorted. |
| Shipping.SortByAmount | src/app/api/shipping/route.ts:306 | The result is sorted ascending by amount and is a permutation of the input. |
| Shipping.QuoteFrom | src/app/api/shipping/route.ts:238-308 | There is an error exactly when there are no rates. Rates are sorted ascending and each has daysMin < daysMax. |
| Shipping.QuoteTiers | src/app/api/shipping/route.ts:249-289 | Strict UPS Ground when any exists, else any USD UPS rate, else no rates and the error built from the messages. |
| Shipping.Post | src/app/api/shipping/route.ts:175-308 | Returns the two guard errors with no rates, and otherwise exactly `QuoteFrom` of the upstream answer to the prepared request. There is an error exactly when there are no rates, the rates are sorted by amount, and each has daysMin < daysMax. |
| Checkout.SafeCurrency | src/app/checkout/page.tsx:31-34 | The cart's currency lower-cased when it is present and not blank after trimming, else "usd". |
| Checkout.CartDisabled | src/app/checkout/page.tsx:28 | Disabled exactly when the normalised subtotal is 0, which covers both no lines and a worthless cart. |
| Checkout.DeferredAmount | src/app/checkout/page.tsx:136 | The deferred payment amount is max(50, base total). |
| Checkout.EmptyCartIsDisabled | src/app/checkout/page.tsx:26-28 | An empty cart is disabled, and its deferred amount is 50. |
| Checkout.CheckoutPage.constructor | src/app/checkout/page.tsx:37-48 | The first render: no address, the form open, no rates, no intent. The invariant holds. |
| Checkout.CheckoutPage.ShippingPhase | src/app/checkout/page.tsx:143-148 | "beforeAddress" exactly when the address is unconfirmed, and "ready" exactly when it is confirmed and a rate is chosen. |
| Checkout.CheckoutPage.SelectedShipping | src/app/checkout/page.tsx:150-153 | Non-null exactly in "ready", and then ≥ 0. |
| Checkout.CheckoutPage.TaxPreview | src/app/checkout/page.tsx:156-163 | The estimator's answer for the confirmed address. Before confirmation it is the base 8% tax. |
| Checkout.CheckoutPage.Options | src/app/checkout/page.tsx:130-139 | The payment form uses the client secret once there is one. Before that it is in deferred mode with amount ≥ 50 in the safe currency. |
| Checkout.CheckoutPage.ElementsKey | src/app/checkout/page.tsx:140 | "cs_" + secret with a secret, "deferred" without. |
| Checkout.CheckoutPage.IntentBody | src/app/checkout/page.tsx:92-102 | The intent request carries the cart, the safe currency, the chosen rate's amount clamped at 0, the address and the rate id. |
| Checkout.CheckoutPage.IntentReady | src/app/checkout/page.tsx:85 | Definition, no contract: `addrConfirmed && !!addr && !!chosen && !cartDisabled`. |
| Checkout.CheckoutPage.CanConfirmAddress | src/app/checkout/page.tsx:261 | Definition, no contract: `addrComplete && !busyRates`. `EditingNeverBlocked` and `StuckAfterEditDuringFetch` are stated with it. |
| Checkout.CheckoutPage.EditingNeverBlocked | src/app/checkout/page.tsx:261 | With the corrected edit, a complete address can always be confirmed while the form is open. |
| Checkout.CheckoutPage.OnAddressChange | src/app/checkout/page.tsx:184-187 | Records the address and its completeness, and changes nothing else. |
| Checkout.CheckoutPage.OnConfirmAddress | src/app/checkout/page.tsx:188-196 | A no-op unless the address is complete. Otherwise it confirms, closes the form, clears the rates, chosen rate, intent and error, and starts a rates request exactly when the cart is enabled. |
| Checkout.CheckoutPage.CleanupRates | src/app/checkout/page.tsx:78-80 | Corrected cleanup: it cancels the run and also ends "Checking rates". |
| Checkout.CheckoutPage.CleanupRatesAsWritten | src/app/checkout/page.tsx:67-80 | As written: it cancels the run, and `busyRates` keeps its value. |
| Checkout.CheckoutPage.RunRatesEffect | src/app/checkout/page.tsx:51-58 | Starts a request, and shows "Checking rates", exactly for a confirmed address and an enabled cart. |
| Checkout.CheckoutPage.OnEditAddress | src/app/checkout/page.tsx:197-203 | Corrected edit: reopens the form, clears the rates, chosen rate and intent, cancels both requests and resets `busyRates`. |
| Checkout.CheckoutPage.OnEditAddressAsWritten | src/app/checkout/page.tsx:197-203 | As written: the same, except that `busyRates` keeps its value. |
| Checkout.CheckoutPage.RatesArrived | src/app/checkout/page.tsx:65-75 | A good answer offers its rates, with the first chosen and an intent request started. A bad one shows its error or "Failed to fetch rates.". Either way "Checking rates" ends. |
| Checkout.CheckoutPage.RunIntentEffect | src/app/checkout/page.tsx:84-91 | An intent request starts exactly when the address is confirmed, a rate is chosen and the cart is enabled. |
| Checkout.CheckoutPage.SelectRate | src/app/checkout/page.tsx:117-127 | The chosen rate is the selected one. A different id restarts the intent request, and the same id changes nothing else. |
| Checkout.CheckoutPage.IntentArrived | src/app/checkout/page.tsx:104-111 | A good answer with a secret stores it. Otherwise the error or "Couldn't start payment." is shown. |
| Checkout.StuckAfterEditDuringFetch | src/app/checkout/page.tsx:51-81 | As written: confirming and then editing before the rates arrive leaves the form open, "Checking rates" on and confirmation impossible. |
| PaymentIntent.Ship | src/app/api/stripe/route.ts:53-55 | max(0, round(shipCents)) when finite, else 0. A missing value is 0. |
| PaymentIntent.ShipOfWholeCents | src/app/api/stripe/route.ts:53-55 | The whole cents the checkout page sends pass through unchanged. |
| PaymentIntent.Amount | src/app/api/stripe/route.ts:65 | Always ≥ 50, and equal to the total whenever the total is ≥ 50. |
| PaymentIntent.SnapshotId | src/app/api/stripe/route.ts:91 | Definition, no contract: `String(it.productId ?? it.id)`. |
| PaymentIntent.SnapshotQty | src/app/api/stripe/route.ts:92 | Definition, no contract: `Number(it.qty ?? it.quantity ?? 1)`. |
| PaymentIntent.Snapshot | src/app/api/stripe/route.ts:89-94 | One entry per sanitised line, in order, with productId ?? id and qty ?? quantity ?? 1. |
| PaymentIntent.ShippingFor | src/app/api/stripe/route.ts:71-83 | A shipping block exists exactly when an address is given. The name defaults to "" and the country to "US", and line2 is dropped when empty. |
| PaymentIntent.Post | src/app/api/stripe/route.ts:44-94 | amount = max(50, subtotal + ship + tax). The metadata has the three amounts as strings, rate_id or "", and the snapshot. The currency defaults to "usd". |
| PaymentIntent.AmountCoversGoods | src/app/api/stripe/route.ts:57-65 | With a non-negative tax estimate, the amount covers goods + shipping. |
| PaymentIntent.MetadataReadsBack | src/app/api/stripe/route.ts:85-88 | The metadata strings read back as the numbers that were charged. |
| Confirmation.NumberOr | src/app/checkout/confirmation/ConfirmationClient.tsx:124-125 | Definition, no contract: `Number(x) \|\| d`: NaN, 0 and a missing value give d. |
| Confirmation.UnitCents | src/app/checkout/confirmation/ConfirmationClient.tsx:124 | A line's unit is rounded and at least 0. NaN or 0 gives 0. |
| Confirmation.UnitQty | src/app/checkout/confirmation/ConfirmationClient.tsx:125 | A line's quantity is rounded and at least 1. NaN or 0 gives 1. |
| Confirmation.ComputedSubtotal | src/app/checkout/confirmation/ConfirmationClient.tsx:123-127 | The reconstruction is never negative. |
| Confirmation.ComputedSubtotalAgrees | src/app/checkout/confirmation/ConfirmationClient.tsx:123-127 | The reconstruction is the order-math subtotal of the normalised lines (so it is order-independent). |
| Confirmation.DisplaySubtotal | src/app/checkout/confirmation/ConfirmationClient.tsx:129 | The stored subtotal only when > 0, else the reconstruction. |
| Confirmation.DisplayTax | src/app/checkout/confirmation/ConfirmationClient.tsx:130-136 | Always ≥ 0. The stored tax when positive, else max(0, amount − shipping − displayed subtotal), so a stored 0 falls back too. |
| Confirmation.DisplayTotal | src/app/checkout/confirmation/ConfirmationClient.tsx:137-138 | The amount when present (0 included), else the sum of the displayed parts. |
| Confirmation.SummaryBalances | src/app/checkout/confirmation/ConfirmationClient.tsx:129-138 | Without a stored tax, subtotal + shipping + tax equals the total whenever the amount covers subtotal and shipping. |
| Confirmation.Money | src/app/checkout/confirmation/ConfirmationClient.tsx:140-141 | Dollars, a point and two cent digits. Zero and negatives show "0.00". |
| Confirmation.MoneyInjective | src/app/checkout/confirmation/ConfirmationClient.tsx:140-141 | Different non-negative amounts never show the same. |
| Confirmation.ShortId | src/app/checkout/confirmation/ConfirmationClient.tsx:142 | The last min(6, length) characters, upper-cased, or "—" without an id. |
| Confirmation.FailedRedirect | src/app/checkout/confirmation/page.tsx:42 | Definition, no contract: `redirectStatus && redirectStatus !== "succeeded"`. |
| Confirmation.SelectScreen | src/app/checkout/confirmation/ConfirmationClient.tsx:23-101 | Failed redirect first (refresh offered exactly when there is an id), then no id, then loading, then no order, then the receipt. Each branch holds under exactly its condition. |
| Confirmation.PagePi | src/app/checkout/confirmation/page.tsx:37 | `pi`, else `payment_intent`, else "". |
| Confirmation.PageStatus | src/app/checkout/confirmation/page.tsx:41 | Definition, no contract: `redirect_status \|\| ""`. |
| Confirmation.RefreshLink | src/app/checkout/confirmation/page.tsx:57 | Definition, no contract: `/checkout/confirmation?pi=` + pi. |
| Confirmation.MountsPurge | src/app/checkout/confirmation/page.tsx:137 | Definition, no contract: the purge component is part of the receipt screen only. |
| Confirmation.PageReceiptTotals | src/app/checkout/confirmation/page.tsx:225-239 | The page shows the stored fields, each defaulting to 0, through the money clamp. |
| Confirmation.ClientReceiptTotals | src/app/checkout/confirmation/ConfirmationClient.tsx:129-142 | The client shows the displayed subtotal, shipping, tax and total through the money clamp. |
| Confirmation.ViewsAgreeOnCompleteOrders | src/app/checkout/confirmation/page.tsx:225-239 | With a positive stored subtotal and tax and an amount present, the two views show the same totals. |
| Confirmation.OrderView.constructor | src/app/checkout/confirmation/ConfirmationClient.tsx:20-21 | No order at first, and loading exactly when there is an id. |
| Confirmation.OrderView.CurrentScreen | src/app/checkout/confirmation/ConfirmationClient.tsx:154 | The purge is mounted exactly on the receipt: redirect not failed, an id, not loading, an order. |
| Confirmation.OrderView.StartLoad | src/app/checkout/confirmation/ConfirmationClient.tsx:60-67 | With an id, the effect starts loading. Without one, nothing changes. |
| Confirmation.OrderView.Refresh | src/app/checkout/confirmation/ConfirmationClient.tsx:39-54 | The refresh button starts loading again. |
| Confirmation.OrderView.OrderLoaded | src/app/checkout/confirmation/ConfirmationClient.tsx:63-66 | Stores the answer and stops loading. |
| Confirmation.OrderView.RefreshStaysOnFailedScreen | src/app/checkout/confirmation/ConfirmationClient.tsx:26-58 | After a failed redirect the screen stays "Payment was not completed" whatever the refresh loads. |
| Confirmation.LoadScenario | src/app/checkout/confirmation/ConfirmationClient.tsx:60-101 | A successful redirect goes from the spinner to the receipt, or to "not found" when the lookup fails. |
| Purge.Without | src/app/checkout/confirmation/ClearCartOnArrival.tsx:22-30 | A key stays exactly when it is not one of the removed names. |
| Purge.IsCartName | src/app/checkout/confirmation/ClearCartOnArrival.tsx:33 | Definition, no contract: `/cart/i.test(name)`: "cart" occurs at some index, in any letter case. |
| Purge.CartNameIsSubstring | src/app/checkout/confirmation/ClearCartOnArrival.tsx:33 | The /cart/i test holds exactly when the lower-cased name contains "cart". |
| Purge.NonCart | src/app/checkout/confirmation/ClearCartOnArrival.tsx:31-39 | Definition: the keys that do not match /cart/i, in order. Its own contract says only that no key is added; `NonCartMembers` states the rest. |
| Purge.NonCartMembers | src/app/checkout/confirmation/ClearCartOnArrival.tsx:31-39 | A key survives the scan exactly when it was there and does not match /cart/i. |
| Purge.Storage.RemoveItem | src/app/checkout/confirmation/ClearCartOnArrival.tsx:35 | Removes that key, the others stay in order, and distinct keys stay distinct. |
| Purge.WithoutKeepsDistinct | src/app/checkout/confirmation/ClearCartOnArrival.tsx:22-30 | Removing keys keeps distinct storage keys distinct. |
| Purge.RemoveLegacy | src/app/checkout/confirmation/ClearCartOnArrival.tsx:22-30 | After the loop none of the seven legacy keys remains, and every other key is kept in order. |
| Purge.RemoveCartKeys | src/app/checkout/confirmation/ClearCartOnArrival.tsx:31-39 | The index scan with `i--` leaves exactly the keys that do not match /cart/i, in order. No key is skipped. |
| Purge.NonCartIdempotent | src/app/checkout/confirmation/ClearCartOnArrival.tsx:88-97 | A second scan removes nothing. |
| Purge.NonCartAppend | src/app/checkout/confirmation/ClearCartOnArrival.tsx:31-39 | The scan's result distributes over concatenation. |
| Purge.LegacyPassRedundant | src/app/checkout/confirmation/ClearCartOnArrival.tsx:22-39 | Every legacy key matches /cart/i, so the legacy pass does not change what the scan leaves. |
| Purge.LegacyKeysMentionCart | src/app/checkout/confirmation/ClearCartOnArrival.tsx:22-30 | All seven legacy keys match /cart/i. |
| Purge.StoredCartIsPurged | src/app/checkout/confirmation/ClearCartOnArrival.tsx:31-39 | The cart store's own key "how_cart_v1" never survives the scan. |
| Purge.Split | src/app/checkout/confirmation/ClearCartOnArrival.tsx:54 | `split(";")` gives at least one piece, and no piece contains the separator. |
| Purge.SplitJoin | src/app/checkout/confirmation/ClearCartOnArrival.tsx:54 | Joining the pieces with the separator gives the header back. |
| Purge.CookieNames | src/app/checkout/confirmation/ClearCartOnArrival.tsx:53-58 | Definition, no contract: the `split("=")[0]` of each non-empty trimmed `split(";")` piece, in order. |
| Purge.CookieNamesMembers | src/app/checkout/confirmation/ClearCartOnArrival.tsx:53-58 | A name is read exactly when it is the part before "=" of some non-empty trimmed piece of the header. |
| Purge.Expiry | src/app/checkout/confirmation/ClearCartOnArrival.tsx:60 | Definition, no contract: `${name}=; Max-Age=0; path=/`. |
| Purge.CookieWrites | src/app/checkout/confirmation/ClearCartOnArrival.tsx:53-62 | Definition, no contract: one expiry per cookie name that matches /cart/i, in order. |
| Purge.CookieWritesMembers | src/app/checkout/confirmation/ClearCartOnArrival.tsx:52-63 | A write happens exactly for each cookie name matching /cart/i, and it is `name=; Max-Age=0; path=/`. |
| Purge.LineIds | src/app/checkout/confirmation/ClearCartOnArrival.tsx:76-78 | The ids are exactly the non-empty product ids of the lines. |
| Purge.ClearStore | src/app/checkout/confirmation/ClearCartOnArrival.tsx:67-86 | With `clear`, the store becomes empty. Otherwise each id is removed, which leaves exactly the lines with an empty product id. |
| Purge.PurgeLocal | src/app/checkout/confirmation/ClearCartOnArrival.tsx:22-39 | Local storage keeps exactly its non-cart keys, in order. The legacy removals change nothing beyond the scan. |
| Purge.PurgeAll | src/app/checkout/confirmation/ClearCartOnArrival.tsx:22-86 | Both storage areas keep exactly their non-cart keys, and the store keeps only what the clearing leaves. |
| Purge.ArrivalPurge.constructor | src/app/checkout/confirmation/ClearCartOnArrival.tsx:13 | Starts with `didRun` false. |
| Purge.ArrivalPurge.Pass | src/app/checkout/confirmation/ClearCartOnArrival.tsx:19-89 | One pass: both storage areas keep exactly their non-cart keys, the cookie writes are made, and the store is cleared. |
| Purge.ArrivalPurge.OnMount | src/app/checkout/confirmation/ClearCartOnArrival.tsx:15-98 | Runs once: a later run changes nothing. The three passes leave what the first pass leaves. |
| Common.Trim | src/app/checkout/confirmation/ClearCartOnArrival.tsx:55 | Gives `s` without its leading and trailing ECMAScript white space. The result is empty exactly when `s` is blank. |
| Common.Round | src/lib/order-math.tsx:26 | `Math.round` lands within half a unit of its argument, with ties going up. |
| Common.DecimalRoundTrip | src/app/api/stripe/route.ts:85-88 | `Number(String(n)) == n` for every integer. |
| Success.PiId | src/app/success/page.tsx:30-34 | `payment_intent` when it is a non-empty string. Otherwise the part of the client secret before "_secret_" when that is a string, and none otherwise. |
| Success.SecretGivesId | src/app/success/page.tsx:32-34 | A secret `<id>_secret_<rest>` yields its id for every id the marker cannot occur in or straddle. |
| Success.MetaNumber | src/app/success/page.tsx:58-60 | A missing metadata value is 0. |
| Success.ShipCellOf | src/app/success/page.tsx:101 | Shipping shows "Free" exactly when it is 0. |
| Success.RowOf | src/app/success/page.tsx:80-84 | As written: the name or "Item", qty max(1, qty ?? 1), price when present. |
| Success.RowOfCorrected | src/app/success/page.tsx:80-84 | Corrected: the quantity is read as `qty ?? quantity`, at least 1. |
| Success.SuccessPage | src/app/success/page.tsx:25-122 | As written. Both outcomes carry the script that removes `CLEARED_KEY` (lines 46 and 119). Without a reference it shows the missing-reference page. Otherwise: the currency upper-cased (default "usd"); the total is the amount or 0; the metadata amounts default to 0 and shipping 0 shows "Free"; one row per parsed cart entry, shown as `RowOf` shows it (`qty ?? 1`); absent or unparseable cart metadata gives no rows. |
| Success.SuccessPageCorrected | src/app/success/page.tsx:25-122 | Corrected: the same page, including the cart key's removal on both outcomes, with each row shown as `RowOfCorrected` shows it (the quantity read as `qty ?? quantity`). |
| Success.ClearsTheCartKey | src/app/success/page.tsx:13-17 | The script removes exactly the cart store's key. |
| Success.SummaryMatchesCharge | src/app/success/page.tsx:54-81 | For an intent the payment route created, the page as written shows the charged amount and reads back the charged subtotal. It shows "Free" exactly when no shipping was charged, and one row per snapshot line, every one "Item", quantity 1, price "--". The corrected page has one row per snapshot line carrying that line's charged quantity. |
| Success.RowOfSnapshotAsWritten | src/app/success/page.tsx:81 | As written, every snapshot entry shows "Item", "Qty: 1" and "--". |
| Success.ThreeBottlesShowOne | src/app/success/page.tsx:81 | As written, a line charged with quantity 3 shows quantity 1. |
| Success.RowOfSnapshotCorrected | src/app/success/page.tsx:81 | Corrected, every snapshot entry shows its charged quantity. |
| Redirect.Get | src/app/checkout/confirmation/stripe-redirect/route.ts:8-11 | Some exactly when the name occurs, and then the first value for it. |
| Redirect.PiParam | src/app/checkout/confirmation/stripe-redirect/route.ts:7-10 | `payment_intent`, else `pi`, else "". |
| Redirect.StatusParam | src/app/checkout/confirmation/stripe-redirect/route.ts:11 | Definition, no contract: `get("redirect_status") \|\| ""`. |
| Redirect.RedirectResponse.Set | src/app/checkout/confirmation/stripe-redirect/route.ts:19 | Sets exactly that cookie. |
| Redirect.HandleGet | src/app/checkout/confirmation/stripe-redirect/route.ts:5-39 | Always redirects to /checkout/confirmation. `last_pi` is set exactly when pi is non-empty and `last_redirect_status` exactly when the status is non-empty. Both are httpOnly, secure, lax, "/", 1800 s, and no other cookie is set. |
| Redirect.PiFallback | src/app/checkout/confirmation/stripe-redirect/route.ts:7-10 | Two query shapes. With `pi` listed before `payment_intent`, a non-empty `payment_intent` still wins and an empty one falls back to `pi`. With `payment_intent` repeated, only its first value is read, so an empty first value gives "" whatever follows. The rule for every query is `PiParam`'s contract. |
| Catalog.BarIndex | src/lib/productFetch.tsx:4 | Indexing the colour table gives an own entry, an inherited member, or undefined. |
| Catalog.BarClassAsWritten | src/lib/productFetch.tsx:40 | As written: a table colour gives its class, and an inherited member name passes through as a non-string. |
| Catalog.ConstructorColourIsNotAClass | src/lib/productFetch.tsx:40 | As written, the colour "Constructor" yields an inherited member, not a class name. |
| Catalog.BarClass | src/lib/productFetch.tsx:40 | Corrected: a table colour in any case gives its class, every other value "bg-maroon". The result is always one of the three classes. |
| Catalog.BarClassAgreesOnTable | src/lib/productFetch.tsx:40 | Away from the inherited names, the written and corrected lookups agree. |
| Catalog.ToSauce | src/lib/productFetch.tsx:33-46 | As written. Keeps the id and name. desc is flavor_description, else description, else "". barClass is what `BAR[...] \|\| "bg-maroon"` yields, an inherited member included. price and currency are null without a default price (a 0 price is kept), priceId is null when empty, and image is the first image or null. |
| Catalog.ToSauceCorrected | src/lib/productFetch.tsx:33-46 | Corrected: the same item, except that barClass is one of the three classes, looked up among the table's own entries. |
| Catalog.SauceProducts | src/lib/productFetch.tsx:17-50 | As written: a failed listing gives []. Otherwise one item per product, in order, each the product's `ToSauce`. |
| Catalog.SauceProductsCorrected | src/lib/productFetch.tsx:17-50 | Corrected: the same listing, each item the product's `ToSauceCorrected`. |
| Catalog.ItemsKeepIds | src/lib/productFetch.tsx:33-46 | As written, each item keeps its product's id. Unless its lower-cased colour is "constructor" or "\_\_proto\_\_", its bar class is one of the three classes; for those two it is the inherited member. |
| Catalog.ItemsKeepIdsCorrected | src/lib/productFetch.tsx:33-46 | Corrected, each item keeps its product's id and always has one of the three bar classes. |

## Left out

- Network and SDK calls are function parameters or inputs: the Shippo fetch, Stripe's create/retrieve/list, `confirmPayment` and `getOrder`. The origin address taken from environment variables is not modelled.
- `sanitize` and `estimateTax` are imported from `src/lib/order-math.tsx`, but that file does not define them. The model takes them as uninterpreted functions and assumes that `estimateTax` returns whole cents. The extra `0` argument to `breakdown` is ignored, as JavaScript ignores it.
- JSON encoding and parsing are not modelled. The success page's cart metadata is given as its parsed shape. A parse that throws counts as "no items", and so does a parsed non-array whose `length` is not positive, such as a number, a boolean or a plain object. Some values make the page throw and fail to render instead, and the model shows no rows for them:
  - the parsed value `null` (cart metadata "null"), since `items.length` throws (src/app/success/page.tsx:75);
  - a non-array with a positive `length`, such as a non-empty JSON string, which passes line 75 and then has no `items.map` (line 77);
  - an array with a `null` entry, since `it.productId` throws (lines 78 and 80).
- The catch-all `try/catch` blocks of the two routes and of the purge are not modelled. They only catch exceptions thrown by foreign calls or by the browser.
- Persistence of the cart in local storage (the two effects of the cart provider) is not modelled.
- React scheduling is reduced to explicit events. The effects' `cancelled` flags are `ratesPending`/`intentPending`, and a cancelled answer is never delivered. The purge's two timers are two more passes, run in order with no other storage change in between.
- `Intl.NumberFormat` money on the success page and the order helpers is not modelled: the success page's cells keep the cents. `toFixed(2)` is modelled as the exact decimal digits of cents/100. JavaScript prints the digits of the nearest double instead, and the two agree only while that double lies within half a cent of cents/100, which holds for amounts up to about 10^15 cents but not for all larger ones.
- JavaScript numbers: amounts that are whole cents by construction are integers. `JsNum` lumps NaN and the infinities together. That is all `Number.isFinite` distinguishes, but `Number(x) || 0` keeps an infinity and turns only NaN into 0 (src/app/checkout/confirmation/ConfirmationClient.tsx:124-125). The model gives an infinite unit amount or quantity, such as a stored 1e400, the fallback value instead. Metadata strings other than integer decimals read as NaN on the success page (the payment route only writes integer decimals). Shippo's `estimated_days` is taken as an integer.
- Case mapping is ASCII only. This is exact for /cart/i and for `includes("gallon")`, but not for `toUpperCase` on non-ASCII letters in ids, countries, currencies and rate providers, nor for the checkout page's `toLowerCase` of the cart currency (src/app/checkout/page.tsx:33, `Checkout.SafeCurrency`). For example, JavaScript upper-cases the long s in the provider "upſ" to "UPS", so that rate passes the any-UPS filter (src/app/api/shipping/route.ts:259-260), but in the model (`Shipping.IsAnyUps`) it does not.
- Storage: the model takes it that `key(i)` lists the remaining keys in the same order after a removal. Browsers do not promise this.
- Cookies: the writes of a pass are computed from the header that pass reads, and the browser's reaction to them is not modelled. The three headers of the three passes are inputs.
- The confirmation views' theme, layout and item lists are presentation and are not modelled. `RefreshLink` gives only the refresh link's target.
- Shipping.SortByAmount: proved sorted and a permutation of its input. That `Array.prototype.sort` keeps rates of equal amount in their original order is not stated.
- Checkout: the page's normalised cart and its currency are computed once, when the page state is built, and stay fixed for the page's life. The checkout page offers no cart edits, so the model does not recompute them.
- Shipping.BuildParcelsFromCounts: the counts are exact numbers, so the packing loops always end and `ParcelCount`'s ⌈g/4⌉ + ⌈b/12⌉ holds for every input. In the route they are doubles. Any finite quantity passes `Number.isFinite` (src/app/api/shipping/route.ts:108-110), and fractional quantities are summed in doubles (route.ts:113-117). For a count such as 1e20, `gLeft -= chunk` (route.ts:141, 157) leaves the count unchanged, so the loop never ends. Counts in the hundreds of millions already exhaust memory through `parcels.push`. The model does not capture either failure.
- PaymentIntent.Post: the body's fields are `Option`s, so an explicit `null` reads like an absent key. In the source the destructuring defaults (src/app/api/stripe/route.ts:44-48) apply only to a missing key. For example, `"currency": null` reaches Stripe as null, Stripe refuses it, and the catch answers 500, whereas the model charges in "usd". `"items": null` likewise reaches `sanitize` as null. (`"shipCents": null` is harmless, since `Number(null)` is 0, the default.) The checkout page always sends all three fields.
- Shipping.Post: the rate amount is `Number(amount)` given as a real number, and its rounding is proved only to within half a cent.
- OrderMath.TaxAt: only the decimal tie is excluded; the binary rounding of `subtotal * 0.08` as a double is not modelled (the rate is the exact 8/100).
- Confirmation.PagePi: `pi` and `payment_intent` are `Option<string>`. A repeated query parameter reaches the confirmation page (src/app/checkout/confirmation/page.tsx:37) as an array of strings. That array is truthy: it is passed to `getOrder` (line 70) and shows in the refresh link joined with commas, as "a,b" (line 57). The model cannot express it. The success page's `Param` does model the repeated case.
- Within the model, the confirmation page and the client component both call the effect after an early return for a failed redirect. React's hook-order rule is not modelled.
- The checkout page's shipping replies carry an `error` with status 200 for refused destinations. The page ignores that error and shows "No rates available". The model reproduces this, and it is not listed as a finding.

## Findings

| source | as written | input that shows it | evidently intended | confidence | as-written member | corrected member |
|---|---|---|---|---|---|---|
| src/app/checkout/page.tsx:51-81 | "Edit address" cancels an in-flight rates request. The cancelled run skips `setBusyRates(false)` and no other code resets it, so the confirm button stays disabled ("Checking rates…"). | Confirm a complete address with a non-empty cart, then press "Edit address" before the rates answer. | Editing the address ends "Checking rates" and the address can be confirmed again. | not executed; high | Checkout.StuckAfterEditDuringFetch | Checkout.CheckoutPage.EditingNeverBlocked |
| src/app/success/page.tsx:81 | The success page reads `qty` (and `name`, `price`) from the cart snapshot, but the payment route writes `{productId, quantity}`. Every line shows "Item", "Qty: 1" and "--". | A cart with one line of quantity 3. | The page shows the charged quantity of each line. | not executed; high | Success.ThreeBottlesShowOne | Success.RowOfSnapshotCorrected |
| src/lib/productFetch.tsx:40 | `BAR[key] \|\| "bg-maroon"` indexes a plain object, so a colour named after an inherited member yields that member: a function or the prototype object, not a class name. | A product whose `bar_color` metadata is "Constructor". | Unknown colours fall back to "bg-maroon". | not executed; low (needs that metadata value) | Catalog.ConstructorColourIsNotAClass | Catalog.BarClass |
