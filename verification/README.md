# Pink Store checkout, modelled in Dafny

A model of the pure logic underneath the Pink Store / WeFriday storefront:

- the React client in `src/App.jsx`:
  - the in-memory cart;
  - the free-shipping rule and the drawer's progress line;
  - the checkout totals;
  - the catalogue's price-string normalisation;
  - the banner carousel;
  - the request `handlePaymentProcess` sends, and how it reads the reply;
  - the payment-status machine `idle → processing → pix | success | error`;
- the product page's postal-code (CEP) lookup in `ProductPage.jsx`;
- the Express backend in `backend/server.js`:
  - `POST /api/checkout`;
  - the GhostsPay webhook that merges into `paymentStore`;
  - `GET /api/payment-status/:id`;
- the serverless handlers `api/checkout.js` and `api/ghostspay/webhook.js`.

Everything is a pure function over immutable values. The gateway reply, the ViaCEP reply and the client's fetch result are parameters.

## Representation

- **Money.** Money is integer centavos: R$ 87,00 is `8700`. The four copies of the pricing rule are one definition, `Pricing.ComputeTotals`. Its constants are the source's:
  - the free-shipping threshold, 19990;
  - the base shipping, 1490;
  - the order bump, 990.

  Shipping is free only when the subtotal is strictly above the threshold.
- **JavaScript values.** `Js.Json` covers undefined, null, booleans, integer numbers, strings, arrays and objects. The module models:
  - truthiness;
  - `||` (`Or`) and `??` (`Coalesce`);
  - `v?.k` (`OptMember`);
  - `v.k`, which throws on null (`Member`).

  The handlers' fallback chains are written with these, so the difference between `||` and `??` is explicit.
- **Handlers.** A handler returns its HTTP reply together with the payload it sent to the gateway, if any. "No gateway call happened" is therefore `sent == None`.
- **Cart lines.** A `CartItem` qty of 0 stands for a missing qty, since both are falsy for `qty || 1`. A `productId` of `""` stands for a missing product id.

| file | module | models |
|---|---|---|
| wrappers.dfy | Wrappers | `Option` |
| js.dfy | Js, Http | JavaScript value semantics, replies |
| seqs.dfy | Seqs | subsequence, occurrence count |
| digits.dfy | Digits | decimal digits, writing and reading numbers |
| cart.dfy | Cart | `addToCart`, `removeFromCart`, `updateQty`, `cartCount`, `cartSubTotal` |
| pricing.dfy | Pricing | subtotal, shipping, bump, amount, drawer progress |
| price_text.dfy | PriceText | `Number(String(p.price \|\| "0").replace(/\./g, "").replace(",", "."))` |
| banner.dfy | Banner | `nextBanner`, `prevBanner` |
| gateway.dfy | Gateway | cart guard, gateway items, customer defaults, error and success shaping |
| express_checkout.dfy | ExpressCheckout | `POST /api/checkout` of the Express server |
| serverless_checkout.dfy | ServerlessCheckout | `api/checkout.js` |
| payment_store.dfy | PaymentStore | both webhooks and the status lookup |
| cep.dfy | Cep | `handleCepSearch` and the CEP input |
| client_checkout.dfy | ClientCheckout | `handlePaymentProcess`, the payment-status machine, the checkout screens |

## Model

| member | source | states |
|---|---|---|
| Cart.AddToCart | src/App.jsx:149-172 | A product already in the cart has that line's qty raised by `qty`. Length and every other line are unchanged. A new product appends exactly one line `{id, productId: id, name, price, qty}` after the unchanged old lines. |
| Cart.IncrementQty | src/App.jsx:154-158 | The map keeps length and ids. Lines with the id gain `qty`; all others are identical. |
| Cart.SetQty | src/App.jsx:180-184 | The map keeps length and ids. Lines with the id get the new qty; all others are identical. |
| Cart.IncrementCount | src/App.jsx:154-158 | Raising the lines with an id by `qty` raises `cartCount` by `qty` per such line. |
| Cart.SetQtyCount | src/App.jsx:180-184 | Setting the lines with an id to `qty` changes `cartCount` by the new quantities minus the old ones. |
| Cart.RemoveFromCart | src/App.jsx:174-176 | No line with the id remains, and the rest keep their relative order (a subsequence). The length drops by the number of lines with that id. The badge count drops by their quantities. |
| Cart.UpdateQty | src/App.jsx:178-185 | A `newQty` below 1 leaves the cart unchanged. Otherwise exactly the lines with the id get `qty = newQty`, and every other line is identical. |
| Cart.AddToCartCount | src/App.jsx:130-133 | On a cart with unique ids, adding `qty` units raises `cartCount` by exactly `qty`, whether the product merged or appended. |
| Cart.RemoveFromCartCount | src/App.jsx:174-176 | Removing a present product lowers `cartCount` by that line's qty and the length by one. |
| Cart.UpdateQtyCount | src/App.jsx:178-185 | Setting a present line to `newQty >= 1` changes `cartCount` by `newQty - qty`. |
| Cart.DecrementCount | src/App.jsx:1401 | The minus button takes exactly one unit off `cartCount` and keeps the cart well-formed. The line disappears exactly when its qty was 1. |
| Cart.AddPreservesWellFormed | src/App.jsx:149-172 | Adding at least one unit keeps ids unique and every qty at least 1. |
| Cart.RemovePreservesWellFormed | src/App.jsx:174-176 | Filtering keeps ids unique and every qty at least 1. |
| Cart.UpdatePreservesWellFormed | src/App.jsx:178-185 | Thanks to the `newQty < 1` guard, updates keep every qty at least 1 and the ids unique. |
| Digits.DigitsRoundTrip | src/App.jsx:101 | Reading back the decimal writing of any amount gives that amount, the step `Number` relies on to read a price. |
| Pricing.ShippingCost | src/App.jsx:144 | Shipping is 0 exactly when the subtotal is strictly above 19990. It is 1490 exactly when the subtotal is at most 19990. |
| Pricing.ComputeTotals | backend/server.js:123-140 | Subtotal is Σ price × (qty \|\| 1). Shipping is 0 iff subtotal > 19990, else 1490. The bump is 990 iff `bumpAdded`. The amount is their sum, and never below the subtotal. |
| Pricing.SurchargeValues | backend/server.js:132-139 | The amount exceeds the subtotal by one of exactly 0, 990, 1490 or 2480. |
| Pricing.BumpIndependence | src/App.jsx:952-955 | The bump adds exactly 990 to the amount for any cart and never changes the shipping. |
| Pricing.ThresholdIsExclusive | src/App.jsx:952 | A subtotal of exactly 199,90 pays 14,90 shipping (total 214,80). One centavo more ships free (total 199,91), so the amount is not monotone in the subtotal. |
| Pricing.SingleItemExample | api/checkout.js:41-56 | One product at 87,00 gives subtotal 87,00, shipping 14,90 and amount 101,90. |
| Pricing.SubtotalAppend | backend/server.js:123-126 | The subtotal of concatenated carts is the sum of their subtotals. |
| Pricing.AmountPositive | src/App.jsx:947-955 | With non-negative prices and quantities, the subtotal is non-negative and the amount is positive. |
| Pricing.DisplayAgreesWithCheckout | src/App.jsx:126-129 | On carts whose quantities are non-zero, the drawer's `cartSubTotal` (stored qty) equals the checkout subtotal (`qty \|\| 1`). |
| Pricing.DisplayDiffersOnMissingQty | src/App.jsx:126-129 | On a qty of 0 the drawer and the checkout differ. The drawer adds nothing for the line; the checkout counts one unit (`0 \|\| 1`). |
| Pricing.FaltaFreteGratis | src/App.jsx:139 | The remainder is never negative. It is 0 exactly from 19990 up. When positive, subtotal + remainder reaches the threshold. |
| Pricing.FreteProgress | src/App.jsx:140-143 | The progress is at most 100 and non-negative for non-negative subtotals. It is exactly 100 from the threshold up. |
| Pricing.FinalTotal | src/App.jsx:145 | The displayed total is never below the subtotal. It equals the subtotal exactly when shipping is free. |
| Pricing.FreeShippingBannerAtThreshold | src/App.jsx:1444-1453 | At exactly 199,90 the drawer says free shipping was earned while 14,90 is still charged. |
| Pricing.RemainingForFreeShipping | src/App.jsx:139 | The corrected remainder is positive exactly when shipping is charged. Adding it makes shipping free, and one centavo less does not. |
| Pricing.FreeShippingBannerMatchesCharge | src/App.jsx:1444-1453 | The corrected banner shows iff shipping costs 0, iff the displayed total is the subtotal. |
| PriceText.NormalizePrice | src/App.jsx:101 | A missing or empty price is 0, and a price that reads is never negative. |
| PriceText.NormalizeOldPrice | src/App.jsx:102-104 | A missing or empty old price is null. Any other old price goes through the same conversion as the price. |
| PriceText.RemoveAllRemoves | src/App.jsx:101 | `replace(/\./g, "")` leaves no point. The length drops by exactly the number of points. |
| PriceText.RemoveAllIdempotent | src/App.jsx:101 | Removing the points twice is removing them once. |
| PriceText.ReplaceFirstOnlyFirst | src/App.jsx:101 | `replace(",", ".")` changes the first comma into a point and leaves every other character in place. |
| PriceText.TrimStartSpec | src/App.jsx:101 | `Number`'s trim drops only leading white space and keeps a suffix that starts with a non-space. |
| PriceText.TrimEndSpec | src/App.jsx:101 | The trim drops only trailing white space and keeps a prefix that ends with a non-space. |
| PriceText.ParseDecimal | src/App.jsx:101 | Blank text reads as 0 and a run of digits reads as its value in reais. A value is never negative. |
| PriceText.LeadingSpaceIgnored | src/App.jsx:101 | A leading space, as in the catalogue's `' 87,00'`, never changes the price. |
| PriceText.NormalizeWritten | src/App.jsx:101 | Every price written as digits, a comma and two digits reads as its value in centavos. |
| PriceText.NormalizeFormatted | src/App.jsx:101 | Round trip: the Brazilian writing of any amount normalises back to that amount. |
| PriceText.NormalizeFormattedSpaced | src/App.jsx:101 | The same round trip with a leading space. |
| PriceText.PointsIgnored | src/App.jsx:101 | Thousands points never change the price. |
| PriceText.GroupedWritten | src/App.jsx:101 | A price with a thousands point reads as the digits on both sides of it, joined. |
| PriceText.PlainExample | src/App.jsx:101 | The catalogue's `'89,90'` is 8990 centavos. |
| PriceText.ThousandsSeparator | src/App.jsx:101 | `"1.234,56"` is 123456 centavos. |
| Banner.Next | src/App.jsx:370-372 | The index stays below 5. It moves one forwards, and from the last image to the first. |
| Banner.Prev | src/App.jsx:374-378 | The index stays below 5. It moves one backwards, and from the first image to the last. |
| Banner.NextPrevInverse | src/App.jsx:370-378 | On every reachable index the two arrows undo each other. |
| Banner.ForwardWraps | src/App.jsx:371 | k forward presses from i show image (i + k) mod 5. |
| Banner.FullTurn | src/App.jsx:371 | Five forward presses come back to the same image. |
| Gateway.AcceptedCart | backend/server.js:115-120 | A cart passes the guard iff it is an array with at least one line, and the lines passed on are the lines sent. |
| Gateway.GatewayItems | backend/server.js:161-166 | There is one gateway line per cart line, in order. Each has title = name, unitPrice = price in cents, quantity = `qty \|\| 1` (never 0) and externalRef = `productId \|\| id`. |
| Gateway.ItemsTotalIsSubtotal | backend/server.js:161-166 | The gateway lines add up to exactly the subtotal that was priced. |
| Gateway.CustomerWithDefaults | backend/server.js:157-160 | Name and email come from the customer when truthy, else from the defaults, so both are always truthy. |
| Gateway.ErrorText | backend/server.js:208-212 | The error is `message`, else `error`, else `raw`, else the fallback, and is always truthy. It is absent exactly when the reply is null, where the source throws. |
| Gateway.PlainTextErrorSurfaces | backend/server.js:191-196 | A non-JSON error reply surfaces its own text as the error. |
| Gateway.GatewayFailure | backend/server.js:205-216 | A non-ok reply keeps the gateway's status code, with `ok: false`, the error text, `gatewayStatus` and the gateway's body. |
| Gateway.PixAmount | backend/server.js:227 | `pix.amount` is the gateway's amount when truthy, else the locally computed amount. |
| ExpressCheckout.SuccessBody | backend/server.js:218-231 | The success body has `ok: true`, `payment` = the gateway body, `gatewayStatus` = the gateway's HTTP status and `status` = the gateway's status field. `pix.amount` follows `PixAmount`, `pix.qrcode` is `pix.qrcode \|\| null` and `pix.expirationDate` is `pix.expirationDate \|\| null`. |
| ExpressCheckout.Handle | backend/server.js:108-240 | A bad cart gives a 400 and no gateway call. Otherwise exactly one payload is sent, with the priced amount, the items, PIX, one installment, the customer defaults and the bump flag. A gateway that cannot be reached or a null reply gives a 500. A non-ok reply passes through with its status. An ok reply gives a 200 with the success body, including `gatewayStatus` and the expiration date. |
| ExpressCheckout.NoCredentialGuard | backend/server.js:150-156 | With every environment variable unset the route still calls the gateway, posting to the default webhook URL. |
| ExpressCheckout.BadGatewayPassesThrough | backend/server.js:205-216 | A gateway 502 comes back as a 502 carrying the gateway's body. |
| ServerlessCheckout.PixField | api/checkout.js:127-135 | A PIX field is `pix.<key>`, else `gatewayResponse.pix.<key>`, else null, and never a falsy non-null value. |
| ServerlessCheckout.SuccessBody | api/checkout.js:127-144 | The success body has `ok: true` and `payment` = the gateway body. The status is the gateway's status or `'pending'`, so always truthy. `pix.qrcode`, `pix.expirationDate` and `pix.amount` follow their fallback chains. |
| ServerlessCheckout.Handle | api/checkout.js:6-149 | The replies are 405 for a non-POST method, 400 for an unparseable body, 500 for a null body, 400 for a bad cart and 500 for missing credentials, checked in that order. A gateway call happens iff the method is POST, the cart is valid and both credentials are set. A gateway that cannot be reached or a null reply then gives a 500. A non-ok reply passes through with `gatewayStatus`. An ok reply gives a 200 shaped like the Express route, with a status defaulting to `'pending'`. |
| ServerlessCheckout.AgreesWithExpress | api/checkout.js:41-56 | Where the serverless handler calls the gateway, it sends the same amount, items and bump flag as the Express route. |
| ServerlessCheckout.QrcodePrecedence | api/checkout.js:128-131 | The top-level `pix.qrcode` wins over the nested one, the nested one is used alone, and with neither the qrcode is null. |
| PaymentStore.MergeEntry | backend/server.js:257-263 | The merged status is the event's, else the stored one, else `'unknown'` (`\|\|`). The amount is the event's, else the stored one, else 0 (`??`). The raw event is kept. |
| PaymentStore.ExpressWebhook | backend/server.js:246-270 | An event without a truthy id gives a 400 and leaves the store unchanged. Otherwise the reply is 200, the id is added, its entry is the merge, and every other key is untouched. |
| PaymentStore.ExpressWebhookPreservesWellFormed | backend/server.js:259-263 | Every stored entry keeps a truthy status and a non-null amount. |
| PaymentStore.ExpressPartialUpdateKeeps | backend/server.js:260-261 | An event without a status or amount keeps the stored value, so a partial update never clobbers. |
| PaymentStore.RedeliveryScenario | backend/server.js:257-263 | After pending, paid, then refunded-without-amount, the store holds refunded and the earlier amount. |
| PaymentStore.PaymentStatus | backend/server.js:275-297 | The lookup gives 400 for an empty id and 404 for an unknown id. A stored id returns exactly its status, amount and gateway body. |
| PaymentStore.WebhookThenLookup | backend/server.js:282-296 | A webhook for a string id is visible to the lookup straight away, with the merged status and amount. |
| PaymentStore.UnknownIdNotFound | backend/server.js:282-288 | For every store without the id, the lookup answers 404, and it still does after a delivery for any other id. |
| PaymentStore.NumericIdUnreachable | backend/server.js:276-282 | For every store, a delivery with a numeric id is stored under that number. Yet every lookup answers exactly as before it, because the route parameter is a string. |
| PaymentStore.TransactionId | api/ghostspay/webhook.js:42 | The id is `id`, else `transactionId`, else `referenceId`. It is truthy iff one of the three is. |
| PaymentStore.FreshEntry | api/ghostspay/webhook.js:49-57 | The status is the event's or `'unknown'`. The amount is the event's unless nullish, so a present 0 is kept. |
| PaymentStore.ServerlessWebhook | api/ghostspay/webhook.js:14-71 | The replies are 405 for a non-POST method, 400 for an unparseable body, 500 for a null event and 400 for an event without any id; in each the store is unchanged. Otherwise the reply is 200 and the entry is replaced wholesale; other keys are untouched. |
| PaymentStore.ServerlessLastWriteWins | api/ghostspay/webhook.js:53-57 | The stored entry does not depend on what was stored before. |
| PaymentStore.ServerlessPreservesWellFormed | api/ghostspay/webhook.js:49-57 | Every stored entry keeps a truthy status and a non-null amount. |
| PaymentStore.MergeVersusOverwrite | api/ghostspay/webhook.js:49-57 | On a delivery without status or amount, the Express store keeps `paid`/10190 while the serverless store writes `unknown`/0. A present amount 0 survives `??`; an empty status does not survive `\|\|`. |
| Cep.CleanCep | ProductPage.jsx:22 | The cleaned CEP holds only digits, is a subsequence of the input, and keeps every digit as often as it occurs. |
| Cep.CleanCepKeepsDigits | ProductPage.jsx:22 | A string of digits is already clean. |
| Cep.CleanCepIdempotent | ProductPage.jsx:22 | Cleaning twice is cleaning once. |
| Cep.MaskedCepExample | ProductPage.jsx:22 | `"01310-100"` cleans to `"01310100"`. |
| Cep.SearchCep | ProductPage.jsx:21-63 | A search whose reply arrives before any edit. A cleaned length other than 8 sets the error, clears the address and queries nothing. Otherwise a failed or null reply gives the lookup error, a reply flagged `erro` gives "not found", and a good reply stores the 8-digit cleaned CEP and the address with no error. |
| Cep.EditCep | ProductPage.jsx:115-119 | Any edit sets the text, clears the error and clears the address. |
| Cep.StartSearch | ProductPage.jsx:22-32 | Pressing "Calcular" with a cleaned length other than 8 sets the error, clears the address and queries nothing. Otherwise it clears the error, starts the spinner and queries the 8-digit cleaned CEP, leaving the address as it is. |
| Cep.FinishSearch | ProductPage.jsx:36-62 | When ViaCEP answers, a failed or null reply sets the lookup error, and an `erro` reply sets "not found"; both clear the address. A good reply stores the address under the CEP that was queried, whatever the box now holds. The spinner stops in every case. |
| Cep.StaleAddressShown | ProductPage.jsx:49-55 | As written, a search for 01310100 answered after the text was edited to 20040002 shows the old CEP's address under the new text. |
| Cep.FinishSearchCorrected | ProductPage.jsx:36-62 | A reply for a CEP no longer in the box is dropped, and only the spinner stops. Any other reply is handled as written. |
| Cep.ConsistentPreserved | ProductPage.jsx:24-59 | Starting a search, an edit (even while a lookup runs) and a late reply each keep two facts: an address is never shown with an error, and the error is empty while the spinner runs. |
| Cep.AddressMatchesInput | ProductPage.jsx:49-55 | With the corrected reply handling, the stored address belongs to the cleaned text in the box after any step: starting a search, an edit, or a reply landing. |
| ClientCheckout.BuildRequest | src/App.jsx:204-223 | The request carries the cart, name, email, method and bump. A shipping block is present iff a CEP was typed, with zipCode, street and empty neighborhood and state. |
| ClientCheckout.BeginPayment | src/App.jsx:1321-1337 | Finishing a non-empty cart from the form moves to processing and touches nothing else. |
| ClientCheckout.QrcodeOf | src/App.jsx:245-249 | The qrcode is `checkoutUrl`, else `gatewayResponse.pix.qrcode`, else `pix.qrcode`, else null, and never a falsy non-null value. |
| ClientCheckout.TransactionIdNeverFound | src/App.jsx:257-261 | Neither server's success body has `transactionId`, `gatewayResponse.id` or `id`, so the client never captures the id. |
| ClientCheckout.TransactionId | src/App.jsx:257-264 | The corrected chain is the written one, falling back to `payment.id`. |
| ClientCheckout.TransactionIdRecovered | src/App.jsx:257-264 | With the fallback, the gateway's id reaches the client from either server. |
| ClientCheckout.PixInfoOf | src/App.jsx:266-278 | The stored PIX info keeps the chosen qrcode. `expirationDate` follows its `\|\|` chain and `amount` its `??` chain. There is no `expiresAt` key. |
| ClientCheckout.Resolve | src/App.jsx:231-295 | A failed fetch, a non-ok status, a body that is not JSON or `ok` falsy all go to error with nothing else changed. A PIX reply without a qrcode goes to error. A PIX reply with one goes to pix with the info stored and the cart emptied. It stores the transaction id found by the chain as written, else keeps the old one. Another method goes to success with the cart emptied. |
| ClientCheckout.ResolveCorrected | src/App.jsx:257-264 | Same status, cart and PIX info as `Resolve`. In the pix state it stores the id found by the corrected chain, which falls back to `payment.id`. |
| ClientCheckout.CancelPix | src/App.jsx:1073-1079 | Cancelling the PIX goes back to idle with the PIX info and transaction id cleared. |
| ClientCheckout.FinishSuccess | src/App.jsx:1107-1110 | "Continuar Comprando" goes from success back to idle. |
| ClientCheckout.TransitionsKeepConsistent | src/App.jsx:251-254 | Every transition keeps a showable qrcode whenever the status is pix. |
| ClientCheckout.WarnExactlyInPix | src/App.jsx:81-92 | The leave-page warning is active exactly in the pix state. |
| ClientCheckout.PixScreenSurvivesEmptyCart | src/App.jsx:962-981 | After a PIX reply, the emptied cart still shows the PIX screen. After cancelling, it shows the empty-cart screen. |
| ClientCheckout.ExpressPixRoundTrip | src/App.jsx:245-284 | Any ok gateway status with a qrcode, through the Express route and back, lands in pix. The result carries the gateway's qrcode, the amount `PixAmount` gives, and an empty cart. As written the transaction id stays unset; the corrected handling stores the gateway's id. |
| ClientCheckout.ExpressNoQrcodeIsError | src/App.jsx:251-254 | Any ok gateway status without a qrcode ends in error with the cart kept. |
| ClientCheckout.ServerRefusalIsError | src/App.jsx:235-238 | A non-ok gateway status passed through by the server ends in error. So does a gateway that cannot be reached, which the server answers with a 500. |
| ClientCheckout.SummaryOmitsBump | src/App.jsx:1314-1317 | With the bump taken, the summary's "Total" is 9,90 less than what is charged. |
| ClientCheckout.SummaryMatchesCharge | src/App.jsx:947-955 | The corrected summary total equals what the Express route and the serverless handler charge, and the checkout page's own `amountInCents`. |
| ClientCheckout.ExpiryNeverShown | src/App.jsx:987-989 | The PIX screen reads `expiresAt`, which is never stored, so no expiry is shown. |
| ClientCheckout.ExpiryShown | src/App.jsx:987-989 | Reading the stored `expirationDate` shows the gateway's expiry. |

## Left out

- Floating point is not modelled. Prices are integer centavos, so `Math.round(total * 100)` and `Math.round(Number(item.price) * 100)` are exact. This assumes at most two decimals.
- Network I/O is not modelled: the fetch to GhostsPay, the fetch to ViaCEP, and the client's fetch to `/api/checkout`. Their results are parameters, and each can be a failure: `GatewayUnreachable`, `LookupFailed` and `FetchFailed`. Express and Vercel body streaming and chunk concatenation are likewise outside the model: a serverless body arrives already read, as a JSON value or as text that does not parse.
- The Basic-auth token is built with `Buffer.from(...).toString('base64')`, a library call. The model leaves it out.
- `getAuthHeaders` and `buildGhostsPayPayload` in backend/server.js are never called, so the model leaves them out.
- The `metadata` wrapper of the gateway payload is flattened: `bumpAdded` and `source` are fields of `Payload`.
- `Intl.NumberFormat` / `toLocaleString` formatting is not modelled, and neither is the `Date` formatting of the PIX expiry.
- The fake stock countdown and the random viewer count depend on the clock and on randomness, so they are left out.
- The PIX screen's amount display `Number(pixInfo.amount) / 100` is left out: it is a division to reais for display only.
- React rendering, routing, dialogs and the pages' markup are left out, apart from which checkout screen is chosen (`ClientCheckout.CheckoutView`).
- The polling of `/api/payment-status/:id` by the client is left out. The lookup itself is modelled.
- JSON numbers are integers; NaN and fractional numbers are not representable in `Js.Json`.
- A JavaScript `Map` compares keys with SameValueZero: by value on strings and numbers, by identity on objects. The store compares every key by value. The two agree on the strings and numbers a webhook id normally is; an object id is not modelled as the source treats it.
- The catch branch of the Express webhook is left out. Once `event` is truthy nothing in the route can throw.
- PriceText.NormalizePrice reads `Number` only on the decimal literals a catalogue price can hold:
  - digits with an optional point and at most two fraction digits;
  - blank text, which reads as 0.

  Signs, exponents, hexadecimal, `Infinity` and more than two decimals give None instead of a value or NaN. Only space, tab, newline and carriage return are trimmed, not every Unicode space.
- Gateway.AcceptedCart: a cart line is a typed record, so the server-side paths for malformed lines are not modelled. In the source, a `null` line throws inside the pricing `reduce` and gives a 500, and a line without a price makes the amount NaN. The client always sends well-formed lines.
- Pricing.DisplayDiffersOnMissingQty: a qty missing altogether makes the drawer's `cartSubTotal` and `cartCount` NaN in the source, since `undefined` is used in arithmetic. The model's qty 0 stands for a missing qty only where `qty || 1` reads it, and the lemma states the present-0 case.
- Both handlers ignore the shipping block the client sends. `ClientCheckout.ToServerBody` drops it, following the code.

## Findings

| source | as written | input that shows it | evidently intended | confidence | as-written member | corrected member |
|---|---|---|---|---|---|---|
| src/App.jsx:1444-1453 | The drawer announces free shipping when `faltaFreteGratis > 0` is false, i.e. from a subtotal of exactly 199,90. | Cart subtotal 199,90: the drawer says free shipping was earned, yet 14,90 is charged. No cart of the current catalogue (87,00, 89,90, 34,90) sums to exactly 199,90, so the defect is latent until prices change. | Announce free shipping exactly when shipping costs 0 (subtotal above 199,90). | not executed | Pricing.FreeShippingBannerAtThreshold | Pricing.FreeShippingBannerMatchesCharge |
| src/App.jsx:1314-1317 | The checkout summary's "Total" shows `finalTotal`, subtotal + shipping, even when the bump line is shown above it. | Any cart with the bump taken: "Total" is 9,90 below the amount sent to the gateway. | The total includes the bump, as `amountInCents` at src/App.jsx:954-955 does. | not executed | ClientCheckout.SummaryOmitsBump | ClientCheckout.SummaryMatchesCharge |
| src/App.jsx:257-261 | The transaction id is read from `data.transactionId`, `data.gatewayResponse?.id` or `data.id`. | Any success reply of either server: none of the three keys exists, so `transactionId` is never set. | Read the gateway's id, which both servers return under `payment`. | not executed | ClientCheckout.TransactionIdNeverFound | ClientCheckout.TransactionIdRecovered |
| ProductPage.jsx:49-55 | The ViaCEP reply stores `{cep: cleanCep, …}`, where `cleanCep` is the CEP read when the button was pressed. The input stays editable during the lookup; only the button is disabled. | Search 01310100, then type 20040002 before the reply lands: the old street is shown under the new CEP. | Drop, or re-check, a reply whose CEP is no longer the one in the box. | not executed | Cep.StaleAddressShown | Cep.AddressMatchesInput |
| src/App.jsx:987-989 | The PIX screen reads `pixInfo.expiresAt`. | Any PIX reply with `pix.expirationDate`: the stored info only has `expirationDate`, so no expiry is shown. | Read `pixInfo.expirationDate`, the key stored at src/App.jsx:268. | not executed | ClientCheckout.ExpiryNeverShown | ClientCheckout.ExpiryShown |

## Where the documentation and the code differ

The model follows the code in each case:

- The serverless webhook replaces the stored entry wholesale instead of merging into it.
- Neither checkout handler forwards the client's shipping block to the gateway.
- The Express route has no credential guard: it calls the gateway even with the secret key and company id unset.
