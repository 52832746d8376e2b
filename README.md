# Storefront model

This project models the core of a small clothing storefront, a Next.js application with a tRPC API over a relational database, and proves properties of that model in Dafny. The model covers:

- **Client stores.** The shopping cart persists to the browser's local storage. The filter store drives the catalogue listing. The checkout wizard store follows three steps: shipping, payment, review.
- **Checkout forms.** The shipping and payment form schemas, with their defaults and prefill. The payment form's submit handler checks the card inputs.
- **Checkout page and order summary.** Which screen the page shows, what the two step submits do, and the place-order procedure. That procedure opens a payment intent, confirms the card and saves the order.
- **API routers.**
  - products: listing, filtering, sorting, facets, detail;
  - reviews: create, update and delete, with rating re-aggregation on create, plus listings;
  - purchases: create, status update, listing;
  - payment: intent and order record;
  - registration.
- **Sign-in.** Credentials authorization and the session/JWT callbacks.

Modelling choices:

- **Database.** The database is a `Tables.Database` object with one sequence per table. A single counter, `nextId`, hands out identifiers and serves as the creation clock, so a later row is always newer.
- **Money.** Money is integer cents throughout: shipping is 599, 1599 or 2999 cents. The one place a dollar amount crosses a boundary is the intent request, where `Math.round(price * 100)` is modelled as the floor of `x + 0.5` over reals.
- **External code.** Code from other libraries becomes function-typed parameters:
  - the `zod` email check (`isEmail`);
  - bcrypt hashing and comparison (`hash`, `compare`);
  - `JSON.stringify`/`JSON.parse` of the cart (`encode`, `decode`).
- **Payment gateway.** The gateway's answers are a `CheckoutPage.Gateway` value.
- **Ordering.** The database's `orderBy` is specified by a reference insertion sort (`Sorting.Sort`) under a total preorder. The model promises what the database promises: each listing is sorted by its key and holds exactly the selected rows. It does not promise a stable tie-break.

Where the written description of the system and the code differ, the model follows the code:

- Updating or deleting a review does not recompute the product's rating and review count; only creating a review does.
- The place-order procedure does not itself check that the shipping and payment infos are present. It forwards them with non-null assertions. Only the page's render condition (`src/app/checkout/page.tsx:184`) keeps the review step, and with it the place-order button, from appearing without both infos.
- The order-summary sidebar sums unit prices without quantities, while the page charges price times quantity (see Findings).

## Model

| member | source | states |
|---|---|---|
| CartStore.InitialItems | src/store/cart-store.ts:32-42 | the stored cart is used only in a browser with a non-empty stored string that parses; otherwise the cart starts empty |
| CartStore.Rehydrate | src/store/cart-store.ts:32-42 | a cart written by the store is read back unchanged by a new store, given that decoding inverts encoding |
| CartStore.FindLine | src/store/cart-store.ts:49-52 | finds the first line with the (id, size, color) identity, or reports that none has it |
| CartStore.Cart.AddItem | src/store/cart-store.ts:47-80 | the new lines are `AddLine` of the old ones; storage holds them in a browser; distinct line identities are preserved |
| CartStore.AddExistingLine | src/store/cart-store.ts:55-60 | adding an existing identity raises that line's quantity by one and leaves every other line as it was |
| CartStore.AddNewLine | src/store/cart-store.ts:61-75 | adding a new identity appends one line with quantity 1 and the product's name, prices and images |
| CartStore.AddKeepsLinesUnique | src/store/cart-store.ts:47-80 | adding keeps line identities distinct |
| CartStore.AddCountsOne | src/store/cart-store.ts:47-80 | on a cart with distinct lines, adding raises the item count by one and the total by the product price |
| CartStore.IncrementSums | src/store/cart-store.ts:55-60 | incrementing the unique matching line adds one to the count and its price to the total |
| CartStore.Cart.RemoveItem | src/store/cart-store.ts:82-91 | the new lines are the old ones without the identity; storage is written; uniqueness is preserved |
| CartStore.RemoveLinesSpec | src/store/cart-store.ts:84-86 | removal keeps exactly the lines without the identity, in order |
| CartStore.RemoveAbsentIsNoOp | src/store/cart-store.ts:84-86 | removing an identity that is not in the cart changes nothing |
| CartStore.SumsSplit | src/store/cart-store.ts:84-86 | total and count split exactly between the kept and the removed lines |
| CartStore.Cart.UpdateQuantity | src/store/cart-store.ts:93-108 | quantity 0 removes the line; any other quantity is set on the matching lines; uniqueness is preserved |
| CartStore.UpdateKeepsLinesUnique | src/store/cart-store.ts:93-108 | removing or setting a quantity keeps line identities distinct |
| CartStore.Cart.ClearCart | src/store/cart-store.ts:110-115 | the cart becomes empty, so its total and item count are 0, and the storage slot is removed in a browser |
| CartStore.Cart.GetTotal | src/store/cart-store.ts:117-120 | an empty cart totals 0 (its relation to the operations is proved in the lemmas on `Total`) |
| CartStore.Cart.GetItemsCount | src/store/cart-store.ts:122-125 | an empty cart counts 0 (likewise via the lemmas on `Count`) |
| CartStore.TotalAppend | src/store/cart-store.ts:117-125 | total and count are additive over concatenation of carts |
| CartStore.AddTwiceThenZero | src/store/cart-store.ts:47-108 | adding a product twice gives one line of quantity 2 and twice the price; setting its quantity to 0 empties the cart |
| FilterStore.Filters.constructor | src/store/filter-store.ts:27-34 | every filter starts empty and the panel closed |
| FilterStore.Filters.SetSearchQuery | src/store/filter-store.ts:36 | sets only the search query |
| FilterStore.Filters.SetSelectedCategories | src/store/filter-store.ts:37-38 | sets only the selected categories |
| FilterStore.Filters.SetSelectedGenders | src/store/filter-store.ts:39 | sets only the selected genders |
| FilterStore.Filters.SetSelectedSizes | src/store/filter-store.ts:40 | sets only the selected sizes |
| FilterStore.Filters.SetPriceRange | src/store/filter-store.ts:41 | sets only the price range |
| FilterStore.Filters.SetSortBy | src/store/filter-store.ts:42 | sets only the sort key |
| FilterStore.Filters.SetIsFilterOpen | src/store/filter-store.ts:43 | sets only the panel flag |
| FilterStore.Toggle | src/store/filter-store.ts:45-67 | after a toggle, a value is listed iff it was listed before, except that the toggled value is listed iff it was not |
| FilterStore.ToggleAbsent | src/store/filter-store.ts:47-49 | toggling an absent value appends it |
| FilterStore.TogglePresent | src/store/filter-store.ts:47-48 | toggling a present value removes every copy of it, and the list gets shorter |
| FilterStore.DropShortens | src/store/filter-store.ts:48 | filtering out a present value shortens the list |
| FilterStore.ToggleTwiceRestores | src/store/filter-store.ts:45-67 | toggling an absent value twice restores the list |
| FilterStore.ToggleKeepsDistinct | src/store/filter-store.ts:45-67 | toggling keeps a duplicate-free list duplicate-free |
| FilterStore.Filters.ToggleCategory | src/store/filter-store.ts:45-51 | the categories become the toggle of the old ones |
| FilterStore.Filters.ToggleGender | src/store/filter-store.ts:53-59 | the genders become the toggle of the old ones |
| FilterStore.Filters.ToggleSize | src/store/filter-store.ts:61-67 | the sizes become the toggle of the old ones |
| FilterStore.Filters.ClearFilters | src/store/filter-store.ts:69-77 | clears every filter and the sort key, and leaves the panel flag alone |
| CheckoutStore.NextStepOf | src/store/checkout.store.ts:25-26 | the next step is one more, capped at 3 |
| CheckoutStore.PrevStepOf | src/store/checkout.store.ts:27-28 | the previous step is one less, floored at 1 |
| CheckoutStore.StepsStayInRange | src/store/checkout.store.ts:25-28 | from a step in 1..3, next and previous stay in 1..3 |
| CheckoutStore.StepsUndo | src/store/checkout.store.ts:25-28 | below the cap, previous undoes next; above the floor, next undoes previous |
| CheckoutStore.Checkout.constructor | src/store/checkout.store.ts:19-24 | step 1, not processing, no infos, standard shipping |
| CheckoutStore.Checkout.NextStep | src/store/checkout.store.ts:25-26 | advances the step and changes nothing else |
| CheckoutStore.Checkout.PrevStep | src/store/checkout.store.ts:27-28 | steps back and changes nothing else |
| CheckoutStore.Checkout.SetStep | src/store/checkout.store.ts:29 | sets the step as given, without a range check |
| CheckoutStore.Checkout.SetProcessing | src/store/checkout.store.ts:30 | sets only the processing flag |
| CheckoutStore.Checkout.SetShippingInfo | src/store/checkout.store.ts:31 | stores only the shipping info |
| CheckoutStore.Checkout.SetPaymentInfo | src/store/checkout.store.ts:32 | stores only the payment info |
| CheckoutStore.Checkout.SetShippingMethod | src/store/checkout.store.ts:33 | stores only the shipping method |
| CheckoutStore.Checkout.GuardReview | src/app/checkout/components/checkout-review.tsx:22-25 | the review steps back exactly when an info is missing |
| ShippingForm.ShippingIssues | src/app/checkout/components/checkout-shipping-form.tsx:27-38 | no issue iff every required field is filled and the email is valid; each field is reported iff it is empty, the email iff it is invalid; the apartment is never reported |
| ShippingForm.FormDefaults | src/app/checkout/components/checkout-shipping-form.tsx:46-87 | the stored shipping info prefills the form; otherwise the defaults (country "US") do |
| ShippingForm.DefaultsAreIncomplete | src/app/checkout/components/checkout-shipping-form.tsx:46-57 | the blank form fails on every field except the country |
| ShippingForm.ChoicesMatchCharges | src/app/checkout/components/checkout-shipping-form.tsx:261-303 | each radio option's price label equals the charge for its value, and distinct options have distinct values |
| PaymentForm.PaymentIssues | src/app/checkout/components/checkout-payment-form.tsx:30-60 | no issue iff the schema accepts; a present card field is reported iff shorter than 16/5/3; the name iff empty; the billing address iff billing is separate and a billing field is unfilled |
| PaymentForm.SameAsShippingIgnoresBilling | src/app/checkout/components/checkout-payment-form.tsx:43-55 | with "same as shipping", the billing fields do not affect the outcome |
| PaymentForm.FormDefaults | src/app/checkout/components/checkout-payment-form.tsx:68-104 | the stored payment info prefills the form; otherwise the defaults do |
| PaymentForm.DefaultsNeedCardholder | src/app/checkout/components/checkout-payment-form.tsx:68-76 | the blank form fails only on the cardholder name |
| PaymentForm.Submit | src/app/checkout/components/checkout-payment-form.tsx:115-127 | schema errors come first; then the card number, expiry and CVC inputs are checked in that order with their messages; the values are submitted iff all pass |
| Pricing.ShippingCost | src/app/checkout/page.tsx:49-54 | express is 1599, overnight 2999, anything else 599 cents, each both ways |
| Pricing.MathRound | src/server/api/routers/payment.ts:18 | the result is the integer within half a unit of the argument |
| Pricing.RoundOfInteger | src/server/api/routers/payment.ts:18 | rounding an integer gives it back |
| Pricing.CentsRoundTrip | src/server/api/routers/payment.ts:18 | a dollar amount made from cents rounds back to those cents |
| OrderSummary.SummaryTotal | src/app/checkout/page.tsx:43-55 | the charged total is the cart total (price times quantity) plus the method's shipping charge |
| OrderSummary.SubtotalIgnoresQuantity | src/app/checkout/components/checkout-order-summary.tsx:13-21 | for one line of quantity 2, the sidebar total is below the charged total by one unit price |
| OrderSummary.SubtotalShortfall | src/app/checkout/components/checkout-order-summary.tsx:13 | the sidebar subtotal falls short of the cart total by exactly the extra units' prices |
| OrderSummary.SummaryAgreesIffSingles | src/app/checkout/components/checkout-order-summary.tsx:13-21 | for priced lines, the sidebar total equals the charged total iff every quantity is 1 |
| OrderSummary.ShortfallZeroIffSingles | src/app/checkout/components/checkout-order-summary.tsx:13 | the shortfall is never negative and is zero iff every quantity is 1 |
| CheckoutPage.Dispatch | src/app/checkout/page.tsx:93-186 | an empty cart shows the empty state; step 1 shows shipping, step 2 payment; the review shows iff step 3 with both infos |
| CheckoutPage.SubmitsReachReview | src/app/checkout/page.tsx:164-186 | from a fresh checkout, two submits reach the review screen |
| CheckoutPage.SubmitShipping | src/app/checkout/page.tsx:166-169 | stores the shipping values and advances the step |
| CheckoutPage.SubmitPayment | src/app/checkout/page.tsx:178-181 | stores the payment values and advances the step |
| CheckoutPage.OrderItemsOf | src/app/checkout/page.tsx:74 | each order line carries its cart line's id, name, price, size, color and quantity |
| CheckoutPage.PlaceOrder | src/app/checkout/page.tsx:40-90 | the procedure is bracketed by raising and lowering the processing flag. An intent is requested iff the gateway is ready, for exactly the charged total. The card is confirmed iff a client secret is returned. The save is requested iff the card is confirmed. An order is placed iff the save reaches the server and both infos pass the schemas; it is then the new record with the next id, and nothing is saved otherwise. The message shown is the one the page shows on each path: the gateway's own message on a failed intent or confirmation, the fixed unavailability message when the gateway is not loaded or no client secret comes back, and the caught error on a failed save |
| PaymentRouter.CreatePaymentIntent | src/server/api/routers/payment.ts:10-26 | the amount is the price in cents rounded to the nearest unit, in "usd", with automatic payment methods |
| PaymentRouter.IntentChargesCents | src/server/api/routers/payment.ts:18-24 | a price built from cents is charged exactly those cents |
| PaymentRouter.SnapshotRoundTrip | src/server/api/routers/payment.ts:66-77 | the stored shipping snapshot holds every shipping field |
| PaymentRouter.BillingFor | src/server/api/routers/payment.ts:78-98 | "same as shipping" copies the shipping name and address; otherwise the cardholder's name, an empty last name and apartment, and the five billing fields |
| PaymentRouter.BillingSources | src/server/api/routers/payment.ts:78-98 | with "same as shipping", the payment's billing fields do not matter; otherwise the shipping address does not matter |
| PaymentRouter.LineItems | src/server/api/routers/payment.ts:99-108 | one stored line per ordered item, carrying its product id |
| PaymentRouter.LineItemsRoundTrip | src/server/api/routers/payment.ts:99-108 | the stored lines hold every field of the ordered items |
| PaymentRouter.AccomplishPayment | src/server/api/routers/payment.ts:28-116 | succeeds iff both infos pass their schemas; then it appends the completed order record and returns its new id; otherwise purchases are unchanged |
| PaymentRouter.OrderRecordContents | src/server/api/routers/payment.ts:59-108 | the record is completed, for the user, with the input's total, method, intent id, snapshots and items |
| ProductRouter.GetAll | src/server/api/routers/product.ts:5-17 | every product, newest first |
| ProductRouter.GetFiltered | src/server/api/routers/product.ts:19-104 | the result is exactly the products matching the selection under the defaults, as a permutation of the filtered catalogue, sorted by the chosen key (newest first by default) |
| ProductRouter.WhereAgrees | src/server/api/routers/product.ts:31-78 | the `where` clause built from the input selects the same products as the reference selection |
| ProductRouter.FindMany | src/server/api/routers/product.ts:92-96 | a permutation of the rows matching the clause, sorted by the key |
| ProductRouter.OrderTotal | src/server/api/routers/product.ts:81-90 | every sort key orders any two products one way or the other |
| ProductRouter.NameLeqTotal | src/server/api/routers/product.ts:88-89 | name order is total |
| ProductRouter.BracketBetween | src/server/api/routers/product.ts:72-78 | a range "a-b" admits cents from 100a up to 100b, with no upper bound when b is 0 |
| ProductRouter.BracketAtLeast | src/server/api/routers/product.ts:72-78 | a range "a" admits cents from 100a with no upper bound |
| ProductRouter.ShopBrackets | src/server/api/routers/product.ts:72-78 | the edges of "50-100" and "200" fall where the filter panel expects |
| ProductRouter.GetCategories | src/server/api/routers/product.ts:106-111 | exactly the categories in use, each once |
| ProductRouter.GetGenders | src/server/api/routers/product.ts:113-118 | exactly the genders in use, each once |
| ProductRouter.GetSizes | src/server/api/routers/product.ts:120-126 | exactly the sizes any product offers, each once |
| ProductRouter.FindProduct | src/server/api/routers/product.ts:131-132 | finds a product with the id, or reports that none has it |
| ProductRouter.GetById | src/server/api/routers/product.ts:128-155 | null iff no product has the id; otherwise that product with exactly its reviews, newest first |
| SeedCatalogue.ShoesQuerySelects | prisma/seed.ts:12-103 | the query "Shoes, 100-200" selects exactly shoes priced 100 to 200 dollars |
| SeedCatalogue.SeededSelection | prisma/seed.ts:12-103 | among the six seeded products, only the running shoes match that query |
| SeedCatalogue.RunningShoesScenario | prisma/seed.ts:73-87 | filtering the seeded catalogue by that query yields exactly the running shoes at 12999 cents |
| ReviewRouter.Create | src/server/api/routers/review.ts:5-54 | fails iff the rating is outside 1..5, the product is missing, or the user has already reviewed it. On success it appends the review and sets the product's rating to the mean and its count to the number of its reviews. That count grew by one, and the unique key and rating bounds are kept |
| ReviewRouter.InsertReview | src/server/api/routers/review.ts:18-44 | inserting a fresh (user, product) review keeps keys unique; the product's count grows by one and its mean stays in 1..5 |
| ReviewRouter.MeanWithinRatings | src/server/api/routers/review.ts:36-44 | the mean of a non-empty set of ratings is their sum over their number and lies in 1..5 |
| ReviewRouter.RatingSumBounds | src/server/api/routers/review.ts:36-44 | n ratings in 1..5 sum to between n and 5n |
| ReviewRouter.RatingSumPermutation | src/server/api/routers/review.ts:36-44 | the rating sum does not depend on row order |
| ReviewRouter.RatingSumAppend | src/server/api/routers/review.ts:36-44 | the rating sum is additive |
| ReviewRouter.Reaggregate | src/server/api/routers/review.ts:45-51 | only the products with the id get the new rating and count |
| ReviewRouter.FindReview | src/server/api/routers/review.ts:68-74 | finds the user's review of the product, or reports that none exists |
| ReviewRouter.Update | src/server/api/routers/review.ts:56-88 | fails iff the rating is invalid or no review exists; otherwise it replaces that review's rating, and its comment when one is given; nothing else changes |
| ReviewRouter.Delete | src/server/api/routers/review.ts:90-104 | fails iff no review exists; otherwise it removes exactly that review and keeps every other |
| ReviewRouter.DeleteKeepsOthers | src/server/api/routers/review.ts:90-104 | removing the review at one key keeps exactly the rows with other keys |
| ReviewRouter.ProductReviews | src/server/api/routers/review.ts:106-123 | exactly the product's reviews, newest first |
| ReviewRouter.UserReviews | src/server/api/routers/review.ts:125-141 | exactly the user's reviews, newest first |
| ReviewRouter.NewestFirstTotal | src/server/api/routers/review.ts:121 | newest-first order is total |
| PurchaseRouter.Create | src/server/api/routers/purchase.ts:5-33 | fails iff the quantity is below 1 or the product is missing; otherwise it appends a pending purchase with the price as a decimal string, and returns it with its product |
| PurchaseRouter.WholeDollarPriceString | src/server/api/routers/purchase.ts:26 | a whole-dollar price is stored as its digits and reads back as that number |
| PurchaseRouter.ProductOf | src/server/api/routers/purchase.ts:29-31 | the joined product has the purchase's product id, or none exists |
| PurchaseRouter.ParseStatus | src/server/api/routers/purchase.ts:51 | accepts exactly the three status names |
| PurchaseRouter.StatusRoundTrip | src/server/api/routers/purchase.ts:51 | each status parses back from its name |
| PurchaseRouter.FindPurchase | src/server/api/routers/purchase.ts:57-60 | finds a purchase with the id, or reports that none has it |
| PurchaseRouter.UpdateStatus | src/server/api/routers/purchase.ts:47-61 | fails iff the status is not a status name or the purchase is missing; otherwise it changes exactly that purchase's status |
| PurchaseRouter.GetUserPurchases | src/server/api/routers/purchase.ts:35-45 | exactly the user's purchases, newest first, each joined with its product |
| PurchaseRouter.NewestFirstTotal | src/server/api/routers/purchase.ts:43 | newest-first order is total |
| AuthSchema.RegisterIssues | src/schema/auth.ts:3-7 | no issue iff the username has at least 3 characters, the email is valid and the password has at least 6; each field is reported iff it fails |
| AuthSchema.LoginIssues | src/schema/auth.ts:11-14 | no issue iff email and password are non-empty; each field is reported iff empty |
| AuthSchema.RegisteredCanLogIn | src/schema/auth.ts:3-14 | registration-valid credentials pass the login schema |
| UserRouter.Register | src/server/api/routers/user.ts:8-36 | fails iff the input is invalid or the email or username is taken, with the duplicate message in the latter case. On success it appends the account with the hashed password and the next id, and keeps accounts unique |
| UserRouter.FreshAccountKeepsUnique | src/server/api/routers/user.ts:18-33 | an account with an untaken email and username keeps accounts unique |
| AuthConfig.FindAccount | src/server/auth/config.ts:36-40 | the first account whose email or username is the identifier, or none |
| AuthConfig.Authorize | src/server/auth/config.ts:29-53 | signs in iff credentials are given, the account exists, has a password, and the password matches; the user name is the display name when set, else the username |
| AuthConfig.AuthorizedMatchesIdentifier | src/server/auth/config.ts:36-52 | a signed-in user is an account matching the identifier, with that account's email |
| AuthConfig.Jwt | src/server/auth/config.ts:69-78 | without a user the token is unchanged; with one it gains the user's username, email and id |
| AuthConfig.SessionOf | src/server/auth/config.ts:58-67 | the session keeps its expiry and its other user fields, and takes id, email and username from the token |
| AuthConfig.SignInReachesSession | src/server/auth/config.ts:58-78 | after sign-in, the session user carries the signed-in id, email and username |
| Text.JoinSplit | src/server/api/routers/product.ts:73 | joining the pieces of a split gives back the string |
| Text.SplitAtFirstSeparator | src/server/api/routers/product.ts:73 | a split cuts at the first separator |
| Text.NatToStringRoundTrip | src/server/api/routers/product.ts:73-74 | number to string to number is the identity on naturals |
| Text.WholePriceString | src/server/api/routers/purchase.ts:26 | a whole-dollar price prints as its digits and reads back |
| Seqs.FilterAppend | src/server/api/routers/product.ts:92-96 | filtering distributes over concatenation |
| Seqs.FilterExactlyOne | src/server/api/routers/product.ts:92-96 | a filter that keeps one row yields exactly that row |
| Seqs.Dedup | src/server/api/routers/product.ts:106-126 | duplicate removal keeps the same elements, each once |
| Seqs.DedupOfDistinct | src/server/api/routers/product.ts:106-126 | duplicate removal leaves a duplicate-free list as it is |
| Sorting.Sort | src/server/api/routers/product.ts:81-96 | a permutation of the input that is sorted by the relation |
| Sorting.SortedPairwise | src/server/api/routers/product.ts:81-96 | under a transitive order, a sorted list is ordered between any two positions |

## Left out

- Network, rendering, toasts, routing: the React components' markup, `router.push`, and the console logging are not modelled.
- Payment gateway: the gateway is represented by its answers (`CheckoutPage.Gateway`). Its internals and the card input elements are outside the model.
- Charge without an order: if the card is confirmed but the save fails, the customer has been charged and no order exists. The model shows this case, since `PlaceOrder` does not save and reports failure, but it does not model any refund, because the code has none.
- Password hashing: bcrypt's salt and cost are abstracted into the `hash` and `compare` parameters.
- Email syntax: zod's email rule is the `isEmail` parameter.
- Cart serialisation: JSON encoding and local storage are the `encode`/`decode` parameters and a ghost storage slot.
- Text comparison: the database's case-insensitive `contains` is ASCII lower-casing and a substring test. Name ordering is character-code order, not the database collation.
- `Number(s)`: `Text.JsNumber` handles the empty string, which gives 0, and runs of decimal digits. Everything else is NaN, including signs, decimals, exponents and surrounding white space. A NaN lower price bound matches no product, as an IEEE comparison with NaN is false.
- Floating point: prices are integer cents, the review mean is an exact real, and the `Math.round` of the intent is exact rounding over reals.
- Ordering ties: database orderings promise sortedness and a permutation only. Neither the database nor the model fixes the order of ties.
- Concurrency: the gap between the duplicate check and the insert in reviews and registration is not modelled; each router call is atomic.
- Joined user records: the user's name and username that reviews include are not modelled. This covers the listings and the records returned by `ReviewRouter.Create` and `ReviewRouter.Update` (`src/server/api/routers/review.ts:25-32`, `:79-85`).
- Session guard: the product, review, purchase and payment procedures are protected procedures, so a request without a session fails with UNAUTHORIZED before the procedure runs. Their models start after that check and take the session user's id as `userId`. `register` is a public procedure and runs without a session, so `UserRouter.Register` takes no `userId`.
- AuthSchema.RegisterIssues: lengths are counted in Unicode scalar values. The schema's `min(3)` and `min(6)` count UTF-16 code units, so a string with characters outside the Basic Multilingual Plane can pass there and fail here. For example, "😀a" is 3 units but 2 scalars.
- PaymentForm.PaymentIssues: the card-field lengths (`min(16)`, `min(5)`, `min(3)`) are counted in Unicode scalar values, not UTF-16 code units, for the same reason.
- ReviewRouter.Create: the rating is an integer. The input schema accepts any number from 1 to 5, including fractions such as 2.5, so fractional ratings and their effect on the mean are not modelled.
- ReviewRouter.Update: the rating is an integer for the same reason.
- PurchaseRouter.Create: the quantity is an integer. The input schema's `min(1)` also accepts fractions such as 1.5, and such purchases are not modelled.
- Purchase ids: `PurchaseRouter.UpdateStatus` takes an integer id, where the code takes a string and compares it with the id column.
- Foreign keys: missing-product checks on order line items are not modelled. The database schema is not part of this model.
- Cart items component: `src/app/checkout/components/checkout-cart-items.tsx` is not part of this model. It passes size and color to the cart in swapped positions.
- Seed descriptions: `SeedCatalogue.Seeded` leaves the product descriptions as `None`; they take no part in filtering.
- Error texts: `CheckoutPage.PlaceOrder` and `UserRouter.Register` use placeholder strings for errors the page or the API passes on as they are: a request that never reaches the server, and an input schema's rejection. These are `SaveUndelivered` and `InvalidInput`. The model does not give their wording.
- Missing infos at place order: `CheckoutPage.PlaceOrder` reports a missing shipping or payment info as a rejected save. The page shows the review step only when both infos exist, as `CheckoutPage.Dispatch` proves.
- CartStore.Cart.GetTotal: its own ensures only fixes the empty cart; what the total means is proved in `CartStore.TotalAppend`, `CartStore.AddCountsOne` and `CartStore.SumsSplit`.
- CartStore.Cart.GetItemsCount: its own ensures only fixes the empty cart; the count is described by the same lemmas.

## Findings

| source | as written | input that shows it | evidently intended | confidence | as-written member | corrected member |
|---|---|---|---|---|---|---|
| src/app/checkout/components/checkout-order-summary.tsx:13 | the sidebar subtotal sums `price` over the cart lines without multiplying by `quantity` | one line priced 1000 cents with quantity 2: the sidebar shows 1000 plus shipping, while the page charges 2000 plus shipping | the subtotal is price times quantity, as the page charges (`src/app/checkout/page.tsx:43`) | not executed | OrderSummary.SubtotalIgnoresQuantity | OrderSummary.SummaryTotal |
