# LeBazare shop core in Dafny

LeBazare is a Next.js clothing shop. Its core is the path from the cart to a paid order, plus a few helpers. This project models that core in Dafny and proves properties of the model. The pieces are:

- **The cart store** (`useCart`). It keeps the cart lines and two cached totals, the item count and the amount in cents. Every action rewrites the list and recomputes both totals. Reloading the cart from storage recomputes the totals from the stored lines.
- **The checkout route** (`POST /api/checkout`). It computes the total from the posted cart lines and creates a PENDING order with one order line per cart line. It then opens a payment session whose metadata carries the order id.
- **The payment webhook** (`POST /api/webhooks/stripe`). It first checks the signature. A `checkout.session.completed` event then finds the order through the session metadata. Inside one database transaction, it marks the order PAID and lowers the stock of each ordered variant. An order whose payment intent id is already set is skipped; this is the idempotency guard.
- **The catalog query** (`GET /api/products`). It turns the page, limit, category and sort parameters into a paged, filtered, sorted query and a count query with the same filter. It answers with the page and `totalPages`.
- **`slugify`**, the string pipeline that makes URL slugs from product names.
- **The route guard** (`middleware`). It runs in front of the admin and account pages. It checks the `auth_token` cookie and sends the request to the login page, to the home page, or on to the page.

Mutable state is modelled as classes:

- `Cart.CartStore` holds the list and the totals. `Valid()` says the totals are the sums over the list.
- `Webhook.Database` holds the order and stock tables.

Each state-changing method is proved against a specification function:

- The cart actions against `AddedItems`, `Without` and `UpdatedItems`.
- The webhook handler against `Webhook.Handle` and `Webhook.Transaction`.

The loops of the source are methods with loop invariants:

- the rehydration reduce is `Cart.ReduceTotals`;
- the stock loop inside the transaction is `Webhook.DecrementStock`, which `Webhook.RunTransaction` calls.

The code that builds its result object step by step is imperative: besides the webhook methods above, the catalog query builders `Products.BuildWhere`, `Products.BuildOrderBy` and `Products.PlanQuery`, and `Products.DefaultPlan`, which runs `PlanQuery` with no parameters, are methods. The rest are functions: the checkout handler `Checkout.Post`, the catalog answer `Products.Respond`, the guard `Middleware.Decide`, `Slug.Slugify` and the cart's list transforms.

Calls into the payment provider, the database and the JWT library are not modelled. Their results are parameters:

- the signature check is a `Verification`;
- a database failure is a `DbFault`;
- the id the database gives the created order is a `createdId`;
- the session the provider opens is a `SessionReply`;
- token verification is a `VerifyResult`;
- the two catalog queries are one optional result pair.

JavaScript truthiness is spelled out at each point where it decides a branch:

- `quantity || 1` treats 0 like a missing quantity;
- `!orderId` rejects both a missing and an empty id;
- the idempotency guard treats an empty payment intent id as unset;
- `!session.url` rejects an empty url;
- `!token` rejects an empty cookie;
- `if (item.variantId)` skips an order line whose variant id is missing or empty.

Two properties hold only in part, and the model proves exactly that much:

- **Idempotence of the webhook is conditional.** The guard looks at the stored payment intent id, not at the status, and a non-string `payment_intent` is stored as null. A redelivered event is proved to change nothing when the intent is a non-empty string (`RedeliveryIsNoOp`). With a null intent, every variant the order names is decremented again (`NullIntentRedeliveryDecrementsTwice` shows one such case).
- **Stock has no lower bound.** `StockCanGoNegative` gives a concrete example.

The checkout total is computed from unit prices that the client posts. "Price integrity" is therefore proved only as internal consistency: the stored total equals the sum over the stored order lines (`Checkout.TotalMatchesOrderItems`). Nothing compares the prices with the catalog.

## Model

| member | source | states |
|---|---|---|
| Cart.SumQuantities | src/lib/useCart.ts:39 | the item-count fold is 0 for no lines and the line's quantity for one line |
| Cart.SumCents | src/lib/useCart.ts:40-43 | the amount fold is 0 for no lines and price times quantity for one line |
| Cart.SumsAppend | src/lib/useCart.ts:38-45 | both totals of `calculateTotals` are additive over concatenation of the list |
| Cart.SumsReplace | src/lib/useCart.ts:38-45 | replacing one line changes each total by exactly the difference of that line's contribution |
| Cart.CalculateTotals | src/lib/useCart.ts:38-45 | an empty cart has both totals 0; lines with non-negative prices and quantities never give a negative total; with positive quantities the item count is at least the number of lines |
| Cart.SumsBounds | src/lib/useCart.ts:38-45 | the two folds are non-negative over non-negative lines, and the count is at least the number of lines when every quantity is positive |
| Cart.EffectiveQuantity | src/lib/useCart.ts:61-65 | the default quantity is never 0: it is the given quantity when that is non-zero, otherwise 1 |
| Cart.Contains | src/lib/useCart.ts:55-58 | the `find` succeeds exactly when the `removeItem` filter on that id would drop a line |
| Cart.WithoutShrinks | src/lib/useCart.ts:75 | the filter drops a line exactly when some line has the id |
| Cart.Entry | src/lib/useCart.ts:65 | the appended line is the given line with every field kept and the quantity defaulted, so never 0 |
| Cart.AddToMatching | src/lib/useCart.ts:59-63 | the mapped list has the same length; lines with the id gain the extra units, all other lines are unchanged |
| Cart.SetQuantity | src/lib/useCart.ts:84 | the mapped list has the same length; lines with the id get the new quantity, all other lines are unchanged |
| Cart.Without | src/lib/useCart.ts:75 | the filtered list is no longer, and each of its lines comes from the input and has a different id |
| Cart.AddedItems | src/lib/useCart.ts:53-66 | for an id already present, the matching lines gain the default quantity and nothing else changes; for a new id, the old lines are kept in order and exactly one line is appended: the given line with the default quantity |
| Cart.UpdatedItems | src/lib/useCart.ts:82-91 | a positive quantity keeps every line in place with its id and price and gives the lines with the id the new quantity; zero or less keeps only lines of the old list, none of them with the id |
| Cart.AddKeepsIdsUnique | src/lib/useCart.ts:53-66 | adding keeps cart-line ids unique |
| Cart.AddTotalsExisting | src/lib/useCart.ts:58-71 | with unique ids, adding to a present id raises the count by the default quantity and the amount by that many units at that line's price |
| Cart.AddToPresent | src/lib/useCart.ts:58-63 | with unique ids, adding to a present id changes exactly the one line holding it, whose quantity grows by the default quantity |
| Cart.AddTotalsOnLine | src/lib/useCart.ts:68-71 | when adding raises one line alone, the count grows by the default quantity and the amount by that many units at the line's price |
| Cart.BumpTotals | src/lib/useCart.ts:38-45 | raising one line's quantity by `n` raises the count by `n` and the amount by `n` units at its price |
| Cart.AddTotalsNew | src/lib/useCart.ts:64-71 | adding a new id raises the count by the default quantity and the amount by that many units at the given price |
| Cart.WithoutAppend | src/lib/useCart.ts:75 | the filter distributes over concatenation, so the surviving lines keep their order |
| Cart.WithoutKeepsOthers | src/lib/useCart.ts:75 | every line with a different id survives the filter |
| Cart.WithoutAbsent | src/lib/useCart.ts:75 | removing an id no line has leaves the list as it is |
| Cart.RemoveExactlyOne | src/lib/useCart.ts:74-80 | with unique ids, removing a present id drops exactly its one line and keeps the rest in order |
| Cart.UniqueTail | src/lib/useCart.ts:55-66 | the lines after the first of a list with unique ids have unique ids, none equal to the first line's id |
| Cart.WithoutKeepsIdsUnique | src/lib/useCart.ts:75 | removing keeps ids unique |
| Cart.UpdateSpec | src/lib/useCart.ts:82-85 | a positive quantity gives every matching line the new quantity and leaves every other line, and every other field, as it was; zero or less is `removeItem`; ids stay unique |
| Cart.CartStore.Valid | src/lib/useCart.ts:68-71 | the cached totals equal the folds over the stored list, so an empty valid store has both totals 0 |
| Cart.CartStore.constructor | src/lib/useCart.ts:48-51 | the initial store is empty, both totals are 0, and the totals invariant holds |
| Cart.CartStore.Commit | src/lib/useCart.ts:68-71 | `set` stores the new list and totals that are exactly its sums |
| Cart.CartStore.AddItem | src/lib/useCart.ts:53-72 | the new list is `AddedItems` of the old one, the totals match it, and unique ids stay unique |
| Cart.CartStore.RemoveItem | src/lib/useCart.ts:74-80 | the new list is the filtered old one, the totals match it, and unique ids stay unique |
| Cart.CartStore.UpdateItemQuantity | src/lib/useCart.ts:82-91 | the new list is the map or the filter of the old one according to the quantity, the totals match it, and unique ids stay unique |
| Cart.CartStore.ClearCart | src/lib/useCart.ts:93-95 | the store is back to the initial state |
| Cart.ReduceTotals | src/lib/useCart.ts:104-111 | the accumulator loop of rehydration computes exactly `calculateTotals` |
| Cart.Rehydrate | src/lib/useCart.ts:102-115 | a restored state keeps its lines and gets totals equal to their sums, whatever totals were stored |
| Webhook.Decremented | src/app/api/webhooks/stripe/route.ts:63-71 | lowering stock keeps the set of variant rows |
| Webhook.ErrorText | src/app/api/webhooks/stripe/route.ts:20 | an `Error`'s message, or `Unknown webhook error` for any other thrown value |
| Webhook.OrderIdOf | src/app/api/webhooks/stripe/route.ts:28 | the order id is present exactly when the metadata exists and has an `orderId` key, and then it is that value |
| Webhook.StoredIntent | src/app/api/webhooks/stripe/route.ts:58 | a value is stored exactly when the payment intent is a string, and then it is that string; an expanded object or a missing intent is stored as null |
| Webhook.NamesVariant | src/app/api/webhooks/stripe/route.ts:64 | `if (item.variantId)` fails exactly for a missing and for an empty variant id |
| Webhook.QtyFor | src/app/api/webhooks/stripe/route.ts:63-71 | a variant no order line names is taken 0 units, and the empty id is never taken anything |
| Webhook.Settled | src/app/api/webhooks/stripe/route.ts:47-51 | an order passes the idempotency guard exactly when its payment intent id is null or the empty string |
| Webhook.MarkPaid | src/app/api/webhooks/stripe/route.ts:53-60 | the updated order is PAID, stores the intent exactly when it is a string, is settled exactly when that string is non-empty, and keeps its id, total, addresses and lines |
| Webhook.Transaction | src/app/api/webhooks/stripe/route.ts:41-77 | the callback throws exactly when the lookup fails or a write of an unsettled order's fulfilment fails; otherwise no row is created or removed and no other order changes; a missing or settled order is left alone, an unsettled one becomes PAID |
| Webhook.Handle | src/app/api/webhooks/stripe/route.ts:10-87 | only a verified completed event with an order id can change the tables, and only with a 200; every non-200 answer leaves the tables unchanged; a failed signature check gives 400 `Webhook Error: <message>`; other events give 200; a missing or empty order id gives 400 |
| Webhook.RunTransaction | src/app/api/webhooks/stripe/route.ts:41-77 | the lookup, the guard, the order update and the stock loop commit exactly the tables `Transaction` specifies, or roll back to the old tables when any write throws |
| Webhook.DecrementStock | src/app/api/webhooks/stripe/route.ts:63-71 | the stock loop succeeds exactly when the update of every line with a non-empty variant id succeeds, and then yields the stock lowered by every such line |
| Webhook.DecrementedStep | src/app/api/webhooks/stripe/route.ts:64-68 | one more order line lowers its variant's stock by its quantity when its variant id is non-empty and has a row, and changes nothing otherwise |
| Webhook.Post | src/app/api/webhooks/stripe/route.ts:10-87 | the imperative handler answers and leaves the database exactly as `Handle` specifies |
| Webhook.DecrementedAt | src/app/api/webhooks/stripe/route.ts:63-68 | each variant loses the summed `qty` of the lines naming it, with no floor |
| Webhook.DecrementedUnnamed | src/app/api/webhooks/stripe/route.ts:64 | order lines whose variant id is missing or empty leave the stock table as it is |
| Webhook.GuardWritesNothing | src/app/api/webhooks/stripe/route.ts:47-51 | a missing order, or one whose payment intent id is set, answers 200 and writes nothing, unless the lookup fails |
| Webhook.FulfilmentEffect | src/app/api/webhooks/stripe/route.ts:54-71 | when all writes succeed, the order becomes PAID with the string intent id or null; no other order or field changes; each variant loses exactly what the lines take |
| Webhook.FailureRollsBack | src/app/api/webhooks/stripe/route.ts:41-82 | any throw inside the transaction answers 500 and keeps both tables |
| Webhook.RedeliveryIsNoOp | src/app/api/webhooks/stripe/route.ts:47-58 | redelivering an event that was not answered with 500 changes nothing more and gets the same answer, provided the payment intent is a non-empty string |
| Webhook.NullIntentRedeliveryDecrementsTwice | src/app/api/webhooks/stripe/route.ts:48-58 | with a non-string payment intent, a redelivery passes the guard again: stock 5 becomes 3 and then 1 |
| Webhook.EmptyVariantIdSkipped | src/app/api/webhooks/stripe/route.ts:64-69 | an order line whose variant id is the empty string takes no stock, even from a row keyed by `""`, while the order still becomes PAID |
| Webhook.StockCanGoNegative | src/app/api/webhooks/stripe/route.ts:65-68 | an order for 3 units of a variant with stock 1 is fulfilled and leaves stock -2 |
| Checkout.OrderItemsOf | src/app/api/checkout/route.ts:53-60 | one order line per cart line, in the same order, with product, variant, quantity and unit price carried over |
| Checkout.LineItemsOf | src/app/api/checkout/route.ts:66-76 | one euro line item per cart line, named after the title, with the unit price and quantity |
| Checkout.TotalCents | src/app/api/checkout/route.ts:36-39 | the reduce is 0 for no lines, the line's amount for one line, and never negative for non-negative prices and quantities |
| Checkout.NewOrder | src/app/api/checkout/route.ts:43-62 | the created row is PENDING with no payment intent, has the two fixed address ids and one line per cart line, and its total equals the sum over its own lines |
| Checkout.SiteUrl | src/app/api/checkout/route.ts:78 | the site url is never empty: the configured value when that is non-empty, the localhost default otherwise |
| Checkout.NewSession | src/app/api/checkout/route.ts:66-90 | the session request allows card and PayPal, is a one-off payment, has one euro line item per cart line with its title, unit price and quantity, puts both urls on the site url, and carries the order id as its only metadata |
| Checkout.Post | src/app/api/checkout/route.ts:25-105 | a missing or empty cart gives 400 and creates nothing; the answer is 200 exactly when the order is created and the session has a non-empty url, and its body is that url; any other answer is the 400 or the 500; an order is created exactly when the cart is non-empty and the create succeeds, and a session is asked for exactly then; a created order is PENDING with no intent, the computed total and the mapped lines; the session is a payment session carrying the order id as metadata, the mapped line items and the success and cancel urls on the site url |
| Checkout.TotalMatchesOrderItems | src/app/api/checkout/route.ts:36-60 | the computed total equals the sum over the created order lines of `price_cents * qty` |
| Checkout.TotalPointwise | src/app/api/checkout/route.ts:36-39 | order lines that agree with the cart lines on price and quantity have the cart's total |
| Checkout.CreatedOrderTotal | src/app/api/checkout/route.ts:43-62 | every order the route creates has a total equal to the sum over its lines |
| CheckoutPayload.Posted | src/app/checkout/page.tsx:26 | the body the page posts has one line per cart line, each seen by the route without a variant id |
| CheckoutPayload.PostedOrderNeverTakesStock | src/app/api/checkout/route.ts:56 | as written, no order line built from a posted cart names a variant, so fulfilment leaves every stock row unchanged |
| CheckoutPayload.VariantDroppedExample | src/app/checkout/page.tsx:26 | a cart with 2 units of variant `v1` posts an order line with no variant, while the intended payload keeps `v1` |
| CheckoutPayload.PostedIntended | src/app/api/checkout/route.ts:10-17 | the corrected body has one line per cart line and carries each line's variant id as `variantId` |
| CheckoutPayload.IntendedQty | src/app/api/checkout/route.ts:53-60 | with the corrected body, the order lines take from each variant exactly the quantity the cart holds of it |
| CheckoutPayload.QtyPointwise | src/app/api/checkout/route.ts:56-57 | order lines carrying the cart lines' variants and quantities take from each variant what the cart holds of it |
| CheckoutPayload.IntendedOrderTakesCartQuantities | src/app/api/webhooks/stripe/route.ts:63-71 | with the corrected body, fulfilment lowers each variant by exactly the cart's quantity of it |
| CheckoutPayload.CheckoutCreates | src/app/api/checkout/route.ts:43-96 | checking out a non-empty cart whose order and session are created answers 200 with the url, then stores the PENDING order and a session tagged with its id |
| CheckoutPayload.PaymentHandled | src/app/api/webhooks/stripe/route.ts:41-86 | the completed event for an unpaid order whose writes succeed answers 200, marks it PAID and lowers the stock by its lines |
| CheckoutPayload.LinesWriteOk | src/app/api/webhooks/stripe/route.ts:65-68 | when every cart variant has a stock row, no stock update for the corrected order's lines fails |
| CheckoutPayload.PaymentAfterCheckout | src/app/api/checkout/route.ts:86-89 | the payment event for the session opened at checkout finds the created order, marks it PAID with the intent, and lowers each variant by what the cart held of it |
| Products.BuildWhere | src/app/api/products/route.ts:19-26 | the category filter is set exactly when `category` is non-empty, and then it is that slug |
| Products.BuildOrderBy | src/app/api/products/route.ts:30-37 | `price-asc` and `price-desc` sort by price; anything else sorts newest first |
| Products.PlanQuery | src/app/api/products/route.ts:11-56 | page and limit default to 1 and 12; skip is `(page - 1) * limit` and take is the limit; the count uses the page filter; filter and sort as above |
| Products.TotalPages | src/app/api/products/route.ts:63 | for a positive limit, the least page count covering the total; for a negative limit, the ceiling of the negative quotient; for 0, not a finite number |
| Products.CeilDiv | src/app/api/products/route.ts:63 | ceiling division: the least `q` with `q * d >= n` |
| Products.Respond | src/app/api/products/route.ts:58-71 | exactly a database failure answers 500 with the internal-error message; otherwise the page echoes the items, total, page and limit, with `totalPages` the ceiling for a positive limit, non-positive for a negative one, and not finite exactly for 0 |
| Products.DefaultPlan | src/app/api/products/route.ts:11-37 | with no parameters, the first 12 products, unfiltered and newest first |
| Slug.IsSpace | src/lib/utils.ts:8-9 | the JavaScript whitespace set of `\s` and `trim`; no whitespace character is a word character, a hyphen or a combining mark |
| Slug.IsMark | src/lib/utils.ts:7 | the combining-mark range U+0300-U+036F; no mark is a word character or a hyphen |
| Slug.IsWordChar | src/lib/utils.ts:10 | `\w` is ASCII only, and every word character lowers to a slug character |
| Slug.ToLower | src/lib/utils.ts:5 | the result is never an upper-case ASCII or Latin-1 letter |
| Slug.Lowercase | src/lib/utils.ts:5 | same length, each character lowered, and no upper-case ASCII letter remains |
| Slug.Decompose | src/lib/utils.ts:6 | exactly the 27 accented lower-case Latin-1 letters become two characters: their base letter (a, c, e, i, n, o, u or y, by range) and their combining mark (grave, acute, circumflex, tilde, diaeresis, ring or cedilla); any other character is kept |
| Slug.Nfd | src/lib/utils.ts:6 | every output character comes from the input, is a lower-case ASCII letter, or is a combining mark |
| Slug.StripMarks | src/lib/utils.ts:7 | no combining mark remains, and every character comes from the input |
| Slug.TrimStart | src/lib/utils.ts:8 | the result is a suffix of the input that does not start with whitespace |
| Slug.TrimEnd | src/lib/utils.ts:8 | the result is a prefix of the input that does not end with whitespace |
| Slug.Trim | src/lib/utils.ts:8 | the result is no longer than the input, has no whitespace at either end, and is empty for an input of whitespace only |
| Slug.SpacesToHyphens | src/lib/utils.ts:9 | no whitespace remains, and every character is a hyphen or comes from the input |
| Slug.KeepWordChars | src/lib/utils.ts:10 | only word characters and hyphens from the input remain |
| Slug.SqueezeHyphens | src/lib/utils.ts:11 | no two hyphens are adjacent, and every character comes from the input |
| Slug.Slugify | src/lib/utils.ts:2-12 | every output character is in `[a-z0-9_-]`, so no upper-case letter remains, and no two hyphens are adjacent |
| Slug.TrimSurrounding | src/lib/utils.ts:8 | leading and trailing whitespace contributes nothing |
| Slug.TrimStartSpaces | src/lib/utils.ts:8 | `trim` removes every leading whitespace character and stops at the first other one |
| Slug.TrimEndSpaces | src/lib/utils.ts:8 | `trim` removes every trailing whitespace character and stops at the last other one |
| Slug.SpacesAppend | src/lib/utils.ts:9 | the whitespace replacement works piece by piece, carrying whether a run is open |
| Slug.SpaceRun | src/lib/utils.ts:9 | a whole run of whitespace becomes one hyphen, or nothing inside an open run |
| Slug.SpacesStartWord | src/lib/utils.ts:9 | without a leading whitespace character, an open run does not matter |
| Slug.InteriorRun | src/lib/utils.ts:9 | a maximal whitespace run between two words becomes exactly one hyphen |
| Slug.LowercaseKeeps | src/lib/utils.ts:5 | lowering leaves a slug unchanged |
| Slug.DecomposeKeeps | src/lib/utils.ts:6 | a slug character has no decomposition |
| Slug.NfdKeeps | src/lib/utils.ts:6 | decomposition leaves a slug unchanged |
| Slug.StripMarksKeeps | src/lib/utils.ts:7 | stripping marks leaves a slug unchanged |
| Slug.TrimKeeps | src/lib/utils.ts:8 | trimming leaves a slug unchanged |
| Slug.SpacesKeep | src/lib/utils.ts:9 | the whitespace replacement leaves a slug unchanged |
| Slug.KeepWordCharsKeeps | src/lib/utils.ts:10 | the non-word removal leaves a slug unchanged |
| Slug.SqueezeKeeps | src/lib/utils.ts:11 | squeezing leaves a string without double hyphens unchanged |
| Slug.SlugIsFixed | src/lib/utils.ts:2-12 | `slugify` leaves a slug unchanged |
| Slug.SlugifyIdempotent | src/lib/utils.ts:2-12 | `slugify(slugify(s)) == slugify(s)` |
| Slug.NfdAppend | src/lib/utils.ts:6 | decomposition works character by character: it distributes over concatenation |
| Slug.NfdSingle | src/lib/utils.ts:6 | one character decomposes to its canonical decomposition |
| Slug.StripMarksAppend | src/lib/utils.ts:7 | mark removal distributes over concatenation |
| Slug.StripMarksSingle | src/lib/utils.ts:7 | one combining mark is dropped and any other character is kept |
| Slug.SpacesSingle | src/lib/utils.ts:9 | one non-whitespace character is kept; one whitespace character becomes a hyphen, or nothing inside an open run |
| Slug.KeepWordCharsAppend | src/lib/utils.ts:10 | the non-word removal distributes over concatenation |
| Slug.KeepWordCharsSingle | src/lib/utils.ts:10 | one word character or hyphen is kept and any other character is dropped |
| Slug.SqueezeStep | src/lib/utils.ts:11 | a leading non-hyphen is kept; a leading hyphen is kept unless it follows a hyphen; the rest is squeezed from the new state |
| Slug.HyphenRunThen | src/lib/utils.ts:11 | a whole run of hyphens becomes one hyphen (none right after a hyphen), and what follows is squeezed as after a hyphen |
| Slug.LowercaseExample | src/lib/utils.ts:5 | `CafÉ` lowers to `café` |
| Slug.NfdExample | src/lib/utils.ts:6 | `café` decomposes to `cafe` followed by the combining acute accent |
| Slug.NfdAfterSlug | src/lib/utils.ts:6 | a slug followed by one character decomposes to the slug followed by that character's decomposition |
| Slug.StripMarksExample | src/lib/utils.ts:7 | `cafe` followed by the combining acute accent becomes `cafe` |
| Slug.StripMarksAfterSlug | src/lib/utils.ts:7 | a combining mark after a slug is dropped and the slug kept |
| Slug.AccentExample | src/lib/utils.ts:5-7 | `CafÉ` lowered, decomposed and stripped of marks is `cafe` |
| Slug.AccentFolds | src/lib/utils.ts:5-7 | lowering, decomposing and stripping marks turn an accented letter after a slug into its base letter |
| Slug.LowercaseAccent | src/lib/utils.ts:5 | lowering leaves a slug followed by an accented lower-case letter as it is |
| Slug.StripDecomposed | src/lib/utils.ts:6-7 | decomposing an accented letter after a slug and dropping the mark leaves its base letter |
| Slug.TrimExample | src/lib/utils.ts:8 | ` a b ` trims to `a b`: the inner space stays |
| Slug.SpacesExample | src/lib/utils.ts:9 | `a  b` becomes `a-b` |
| Slug.SpacesBetweenSlugs | src/lib/utils.ts:9 | a non-empty whitespace run between two slugs becomes exactly one hyphen |
| Slug.KeepWordCharsExample | src/lib/utils.ts:10 | `a!b` becomes `ab` |
| Slug.SqueezeExample | src/lib/utils.ts:11 | `a--b` becomes `a-b` |
| Slug.SlugTail | src/lib/utils.ts:8-11 | the stages after mark removal leave a slug unchanged |
| Slug.SlugifyFoldsAccent | src/lib/utils.ts:2-12 | a slug followed by an accented letter slugifies to the slug followed by that letter's base letter |
| Slug.SlugifyExample | src/lib/utils.ts:2-12 | `café` slugifies to `cafe` |
| Middleware.IsAdminPath | middleware.ts:27 | a plain prefix test: every admin path has at least six characters and starts with `/a`, and `/admin` itself is one |
| Middleware.Decide | middleware.ts:8-40 | no token, or an empty one, redirects to `/login` with `from` set to the path; a failed verification or a non-string role redirects to `/login` and deletes the cookie; a non-admin role on an `/admin` path redirects to `/`; everything else passes; each case holds in both directions |
| Middleware.Guard | middleware.ts:42-47 | a path outside the matcher passes without inspection; a matched path gets the decision above |
| Middleware.Matched | middleware.ts:42-47 | every guarded path starts with `/admin` or `/account` |
| Middleware.MatcherSegments | middleware.ts:42-47 | `/admin`, `/admin/products` and `/account/orders` are guarded; `/administrator`, `/` and `/login` are not, although `/administrator` starts with `/admin` |
| Middleware.AdminAreaNeedsAdmin | middleware.ts:27-31 | a guarded admin path passes exactly for a non-empty token that verifies with role `admin` |
| Middleware.AccountAreaNeedsLogin | middleware.ts:22-31 | a guarded account path passes exactly for a non-empty token that verifies with a string role |
| Middleware.MatchedSections | middleware.ts:42-47 | among matched paths, the `/admin` prefix test picks out exactly the admin section |

## Left out

- JavaScript numbers are modelled as unbounded integers. Floating-point rounding, `NaN` and `Infinity` in the totals and in `parseInt` are not modelled. A non-numeric `page` or `limit` is not modelled either; absent and empty parameters are.
- Slug.Lowercase: lowers only ASCII and Latin-1 letters; the rest of Unicode case mapping is not modelled.
- Slug.Nfd: decomposes only the accented lower-case Latin-1 letters, which are all the accented Latin-1 letters left after lowering. Other canonical decompositions, such as that of `ā` (U+0101), are not modelled: such letters are kept as they are.
- Database transactions are assumed atomic and isolated. Concurrent webhook deliveries, and Prisma's query and include mechanics, are not modelled.
- Token verification, the JWT secret, the payment provider and the database are not modelled. Their results are parameters.
- Console logging and the placeholder confirmation email are not modelled; neither is the exact JSON shape of each answer beyond the status and the message or url.
- The page's own handling of the checkout answer (the redirect to the payment page, the empty-cart redirect) is UI code and is not part of this model. Neither are the React components, the admin product form and its route, or the login, signup and profile routes.
- Customer and address resolution are not done by the checkout route: it links every order to the fixed address ids `shippingAddressId` and `billingAddressId`, and the model does the same.
- `formatCents` is float formatting and is not part of this model.
- The matcher patterns `/admin/:path*` and `/account/:path*` are modelled as the section path or anything below it; Next.js path normalisation (trailing slashes, locales, base path) is not modelled.
- The product query's `include` of the first image and the variants only shapes the returned items, which are an input here.

## Findings

| source | as written | input that shows it | evidently intended | confidence | as-written member | corrected member |
|---|---|---|---|---|---|---|
| src/app/checkout/page.tsx:26 and src/app/api/checkout/route.ts:13,56 | the checkout page posts the cart lines, which carry the variant as `variant.id`; the route reads `item.variantId`, which is therefore always undefined, so every order line has no variant and a paid order never lowers any stock | a cart with 2 units of variant `v1` gives the order line `(p1, no variant, 2, 1000)` | each order line names the cart line's variant, so payment lowers each variant's stock by the quantity ordered | not executed | CheckoutPayload.PostedOrderNeverTakesStock | CheckoutPayload.IntendedOrderTakesCartQuantities |
