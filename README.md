# Storefront promo codes, order totals and list state — a Dafny model

This project models the business logic of a small e-commerce storefront: its
two promo-code evaluators, the order route that turns a cart into an order with
a discount and a total, the query layer that writes orders and counts promo
uses, the checkout dialog's preview state, the two cart stores, the admin
lists of promo codes and orders, the admin create schemas, and the small pure
helpers of the admin and storefront screens.

- **The client evaluator** (`PromoDiscount.ValidateAndApplyPromoCode`) finds
  the first active record whose upper-cased code equals the trimmed,
  upper-cased input. It then rejects on expiry, on the usage cap and on the
  minimum order, in that order.
- **The server evaluator** (`DatabaseQueries.ValidatePromoCode`) looks the
  code up verbatim. It rejects an inactive record separately and checks the
  minimum order before the usage cap.
- `PromoAgreement` proves what the two share. On the same record they agree on
  validity and on the discount. Their messages part only when a code is both
  used up and below its minimum. On a table whose codes are stored upper-case
  (as the admin create route stores them), the checkout evaluating the entered
  code agrees with the server evaluating its normalised form.
- The tables are a `Store` class with one sequence field per table. Each React
  state holder (`CartProvider`, `UseCart`, `PromoCodeContext`, `OrderProvider`,
  `CheckoutModal`, `ProductModal`) is a class whose methods replace its fields.
  Each of those methods is proved against a pure function of the old state,
  and the lemmas about those functions state what the source promises.

Conventions:
- Money and quantities are `real`, without floating-point rounding.
- Timestamps are integers, and the current time is a parameter (`now`).
- Letter case is mapped for ASCII letters only.
- `trim` removes exactly the ECMAScript white-space and line-terminator
  characters.
- A stored flag (`active`, `featured`) is a JavaScript boolean or SQLite's 0/1
  integer. `Truthy` gives its JavaScript truthiness.
- zod's e-mail pattern is a parameter `isEmail`.
- A JSON body is a `Json` value whose object form maps the keys that are
  present. An absent key is `undefined`.

## Model

| member | source | states |
|---|---|---|
| `PromoDiscount.ValidateAndApplyPromoCode` | lib/promo-discount.ts:10-50 | a rejection has discount 0 and no code; the result is valid exactly when the message is the success message; with no active record matching the normalised code the result is "not found or inactive" |
| `PromoDiscount.Find` | lib/promo-discount.ts:19-21 | the index found is the first record that is active and whose upper-cased code equals the key; no index means no record matches |
| `PromoDiscount.ApplyPromo` | lib/promo-discount.ts:25-49 | valid exactly when the record is unexpired, under its cap and the subtotal reaches its minimum; expired first, then usage, then minimum (with the exact amount) decide the message; on success the discount is the percentage of the subtotal or the flat value, and the stored code is returned |
| `PromoDiscount.FirstMatchDecides` | lib/promo-discount.ts:19-24 | the first matching active record alone decides the result |
| `PromoDiscount.SuccessNamesMatchingRecord` | lib/promo-discount.ts:44-49 | a successful result names the code of an active record that matches the input |
| `PromoDiscount.InactiveNeverFound` | lib/promo-discount.ts:19-21 | an inactive record is never the one found |
| `PromoDiscount.DependsOnNormalizedCode` | lib/promo-discount.ts:19-21 | two inputs with the same `trim().toUpperCase()` evaluate identically |
| `PromoDiscount.UsageReportedBeforeMinimum` | lib/promo-discount.ts:28-37 | when the cap and the minimum both fail, the message is "usage limit reached" |
| `PromoDiscount.FixedDiscountNotClamped` | lib/promo-discount.ts:38-43 | a flat 20 off a subtotal of 15 is accepted as 20: the discount is not capped at the subtotal |
| `Promo.ExpiryBoundary` | lib/promo-discount.ts:25-27 | expiry is strict: a code expiring exactly now is usable, one that expired a tick earlier is not, and one without expiry never expires |
| `Promo.UsageBoundary` | lib/promo-discount.ts:28-30 | a cap of 5 blocks at 5 uses and admits at 4; a cap of 0 or no cap is unlimited |
| `Promo.PercentageWithinAmount` | lib/promo-discount.ts:39-40 | a percentage of at most 100 on a non-negative amount never exceeds the amount |
| `DatabaseQueries.GetPromoCodeByCode` | lib/database-queries.ts:190-193 | the row returned carries exactly the given code; none is returned exactly when no row carries it |
| `DatabaseQueries.GetByCodeFindsTheRow` | lib/database.ts:88-90 | with codes unique, the lookup of a row's code returns that row |
| `DatabaseQueries.PromoById` | lib/database-queries.ts:273-274 | the row returned has the id; none is returned exactly when no row has it |
| `DatabaseQueries.ProductById` | lib/database-queries.ts:17-20 | the row returned has the id; none is returned exactly when no row has it |
| `DatabaseQueries.CountCode` | lib/database.ts:88-90 | the number of rows carrying a code is at most the table size, and 0 exactly when no row carries it |
| `DatabaseQueries.LookupIsCaseSensitive` | lib/database-queries.ts:190-193 | a row stored as "SAVE20" is not found by "save20" |
| `DatabaseQueries.CheckRow` | lib/database-queries.ts:210-237 | valid exactly when the row is active, unexpired, reaches its minimum and is under its cap; each failure message holds exactly when every earlier check passed and its own failed (inactive, expired, minimum with the exact amount, usage); on success the discount is the percentage of the order amount or the flat value, and the row is returned |
| `DatabaseQueries.ValidatePromoCode` | lib/database-queries.ts:195-238 | "not found" exactly when the lookup finds nothing, otherwise the checks on the row found; a valid result names a stored row with exactly that code |
| `DatabaseQueries.MinimumReportedBeforeUsage` | lib/database-queries.ts:218-227 | when the minimum and the cap both fail, the server reports the minimum |
| `DatabaseQueries.PromoCodeId` | lib/database-queries.ts:127-131 | an id is recorded only for a non-empty code that some row carries; a code no row carries records none |
| `DatabaseQueries.ItemRow` | lib/database-queries.ts:152-154 | the inserted item row keeps the order id, product, quantity and price; a missing size or colour is stored as "" |
| `DatabaseQueries.OrderRowFor` | lib/database-queries.ts:133-142 | the inserted order row is "pending", has the resolved promo id, a missing or empty phone is null, and a missing discount is 0 |
| `DatabaseQueries.IncrementUses` | lib/database-queries.ts:157-164 | same length; each row carrying the code gains exactly one use and every other row is unchanged |
| `DatabaseQueries.IncrementUsesTotal` | lib/database-queries.ts:157-164 | the total use count grows by the number of rows carrying the code |
| `DatabaseQueries.UniqueCodeCountsOnce` | lib/database.ts:88-90 | under the unique-code constraint a code names at most one row, so one order adds at most one use |
| `DatabaseQueries.IncrementUsesKeepsKeys` | lib/database-queries.ts:157-164 | the increment keeps codes and ids unique |
| `DatabaseQueries.ApplyPromoPatch` | lib/database-queries.ts:260-272 | the update never changes id, creation time or use count, and an update with no remaining field leaves the row as it was |
| `DatabaseQueries.UpdatePromoRows` | lib/database-queries.ts:267-272 | only rows with the id change; lengths, ids, creation times and use counts are kept |
| `DatabaseQueries.ApplyProductPatch` | lib/database-queries.ts:59-72 | the update never changes id or creation time and always stamps `updated_at` |
| `DatabaseQueries.UpdateProductRows` | lib/database-queries.ts:63-72 | only rows with the id change; lengths, ids and creation times are kept |
| `DatabaseQueries.Store.CreateOrder` | lib/database-queries.ts:103-171 | appends one order row with a fresh id, one item row per input item in order, and, for a non-empty code, one use on the rows with exactly that code; products are untouched and the table constraints still hold |
| `DatabaseQueries.Store.constructor` | lib/database.ts:88-95 | a database holding the given promo codes and products satisfies the table constraints and has no orders |
| `DatabaseQueries.Store.InsertOrder` | lib/database-queries.ts:122-143 | the order row is appended under the next id, which is above every earlier order id; nothing else changes |
| `DatabaseQueries.Store.CountPromoUse` | lib/database-queries.ts:157-164 | the promo table becomes the incremented table, still with unique codes and ids; nothing else changes |
| `DatabaseQueries.Store.InsertOrderItems` | lib/database-queries.ts:146-154 | the item loop appends exactly one row per item, in order, with consecutive fresh ids, and changes nothing else |
| `DatabaseQueries.Store.UpdatePromoCode` | lib/database-queries.ts:260-275 | an update with nothing left to set re-selects the row untouched; an update whose statement cannot run (a key that names no column, a boolean value) or that breaks the unique code throws and leaves the table unchanged; otherwise the table becomes the updated table and the row with the id is returned |
| `DatabaseQueries.Store.UpdateProduct` | lib/database-queries.ts:59-74 | with nothing left to set the products are unchanged; a key that names no column or a boolean value makes the statement throw and leaves them unchanged; otherwise only the row with the id is updated, and the row with that id is returned |
| `DatabaseQueries.PromoToggleThrows` | components/admin/promo-codes-tab.tsx:35-41 | the admin toggle's `{ is_active: b }` names no column of `promo_codes`, so `updatePromoCode` throws on every table; `{ active: b }` with a JavaScript boolean throws too |
| `DatabaseQueries.ProductToggleFails` | components/admin/products-tab.tsx:49-52 | the products toggle's `{ is_active: b }` names no column of `products`, so `updateProduct` cannot run it |
| `DatabaseQueries.Store.DeletePromoCode` | lib/database-queries.ts:277-281 | removes the rows with the id and keeps the rest in order; reports true exactly when such a row existed |
| `PromoAgreement.RecordAgreement` | lib/promo-discount.ts:22-43 | on the same active record both evaluators agree on validity and discount; their verdicts differ exactly when the code is unexpired, used up and below its minimum, and then the client says "usage limit" and the server "minimum" |
| `PromoAgreement.TableAgreement` | lib/database-queries.ts:195-238 | on a table with unique upper-case codes, the client evaluating the entered code and the server evaluating its normalised form agree on validity, discount and code applied |
| `PromoAgreement.MatchesIffStored` | lib/promo-discount.ts:19-21 | with upper-case codes, a mapped record matches the key exactly when its row has that code and is active |
| `OrdersRoute.ParseOrder` | app/api/orders/route.ts:6-23 | an accepted body has a name, an address, an e-mail the check accepts and at least one item, each with quantity at least 1 and price at least 0 |
| `OrdersRoute.ParseEncodeOrder` | app/api/orders/route.ts:6-23 | every request meeting those constraints is accepted exactly as submitted |
| `OrdersRoute.ParseItem` | app/api/orders/route.ts:14-20 | an accepted item has quantity at least 1 and price at least 0 |
| `OrdersRoute.ParseItems` | app/api/orders/route.ts:12-21 | the list is accepted exactly when every element is, and then element by element |
| `OrdersRoute.ParseEncodeItem` | app/api/orders/route.ts:14-20 | every valid item is accepted exactly as submitted |
| `OrdersRoute.ParseEncodeItems` | app/api/orders/route.ts:12-21 | every list of valid items is accepted exactly as submitted |
| `OrdersRoute.NullProductIdRefused` | app/api/orders/route.ts:15 | an item whose `product_id` is null is refused |
| `OrdersRoute.EncodeOrderRequired` | app/api/orders/route.ts:7-12 | the encoded body carries the name, e-mail, address and items under the schema's keys |
| `OrdersRoute.EncodeOrderOptional` | app/api/orders/route.ts:9-11 | an absent phone or promo code is an absent key, a present one a string |
| `OrdersRoute.EmptyOrderRefused` | app/api/orders/route.ts:12-22 | an order with no items is refused |
| `OrdersRoute.BadItemsRefused` | app/api/orders/route.ts:12-21 | one item that fails its schema fails the whole body |
| `OrdersRoute.SubtotalNonNegative` | app/api/orders/route.ts:31 | the subtotal is the sum of price times quantity, and is not negative for valid items |
| `OrdersRoute.SubtotalFromIsLineSum` | app/api/orders/route.ts:31 | the `reduce` from any start value adds the sum of price times quantity |
| `OrdersRoute.PriceWith` | app/api/orders/route.ts:33-46 | no code gives discount 0 and total = subtotal; an invalid code gives the evaluator's message; a valid one gives its discount; whenever priced, total + discount = subtotal |
| `OrdersRoute.TotalCanGoNegative` | app/api/orders/route.ts:44-45 | the total is not floored: a flat 20 off an order of 15 is charged -5 |
| `OrdersRoute.Welcome10Scenarios` | lib/database.ts:197-198 | the seed code on an order of 100 takes 10 off; on an order of 40 it is refused with its minimum of 50 |
| `OrdersRoute.RawCodeRefusedAtOrder` | app/api/orders/route.ts:37-38 | as written, "welcome10" passes the checkout preview but the route refuses the order with "not found" |
| `OrdersRoute.BlankCodeRefusedAtOrder` | app/api/orders/route.ts:37-41 | a code of white space alone is looked up as entered and the order is refused with "not found", while it trims to "", which the preview skips and the corrected route treats as no code |
| `OrdersRoute.PreviewAcceptsLowerCase` | lib/promo-discount.ts:19-21 | the checkout evaluator accepts "welcome10" for the seed code WELCOME10 |
| `OrdersRoute.ServerRefusesLowerCase` | lib/database-queries.ts:190-207 | the server evaluator answers "not found" for "welcome10" |
| `OrdersRoute.PriceOrderAgreesWithCheckout` | app/api/orders/route.ts:37-46 | with the correction, the order gets the promo exactly when the checkout preview accepted it, with the same discount |
| `OrdersRoute.NormalizedPromo` | app/api/orders/route.ts:37-38 | the corrected route hands on `trim().toUpperCase()` of a present code and nothing for an absent one |
| `OrdersRoute.OrderInputFor` | app/api/orders/route.ts:49-58 | `createOrder` receives the request's customer fields and items, the code it is given, the computed total and the discount |
| `OrdersRoute.Post` | app/api/orders/route.ts:25-76 | a body failing the schema is refused and nothing is written; a code the server rejects, looked up exactly as entered, is refused with its message and nothing is written; otherwise one order is appended whose total + discount is the subtotal, carrying the id of the row with exactly the entered code, with one item row per line, one more use on the rows with that code, and the products untouched |
| `OrdersRoute.PostCorrected` | app/api/orders/route.ts:37-58 | the corrected route: the same outcomes with the trimmed, upper-cased code validated, recorded and counted |
| `PromoValidateRoute.Post` | app/api/promo-codes/validate/route.ts:4-30 | a missing code or a falsy amount (0 included) is answered 400; a code that is not a string fails with 500; otherwise the answer is shaped from the server evaluator on the upper-cased code |
| `PromoValidateRoute.Answer` | app/api/promo-codes/validate/route.ts:14-25 | an invalid result forwards the message unchanged; a valid one returns the evaluator's discount and the record id |
| `PromoValidateRoute.ZeroAmountIsMissing` | app/api/promo-codes/validate/route.ts:8-10 | an order amount of 0 is treated as missing |
| `PromoValidateRoute.SurroundingSpaceNotTrimmed` | app/api/promo-codes/validate/route.ts:12 | the code is upper-cased but not trimmed: " SAVE20" is not found |
| `PromoValidateRoute.PreviewAgreesWithCheckout` | app/api/promo-codes/validate/route.ts:12-25 | for a code without surrounding space on a canonical table, the route and the checkout evaluator agree on validity and discount |
| `PromoValidateRoute.ReturnedIdNamesTheRow` | app/api/promo-codes/validate/route.ts:21-25 | the id returned belongs to a stored row whose code is the upper-cased input |
| `AdminPromoCodesRoute.ParsePromoCode` | app/api/admin/promo-codes/route.ts:5-16 | an accepted code is non-empty and stored upper-cased; the type is exactly "percentage" or "fixed"; value and minimum are non-negative, the minimum defaults to 0; a cap is at least 1; active defaults to true |
| `AdminPromoCodesRoute.ParseEncode` | app/api/admin/promo-codes/route.ts:5-16 | every record meeting those constraints is accepted exactly as submitted |
| `AdminPromoCodesRoute.CodeUpperCasedTypeExact` | app/api/admin/promo-codes/route.ts:6-10 | "save20" is stored as "SAVE20" with the defaults filled in; the type "Fixed" is refused |
| `AdminPromoCodesRoute.ParseIsCanonical` | app/api/admin/promo-codes/route.ts:5-16 | re-submitting a record the schema produced gives the same record |
| `AdminPromoCodesRoute.EncodeRequiredFields` | app/api/admin/promo-codes/route.ts:6-14 | the encoded record carries each required field under its schema key |
| `AdminPromoCodesRoute.EncodeOptionalFields` | app/api/admin/promo-codes/route.ts:13-15 | an absent cap or expiry is an absent key |
| `AdminPromoCodesRoute.Post` | app/api/admin/promo-codes/route.ts:18-35 | the answer is 400 exactly when the schema fails, and otherwise carries a well-formed record |
| `AdminProductsRoute.ParseProduct` | app/api/admin/products/route.ts:5-16 | an accepted product has a non-empty name, category and brand, price and stock at least 0, string sizes and colours; stock defaults to 0 and featured to false |
| `AdminProductsRoute.ParseEncode` | app/api/admin/products/route.ts:5-16 | every product meeting those constraints is accepted exactly as submitted |
| `AdminProductsRoute.RequiredFieldsEnforced` | app/api/admin/products/route.ts:8-11 | an empty brand or a negative price is refused |
| `AdminProductsRoute.EncodeTextFields` | app/api/admin/products/route.ts:6-13 | the encoded product carries each text field under its schema key |
| `AdminProductsRoute.EncodeOtherFields` | app/api/admin/products/route.ts:7-15 | price, stock and featured are encoded, and an absent description or image is an absent key |
| `AdminProductsRoute.Post` | app/api/admin/products/route.ts:18-35 | the answer is 400 exactly when the schema fails, and otherwise carries a well-formed product |
| `CheckoutModal.CheckoutModal.FinalTotal` | components/checkout-modal.tsx:52-58 | with a positive applied discount the total is the subtotal minus it, floored at 0; otherwise it is the subtotal; for a non-negative subtotal it lies between 0 and the subtotal |
| `CheckoutModal.CheckoutModal.constructor` | components/checkout-modal.tsx:41-50 | the dialog starts with no code, no discount, nothing applied, no message and an empty form |
| `CheckoutModal.CheckoutModal.SetCustomerInfo` | components/checkout-modal.tsx:249-276 | a form edit changes the customer fields and nothing else |
| `CheckoutModal.PromoOutcome` | components/checkout-modal.tsx:60-68 | when the code is not blank the result is the checkout evaluator's on the cart total |
| `CheckoutModal.CheckoutModal.ApplyPromo` | components/checkout-modal.tsx:60-89 | a blank code changes nothing; a valid result sets the discount and applied; an invalid one resets both; the message is recorded |
| `CheckoutModal.IgnoredIffBlank` | components/checkout-modal.tsx:61 | the code is ignored exactly when it is all white space |
| `CheckoutModal.CheckoutModal.OnPromoInput` | components/checkout-modal.tsx:223-228 | editing the code clears the applied flag, the discount and the message |
| `CheckoutModal.CheckoutModal.LoadPromoCodes` | components/checkout-modal.tsx:25-38 | the loaded records are the rows with `active` mapped to `is_active` |
| `CheckoutModal.CheckoutModal.SubmitOrder` | components/checkout-modal.tsx:91-124 | an incomplete form sends nothing; otherwise the body carries the entered code whether or not it was applied, and the cart is cleared only on success |
| `CheckoutModal.SubmittedOrderAccepted` | components/checkout-modal.tsx:103-120 | a complete form and a non-empty cart of numeric ids give a body the order route accepts, with the cart's lines and a subtotal equal to the cart total |
| `CheckoutModal.NonNumericIdRefused` | components/checkout-modal.tsx:112-118 | a cart line whose id is not a number is sent as a null product id, and the order route refuses the whole order |
| `CheckoutModal.NullIdItemRefused` | components/checkout-modal.tsx:113 | a line whose id does not parse is sent with a null product id, which the item schema refuses |
| `CheckoutModal.PayloadIsEncoded` | components/checkout-modal.tsx:106-119 | the body sent is the order route's encoding of the request the form and cart describe |
| `CheckoutModal.RequestIsValid` | components/checkout-modal.tsx:92-119 | that request meets every constraint of the order schema |
| `CheckoutModal.SubtotalIsCartTotal` | components/checkout-modal.tsx:52 | the route's subtotal of the sent items equals the cart's `getTotal()` |
| `CheckoutModal.LineSumsAgree` | components/checkout-modal.tsx:112-118 | items with the same prices and quantities have the same line sum on both sides |
| `CartLines.AddExisting` | components/cart-context.tsx:60-68 | adding an existing key keeps the length, adds the quantity to that line, and leaves every other line unchanged |
| `CartLines.AddNew` | components/cart-context.tsx:69-71 | adding a new key appends it at the end |
| `CartLines.RemoveKeepsOthers` | components/cart-context.tsx:75-79 | removal keeps every other line, in order and as often as before, and drops the key |
| `CartLines.UpdateQuantity` | components/cart-context.tsx:81-91 | a quantity of 0 or less removes the key; otherwise only the key's line gets the new quantity |
| `CartLines.OperationsKeepKeysUnique` | components/cart-context.tsx:58-93 | add, remove and update keep at most one line per key |
| `CartLines.TotalAppend` | components/cart-context.tsx:95-97 | an empty cart totals 0 and appending a line adds its price times quantity |
| `CartLines.RemoveItem` | components/cart-context.tsx:75-79 | no line with the key remains |
| `CartLines.SetQuantity` | components/cart-context.tsx:85-90 | same length; lines with the key get the quantity, the others are unchanged |
| `CartLines.LineSumAppend` | components/cart-context.tsx:95-97 | the sum over two carts joined is the sum of their sums |
| `CartLines.TotalFromIsLineSum` | components/cart-context.tsx:95-97 | the `reduce` from any start value adds the sum of price times quantity |
| `CartLines.LineSumMerge` | components/cart-context.tsx:60-68 | merging adds the new quantity at the price of each line it lands on |
| `CartLines.MergedAmountUnique` | components/cart-context.tsx:60-68 | with one line per key, the merge adds the new quantity at that line's price |
| `CartLines.AddItemTotal` | components/cart-context.tsx:58-73 | adding raises the total by the added quantity at the price of the line it lands on |
| `CartContext.CartProvider.AddItem` | components/cart-context.tsx:58-73 | the cart becomes the merged or appended list, and keeps at most one line per key |
| `CartContext.CartProvider.constructor` | components/cart-context.tsx:48 | the cart starts empty |
| `CartContext.CartProvider.RemoveItem` | components/cart-context.tsx:75-79 | the cart loses exactly the key's lines |
| `CartContext.CartProvider.UpdateQuantity` | components/cart-context.tsx:81-91 | a non-positive quantity removes, otherwise the key's quantity is set |
| `CartContext.CartProvider.ClearCart` | components/cart-context.tsx:93 | the cart becomes empty |
| `CartContext.CartProvider.GetTotal` | components/cart-context.tsx:95-97 | the fold equals the sum of price times quantity |
| `UseCart.UseCart.AddItem` | hooks/use-cart.ts:50-66 | the cart becomes the merged or appended list, and keeps at most one line per key |
| `UseCart.UseCart.constructor` | hooks/use-cart.ts:38 | the cart starts empty |
| `UseCart.UseCart.RemoveItem` | hooks/use-cart.ts:68-72 | the cart loses exactly the key's lines |
| `UseCart.UseCart.UpdateQuantity` | hooks/use-cart.ts:74-85 | a non-positive quantity removes, otherwise the key's quantity is set |
| `UseCart.UseCart.ClearCart` | hooks/use-cart.ts:87 | the cart becomes empty |
| `UseCart.UseCart.GetTotal` | hooks/use-cart.ts:89-91 | the fold equals the sum of price times quantity |
| `PromoCodeContext.MapPromo` | components/admin/promo-code-context.tsx:30-33 | every field but `active` is kept and `is_active` is its truthiness |
| `PromoCodeContext.MapPromoForgetsOnlyFlagEncoding` | components/admin/promo-code-context.tsx:30-33 | two rows map alike exactly when they differ at most in how the flag is stored |
| `PromoCodeContext.MapAll` | components/admin/promo-code-context.tsx:34-37 | mapping keeps length and order, element by element |
| `PromoCodeContext.UpdateById` | components/admin/promo-code-context.tsx:43-45 | same length; records with the id are merged with the updates, the others are unchanged |
| `PromoCodeContext.DeleteKeepsOthers` | components/admin/promo-code-context.tsx:47-49 | deletion keeps every other record in order and removes every record with the id |
| `PromoCodeContext.AddThenDelete` | components/admin/promo-code-context.tsx:39-49 | adding a record with a new id and deleting that id restores the list |
| `PromoCodeContext.EmptyUpdateIsIdentity` | components/admin/promo-code-context.tsx:43-45 | an update with no fields leaves the list as it was |
| `PromoCodeContext.PromoCodeContext.constructor` | components/admin/promo-code-context.tsx:34 | the state starts as the mapped initial rows |
| `PromoCodeContext.PromoCodeContext.AddPromoCode` | components/admin/promo-code-context.tsx:39-41 | the mapped record goes first and the rest is the old list |
| `PromoCodeContext.PromoCodeContext.SetPromoCodes` | components/admin/promo-code-context.tsx:37 | the list becomes the mapped rows |
| `PromoCodeContext.PromoCodeContext.UpdatePromoCode` | components/admin/promo-code-context.tsx:43-45 | the list becomes the merged list |
| `PromoCodeContext.PromoCodeContext.DeletePromoCode` | components/admin/promo-code-context.tsx:47-49 | the list loses the records with the id |
| `OrderContext.UpdateOrderById` | components/admin/order-context.tsx:31-33 | same length; orders with the id are merged, the others are unchanged |
| `OrderContext.MergeOrder` | components/admin/order-context.tsx:32 | a given status replaces the old one, an absent one keeps it, and an empty update changes nothing |
| `OrderContext.DeleteOrderKeepsOthers` | components/admin/order-context.tsx:35-37 | deletion keeps every other order in order, removes the id, and changes nothing when no order has it |
| `OrderContext.AddThenDeleteOrder` | components/admin/order-context.tsx:27-37 | adding an order with a new id and deleting that id restores the list |
| `OrderContext.OrderProvider.constructor` | components/admin/order-context.tsx:24-25 | the state starts as the initial orders |
| `OrderContext.OrderProvider.Empty` | components/admin/order-context.tsx:24-25 | without initial orders the state starts empty |
| `OrderContext.OrderProvider.AddOrder` | components/admin/order-context.tsx:27-29 | the new order is first and the length grows by one |
| `OrderContext.OrderProvider.SetOrders` | components/admin/order-context.tsx:25 | the list becomes the given orders |
| `OrderContext.OrderProvider.UpdateOrder` | components/admin/order-context.tsx:31-33 | the list becomes the merged list |
| `OrderContext.OrderProvider.DeleteOrder` | components/admin/order-context.tsx:35-37 | the list loses the orders with the id |
| `AddProductModal.ParseList` | components/admin/add-product-modal.tsx:75-82 | the parsed list holds no empty string |
| `AddProductModal.ElementsTrimmed` | components/admin/add-product-modal.tsx:75-82 | every element is its own trim and holds no comma |
| `AddProductModal.ParseAroundComma` | components/admin/add-product-modal.tsx:75-82 | the items follow comma order: text around a comma parses as the left part's items then the right part's |
| `AddProductModal.BlankGivesNothing` | components/admin/add-product-modal.tsx:75-82 | an empty or all-blank input gives no items |
| `AddProductModal.NoCommaGivesOne` | components/admin/add-product-modal.tsx:75-82 | a non-blank input without a comma gives its single trimmed item |
| `AddProductModal.TrimAll` | components/admin/add-product-modal.tsx:75-82 | each piece is trimmed, in order |
| `AddProductModal.TrimAllAppend` | components/admin/add-product-modal.tsx:75-82 | trimming two lists joined is joining their trimmed lists |
| `ProductsTab.FilteredProductsExactly` | components/admin/products-tab.tsx:39-45 | the result is an order-preserving subsequence holding a product exactly when its name or brand contains the search, ignoring case, and its category matches |
| `ProductsTab.InitialShowsAll` | components/admin/products-tab.tsx:35-45 | an empty search in "all" shows every product |
| `ProductsTab.SearchCaseInsensitive` | components/admin/products-tab.tsx:40-42 | searches that lower-case alike filter alike |
| `ProductsTab.ProductCaseInsensitive` | components/admin/products-tab.tsx:40-42 | the case of the name and brand does not matter |
| `ProductsTab.NoBrandMatchesByName` | components/admin/products-tab.tsx:40-42 | a product without a brand matches by its name alone |
| `ProductsTab.FilteredProducts` | components/admin/products-tab.tsx:39-45 | every product shown matches the search and the category |
| `OrdersTab.FilteredOrdersExactly` | components/admin/orders-tab.tsx:28 | "all" keeps every order; any other status keeps exactly the orders with it, in order |
| `OrdersTab.StatusColor` | components/admin/orders-tab.tsx:58-70 | the colour is grey exactly for a status outside the five known ones |
| `OrdersTab.StatusColorInjective` | components/admin/orders-tab.tsx:58-70 | the five known statuses have five distinct colours, none of them grey |
| `OrdersTab.Capitalize` | components/admin/orders-tab.tsx:102 | only the first character is upper-cased; the rest and the length are kept |
| `OrdersTab.CapitalizeIdempotent` | components/admin/orders-tab.tsx:102 | capitalising twice is capitalising once |
| `OrdersTab.FilteredOrders` | components/admin/orders-tab.tsx:28 | every order shown has the selected status, or "all" is selected |
| `AdminDashboard.RevenueOfAddedOrder` | components/admin/admin-dashboard.tsx:42 | no orders give 0; each order adds its amount, and a missing amount adds nothing |
| `AdminDashboard.RevenueNonNegative` | components/admin/admin-dashboard.tsx:42 | with no negative amounts the revenue is not negative |
| `AdminDashboard.PendingOrdersCounts` | components/admin/admin-dashboard.tsx:43 | the pending count is the size of the orders tab's "pending" view, 0 exactly when none is pending and all exactly when all are |
| `AdminDashboard.ActiveCounts` | components/admin/admin-dashboard.tsx:44-45 | the active product and promo counts are 0 exactly when none is active and full exactly when all are |
| `AdminDashboard.PendingOrders` | components/admin/admin-dashboard.tsx:43 | the pending count is at most the number of orders |
| `AdminDashboard.ActiveProducts` | components/admin/admin-dashboard.tsx:44 | the active product count is at most the number of products |
| `AdminDashboard.ActivePromoCodes` | components/admin/admin-dashboard.tsx:45 | the active promo count is at most the number of promo codes |
| `AdminDashboard.RevenueFromIsSum` | components/admin/admin-dashboard.tsx:42 | the `reduce` from any start value adds the sum of the amounts |
| `ProductGrid.Render` | components/product-grid.tsx:21-31 | an empty list shows "No products found"; otherwise the cards are a permutation of the products with ids non-increasing |
| `ProductGrid.SortByIdDescending` | components/product-grid.tsx:31 | the sorted copy has non-increasing ids and is a permutation of the input |
| `ProductGrid.SortedInputUnchanged` | components/product-grid.tsx:31 | a list already in descending id order is shown as it is |
| `ProductGrid.Insert` | components/product-grid.tsx:31 | inserting adds exactly the one product |
| `ProductGrid.InsertDescending` | components/product-grid.tsx:31 | inserting into a descending list keeps it descending |
| `ProductModal.CartLineFor` | components/product-modal.tsx:53-61 | the cart line carries the product id as a string that parses back to it, the chosen size, colour and quantity, and the product's name, price and image |
| `ProductModal.CartLineIdsDistinguishProducts` | components/product-modal.tsx:53-61 | two products share a cart line only if they have the same id |
| `ProductModal.ProductModal.constructor` | components/product-modal.tsx:34-36 | nothing is selected and the quantity starts at 1 |
| `ProductModal.ProductModal.Decrement` | components/product-modal.tsx:128 | the quantity never drops below 1; from 1 it stays at 1 |
| `ProductModal.ProductModal.SelectSize` | components/product-modal.tsx:99 | choosing a size changes only the size |
| `ProductModal.ProductModal.SelectColor` | components/product-modal.tsx:115 | choosing a colour changes only the colour |
| `ProductModal.ProductModal.Increment` | components/product-modal.tsx:132 | the quantity grows by exactly 1 |
| `ProductModal.ProductModal.AddToCart` | components/product-modal.tsx:43-61 | without a size or a colour the cart is untouched; otherwise the line is added |
| `UploadImage.Sanitize` | app/api/upload-image/route.ts:16 | the sanitised name holds only letters, digits, `.`, `-` and `_`, so no slash or backslash |
| `UploadImage.SanitizeKeepsAllowed` | app/api/upload-image/route.ts:16 | allowed characters are kept in order and count, the others removed; sanitising is idempotent and leaves a clean name as it is |
| `UploadImage.FileNameAllowed` | app/api/upload-image/route.ts:16 | the stored file name holds only allowed characters |
| `UploadImage.FileNameTimestamp` | app/api/upload-image/route.ts:16 | the timestamp's digits are followed by a hyphen, and `parseInt` of the file name gives back the timestamp |
| `UploadImage.Post` | app/api/upload-image/route.ts:7-20 | the answer is 400 exactly when no file was sent; otherwise the file written is the timestamped, sanitised name and the URL is "/" followed by it |
| `Text.TrimIdempotent` | lib/promo-discount.ts:20 | trimming twice is trimming once |
| `Text.TrimEmptyIffBlank` | components/checkout-modal.tsx:61 | `trim()` is empty exactly for an all-white-space string |
| `Text.TrimToUpperCommute` | lib/promo-discount.ts:20 | trimming and upper-casing commute |
| `Text.ToUpperIdempotent` | app/api/admin/promo-codes/route.ts:9 | upper-casing twice is upper-casing once |
| `Text.ParseIntOfIntToString` | components/checkout-modal.tsx:113 | `parseInt(String(i))` recovers any integer `i` |
| `Text.JoinSplit` | components/admin/add-product-modal.tsx:75-76 | joining the pieces of a split gives back the string |
| `Text.SplitJoin` | components/admin/add-product-modal.tsx:75-76 | splitting a join of comma-free pieces gives back the pieces |

## Findings

| source | as written | input that shows it | evidently intended | confidence | as-written member | corrected member |
|---|---|---|---|---|---|---|
| app/api/orders/route.ts:37-38 | the order route sends the code to the server evaluator exactly as typed, and that evaluator matches it exactly, while the checkout preview trims and upper-cases it first | a WELCOME10 row with the seed values but no expiry (the seed's own row expired at the end of 2024), "welcome10" typed at checkout and an order of 100: the preview accepts it, the order is refused with "Promo code not found"; a code of two spaces is likewise refused at order time | validate (and record) the trimmed, upper-cased code, so an order gets the promo the preview showed | not executed; follows from the code at the cited lines | `OrdersRoute.RawCodeRefusedAtOrder`, `OrdersRoute.Post` | `OrdersRoute.PriceOrderAgreesWithCheckout`, `OrdersRoute.PostCorrected` |

`OrdersRoute.Post` is the route as written: it prices the order with
`OrdersRoute.PriceOrderAsWritten` and hands the code to `createOrder` as
entered. `OrdersRoute.PostCorrected` is the corrected route: it prices with
`OrdersRoute.PriceOrder` and hands on the normalised code.

## Left out

- HTTP and React plumbing are not modelled. This covers `fetch`,
  `NextResponse`, rendering, toasts, the loading flag, the 300 ms `setTimeout`
  of the checkout, and the confirmation e-mail sent after an order.
- Cart persistence in `localStorage` (load on mount, save on change) is not
  modelled. Both cart stores start empty.
- The SQL text, the schema DDL, file reads and seeding of `lib/database.ts` are
  not modelled. The tables are sequences of rows. The `UNIQUE(code)` and
  primary-key constraints are kept as the `Store` invariant. The seed rows
  appear only as concrete scenarios, and without their 2024 expiry dates.
- `createOrder` also writes a `subtotal` column that the route never passes.
  That column is not modelled. The `promo_code_id` column is modelled as the
  INSERT writes it, although the fallback `orders` DDL in `lib/database.ts`
  does not declare it.
- The admin PATCH routes that call `updatePromoCode` and `updateProduct` are
  not modelled. The model shows the update throwing; the routes turn that into
  a 500 answer.
- `DatabaseQueries.Store.UpdatePromoCode` and `DatabaseQueries.Store.UpdateProduct`
  record a key that names no column by its name only, not its value. Of the
  values better-sqlite3 refuses to bind, only booleans in the flag columns are
  modelled.
- Concurrency is not modelled. Each call is atomic, so the check-then-act race
  between validating a code and counting its use is out of scope.
- Floating point is not modelled. Money is exact `real` arithmetic, so
  `toFixed` formatting and rounding are out.
- `parseFloat` of the dashboard's amounts is not modelled: an amount is a
  number or absent.
- `JSON.stringify` of sizes and colours is not modelled. The add-product
  modal's parsing stops at the list of strings.
- Date handling is not modelled: `expires_at` is an integer timestamp, and
  date-string parsing and `new Date()` are replaced by the `now` parameter.
- zod internals are not modelled, only the constraints each schema states.
  zod's e-mail pattern is the parameter `isEmail`. Unknown keys are dropped
  and a JSON `null` never passes an optional field.
- `MessageText` renders the minimum-order message with a number-rendering
  parameter. JavaScript's number-to-string conversion is not modelled.
- Case mapping covers ASCII letters only. Full Unicode case mapping is not
  modelled.
- The regular expression of the upload route is the character class it
  matches. The file contents and `writeFile` are not modelled.
- The checkout's `subtotal` local is always equal to the regular subtotal. It
  is folded into `FinalTotal`, which takes the cart total as a parameter.
- `CheckoutModal.CheckoutModal.SubmitOrder`: the server's verdict is a
  parameter (`serverAccepted`). The e-mail request and error toasts are left
  out.
- The client's `PromoCode` interface types `id` as a string while the backend
  rows carry numbers. The model uses the backend's integer ids for promo codes
  and string ids for admin orders, as each list is compared.
- `PromoValidateRoute.Post`: `orderAmount` is a number or absent. A
  non-number amount reaching the comparisons is not modelled.
