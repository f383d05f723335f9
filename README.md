# Cart pricing and coupon assignment

This project models the shopping-bag view of the shop front end (`src/cart/Cart.js`). The view keeps five pieces of state:

- the stored cart lines (product id and quantity);
- the product details fetched for them;
- the set of checked rows;
- the list of applied coupons, each tagged with the product it sits on;
- the stored total discount.

Its handlers change this state. Pure reductions derive the figures shown from it: the total discount, the subtotal, the discounted total, the shipping fee, the amount due, and the per-line order summary.

Modules, one per file:

- `CartTypes` (`types.dfy`): lines, product details, coupons as the tagged variant `Amount(value) | Percent(percentage)`, assignments of a coupon to a product, and the two alert notices. `Price` gives a missing product's price as 0, as `productDetails[id]?.price || 0` does.
- `Sequences` (`sequences.dfy`): the order-preserving `filter` used throughout, and key uniqueness.
- `CartLines` (`lines.dfy`): the cart as the storage changes it. A product is removed by filtering on its id, several are removed one at a time, and a quantity is set.
- `Assignments` (`assignments.dfy`): the applied-coupon list and the three-step conflict resolution of `handleApplyCoupon`.
- `Pricing` (`pricing.dfy`): the discount and subtotal `reduce`s, `getTotalPrice`, `calculateShippingCost`, the amount due, and the `handleOrder` line map.
- `Engine` (`engine.dfy`): the class `CartEngine`. It has the view's state as fields and one method per handler. Its ghost predicate `Valid` is kept by every handler: one line per product, no product with two coupons, no coupon on two products, and only cart products selected.
- `Scenarios` (`scenarios.dfy`): small carts with their figures worked out, and the scenarios that show the findings below.

Prices and quantities are unbounded integers. A percentage discount `price * percentage / 100` is an exact `real`, and so is every total that includes it.

How the model stands in for the parts it does not contain:

- The cart storage module is not part of this model. Its cart is the field `cart`: `removeFromCart(id)` filters the line out, and `clearCart()` empties it.
- The stored cart is assumed to hold one line per product: the constructor requires it. The code that guarantees this is in the storage module. Every handler keeps the property.
- The storage's answer to `updateCartQuantity` is the parameter `accepted` of `ChangeQuantity`.
- The cart count `useCartCount()` is taken to be the number of lines.
- The product fetch is the parameter `fetched` of `LoadProductDetails`.

## Behaviour as written

Three behaviours of the code are stated as they are written:

- **Shipping is tested before discounts.** `calculateShippingCost` tests `getTotalPrice() + totalDiscount`, which is the subtotal before any discount. `Pricing.ShippingCost` states this as its contract. With two units at 10000 and a 3000 coupon, the discounted total is 17000. No fee is charged, because the undiscounted subtotal is 20000, so 17000 is due (`Scenarios.AmountCouponShipsFree`).
- **The amount due is not clamped.** For a non-empty cart, the amount shown is the discounted total plus shipping. It goes negative exactly when the discount exceeds the subtotal plus shipping (`Pricing.GrandTotal`, `Scenarios.AmountDueCanBeNegative`).
- **Missing details stop the order summary.** `handleOrder` reads `productDetails[id].price` without a fallback, which throws where details are missing. The model returns `Failure(MissingDetails(id))` for the first such line (`Pricing.OrderLines`).

## Model

| member | source | states |
|---|---|---|
| Sequences.Filter | src/cart/Cart.js:140 | the result has no more elements than the input; every element it has is in the input and passes the test; every input element that passes is kept; order and multiplicity are fixed by `FilterSingle` and `FilterAppend` |
| Sequences.FilterSingle | src/cart/Cart.js:140 | a one-element list is kept whole when its element passes the test, and emptied when it does not |
| Sequences.FilterAppend | src/cart/Cart.js:140 | filtering a concatenation is filtering each part, with the parts kept in order, so filtering never reorders or merges elements |
| CartLines.Ids | src/cart/Cart.js:67 | the product set of the cart holds exactly the ids of its lines |
| CartLines.SetQuantity | src/cart/Cart.js:80-86 | a quantity update keeps the number, order and ids of the lines; the line of the given product gets the new quantity and every other line keeps its own |
| CartLines.IdsWithoutIds | src/cart/Cart.js:72-78 | removing a set of products takes exactly those products out of the cart's product set |
| CartLines.RemoveOneMore | src/cart/Cart.js:73-75 | removing one more product after a set of them is removing the enlarged set, so the removal loop may take the selection in any order |
| CartLines.RemoveTwice | src/cart/Cart.js:42 | removing a product a second time leaves the cart as the first removal left it |
| CartLines.SetQuantityAbsent | src/cart/Cart.js:80-86 | a quantity update for a product with no line leaves the cart unchanged |
| CartLines.SelectionSize | src/cart/Cart.js:63-70 | for a selection of cart products, the size test `selectedItems.size === cart.length` holds exactly when every product is selected |
| Assignments.DropProduct | src/cart/Cart.js:50 | the assignments kept are exactly those on other products |
| Assignments.DropCoupon | src/cart/Cart.js:140 | the assignments kept are exactly those carrying other coupons |
| Assignments.Unrelated | src/cart/Cart.js:136-154 | the assignments kept are exactly those that neither carry the coupon nor sit on the target |
| Assignments.FirstElsewhere | src/cart/Cart.js:134 | the duplicate check finds nothing exactly when the coupon is on no other product; what it finds carries the coupon on another product and is the earliest such assignment |
| Assignments.FirstOn | src/cart/Cart.js:145 | the existing-coupon check finds nothing exactly when no assignment is on the product; what it finds is the earliest assignment on it |
| Assignments.Resolved | src/cart/Cart.js:134-154 | after applying a coupon to a product, the new assignment comes last; exactly one assignment carries the coupon's id and exactly one sits on the product, and both are the new one; the ones before it are the unrelated assignments, in their original order |
| Assignments.UnrelatedAppend | src/cart/Cart.js:136-154 | the unrelated assignments of a concatenation are those of each part, part by part, so applying a coupon never reorders the assignments it keeps |
| Assignments.UnrelatedSingle | src/cart/Cart.js:136-154 | a single assignment is kept exactly when it neither carries the coupon nor sits on the target |
| Assignments.DropCouponThenProduct | src/cart/Cart.js:139-149 | dropping the coupon's assignments and then the target's leaves exactly the unrelated assignments, in order |
| Assignments.DropProductOnly | src/cart/Cart.js:145-149 | when no other product holds the coupon, dropping the target's assignments alone leaves the unrelated assignments |
| Assignments.DropAbsentProduct | src/cart/Cart.js:148-151 | when nothing sits on the target, the second filter changes nothing |
| Assignments.DropProductTwice | src/cart/Cart.js:50 | dropping a product's coupons twice is dropping them once |
| Assignments.DropProductKeepsWellAssigned | src/cart/Cart.js:50 | dropping a product's coupons keeps both uniqueness invariants |
| Assignments.ResolvedKeepsWellAssigned | src/cart/Cart.js:134-154 | applying a coupon keeps both uniqueness invariants: no product with two coupons, no coupon on two products |
| Assignments.ReplacedNotice | src/cart/Cart.js:144-151 | the second step finds an assignment on the target exactly when one carries another coupon, or carries this one while no other product holds it |
| Assignments.ResolveInSteps | src/cart/Cart.js:133-155 | the three steps, in the source's order, yield the resolved list; a "moved" notice comes first exactly when another product held the coupon, and names the first such assignment's coupon; a "replaced" notice comes last exactly when the target still carried a coupon after step one, and names the first assignment on the target left by step one; there are no other notices |
| CartTypes.Price | src/cart/Cart.js:174 | a product's unit price is its fetched price, and it is 0 exactly when the product has no fetched details or is priced 0, as the source's fallback to 0 gives |
| Pricing.UnitDiscount | src/cart/Cart.js:160 | an amount coupon takes its value, whatever the price; a percentage coupon takes the given share of one unit's price, and at most 100% of it takes between nothing and that price |
| Pricing.DiscountReduce | src/cart/Cart.js:158-162 | the discount `reduce` started at a total ends at that total plus the sum over assignments of their unit discounts, with a missing price counting as 0 and the quantity not used |
| Pricing.SubtotalReduce | src/cart/Cart.js:173-176 | the subtotal `reduce` ends at its start plus the sum of unit price times quantity, with a missing price counting as 0 |
| Pricing.TotalPrice | src/cart/Cart.js:172-179 | `getTotalPrice` is the subtotal `reduce` from 0 less the stored total discount |
| Pricing.UnpricedLineAddsNothing | src/cart/Cart.js:174 | a line whose product has no fetched details adds nothing to the subtotal |
| Pricing.ResolvedDiscount | src/cart/Cart.js:154-164 | after a coupon is applied, the recomputed discount is that of the untouched assignments plus the new coupon's discount on one unit of the target |
| Pricing.SubtotalAfterQuantityChange | src/cart/Cart.js:80-86 | a quantity change moves the subtotal by the unit price times the change in quantity |
| Pricing.SubtotalAfterRemoval | src/cart/Cart.js:40-43 | removing a line takes exactly its price times quantity off the subtotal |
| Pricing.ShippingCost | src/cart/Cart.js:210-216 | shipping is 0 for an empty cart; otherwise it is 2500 when the subtotal before discounts is below 20000, and 0 when it is not; the stored discount does not change it |
| Pricing.GrandTotal | src/cart/Cart.js:378-382 | the amount due is 0 for an empty cart; otherwise it is negative exactly when the discount exceeds the subtotal plus shipping |
| Pricing.OrderLineFor | src/cart/Cart.js:184-202 | an entry copies the line's id and quantity and the product's name and price, and gives the price times quantity as the original total; it records a coupon exactly when one sits on the product, namely the first one, whose discount on one unit comes off the original total; with no coupon, the name and id are absent and the total is not discounted |
| Pricing.OrderLines | src/cart/Cart.js:183-203 | the summary succeeds exactly when every line has details, and then has one entry per line, in order, computed as for that line; on failure it names the first line without details |
| Pricing.OrderSumIsSubtotalLessLineDiscounts | src/cart/Cart.js:187-191 | the summary's discounted totals add up to the subtotal less each line's first-found coupon discount |
| Pricing.LinesDiscountIsTotal | src/cart/Cart.js:185-189 | with one line per product, at most one coupon per product and every coupon on a cart line, the per-line discounts add up to the recomputed total discount |
| Pricing.OrderMatchesTotalPrice | src/cart/Cart.js:183-203 | under those conditions, the summary's discounted totals add up to `getTotalPrice` with the recomputed discount |
| Pricing.OrderRecordsCoupon | src/cart/Cart.js:185-201 | each summary entry records the coupon on its product, its name and id, and that coupon's discount on one unit taken off the line total |
| Pricing.OrderRecordsNoCoupon | src/cart/Cart.js:189-201 | a summary entry whose product carries no coupon has no coupon name or id, and its discounted total equals its original total |
| Engine.RemoveEach | src/cart/Cart.js:73-75 | removing the selected products one at a time, in any order, leaves the cart without exactly those products |
| Engine.CartEngine.constructor | src/cart/Cart.js:10-21 | the view starts with the stored cart and nothing fetched, selected or applied |
| Engine.CartEngine.LoadProductDetails | src/cart/Cart.js:23-38 | for a non-empty cart, the details become what was fetched for the cart's products; nothing else changes |
| Engine.CartEngine.RemoveFromCart | src/cart/Cart.js:40-51 | the line, its selection and exactly its product's coupons go; the stored discount and details stay; the invariants are kept |
| Engine.CartEngine.RemoveFromCartAndRecompute | src/cart/Cart.js:40-51 | the same removal, after which the stored discount is again the recomputed one |
| Engine.CartEngine.ClearCart | src/cart/Cart.js:54-61 | the cart, details, selection and coupons are emptied and the discount is 0 |
| Engine.CartEngine.SelectAll | src/cart/Cart.js:63-70 | the selection is cleared when every product was selected, and becomes every product otherwise |
| Engine.CartEngine.ToggleSelected | src/cart/Cart.js:263-271 | a row's checkbox flips that product's membership in the selection and changes nothing else |
| Engine.CartEngine.RemoveSelected | src/cart/Cart.js:72-78 | the selected products leave the cart and the selection is cleared; the coupons and stored discount stay as they were |
| Engine.CartEngine.RemoveSelectedWithCoupons | src/cart/Cart.js:72-78 | the same removal, which also drops the removed products' coupons, keeps every coupon on a cart line and recomputes the discount |
| Engine.CartEngine.ChangeQuantity | src/cart/Cart.js:80-86 | an accepted change sets the product's quantity, and a refused one changes nothing; the products, coupons and stored discount never change |
| Engine.CartEngine.ApplyCoupon | src/cart/Cart.js:129-169 | the coupon list becomes the resolved list, with both invariants kept; the stored discount is recomputed to the untouched assignments' discount plus the new coupon's on one unit; the cart, details and selection stay; the notices are as for `ResolveInSteps` |
| Scenarios.AmountCouponShipsFree | src/cart/Cart.js:210-216 | two units at 10000 with a 3000 coupon: discount 3000, subtotal 20000, no shipping, 17000 due |
| Scenarios.PercentCouponOnUnitPrice | src/cart/Cart.js:158-162 | three units at 5000 with a 10% coupon: discount 500, not 1500; subtotal 15000, 2500 shipping, 17000 due |
| Scenarios.EmptyCartOwesNothing | src/cart/Cart.js:378-379 | an empty cart ships free and owes 0, whatever the stored discount |
| Scenarios.AmountDueCanBeNegative | src/cart/Cart.js:381 | a 5000 coupon on one unit at 1000 leaves -1500 due |
| Scenarios.MoveToOtherProduct | src/cart/Cart.js:134-142 | a coupon on p1 applied to p2 ends on p2 alone, with one "moved" notice naming it |
| Scenarios.ReplaceOnProduct | src/cart/Cart.js:144-151 | a second coupon applied to p2 replaces the first, with one "replaced" notice naming the first |
| Scenarios.StaleDiscountAfterRemoval | src/cart/Cart.js:40-51 | in a cart of 10000 and 8000 with a 3000 coupon on the first product, after removing the couponed line, the stored discount is 3000 while the recomputed one is 0, and 5000 is shown for an 8000 cart |
| Scenarios.RecomputedDiscountAfterRemoval | src/cart/Cart.js:40-51 | with the discount recomputed, 0 is stored and 8000 is shown |
| Scenarios.OrphanedCouponAfterRemoveSelected | src/cart/Cart.js:72-78 | after removing the selected couponed line, the coupon still sits on a product with no line and still counts 3000 |
| Scenarios.CouponDroppedWithSelection | src/cart/Cart.js:72-78 | with the removed products' coupons dropped, no coupon is left and the discount is 0 |

## Left out

- Rendering, hooks and effect scheduling, formatting and console logging are left out. The two `alert`s are modelled as the returned notices.
- The modal's `currentProduct` is not modelled: the target product is a parameter of `ApplyCoupon`. The source would throw there if no product were open, and the model does not capture that case.
- The cart storage module (`getCart`, `removeFromCart`, `clearCart`, `updateCartQuantity`, `useCartCount`, `fetchProduct`) is not part of this model. As described above, its cart is the `cart` field, and its answers and fetches are parameters. Its persistence, its asynchrony and any rule of its own on quantities are not modelled.
- Engine.CartEngine.constructor: requires the stored cart to hold one line per product. The storage module that would guarantee this is not part of this model, so a cart with two lines for one product is not covered.
- Engine.CartEngine.LoadProductDetails: the products are fetched one by one and asynchronously. The model takes the fetched details as one map, so the effect's interleaving with other handlers is not modelled.
- The coupon fetch over HTTP, the bearer token and its refresh are network I/O, and so are left out. So are the page reload and the two `localStorage` writes of `handleOrder`, which are storage I/O.
- JavaScript floating point is not modelled, since the model's arithmetic is exact. So is the discount-percentage badge, a floor of a floating-point ratio that only the display uses.
- The coupon's `type` string is replaced by a tagged variant. Any type other than `'AMOUNT'` is read as a percentage, just as the source's `else` branch reads it.
- The other source files (product admin, product section, category admin, coupon list) are form, list and pagination views around network calls. They are not part of this model.

## Findings

| source | as written | input that shows it | evidently intended | confidence | as-written member | corrected member |
|---|---|---|---|---|---|---|
| src/cart/Cart.js:40-51 | removing a line drops its product's coupons but leaves `totalDiscount` as it was | cart of product 1 (10000) and product 2 (8000); a 3000 amount coupon on product 1; remove product 1 | the stored discount is recomputed from the remaining coupons, as `handleApplyCoupon` does, so 8000 is shown rather than 5000 | not executed | Engine.CartEngine.RemoveFromCart, Scenarios.StaleDiscountAfterRemoval | Engine.CartEngine.RemoveFromCartAndRecompute, Scenarios.RecomputedDiscountAfterRemoval |
| src/cart/Cart.js:72-78 | removing the selected products leaves their coupons applied and the discount unchanged | the same cart and coupon; select product 1 and remove the selection | the removed products' coupons are dropped as `handleRemoveFromCart` drops them, and the discount is recomputed | not executed | Engine.CartEngine.RemoveSelected, Scenarios.OrphanedCouponAfterRemoveSelected | Engine.CartEngine.RemoveSelectedWithCoupons, Scenarios.CouponDroppedWithSelection |
