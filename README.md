# Mini-mart point-of-sale cart, modelled in Dafny

This project models the cart and checkout logic of a single-page point-of-sale
front end (`script.js`). The store API is the authority on stock and prices.
The front end keeps a working cart of lines, enforces local stock limits,
computes the order total with tax, submits the purchase, and logs completed
sales for a recent-transactions view. It also filters the catalogue by a
search query.

Layout:

- `wrappers.dfy` (`Wrappers`): `Option` and `Result`.
- `seqs.dfy` (`Seqs`): `Filter` (as `Array.prototype.filter`), `Reverse`, a subsequence predicate, and their lemmas.
- `text.dfy` (`Text`): lower-casing and substring search (`toLowerCase`, `includes`).
- `catalog.dfy` (`Catalog`): the sellable inventory item, the `|| 0` defaults, the discounted price, and `searchProducts`.
- `cart_rules.dfy` (`CartRules`): cart lines and the rules of `addToCart`, `updateQuantity`, `removeFromCart`, the totals, `checkout` and the purchase request. They are pure functions on `seq<Line>`, and the lemmas state what the source promises about them.
- `cart_engine.dfy` (`CartEngine`): the session state as a class `Cart` holding the cart lines and the transaction log. Its methods update them in place and are proved to agree with the rules. The module also holds the cart panel's running total, as a loop proved equal to checkout's total, and the `slice(-10).reverse()` view of the log.

Prices, discounts and the tax rate are `real`, so arithmetic is exact.
Absent API fields are `Option` values. A missing `saleQuantity` or `discount`
reads as 0. A missing name reads as `''` for search and as `'Unknown Product'`
on a cart line. The store API's answer to the purchase request is a parameter
`accepts`, a verdict on the request body. The time stamp and payment method
are parameters too.

The model follows the code on these points, which a reader might expect to behave otherwise:

- `addToCart` tests an existing line against the product's stock as currently
  listed in the catalogue, not against the line's captured `maxStock`. So
  `quantity <= maxStock` is kept only while the two agree (`AddKeepsWithinStock`).
  `AddCanExceedMaxStock` shows a refreshed catalogue letting a line exceed its `maxStock`.
- `completeSale` does not recompute the total. It uses the figure that
  `checkout` put into the dialog, so `CompleteSale` takes it as `total`.
- `completeSale` does not check for an empty cart.
- The local transaction log is unbounded. Only the view shows at most ten.
- No in-flight guard exists around `completeSale`.

## Model

| member | source | states |
|---|---|---|
| `Catalog.SearchMembership` | script.js:264-270 | a product is in the search result exactly when it is in the inventory and its lower-cased name or category name includes the lower-cased query |
| `Catalog.SearchPreservesOrder` | script.js:265-270 | the search result is an order-preserving subsequence of the inventory and no longer than it |
| `Catalog.SearchConcat` | script.js:265-270 | searching a concatenation is concatenating the searches of its parts, in order |
| `Catalog.SearchEmptyQuery` | script.js:265-270 | the empty query returns the whole inventory |
| `Catalog.SearchIgnoresQueryCase` | script.js:268-269 | lower-casing the query first gives the same result |
| `Text.Lower` | script.js:268-269 | lower-casing keeps the length and maps each character independently: 'A'..'Z' become the matching letter of 'a'..'z', every other character is kept |
| `Text.LowerIdempotent` | script.js:268-269 | lower-casing twice is lower-casing once |
| `Text.ContainsEmpty` | script.js:268-269 | every string includes the empty string |
| `Seqs.FilterMembership` | script.js:370 | an element survives a filter exactly when it was present and passes the test |
| `Seqs.FilterIsSubsequence` | script.js:370 | a filter keeps the surviving elements in their original order |
| `Seqs.ReverseAt` | script.js:721 | element k of the reversal is element n-1-k of the original |
| `CartRules.IndexOf` | script.js:283 | the result is the first index holding the id, or none when no line holds it |
| `CartRules.IndexOfUnique` | script.js:283 | in a cart with unique ids, the line with an id is found at its own index |
| `CartRules.AddOutOfStock` | script.js:276-281 | adding is refused as out of stock exactly when the product's stock (0 when missing) is not positive; the cart is then unchanged |
| `CartRules.AddNew` | script.js:292-304 | a product not yet in the cart gets exactly one new line at the end, with quantity 1, price salePrice*(1-discount), maxStock the current stock, both ids the product's id; earlier lines are untouched |
| `CartRules.AddExisting` | script.js:283-291 | a product already in the cart gains one unit when its quantity is below the product's current stock, and is otherwise refused with the cart unchanged; price is not re-read and no second line appears |
| `CartRules.AddPreservesWellFormed` | script.js:283-304 | adding keeps line ids unique, quantities at least 1 and each line's two ids equal |
| `CartRules.AddKeepsWithinStock` | script.js:286 | adding keeps every quantity within its line's maxStock when the product's current stock does not exceed the captured one |
| `CartRules.AddCanExceedMaxStock` | script.js:286-287 | after the listed stock rises, adding can take a line past its captured maxStock |
| `CartRules.AddSubtotal` | script.js:283-304 | a successful add raises the subtotal by exactly one unit price: the line's locked-in price, or the product's discounted price for a new line |
| `CartRules.RemoveMembership` | script.js:369-372 | removal keeps exactly the lines with another id, as an order-preserving subsequence |
| `CartRules.RemoveAt` | script.js:369-372 | in a cart with unique ids, removing line k's id deletes index k and keeps the rest in order |
| `CartRules.RemoveMissing` | script.js:369-372 | removing an id no line has leaves the cart equal |
| `CartRules.RemoveIdempotent` | script.js:369-372 | removing the same id twice is removing it once |
| `CartRules.RemovePreservesInvariants` | script.js:369-372 | removal keeps the cart well formed and within its captured stock |
| `CartRules.RemoveSubtotal` | script.js:369-372 | removing a line takes exactly its price*quantity off the subtotal |
| `CartRules.UpdateAbsent` | script.js:353-355 | changing the quantity of an id not in the cart changes nothing |
| `CartRules.UpdateAt` | script.js:352-367 | for the line at k: a new quantity at or below 0 deletes the line, one up to maxStock replaces that line's quantity only, a larger one is refused with the cart unchanged |
| `CartRules.UpdateAllUnitsIsRemove` | script.js:358-359 | taking away all of a line's units is the same as removing it |
| `CartRules.UpdatePreservesInvariants` | script.js:352-367 | changing a quantity keeps the cart well formed, and keeps every line within its maxStock |
| `CartRules.Total` | script.js:386-388 | the total is subtotal*(1+taxRate/100); with a zero tax rate it equals the subtotal; with a non-negative rate and a non-negative subtotal (which `SubtotalNonNegative` gives for non-negative prices and quantities) it is at least the subtotal |
| `CartRules.SubtotalAppend` | script.js:386 | the subtotal of two carts put together is the sum of their subtotals |
| `CartRules.SubtotalNonNegative` | script.js:386 | with no negative prices or quantities the subtotal is not negative |
| `CartRules.SubtotalSplit` | script.js:386 | the subtotal around one line is the subtotals of both sides plus that line's price*quantity |
| `CartRules.SubtotalWithQuantity` | script.js:386 | changing one line's quantity changes the subtotal by that line's difference alone |
| `CartRules.Checkout` | script.js:380-388 | checkout is refused with EmptyCart exactly when the cart is empty, and otherwise yields subtotal*(1+taxRate/100) |
| `CartRules.PurchaseOrder` | script.js:410-415 | the request has one item per cart line, in cart order, carrying that line's productInventoryId and quantity |
| `CartRules.PurchaseOrderWellFormed` | script.js:410-415 | the request from a well-formed cart names each product once, each with at least one unit |
| `CartRules.TwoAddsExample` | script.js:286-304 | a 10.00 item with a 20% discount added twice gives one line of 2 at 8.00, subtotal 16.00 and, at 10% tax, total 17.60 |
| `CartEngine.DisplayedTotal` | script.js:313-347 | the cart panel's running sum plus tax equals checkout's total; an empty cart shows 0 |
| `CartEngine.CheckoutThenSale` | script.js:380-432 | checkout then completeSale: an empty cart is refused and nothing changes; a payment below the cart's total with tax, or a refused request, changes nothing; an accepted sale empties the cart and logs exactly one transaction whose products are the old lines, whose item count is their number and whose total is their total with tax |
| `CartEngine.RecentView` | script.js:721 | the view holds min(10, n) transactions and its element i is transaction n-1-i, newest first |
| `CartEngine.RecentAfterSale` | script.js:721 | a newly logged sale comes first in the view, the others move down one place, and the oldest shown drops out beyond ten |
| `CartEngine.Cart.constructor` | script.js:23-24 | a session starts with an empty cart and an empty log |
| `CartEngine.Cart.AddToCart` | script.js:275-307 | the cart becomes the rule's result, or stays as it was when refused with the matching alert; the log is unchanged; the cart stays well formed |
| `CartEngine.Cart.UpdateQuantity` | script.js:352-367 | the cart becomes the rule's result, or stays as it was when refused; the log is unchanged; the cart stays well formed |
| `CartEngine.Cart.RemoveFromCart` | script.js:369-372 | the cart becomes the filtered cart; the log is unchanged |
| `CartEngine.Cart.ClearCart` | script.js:374-377 | the cart becomes empty; the log is unchanged |
| `CartEngine.Cart.CompleteSale` | script.js:396-446 | a short payment changes nothing; otherwise the request built from the cart is submitted; if it is refused nothing changes; if it is accepted exactly one transaction is logged with the line count, total and a copy of the lines, the cart is emptied, and the change received-total is not negative |

## Left out

- The store API client, login, logout, the auth check and token storage are network and browser I/O. The API's answer to the purchase request is the `accepts` parameter of `Cart.CompleteSale`.
- Reloading the catalogue after a sale (`initializeData`) is left out. It only replaces the catalogue wholesale and never touches the cart or the log.
- All DOM rendering is left out: the product grid, the cart panel's HTML, the tables and the dialogs. So are `alert`, `showLoading` and the event wiring. Alerts become the `Outcome` and `SaleOutcome` results.
- Text formatting is left out: `toFixed(2)`, `parseFloat` of the dialog fields and `toLocaleString`. Amounts are exact reals. In `Cart.CompleteSale`, `total` is a parameter standing for checkout's exact figure; `CheckoutThenSale` runs the two steps together.
- Floating point is left out. JavaScript numbers round, while the model's sums are exact.
- Stock and inventory maintenance, reports and settings forms are thin forwards of form values to the API.
- Concurrency is left out. The source has no guard against two overlapping `completeSale` calls, and interleaving is not modelled.
- Text.Lower: only ASCII letters are lower-cased. `toLowerCase` also maps other Unicode letters.
- The checks on `undefined` or `NaN` numbers in `|| 0` and `<` are left out. Fields are either absent (`None`) or numbers.
