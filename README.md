# NSTORE.ONLINE storefront state, modelled in Dafny

NSTORE.ONLINE is a client-side multi-vendor store. Its logic lives in two state providers and a
few list filters in `App.tsx`:

- the **cart** (`CartProvider`): lines keyed by product id, with add, remove, change-quantity
  and clear operations and two derived totals;
- the **catalog** (`StoreProvider`): products, a fixed vendor list and vendor applications, with
  add/remove product, apply as vendor, approve application (a no-op) and add review, which
  recomputes a product's rating and review count;
- **discovery**: the search page's case-insensitive name/description search with an optional
  category, the featured list, a vendor's storefront, and lookups by id.

Each provider is a class whose sequence fields are replaced by its methods, just as the source
replaces its state through `setCart`, `setProducts` and `setApplications`. The new value is
computed by a pure function, just as the source computes it with `map`, `filter` and `reduce`.
The lemmas state what those functions promise.

Files and modules:

| file | module | contents |
|---|---|---|
| `options.dfy` | `Options` | `Option`, for the source's optional fields and failed lookups |
| `lists.dfy` | `Lists` | `filter`, `find`, and order preservation (`IsSubseq`) |
| `text.dfy` | `Text` | ASCII `toLowerCase`, `includes`, `split('T')[0]`, decimal digits |
| `entities.dfy` | `Entities` | the records of `types.ts` |
| `cart.dfy` | `ShoppingCart` | cart functions, lemmas and `CartProvider` |
| `catalog.dfy` | `Catalog` | catalog functions, lemmas and `StoreProvider` |
| `discovery.dfy` | `Discovery` | search, featured, storefront, lookups, and lemmas across operations |

Representation choices:

- Prices and discount prices are integer fils (1 KD = 1000 fils), so totals are exact.
- A review's rating is an `int` and a product's `rating` is a `real`, so the mean is exact.
- Optional fields (`discountPrice`, `isFeatured`, `reviews`, `email`) are `Option`s.
- `toLowerCase` folds ASCII letters only.
- The random parts of generated ids and the current time are parameters:
  - an application id is built from the draw `Math.floor(Math.random() * 9000)`;
  - a review id is passed in whole;
  - dates are the date part of an ISO timestamp `now`.
- A provider's initial state, which the source reads back from browser storage, is a constructor
  parameter.

In these places the model follows the code as written:

- `approveApplication` changes nothing (App.tsx:155). It does not promote the applicant to a vendor.
- The vendor list has no setter (App.tsx:132), so it is a `const` field.
- The search also matches the description. It applies no subcategory, vendor or price filter: `FilterState` declares those fields, but no code here applies them.
- A new cart line goes at the end.
- `discountPrice` of 0 falls back to `price` (the `||` of App.tsx:212).

## Model

| member | source | states |
|---|---|---|
| `Lists.Filter` | App.tsx:143 | a filter result has only accepted elements, all taken from the input |
| `Lists.FilterCounts` | App.tsx:206 | each accepted element keeps its multiplicity; rejected ones are dropped |
| `Lists.FilterIsSubseq` | App.tsx:1094 | a filter result keeps the input's order |
| `Lists.FilterKeepsAll` | App.tsx:1094-1098 | a filter that accepts every element returns the input unchanged |
| `Lists.FilterIdempotent` | App.tsx:1094-1098 | filtering twice by one predicate equals filtering once |
| `Lists.FilterAgree` | App.tsx:1094-1098 | predicates agreeing on every element filter alike |
| `Lists.Find` | App.tsx:201 | `find` is None exactly when no element matches; otherwise it is the first match |
| `Lists.SubseqMembers` | App.tsx:206 | every element of a subsequence occurs in the original |
| `Lists.SubseqKeepsKeysDistinct` | App.tsx:206 | keys distinct in a sequence stay distinct in any subsequence |
| `Text.Lower` | App.tsx:1095 | ASCII case fold of one character: letters A-Z move by 32, all else is kept |
| `Text.LowerStr` | App.tsx:1095 | same length, no upper-case letter left, each character kept or lowered |
| `Text.LowerStrIdempotent` | App.tsx:1095 | folding case twice equals folding once |
| `Text.Contains` | App.tsx:1095 | `includes` holds when the needle is a prefix, and only when the needle is no longer than the haystack |
| `Text.ContainsIffOccurs` | App.tsx:1095 | `includes` holds iff the needle occurs at some position of the haystack |
| `Text.ContainsEmpty` | App.tsx:1095 | every string includes the empty query |
| `Text.DatePart` | App.tsx:149 | `split('T')[0]` is a prefix without 'T', ending at the first 'T' or at the end of the string |
| `Text.DigitChar` | App.tsx:148 | a digit renders as a character '0'..'9' |
| `Text.Decimal` | App.tsx:148 | a number renders as a non-empty string of decimal digits, one more digit per factor of ten |
| `Text.DecimalRoundTrip` | App.tsx:148 | reading the rendered digits back gives the number |
| `Text.FourDigits` | App.tsx:148 | 1000..9999 render as exactly four digits |
| `Entities.CategoryName` | types.ts:1-7 | each category stands for its display string, and none of them is empty (so a chosen category is never read as no category) |
| `Entities.CategoryNamesDistinct` | types.ts:1-7 | different categories stand for different strings |
| `Entities.ReviewsOf` | App.tsx:166 | the reviews of a product: a missing list reads as empty, a present one as itself |
| `ShoppingCart.HasLine` | App.tsx:201 | the `find` for a product id succeeds iff some line has that id |
| `ShoppingCart.AddLine` | App.tsx:198-204 | out of stock: cart unchanged; in stock: a line for the product exists afterwards; length grows only for a new product; snapshots of existing lines are kept; a new product is appended as one line of quantity 1, every existing line unchanged |
| `ShoppingCart.AddLineWellFormed` | App.tsx:198-204 | `addToCart` keeps every quantity at least 1 and one line per product |
| `ShoppingCart.AddExistingLine` | App.tsx:202 | with one line per product, an existing line is incremented and every other line is untouched |
| `ShoppingCart.IncrementLineTotals` | App.tsx:211-212 | one more item on a line adds 1 item and that line's unit price |
| `ShoppingCart.AddExistingTotals` | App.tsx:202 | adding a product already in the cart adds 1 item and the unit price of the stored snapshot |
| `ShoppingCart.AddNewTotals` | App.tsx:203 | adding a new product adds 1 item and its unit price |
| `ShoppingCart.AddTimesToEmpty` | App.tsx:198-204 | n adds of one in-stock product to an empty cart give a single line of quantity n, and n items |
| `ShoppingCart.Max` | App.tsx:208 | `Math.max` is at least both arguments and equals one of them |
| `ShoppingCart.UpdateLines` | App.tsx:207-209 | length, order and snapshots kept; other lines unchanged; addressed lines get max(1, q + delta), never below 1; unknown id leaves the cart unchanged |
| `ShoppingCart.UpdateLinesWellFormed` | App.tsx:207-209 | `updateQuantity` keeps the cart invariant for any delta |
| `ShoppingCart.RemoveLines` | App.tsx:206 | no line for the id remains; exactly the other lines are kept, each as often as before, in order; unknown id leaves the cart unchanged |
| `ShoppingCart.RemoveLinesWellFormed` | App.tsx:206 | `removeFromCart` keeps the cart invariant |
| `ShoppingCart.SumQuantities` | App.tsx:211 | `totalItems` is non-negative for non-negative quantities, and at least the number of lines when each quantity is at least 1 |
| `ShoppingCart.LineTotal` | App.tsx:212 | a line's share of `totalPrice` is 0 for no items, non-negative for non-negative amounts, and at least one unit price for one item or more |
| `ShoppingCart.UnitPrice` | App.tsx:212 | the unit price is the discount price or the price; a present non-zero discount is the unit price; a missing discount gives the price; a zero discount never makes the item free |
| `ShoppingCart.SumPrices` | App.tsx:212 | `totalPrice` is non-negative when prices, discounts and quantities are |
| `ShoppingCart.SumQuantitiesAppend` | App.tsx:211 | `totalItems` of a concatenation is the sum of the two totals |
| `ShoppingCart.SumPricesAppend` | App.tsx:212 | `totalPrice` of a concatenation is the sum of the two totals |
| `ShoppingCart.SingleLineTotals` | App.tsx:211-212 | the totals of a one-line cart |
| `ShoppingCart.ReplaceLineTotals` | App.tsx:211-212 | replacing one line shifts each total by the difference of the two lines' shares |
| `ShoppingCart.LineTotalIncrement` | App.tsx:212 | one more item on a line adds its unit price to the line's share |
| `ShoppingCart.CartProvider.constructor` | App.tsx:193-196 | the cart starts as the saved cart passed in |
| `ShoppingCart.CartProvider.AddToCart` | App.tsx:198-205 | the new cart is `AddLine` of the old one; the invariant is kept; with the invariant, an in-stock add raises `totalItems` by one and `totalPrice` by the unit price of the existing line's snapshot, or of the product for a new line |
| `ShoppingCart.CartProvider.RemoveFromCart` | App.tsx:206 | the new cart is `RemoveLines` of the old one; the invariant is kept |
| `ShoppingCart.CartProvider.UpdateQuantity` | App.tsx:207-209 | the new cart is `UpdateLines` of the old one; the invariant is kept |
| `ShoppingCart.CartProvider.ClearCart` | App.tsx:210 | the cart is empty, well formed, with both totals 0 |
| `ShoppingCart.CartProvider.TotalItems` | App.tsx:211 | `totalItems` is at least the number of lines while the invariant holds |
| `ShoppingCart.CartProvider.TotalPrice` | App.tsx:212 | `totalPrice` is non-negative when amounts are |
| `Catalog.MarkActive` | App.tsx:132 | the vendor list has the same vendors, each with status Active and nothing else changed |
| `Catalog.WithoutProduct` | App.tsx:143 | exactly the products with another id are kept, each as often as before, in order |
| `Catalog.ApplicationId` | App.tsx:148 | an application id is "APP-" plus four digits whose value is draw + 1000 |
| `Catalog.ApplicationIdInjective` | App.tsx:148 | different draws give different application ids |
| `Catalog.NewApplication` | App.tsx:146-151 | a new application has the supplied fields, the generated id, today's date and status Pending |
| `Catalog.NewReview` | App.tsx:158-162 | a new review has the supplied fields, the generated id and a date without time |
| `Catalog.MeanRating` | App.tsx:167 | the mean times the number of reviews is the sum of their ratings |
| `Catalog.SumRatings` | App.tsx:167 | the `reduce` of ratings is 0 for no reviews and the rating itself for one review |
| `Catalog.SumRatingsAppend` | App.tsx:167 | the `reduce` of ratings over two lists laid end to end is the sum of the two, so every rating is added once |
| `Catalog.SumRatingsBounds` | App.tsx:167 | ratings within [lo, hi] sum to between lo and hi times their count |
| `Catalog.MeanWithin` | App.tsx:167 | the mean lies between any lower and upper bound of the ratings |
| `Catalog.WithReview` | App.tsx:165-173 | the review is appended (missing list read as empty); `reviewCount` is the new list length; `rating` times `reviewCount` is the rating sum; no other field changes |
| `Catalog.ReviewCountRecomputed` | App.tsx:172 | the new count is old count + 1 iff the old count matched the stored list's length |
| `Catalog.WithReviewRatingInRange` | App.tsx:166-172 | with all ratings in [1, 5] the recomputed rating is in [1, 5] |
| `Catalog.AddReviewTo` | App.tsx:164-176 | products with the id get the review; others, length and order unchanged; unknown id leaves the catalog unchanged |
| `Catalog.StoreProvider.constructor` | App.tsx:128-136 | the saved products and applications are taken as given; vendors are the seed vendors marked active |
| `Catalog.StoreProvider.AddProduct` | App.tsx:142 | the product list is the new product followed by the old list |
| `Catalog.StoreProvider.RemoveProduct` | App.tsx:143 | the product list is `WithoutProduct` of the old one |
| `Catalog.StoreProvider.ApplyAsVendor` | App.tsx:145-153 | one new Pending application is put at the front; products unchanged |
| `Catalog.StoreProvider.ApproveApplication` | App.tsx:155 | products and applications are unchanged, and vendors is constant |
| `Catalog.StoreProvider.AddReview` | App.tsx:157-177 | the product list is `AddReviewTo` of the old one with the new review |
| `Discovery.DiscoveryFilter` | App.tsx:1093-1099 | every shown product matches the query in name or description, ignoring case, and the category if one is given; every matching product is kept as often as in the catalog; order is kept |
| `Discovery.DiscoveryShowsAll` | App.tsx:1093-1099 | an empty query without a category shows the whole catalog |
| `Discovery.MatchesQuery` | App.tsx:1095 | the folded query occurs at some position of the folded name or of the folded description; the empty query matches every product |
| `Discovery.Shown` | App.tsx:1094-1097 | a product is shown only when it matches both the query and the category; with an empty query the category alone decides, with no category the query alone |
| `Discovery.MatchesCategory` | App.tsx:1096 | no category or an empty one matches every product; otherwise exactly the products of that category |
| `Discovery.DiscoveryIdempotent` | App.tsx:1093-1099 | searching the result again with the same query and category changes nothing |
| `Discovery.DiscoveryIgnoresCase` | App.tsx:1095 | queries that fold to the same lower-case string give the same result |
| `Discovery.DiscoveryLowerQuery` | App.tsx:1095 | searching for the query or for its lower-case form gives the same result |
| `Discovery.DiscoveryByCategory` | App.tsx:1096 | with an empty query, a category shows exactly that category's products, in order |
| `Discovery.Featured` | App.tsx:787 | exactly the products flagged featured, each as often as in the catalog, in order |
| `Discovery.VendorProducts` | App.tsx:1048 | exactly the products of that vendor, each as often as in the catalog, in order |
| `Discovery.FindProduct` | App.tsx:823 | None iff no product has the id; otherwise the first product with it |
| `Discovery.FindVendor` | App.tsx:1047 | None iff no vendor has the id; otherwise the first vendor with it |
| `Discovery.FindAfterAdd` | App.tsx:142 | a product just added is what a lookup by its id finds |
| `Discovery.FindAfterRemove` | App.tsx:143 | after removing an id, a lookup by it finds nothing |
| `Discovery.FindOtherAfterRemove` | App.tsx:143 | removing one id does not change a lookup by any other id |

## Left out

- Reading and writing browser storage, and JSON parsing (App.tsx:59-73, 128-140, 193-197). The state read back is a constructor parameter.
- `getShoppingAdvice` (App.tsx:19-43) and services/geminiService.ts: a network call to a hosted text-generation service, with a fallback message.
- The chat widget, scroll listeners, slide and carousel timers, routing, the error boundary and all markup.
- Login and logout (App.tsx:58-89): a mocked flag kept in storage.
- The quick-view state (`openQuickView`/`closeQuickView`): display state only.
- Random number generation and the clock. The draw behind an application id and the ISO timestamp are parameters.
- The base-36 formatting of a review id (App.tsx:160). The review id is a parameter.
- constants.ts: seed data, with no logic.
- JavaScript number arithmetic: prices are integer fils and ratings are exact reals, so floating-point rounding is not modelled. For the same reason `NaN` prices are not modelled.
- Text.LowerStr: folds ASCII letters only, while `toLowerCase` folds all Unicode letters.
- Discovery.DiscoveryFilter: takes `query` and `cat` after the page's `|| ''` and `|| null` defaults (App.tsx:1090-1091). It does not take the raw URL parameters.
