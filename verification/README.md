# Sample licensing market service: cart and catalog filter

This project models the core of `SampleLicensingMarketService`, the front-end
service of the BeatBlender marketplace view. The model has two parts:

- **The shopping cart.** This is the service's mutable state: the ordered cart lines and the derived
  `cartData.itemCount`. `Cart.SampleLicensingMarketService` is a class with
  the fields `cart` and `itemCount` and the methods `AddToCart`, `UpdateCount`,
  `RemoveFromCart` and `GetCart`. `AddToCart` and `UpdateCount` follow the source's
  `forEach` loops, with loop invariants. `RemoveFromCart` assigns the result of a
  filter, as the source's `Array.prototype.filter` call does. `GetCart` only reads the cart.
  Each method's postcondition ties the new state to a specification function:
  `Merged` (merge a line by product id, or append it), `WithoutId` (drop every
  line with an id) and `Sum` (the total quantity). The lemmas beside them prove:
  - at most one line per id;
  - the count equals the sum of the quantities after every `addToCart` and `removeFromCart`;
  - the other lines keep their order and contents.
- **The catalog.** `Catalog.FilterProducts` is the order-preserving
  multi-criteria filter. `Catalog.GetProductDetails` is the lookup by id, with its
  "Product not found!" error. Both are functions on sequences, and their exact results are proved.

Modules:
- `Wrappers`: `Option` stands for a missing form field; `Result` stands for the error channel.
- `Seqs`: a generic `Filter` (`Array.prototype.filter`) and element `IndexOf`
  (`Array.prototype.indexOf`), with their lemmas.
- `Text`: ASCII `ToLower` and the substring `StringIndexOf`.
- `Catalog` and `Cart`: the two parts of the service described above.

Assumptions:
- The `Product` model file is not part of this model. Product ids are taken to be strings, and `tags` an array of strings.
  As a result, `addToCart`'s `===` and `removeFromCart`'s `==` on ids coincide, and the model uses plain equality for both.
- Prices and ratings are only compared, so they are integers.
- The tag search `p.tags.indexOf(search) > -1` is `Array.prototype.indexOf` on an array of strings.
  It tests each tag for equality with the search string; it is not a substring search.
- `removeFromCart` filters out every line with the item's id (lines 67-72), not just one.
- `addToCart`'s `forEach` overwrites `index` on every match, so it finds the LAST
  matching line (`Cart.LastIndexWithId`). Under the invariant this is the only one.
- The observables are dropped: each `of(x)` is the value `x`, and `throwError` is `Err`.
- The dataset that `getProductDetails` reads is a parameter.

## Model

| member | source | states |
|---|---|---|
| Seqs.Filter | src/app/views/sample-licensing-market/sample-licensing-market.service.ts:130-183 | `Array.prototype.filter` (also used at lines 67 and 90): every element of the result is an input element that passes, and every passing input element is in the result; `FilterIsSubsequence`, `FilterAppend`, `FilterKeepsAll`, `FilterIdempotent` and `FilterFirst` fix its order and exact contents |
| Catalog.SearchMatches | src/app/views/sample-licensing-market/sample-licensing-market.service.ts:139-148 | the search check; `MatchesMeaning` states when it passes: a missing or empty search, or a hit in the lower-cased name, the description or a whole tag |
| Catalog.CategoryMatches | src/app/views/sample-licensing-market/sample-licensing-market.service.ts:150-158 | the category check; `MatchesMeaning` states when it passes: a missing, empty or "all" category, or the product's own |
| Catalog.PriceMatches | src/app/views/sample-licensing-market/sample-licensing-market.service.ts:160-167 | the price check; `MatchesMeaning` states when it passes: the sale price lies within the inclusive bounds |
| Catalog.RatingMatches | src/app/views/sample-licensing-market/sample-licensing-market.service.ts:169-176 | the rating check; `MatchesMeaning` states when it passes: the rating lies within the inclusive bounds |
| Catalog.Matches | src/app/views/sample-licensing-market/sample-licensing-market.service.ts:178-182 | all four checks pass; `MatchesMeaning` states its meaning without `indexOf`, and `FilterProducts` keeps exactly the products for which it holds |
| Cart.Sum | src/app/views/sample-licensing-market/sample-licensing-market.service.ts:60-65 | the total that `updateCount` computes; `UpdateCount` is proved to compute it, and `SumAppend`, `SumUpdate`, `MergedSum`, `WithoutIdSum` and `AddAllSum` say how additions and removals change it |
| Cart.Merged | src/app/views/sample-licensing-market/sample-licensing-market.service.ts:43-59 | the cart that `addToCart` leaves; `MergedExisting`, `MergedNew`, `MergedKeepsUnique`, `MergedHasItem` and `MergedSum` say what it is |
| Seqs.IndexOf | src/app/views/sample-licensing-market/sample-licensing-market.service.ts:143 | `tags.indexOf(search)` is -1 exactly when no tag equals the search; otherwise it is the first position holding it |
| Text.StringIndexOf | src/app/views/sample-licensing-market/sample-licensing-market.service.ts:141-142 | `s.indexOf(sub)` is greater than -1 exactly when `sub` occurs in `s`, and is then the first occurrence; the empty string is found at 0 |
| Text.ToLower | src/app/views/sample-licensing-market/sample-licensing-market.service.ts:141 | lower-casing keeps the length, turns every upper-case ASCII letter into its lower-case partner and keeps every other character |
| Catalog.MatchesMeaning | src/app/views/sample-licensing-market/sample-licensing-market.service.ts:139-182 | a product passes exactly when the search is missing/empty or found (case-insensitively in the name, case-sensitively in the description, as a whole tag), the category is missing/empty/"all"/the product's own, and sale price and rating are within the inclusive bounds |
| Catalog.FilterProducts | src/app/views/sample-licensing-market/sample-licensing-market.service.ts:129-185 | every returned product is an input product that matches, and every matching input product is returned |
| Catalog.FilterProductsInOrder | src/app/views/sample-licensing-market/sample-licensing-market.service.ts:130-183 | the result is a subsequence of the input: the input order is kept |
| Catalog.FilterProductsPointwise | src/app/views/sample-licensing-market/sample-licensing-market.service.ts:130-183 | the filter of a concatenation is the concatenation of the filters, and one product is kept iff it matches; this fixes the result exactly |
| Catalog.FilterProductsAllMatch | src/app/views/sample-licensing-market/sample-licensing-market.service.ts:130-183 | when every product matches, the output is the input, in the same order |
| Catalog.FilterProductsIdempotent | src/app/views/sample-licensing-market/sample-licensing-market.service.ts:129-185 | filtering twice with the same criteria gives the same result as filtering once |
| Catalog.InitialFiltersExample | src/app/views/sample-licensing-market/sample-licensing-market.service.ts:28-33 | the constant `InitialFilters` stands for `initialFilters`: with these filters (price 10..40, rating 1..5, no search, no category), a product on sale for 25 rated 3 passes, and the same product at 45 fails |
| Catalog.GetProductDetails | src/app/views/sample-licensing-market/sample-licensing-market.service.ts:88-95 | the error "Product not found!" exactly when no product has the id; otherwise the first product of the dataset with that id |
| Cart.LastIndexWithId | src/app/views/sample-licensing-market/sample-licensing-market.service.ts:44-49 | the index left by the `forEach` scan: -1 exactly when no line has the id, else a line with the id after which none has it |
| Cart.MergedExisting | src/app/views/sample-licensing-market/sample-licensing-market.service.ts:50-53 | with one line per id and the id present, adding keeps the length, grows that line's quantity by exactly the incoming quantity and leaves every other line unchanged |
| Cart.MergedNew | src/app/views/sample-licensing-market/sample-licensing-market.service.ts:54-57 | with the id absent, adding returns the old cart with the item appended, one line longer |
| Cart.MergedKeepsUnique | src/app/views/sample-licensing-market/sample-licensing-market.service.ts:43-59 | adding preserves "at most one line per product id" |
| Cart.MergedHasItem | src/app/views/sample-licensing-market/sample-licensing-market.service.ts:43-59 | after adding, the cart has a line for the item's product |
| Cart.MergedSum | src/app/views/sample-licensing-market/sample-licensing-market.service.ts:43-59 | adding raises the sum of quantities by exactly the incoming quantity |
| Cart.WithoutId | src/app/views/sample-licensing-market/sample-licensing-market.service.ts:67-72 | the result holds exactly the lines whose id differs from the given one |
| Cart.WithoutIdPointwise | src/app/views/sample-licensing-market/sample-licensing-market.service.ts:67-72 | removal of a concatenation is the concatenation of the removals, and one line is kept iff its id differs; this fixes the result exactly, repeated lines included |
| Cart.WithoutIdInOrder | src/app/views/sample-licensing-market/sample-licensing-market.service.ts:67-72 | the remaining lines keep their original order |
| Cart.WithoutIdAbsent | src/app/views/sample-licensing-market/sample-licensing-market.service.ts:66-75 | removing an id that is not in the cart leaves the cart unchanged |
| Cart.WithoutIdIdempotent | src/app/views/sample-licensing-market/sample-licensing-market.service.ts:66-75 | removing twice gives the same cart as removing once |
| Cart.WithoutIdKeepsUnique | src/app/views/sample-licensing-market/sample-licensing-market.service.ts:66-75 | removing preserves "at most one line per product id" |
| Cart.WithoutIdSum | src/app/views/sample-licensing-market/sample-licensing-market.service.ts:66-75 | with one line per id, removing a present id lowers the sum by exactly that line's quantity |
| Cart.AddAllSum | src/app/views/sample-licensing-market/sample-licensing-market.service.ts:43-65 | after any sequence of additions, the count is the old count plus the sum of the added quantities |
| Cart.AddAllSameProduct | src/app/views/sample-licensing-market/sample-licensing-market.service.ts:43-65 | adding the same product N times leaves exactly one line for it, and the count grows by q1+...+qN |
| Cart.SampleLicensingMarketService.constructor | src/app/views/sample-licensing-market/sample-licensing-market.service.ts:35-39 | the service starts with an empty cart and count 0, which satisfies the invariant |
| Cart.SampleLicensingMarketService.GetCart | src/app/views/sample-licensing-market/sample-licensing-market.service.ts:40-42 | returns the current cart and changes nothing |
| Cart.SampleLicensingMarketService.AddToCart | src/app/views/sample-licensing-market/sample-licensing-market.service.ts:43-59 | the new cart is the merge of the old cart with the item, the count is recomputed to the new sum (the old sum plus the incoming quantity), the invariant is kept, and the result is the new cart |
| Cart.SampleLicensingMarketService.UpdateCount | src/app/views/sample-licensing-market/sample-licensing-market.service.ts:60-65 | recomputes the count from zero to equal the sum of quantities, and changes only the count |
| Cart.SampleLicensingMarketService.RemoveFromCart | src/app/views/sample-licensing-market/sample-licensing-market.service.ts:66-75 | the new cart is the old one without the lines for the item's id, the count is recomputed to the new sum, the invariant is kept, and the result is the new cart |

## Left out

- `getFilteredProduct` (lines 110-124): the `combineLatest`/`startWith`/`debounceTime(400)`/`switchMap` pipeline.
  This is stream and timer behaviour; only the `filterProducts` it calls is modelled.
- `getProducts` (lines 77-87): the 500 ms delay and the caching into `products`. This is simulated latency over the
  product dataset, which is not part of this model. The dataset is a parameter, and the `products` field is not modelled.
- `getAudioFiles` (lines 97-103): a call to the cloud service, which is not part of this model. It only unwraps one field.
- `getCategories` (lines 105-108): kept only as the constant `Catalog.Categories`.
- The untyped `options` bag of a cart item (line 18) is never inspected, so it is omitted.
- The asynchronous delivery of results and errors: an observable is modelled by its single value, and an error by `Err`.
- Text.ToLower: only ASCII letters are lower-cased; JavaScript's Unicode case mapping is not modelled.
- Catalog.MatchesMeaning: the price and rating bounds are integers. JavaScript's coercion of a missing or
  non-numeric bound is not modelled (`undefined` makes every comparison false, `null` acts as 0).
- Cart.SampleLicensingMarketService.AddToCart: the cart holds values, not objects, so aliasing is not modelled.
  The source pushes the caller's own object and later adds to its `quantity` in place, so the caller's object changes too.
  Also, `getCart` and `addToCart` return the live array (lines 41, 53, 57). A caller holding it sees later pushes
  and quantity increases, but not removals, because `removeFromCart` assigns a new array (line 67).
  The model's results are snapshots.
  The count invariant (`Valid`: `itemCount` equals the sum of quantities) also assumes that nothing outside the
  service writes the cart, its lines or `cartData`. All three are public (lines 35-38) or shared with callers. If a
  caller sets a line's `quantity` directly, `itemCount` stays stale until the next `addToCart` or `removeFromCart`.
- Quantities are integers, and no rule is imposed on their sign, as in the source. Fractional JavaScript numbers are not modelled.
