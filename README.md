# Recipe-to-cart backend: mapping engine, cart and orders

This project models the core of a grocery backend that turns a recipe into a
shopping cart:

- **The ingredient mapping engine** (`backend/src/services/MappingService.ts`).
  Each ingredient name is normalised: lower-cased, trimmed and naively
  singularised. The product catalogue is then searched, by exact
  case-insensitive name first and by tag second. The recipe quantity
  (grams, kilograms, millilitres, litres, pieces, spoons, size descriptors
  such as "2 medium", or "to taste") is converted into a whole number of
  purchasable packs of the product found. Each ingredient ends up either
  *matched* or *unavailable*.
- **The cart service** (`backend/src/services/CartService.ts`). Each user has
  one cart. Its lines are snapshots of products, and its total is
  recomputed from the lines on every change.
- **The order service** (`backend/src/services/OrderService.ts`). An order
  is a snapshot of a non-empty cart, after which the cart is cleared.
  Orders are listed newest first, and only their owner can read them back.

Modules, one per part of the source:

| module | models |
|---|---|
| `Wrappers` | `Option` and `Result` |
| `Text` | ASCII lower-casing, trimming, `endsWith`, and `includes` (defined through a prefix test, `StartsWith`) |
| `Catalog` | the product record (`backend/src/models/Product.ts`) |
| `Matcher` | `findMatchingProduct`, and the normalise / singular / lookup steps of `mapIngredientsToProps` |
| `Calculator` | `calculateProductQuantity` with the `unitConversionFactors` table |
| `Mapping` | `mapIngredientsToProps`: a specification function per ingredient, and a method with the source's loop proved equal to it |
| `Carts` | `calculateCartTotal` as a specification function; the cart store as a class `CartStore` whose methods update its `carts` map |
| `Orders` | the order store as a class `OrderStore` whose `CreateOrder` updates both stores |
| `Scenarios` | worked cases over the development seed catalogue (`backend/src/utils/seedDatabase.ts`) |

Numbers are modelled as `real`. JavaScript's `parseFloat` is a parameter
`parse: string -> Option<real>`, where `None` stands for `NaN`. Mongoose's
`ObjectId.isValid` is a parameter `isValidId`. `Product.findById` is a map
from id to product.

Two places in `MappingService.ts` where the code does less than it appears to:

- **Piece counts.** The size-descriptor path divides a piece count by the
  product's `unitQuantity` (`MappingService.ts:104`). The standard
  piece-to-piece path uses the count unchanged, whatever the pack size
  (`MappingService.ts:160-161`). `Calculator.PieceCountIgnoresPackSize`
  states the second behaviour.
- **The "minimum purchase" note.** The comment at `MappingService.ts:202`
  promises a "minimum purchase quantity" note for very small amounts. The
  branch at `MappingService.ts:199-203` is reached only when the ceiling of a
  positive amount is 0, and that cannot happen. A small amount therefore gets
  the rounding note instead: 1 tsp of salt against a 1 kg pack is "Rounded
  up from 0.01". `Calculator.Finalize` proves that the branch is never taken,
  and `Scenarios.TeaspoonOfSalt` shows the salt case.

## Model

| member | source | states |
|---|---|---|
| Text.LowerSpec | backend/src/services/MappingService.ts:229 | lower-casing maps each character through the ASCII lower-case mapping, keeps the length, and leaves no upper-case letter |
| Text.LowerOfLower | backend/src/services/MappingService.ts:229 | lower-casing a name that is already lower-case leaves it unchanged |
| Text.TrimStartSpec | backend/src/services/MappingService.ts:229 | trimming the start drops exactly a leading run of white space; what is left does not begin with white space |
| Text.TrimEndSpec | backend/src/services/MappingService.ts:229 | trimming the end drops exactly a trailing run of white space; what is left does not end with white space |
| Text.TrimSpec | backend/src/services/MappingService.ts:229 | `trim()` gives a substring of the input with only white space around it, which neither begins nor ends with white space |
| Text.TrimUnspaced | backend/src/services/MappingService.ts:229 | a name that neither begins nor ends with white space is unchanged by trimming |
| Text.TrimIdempotent | backend/src/services/MappingService.ts:229 | trimming twice is trimming once |
| Text.TrimKeepsLower | backend/src/services/MappingService.ts:229 | trimming a lower-case name keeps it lower-case |
| Text.ContainsFits | backend/src/services/MappingService.ts:77 | `includes` never finds a string longer than the one searched |
| Text.ContainsAt | backend/src/services/MappingService.ts:77 | `includes` holds exactly when the substring occurs at some position |
| Matcher.NameMatches | backend/src/services/MappingService.ts:12-14 | the name query: the product's name equals the key after ASCII lower-casing of both; `Matcher.FindMatchingProductSpec` states how it is used |
| Matcher.TagMatches | backend/src/services/MappingService.ts:19-21 | the tag query: some tag equals the key after ASCII lower-casing of both; `Matcher.FindMatchingProductSpec` states how it is used |
| Matcher.FirstWhere | backend/src/services/MappingService.ts:12-21 | `findOne` in catalogue order: an index into the catalogue; `Matcher.FirstWhereSpec` states that it is the first match |
| Matcher.FirstWhereSpec | backend/src/services/MappingService.ts:12-14 | `findOne` in catalogue order: the product found satisfies the query and none before it does; nothing is found only when no product does |
| Matcher.FindMatchingProduct | backend/src/services/MappingService.ts:10-37 | returns only catalogue products; `Matcher.FindMatchingProductSpec` states which one |
| Matcher.FindMatchingProductSpec | backend/src/services/MappingService.ts:10-37 | the first catalogue product whose name equals the key case-insensitively wins; only when no name matches does the first product with a matching tag win; nothing is returned exactly when no product matches by name or tag |
| Matcher.Normalize | backend/src/services/MappingService.ts:229 | `toLowerCase().trim()` never lengthens the name; `Matcher.NormalizeSpec` states the rest |
| Matcher.NormalizeSpec | backend/src/services/MappingService.ts:229 | the normalised name is lower-case and has no white space at either end |
| Matcher.Singular | backend/src/services/MappingService.ts:231-238 | a name ending in "es" loses exactly those two characters; otherwise a name ending in "s" loses exactly that one; any other name is kept; the singular is always a prefix of the name and differs from it exactly when the name ends in "s" |
| Matcher.LookupNormalized | backend/src/services/MappingService.ts:240-244 | the two-try lookup returns only catalogue products; `Matcher.LookupFallsBack` states that each try returns what `findMatchingProduct` returns for its key (first name match, else first tag match, by `Matcher.FindMatchingProductSpec`); `Matcher.LookupPrefersSingular` and `Matcher.LookupFindsNothing` state the rest |
| Matcher.LookupPrefersSingular | backend/src/services/MappingService.ts:240-241 | when some product matches the singular form, the lookup returns one that does; when some product matches it by name, the lookup returns a name match |
| Matcher.LookupFallsBack | backend/src/services/MappingService.ts:240-244 | when the singular form finds a product, that product is the result; when no product matches the singular form and the name differs from it, the result is what `findMatchingProduct` gives for the name itself; a result not matching the singular form always comes from that second try |
| Matcher.LookupFindsNothing | backend/src/services/MappingService.ts:240-244 | nothing is found exactly when no product matches the singular form and, where the name differs from it, none matches the name itself |
| Calculator.Ceil | backend/src/services/MappingService.ts:195 | `Math.ceil`: the least integer not below x |
| Calculator.Classify | backend/src/services/MappingService.ts:77-152 | the dispatch on the recipe quantity (the tests at lines 77, 84, 112 and 152): "to taste" first, then size words, then spoons, else the standard table; `Calculator.CalculateProductQuantity` and `Calculator.CalculationOutcome` state what each branch gives |
| Calculator.ParsePositive | backend/src/services/MappingService.ts:87-88 | a value is accepted exactly when it parses to a positive number, and the number is kept |
| Calculator.SizeWeight | backend/src/services/MappingService.ts:90-93 | an average weight exists exactly for names containing "onion" or "tomato"; "onion" takes precedence at 120 g, and a tomato name without "onion" weighs 100 g |
| Calculator.SizeAmount | backend/src/services/MappingService.ts:84-110 | a size descriptor converts exactly for a known keyword and a kg, g or piece product; for weight products the packs times the pack size in grams equal the count times the average weight, and the amount is approximate; for piece products the packs times the pack size equal the count, and it is not approximate |
| Calculator.GramsPerSpoon | backend/src/services/MappingService.ts:118-133 | every spoon weighs a positive number of grams |
| Calculator.MlPerSpoon | backend/src/services/MappingService.ts:44-45 | a tablespoon holds 15 ml and a teaspoon 5 ml, whatever the tags |
| Calculator.SpoonTagPriority | backend/src/services/MappingService.ts:121-133 | the whole tag table of lines 42-43: a tablespoon weighs 15 g with butter or ghee, else 12 g with sugar, else 7 g with spice, powder or masala, else 10 g; a teaspoon weighs 6 g with salt, else 4 g with sugar, else 2.5 g with spice, powder or masala, else 3 g |
| Calculator.TotalToPacks | backend/src/services/MappingService.ts:138-145 | the packs times the pack size (in grams or ml, scaled by 1000 for kg and l) give back the total, and a positive total needs a positive number of packs |
| Calculator.SpoonAmount | backend/src/services/MappingService.ts:112-150 | a spoon measure converts exactly for g, kg, ml and l products, and the result is always positive and approximate |
| Calculator.SpoonWeightScales | backend/src/services/MappingService.ts:138-141 | for a g or kg product, the spoon packs times the pack size in grams equal the spoons times the tag-dependent grams per spoon |
| Calculator.SpoonVolumeScales | backend/src/services/MappingService.ts:142-145 | for an ml or l product, the spoon packs times the pack size in ml equal the spoons times the fixed ml per spoon |
| Calculator.StandardAmount | backend/src/services/MappingService.ts:152-190 | the standard path converts exactly the supported unit pairs; piece to piece keeps the count; the result is positive and not approximate |
| Calculator.StandardAmountScales | backend/src/services/MappingService.ts:156-186 | off the piece path, the packs times the pack size in the product's base unit equal the recipe amount converted to that unit |
| Calculator.Finalize | backend/src/services/MappingService.ts:193-211 | a positive amount gives its ceiling, at least 1 and within one pack of the amount, with the rounding notes; the "minimum purchase" note never appears |
| Calculator.CalculateProductQuantity | backend/src/services/MappingService.ts:61-215 | "to taste" anywhere in the value gives one pack with the to-taste note, whatever the unit; a value that does not parse to a positive number fails; any success is at least one pack and carries neither the to-taste nor the minimum note; the notes of a numeric success are the rounding notes of the strategy's amount, by `Calculator.CalculationOutcome` |
| Calculator.CalculationOutcome | backend/src/services/MappingService.ts:84-211 | a numeric calculation succeeds exactly when the value is positive and the chosen strategy supports the product's unit (and, for sizes, the name has a keyword); the result is then the rounding of the strategy's amount: the quantity is its ceiling, the "approximate" note appears exactly for spoons and for size descriptors against kg or g products, and the "rounded up" note exactly when the ceiling exceeds the amount |
| Calculator.KilogramPacks | backend/src/services/MappingService.ts:171-172 | X kg of an ingredient sold in packs of S kg needs the ceiling of X / S packs, with a rounding note exactly when X / S is not whole |
| Calculator.PieceCountIgnoresPackSize | backend/src/services/MappingService.ts:160-161 | piece against piece needs the ceiling of the recipe count, whatever the pack size |
| Mapping.QuantityText | backend/src/services/MappingService.ts:228 | the "value unit" text of a recipe quantity; `Mapping.NotFoundCase` and `Mapping.CalculationFailedCase` state where it appears |
| Mapping.Decide | backend/src/services/MappingService.ts:247-278 | the fate of one ingredient given the lookup result and a calculator; `Mapping.NotFoundCase`, `Mapping.MatchedCase` and `Mapping.CalculationFailedCase` state its three cases |
| Mapping.MapIngredient | backend/src/services/MappingService.ts:228-278 | one iteration of the loop, with `calculateProductQuantity` as the calculator; `Mapping.CalculationFailedMeansNoResult` and `Mapping.MapOne` state it |
| Mapping.NotFoundCase | backend/src/services/MappingService.ts:247-255 | an ingredient is reported "Product not found" exactly when the lookup found nothing; whatever its fate, it keeps its name and "value unit" text |
| Mapping.MatchedCase | backend/src/services/MappingService.ts:257-269 | a matched ingredient carries the product the lookup found and exactly that product's calculation: its quantity, at least 1, and its notes |
| Mapping.CalculationFailedCase | backend/src/services/MappingService.ts:270-278 | an ingredient is unavailable for a failed calculation exactly when a product was found and its calculation gave nothing or less than one pack; the reason names that product's name, the recipe quantity and the product's pack size and unit |
| Mapping.CalculationFailedMeansNoResult | backend/src/services/MappingService.ts:257-278 | with `calculateProductQuantity` as the calculator, a failed calculation means a product was found and the calculation gave nothing |
| Mapping.MapAllPointwise | backend/src/services/MappingService.ts:227 | one outcome per ingredient, in order, each decided on its own |
| Mapping.PartitionIsComplete | backend/src/services/MappingService.ts:224-281 | every ingredient lands in exactly one of the two lists |
| Mapping.MatchedDistributes | backend/src/services/MappingService.ts:227-269 | the matched list of two batches of outcomes is the first batch's followed by the second's |
| Mapping.UnavailableDistributes | backend/src/services/MappingService.ts:227-279 | the unavailable list of two batches of outcomes is the first batch's followed by the second's |
| Mapping.PartitionIsSound | backend/src/services/MappingService.ts:262-276 | every listed item comes from an outcome of the matching kind |
| Mapping.MatchedArePositive | backend/src/services/MappingService.ts:260-268 | every matched item of a mapping needs at least one pack of a catalogue product |
| Mapping.FileNext | backend/src/services/MappingService.ts:227-279 | mapping one more ingredient files its outcome after those of the earlier ingredients, in its own list |
| Mapping.MapOne | backend/src/services/MappingService.ts:228-278 | the loop body, with its early `continue` on "not found", decides each ingredient exactly as the per-ingredient specification |
| Mapping.MapIngredientsToProps | backend/src/services/MappingService.ts:223-282 | the two lists are the matched and unavailable outcomes of the ingredients, in input order; together they hold one entry per ingredient |
| Carts.Total | backend/src/services/CartService.ts:10-16 | `calculateCartTotal`; `Carts.TotalAppend`, `Carts.TotalNonNegative` and `Carts.TotalSetQuantity` state how it sums the lines |
| Carts.TotalAppend | backend/src/services/CartService.ts:10-16 | the total of two line lists is the sum of their totals |
| Carts.TotalNonNegative | backend/src/services/CartService.ts:10-16 | lines with non-negative quantities and prices have a non-negative total |
| Carts.TotalSetQuantity | backend/src/services/CartService.ts:119-122 | setting one line's quantity changes the total by the change in quantity times that line's price |
| Carts.FindLine | backend/src/services/CartService.ts:64-66 | `findIndex`: -1 or an index of a line of the product; `Carts.FindLineSpec` states that it is the first |
| Carts.FindLineSpec | backend/src/services/CartService.ts:64-66 | `findIndex`: -1 exactly when no line has the product, otherwise a line of that product with none before it |
| Carts.Snapshot | backend/src/services/CartService.ts:75-83 | a new line copies the product's id, name, image, current price, unit and pack size, with the requested quantity |
| Carts.Place | backend/src/services/CartService.ts:68-85 | raise line k or append a snapshot; `Carts.PlaceRaisesTotal` and `Carts.PlaceAppendsTotal` state its effect on the total |
| Carts.AddLine | backend/src/services/CartService.ts:48-86 | one iteration of the loop of `addItemsToCart`; `Carts.AddLineUnchangedIffSkipped`, `Carts.AddLineEffect` and `Carts.AddLineKeepsWellFormed` state it |
| Carts.AddLineUnchangedIffSkipped | backend/src/services/CartService.ts:48-62 | a request leaves the cart untouched exactly when its id is malformed, its quantity is not positive, or its product does not exist |
| Carts.AddLineEffect | backend/src/services/CartService.ts:64-85 | an accepted request for a product already in the cart raises that line's quantity; otherwise it appends one snapshot line; no other line changes |
| Carts.PlaceRaisesTotal | backend/src/services/CartService.ts:68-70 | raising an existing line raises the total by the added quantity times the price snapshotted in that line, not the product's current price |
| Carts.PlaceAppendsTotal | backend/src/services/CartService.ts:73-85 | appending a new line raises the total by its quantity times the product's current price |
| Carts.AddLineKeepsWellFormed | backend/src/services/CartService.ts:64-85 | adding keeps one line per product and every quantity positive |
| Carts.AddAll | backend/src/services/CartService.ts:48-86 | the loop of `addItemsToCart`; `Carts.AddAllConcat` and `Carts.AddAllKeepsWellFormed` state it |
| Carts.AddAllConcat | backend/src/services/CartService.ts:48-86 | adding two batches in turn is adding their concatenation |
| Carts.AddAllKeepsWellFormed | backend/src/services/CartService.ts:48-86 | a whole batch keeps one line per product and every quantity positive |
| Carts.RemoveLines | backend/src/services/CartService.ts:144 | the order-keeping `filter` of `removeCartItem`; `Carts.RemoveLinesDistributes`, `Carts.RemoveLinesKeepsOthers`, `Carts.RemoveLinesShortens`, `Carts.RemoveLinesKeepsWellFormed` and `Carts.RemoveLinesTotal` state it |
| Carts.RemoveLinesDistributes | backend/src/services/CartService.ts:144 | the filter keeps the surviving lines in their order: filtering two runs of lines one after the other is filtering their concatenation |
| Carts.RemoveLinesKeepsOthers | backend/src/services/CartService.ts:144 | a line survives removal exactly when it was there and belongs to another product |
| Carts.RemoveLinesShortens | backend/src/services/CartService.ts:141-147 | removal never lengthens the cart, and leaves its length unchanged exactly when no line has the product |
| Carts.RemoveLinesKeepsWellFormed | backend/src/services/CartService.ts:144 | removal keeps one line per product and every quantity positive |
| Carts.RemoveLinesTotal | backend/src/services/CartService.ts:144-151 | with one line per product, removing a product lowers the total by exactly that line's cost, and by nothing when it has no line |
| Carts.EmptyCart | backend/src/services/CartService.ts:31 | a new cart belongs to the user, has no lines and total 0, and is well formed |
| Carts.WithCart | backend/src/services/CartService.ts:26-36 | fetching stores the user's cart when there was none and leaves every other cart, and an existing cart, untouched |
| Carts.GetCartIdempotent | backend/src/services/CartService.ts:26-36 | fetching a cart twice is fetching it once |
| Carts.CartStore.GetCart | backend/src/services/CartService.ts:26-36 | returns the user's cart, creating and storing an empty one when there is none; the store stays valid |
| Carts.CartStore.AddItemsToCart | backend/src/services/CartService.ts:45-92 | the stored cart holds the fetched cart's lines with all requests applied in order, and the recomputed total; only that user's cart changes |
| Carts.CartStore.UpdateCartItemQuantity | backend/src/services/CartService.ts:103-125 | a non-positive quantity and a malformed id fail before anything is stored; a product without a line fails after the cart is fetched; otherwise that line gets the new quantity and the total is recomputed |
| Carts.CartStore.RemoveCartItem | backend/src/services/CartService.ts:135-154 | a malformed id fails before anything is stored; a product without a line fails and the filtered list is not stored; otherwise the product's lines are dropped and the total is recomputed |
| Carts.CartStore.ClearCart | backend/src/services/CartService.ts:162-170 | the user's cart is stored with no lines and total 0; no other cart changes |
| Orders.ToOrderItem | backend/src/services/OrderService.ts:24-32 | an order line copies every field of its cart line |
| Orders.SnapshotItems | backend/src/services/OrderService.ts:24-32 | one order line per cart line, in order, each a copy of its cart line |
| Orders.SnapshotKeepsTotal | backend/src/services/OrderService.ts:24-38 | the order lines cost exactly what the cart lines cost |
| Orders.PlaceOrder | backend/src/services/OrderService.ts:35-41 | the new order carries the given id, user and date, the snapshot of the cart's lines, the cart's total and status Confirmed |
| Orders.PlacedOrderIsConsistent | backend/src/services/OrderService.ts:35-41 | an order placed from a well-formed cart charges exactly what its own lines add up to, and has as many lines as the cart |
| Orders.OfUser | backend/src/services/OrderService.ts:66 | the selection holds only the user's orders, each exactly as often as it is stored |
| Orders.Insert | backend/src/services/OrderService.ts:67 | inserting into a newest-first list keeps it newest first and adds exactly that order |
| Orders.SortNewestFirst | backend/src/services/OrderService.ts:67 | the sorted list is newest first and a permutation of its input |
| Orders.SortedOwnOrders | backend/src/services/OrderService.ts:65-70 | sorting a user's selection brings in no order of another user and none that is not stored |
| Orders.FindOrder | backend/src/services/OrderService.ts:84 | finds an order with that id and owner when one is stored, and nothing exactly when none is |
| Orders.FindAppended | backend/src/services/OrderService.ts:79-88 | an order saved under an id no stored order has is the one found under that id by its owner |
| Orders.OrderStore.CreateOrder | backend/src/services/OrderService.ts:14-58 | an empty cart fails with no order saved (the fetched cart is still created); otherwise the snapshot order is appended under its fresh id, is the order found under that id for its owner, and the cart is cleared, or left as it was when clearing fails |
| Orders.OrderStore.OrdersByUser | backend/src/services/OrderService.ts:65-70 | exactly the user's stored orders, each as often as stored, newest first |
| Orders.OrderStore.OrderById | backend/src/services/OrderService.ts:79-88 | a malformed id fails; otherwise the result is an order with that id owned by the user, or nothing exactly when the user owns no such order |
| Scenarios.TwoMediumOnions | backend/src/services/MappingService.ts:96-98 | "2 medium" onions against the seed onion (1 kg packs) need one pack, approximate and rounded up from 0.24 |
| Scenarios.TeaspoonOfSalt | backend/src/services/MappingService.ts:130-141 | 1 tsp of salt against the seed 1 kg salt needs one pack, approximate and rounded up from 0.006, with no minimum-purchase note |
| Scenarios.HalfKiloOfPaneer | backend/src/services/MappingService.ts:166-167 | 0.5 kg of paneer sold in 200 g packs needs three packs, rounded up from 2.5 |
| Scenarios.OnionsFindOnion | backend/src/services/MappingService.ts:229-244 | "Onions" is looked up as "onion" and finds the seed onion product by name |

## Left out

- Floating point: recipe amounts, prices and totals are exact reals. Binary rounding (e.g. `0.1 + 0.2`) and `Infinity` are not modelled.
- `parseFloat` is the caller-supplied `parse` parameter. Its prefix-parsing rules (e.g. "2abc" parses as 2) are not modelled.
- Note text: notes are structured values (`Approximate`, `RoundedUpFrom(raw)`, ...). The `toFixed(2)` formatting, the message wording and the final `trim()` of the note text are not modelled.
- Matcher.FindMatchingProduct: the `^name$` regular expression with the `i` flag is modelled as equality after ASCII lower-casing. A name holding regular-expression metacharacters, and Unicode case folding, are not modelled.
- Matcher.Normalize: only ASCII white space is trimmed, and only ASCII letters are lower-cased.
- Catalogue order: Mongo's `findOne` returns "a" matching document. The model takes the first in catalogue order.
- Persistence and concurrency: `save()`, `async`/`await`, and two requests interleaving on one cart are not modelled. Each store is a map or sequence updated in place.
- Thrown errors are returned as `Failure` values. `console.log` and `console.warn` output is not modelled.
- Carts.Total: the `typeof pricePerUnit === 'number'` fallback to 0 is not modelled; a line's price is always a number here.
- Ids: the `ObjectId` cast of cart and order ids and its `toString()` canonical form are not modelled. Ids are compared as strings, and `isValidId` stands for `ObjectId.isValid`.
- Carts.CartStore.AddItemsToCart: requires every product to be stored under its own id (`Keyed`). That holds only for ids in canonical form (lower-case hex). `ObjectId.isValid` also accepts upper-case hex, and `findById` finds the product under such an id. But the comparison at `CartService.ts:65` is against the lower-case canonical string, so `findIndex` gives -1 and the source pushes a second line for a product already in the cart. The model does not capture that case.
- Carts.AddLineKeepsWellFormed: "one line per product" is proved for canonical ids only (`Keyed`), for the reason above.
- Carts.AddAllKeepsWellFormed: "one line per product" is proved for canonical ids only (`Keyed`), for the reason above; so is the `DistinctIds` part of `Carts.CartStore.Valid`.
- Carts.CartStore.UpdateCartItemQuantity: quantities are whole numbers (`int`) in cart lines (`Carts.Snapshot`, `Carts.Place`), add requests (`Carts.AddLine`, `Carts.CartStore.AddItemsToCart`), the new quantity here, and order lines (`Orders.ToOrderItem`). The controllers (`CartController.ts:35`, `CartController.ts:73`) check only for a positive number, so a fractional quantity reaches the service and is not modelled. They are whole numbers because the frontend only sends whole numbers: its quantity controls step by one from whole numbers (`frontend/src/components/CartItem.tsx:15-20`).
- Orders.OrderStore.CreateOrder: the clock (`new Date()`), the fresh order id, and a failure of `clearCart` are parameters (`now`, `orderId`, `clearSucceeds`).
- Orders.OrderStore.CreateOrder: the `!cart` check is not modelled, because `getCart` never returns nothing.
- Orders.OrderStore.OrdersByUser: the relative order of two orders with the same `orderDate` is left open, as Mongo's sort leaves it.
- Timestamps: `createdAt` and `updatedAt` of carts and orders are not modelled.
- Order statuses other than `Confirmed`: no core operation sets them.
- Outside the core: the text-generation client that extracts ingredients (`GeminiService.ts`), the controllers, validation, authentication and the frontend are not part of this model.
