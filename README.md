# Shopping cart store and catalogue filters of an Android shop

This project models two parts of a small Kotlin/Compose shopping app and proves
what they promise.

**The cart store** (`CartViewModel`). The cart is two maps keyed by product id:
`idToQuantity` (how many units) and `idToProduct` (the last product snapshot
added). Every command changes the maps in place, then `recomputeState` rebuilds
two views. `groupedCartItems` has one line per product. `cartItems` repeats
each product `quantity` times. When a `CartDao` is attached, `recomputeState`
also replaces the table's contents with one row per grouped line: a `clear`,
then an `upsertAll`. When a table is attached, `init` collects its row list:
on the first emission and again on every later one (each write re-emits), it
rebuilds the maps and views from the rows and writes nothing back. The model is the class
`CartViewModels.CartViewModel`, with the same four fields and a nullable
`cartDao` field. The class invariant `Valid()` says the two maps have the same
keys, each snapshot sits under its own id, and both views are the ones
`recomputeState` derives. `Positive()` says no stored quantity is below one.
Every command keeps `Positive()`. The table is the class
`CartTables.CartTable`. Its `rows` sequence is replaced on conflict by primary
key, like the Room table. The pure derivations sit in module `CartViews`: the
grouping, the flat list, the total, the rows written and the maps rebuilt from
them. Module `CartScenarios` holds short sessions that use only the class's
contracts.

**The catalogue pipeline** (`ProductListScreen`). The product grid shows the
catalogue after four filters and an optional sort:
- a text search on title or category, ignoring case;
- a set of categories;
- a half-open price band;
- a minimum star rating, applied to the truncated rate.

The filter dialog's chips toggle these settings, and Reset restores the
initial state. The category chips list the catalogue's categories once each,
in sorted order. As `String.compareTo` does, the model compares strings by their
UTF-16 code units. All of this is pure. Module `ProductListFilters` models it as
functions over sequences, with lemmas.

Kotlin `Double` prices and rates are `real`. Only comparisons, products and
sums are applied to them. `Double.toInt()` on the rate is modelled as
truncation toward zero.

## Model

| member | source | states |
|---|---|---|
| CartViewModels.CartViewModel.constructor | app/src/main/java/com/example/ecommerce/viewmodel/CartViewModel.kt:16-27 | A new store has empty maps and empty views, is valid, and keeps the table it was given (or none). |
| CartViewModels.CartViewModel.GetQuantity | app/src/main/java/com/example/ecommerce/viewmodel/CartViewModel.kt:66 | In a valid store the answer is never negative and equals the quantity on the grouped line for that id. When every quantity is positive, the answer is 0 exactly when no line carries the id. |
| CartViewModels.CartViewModel.TotalPrice | app/src/main/java/com/example/ecommerce/viewmodel/CartViewModel.kt:29-30 | In a valid store, the sum over the grouped lines equals the order-free cart total of the maps: each id's current snapshot price times its quantity. |
| CartViewModels.CartViewModel.BuildViews | app/src/main/java/com/example/ecommerce/viewmodel/CartViewModel.kt:81-85 | From valid maps, it builds a grouping (one line per id, with the maps' quantity and snapshot) and the flat list of that grouping, so the store becomes `Valid()`. |
| CartViewModels.CartViewModel.RecomputeState | app/src/main/java/com/example/ecommerce/viewmodel/CartViewModel.kt:80-107 | Rebuilds both views. An attached table then holds exactly one row per grouped line, in grouped order, all earlier rows gone, after two writes. |
| CartViewModels.CartViewModel.AddToCart | app/src/main/java/com/example/ecommerce/viewmodel/CartViewModel.kt:32-36 | Raises the id's quantity by one from its old value (0 if absent) and replaces the snapshot with the given product. Every other id is unchanged. The invariants hold, and the table mirrors the new views. |
| CartViewModels.CartViewModel.AddToCartQuantity | app/src/main/java/com/example/ecommerce/viewmodel/CartViewModel.kt:38-43 | A non-positive quantity leaves the store and the table untouched. Otherwise it raises the id's quantity by exactly `quantity` and replaces the snapshot; other ids are unchanged and the table mirrors the new views. |
| CartViewModels.CartViewModel.RemoveFromCart | app/src/main/java/com/example/ecommerce/viewmodel/CartViewModel.kt:45-54 | When the old quantity is at most 1, including an absent id, both entries for the id are gone and the maps are otherwise unchanged. Otherwise the quantity drops by one and the snapshots are untouched. Positivity is kept. |
| CartViewModels.CartViewModel.Increment | app/src/main/java/com/example/ecommerce/viewmodel/CartViewModel.kt:56-59 | An id with no snapshot leaves the store and the table untouched. A present id gains one unit and keeps its snapshot; the table mirrors the new views after two writes. |
| CartViewModels.CartViewModel.Decrement | app/src/main/java/com/example/ecommerce/viewmodel/CartViewModel.kt:61-64 | An id with no snapshot is a no-op. A quantity of at most 1 removes both entries. A larger quantity drops by one with the snapshot kept. For a present id the table mirrors the new views after two writes. |
| CartViewModels.CartViewModel.RemoveItem | app/src/main/java/com/example/ecommerce/viewmodel/CartViewModel.kt:68-72 | Both entries for the id are gone whatever the quantity, every other id is unchanged, and `getQuantity` then answers 0. |
| CartViewModels.CartViewModel.ClearAll | app/src/main/java/com/example/ecommerce/viewmodel/CartViewModel.kt:74-78 | Both maps and both views are empty, the total is 0 and an attached table holds no rows. |
| CartViewModels.CartViewModel.Refill | app/src/main/java/com/example/ecommerce/viewmodel/CartViewModel.kt:114-127 | Clearing the maps and then storing each row in order leaves exactly the hydrated maps of the rows. Rows without a negative quantity give valid maps, and rows that are all positive give a positive store. |
| CartViewModels.CartViewModel.MirrorHydrates | app/src/main/java/com/example/ecommerce/viewmodel/CartViewModel.kt:113-133 | A valid store whose table mirrors it hydrates back to its own two maps. |
| CartViewModels.CartViewModel.Hydrate | app/src/main/java/com/example/ecommerce/viewmodel/CartViewModel.kt:109-137 | It changes only the store's four fields, never the table. Afterwards the store is valid and the maps are the hydrated maps of the rows. Positive rows give a positive store. A store that was valid and mirrored ends with the maps it had. |
| CartViews.Flatten | app/src/main/java/com/example/ecommerce/viewmodel/CartViewModel.kt:85 | No contract of its own beyond the non-negative quantities `List(n)` needs; `FlattenLength` and `FlattenBlock` state its length and layout. |
| CartViews.SumQuantities | app/src/main/java/com/example/ecommerce/ui/screens/CartScreen.kt:220 | No contract; `FlattenLength` states that it is the length of the flat list. |
| CartViews.LinesTotal | app/src/main/java/com/example/ecommerce/viewmodel/CartViewModel.kt:29-30 | No contract; `GroupingTotal` states that it equals the order-free `CartTotal` for any grouping. |
| CartViews.GroupingSize | app/src/main/java/com/example/ecommerce/viewmodel/CartViewModel.kt:81-84 | A grouping has exactly one line for each id present in both maps. |
| CartViews.FlattenLength | app/src/main/java/com/example/ecommerce/viewmodel/CartViewModel.kt:85 | The flat list is as long as the sum of the line quantities. |
| CartViews.FlattenBlock | app/src/main/java/com/example/ecommerce/viewmodel/CartViewModel.kt:85 | Line `i`'s product fills the contiguous block that starts after the quantities of the earlier lines, `quantity` slots long, in grouped order. |
| CartViews.GroupingTotal | app/src/main/java/com/example/ecommerce/viewmodel/CartViewModel.kt:29-30 | Whatever order the grouping comes in, its price-times-quantity sum equals the cart total of the maps. |
| CartViews.GroupingTotalStep | app/src/main/java/com/example/ecommerce/viewmodel/CartViewModel.kt:29-30 | Removing the line of one id leaves a grouping of the maps without that id, and the sum drops by that id's price times quantity. |
| CartViews.DropLine | app/src/main/java/com/example/ecommerce/viewmodel/CartViewModel.kt:81-84 | Dropping a line from a grouping gives a grouping of the quantity map without that line's id. |
| CartViews.ToProduct | app/src/main/java/com/example/ecommerce/viewmodel/CartViewModel.kt:118-126 | The product rebuilt from a row carries the row's `productId` as its id. |
| CartViews.ToEntity | app/src/main/java/com/example/ecommerce/viewmodel/CartViewModel.kt:90-101 | A line's row keeps its id and quantity, and rebuilding a product from the row gives back the line's product unchanged. |
| CartViews.Materialize | app/src/main/java/com/example/ecommerce/viewmodel/CartViewModel.kt:90-102 | One row per line at the same position, with that line's id and quantity, and a product that rebuilds exactly. |
| CartViews.MaterializeIds | app/src/main/java/com/example/ecommerce/viewmodel/CartViewModel.kt:90-102 | The rows of a grouping carry exactly the grouping's ids, each once, as a primary key requires. |
| CartViews.HydratedQuantities | app/src/main/java/com/example/ecommerce/viewmodel/CartViewModel.kt:114-117 | The quantity map built from the rows has exactly the rows' ids as keys. |
| CartViews.HydratedProducts | app/src/main/java/com/example/ecommerce/viewmodel/CartViewModel.kt:114-126 | The snapshot map built from the rows has exactly the rows' ids as keys, each snapshot under its own id. |
| CartViews.HydratedQuantitiesAtLeast | app/src/main/java/com/example/ecommerce/viewmodel/CartViewModel.kt:116-117 | A lower bound on the rows' quantities holds for every hydrated quantity. |
| CartViews.HydratedQuantityAt | app/src/main/java/com/example/ecommerce/viewmodel/CartViewModel.kt:116-117 | With unique row ids, each row's quantity is what hydration stores for its id. |
| CartViews.HydratedProductAt | app/src/main/java/com/example/ecommerce/viewmodel/CartViewModel.kt:118-126 | With unique row ids, each row's rebuilt product is the snapshot hydration stores for its id. |
| CartViews.HydratedKeys | app/src/main/java/com/example/ecommerce/viewmodel/CartViewModel.kt:113-133 | The rows written for a grouping hydrate into maps over the same ids as the original maps. |
| CartViews.HydrateRoundTripAt | app/src/main/java/com/example/ecommerce/viewmodel/CartViewModel.kt:113-133 | Each grouped id comes back from the written rows with its original quantity and snapshot. |
| CartViews.HydrateRoundTrip | app/src/main/java/com/example/ecommerce/viewmodel/CartViewModel.kt:113-133 | The rows written after a command hydrate back into exactly the two maps that produced them. |
| CartTables.UpsertEach | app/src/main/java/com/example/ecommerce/data/local/CartDao.kt:19-20 | No contract; `UpsertEachIntoEmpty` states that distinct items upserted into an empty table are exactly those items in order, and `CartTable.UpsertAll` states that its loop computes it. |
| CartTables.Upsert | app/src/main/java/com/example/ecommerce/data/local/CartDao.kt:19-20 | After an insert with replace-on-conflict, the table's keys are the old keys plus the new one, and a new key is appended at the end. In a table with unique keys, the keys stay unique, the row with the inserted key is now the inserted row, and every row with another key stays. |
| CartTables.UpsertEachIntoEmpty | app/src/main/java/com/example/ecommerce/data/local/CartDao.kt:19-20 | Upserting rows with distinct keys into an empty table leaves exactly those rows, in order. |
| CartTables.CartTable.constructor | app/src/main/java/com/example/ecommerce/data/local/CartDao.kt:13-14 | The table starts with the given rows and no writes. |
| CartTables.CartTable.Clear | app/src/main/java/com/example/ecommerce/data/local/CartDao.kt:25-26 | The table is empty after one write. |
| CartTables.CartTable.UpsertAll | app/src/main/java/com/example/ecommerce/data/local/CartDao.kt:19-20 | The rows are the old rows with each item upserted in turn, after one write. |
| CartScenarios.AddTwice | app/src/main/java/com/example/ecommerce/viewmodel/CartViewModel.kt:38-43 | One unit and then two more of a product give quantity 3 on a single grouped line and three flat entries. |
| CartScenarios.DecrementToZero | app/src/main/java/com/example/ecommerce/viewmodel/CartViewModel.kt:61-64 | Decrementing a single unit leaves quantity 0, no lines and a total of 0. |
| CartScenarios.RemoveItemAfterTwo | app/src/main/java/com/example/ecommerce/viewmodel/CartViewModel.kt:68-72 | Removing an item with two units leaves quantity 0 and no lines. |
| CartScenarios.RemoveItemTwice | app/src/main/java/com/example/ecommerce/viewmodel/CartViewModel.kt:68-72 | A second `removeItem` of the same id leaves the quantities exactly as the first did. |
| CartScenarios.Reprice | app/src/main/java/com/example/ecommerce/viewmodel/CartViewModel.kt:32-36 | Adding a product again with a new price prices every unit, old and new, at the latest snapshot. |
| CartScenarios.FillTable | app/src/main/java/com/example/ecommerce/viewmodel/CartViewModel.kt:32-43 | Three adds into a fresh table give quantities 2 and 3, with the table mirroring the views. |
| CartScenarios.FirstSession | app/src/main/java/com/example/ecommerce/viewmodel/CartViewModel.kt:61-64 | Two decrements after that leave quantities 2 and 1, still mirrored in the table. |
| CartScenarios.Restart | app/src/main/java/com/example/ecommerce/viewmodel/CartViewModel.kt:109-137 | A new store over the first session's table hydrates to the first session's quantities, and the table's write count is the same before and after the hydration. |
| ProductListFilters.Filter | app/src/main/java/com/example/ecommerce/ui/screens/ProductListScreen.kt:93 | The result is an order-preserving subsequence of the input in which every element passes. Each passing value keeps all of its copies; a failing value has none. |
| ProductListFilters.SortedAllPairs | app/src/main/java/com/example/ecommerce/ui/screens/ProductListScreen.kt:112-115 | Under a transitive order, a list whose neighbours are in order has every pair in order. |
| ProductListFilters.InsertBy | app/src/main/java/com/example/ecommerce/ui/screens/ProductListScreen.kt:112-115 | Inserting into a sorted list keeps it sorted and adds exactly the one element. |
| ProductListFilters.SortBy | app/src/main/java/com/example/ecommerce/ui/screens/ProductListScreen.kt:112-115 | The result is sorted by the given total order and is a permutation of the input. |
| ProductListFilters.PriceRangesAdjacent | app/src/main/java/com/example/ecommerce/ui/screens/ProductListScreen.kt:471-477 | There are five ranges. The first has no lower bound, the last has no upper bound, and each range ends where the next one starts. |
| ProductListFilters.PriceInExactlyOneRange | app/src/main/java/com/example/ecommerce/ui/screens/ProductListScreen.kt:101-108 | With the half-open test, every price lies in one of the five ranges and in no two. |
| ProductListFilters.ToggleCategory | app/src/main/java/com/example/ecommerce/ui/screens/ProductListScreen.kt:256-260 | The tapped category flips its membership; every other category keeps its membership. |
| ProductListFilters.ToggleCategoryTwice | app/src/main/java/com/example/ecommerce/ui/screens/ProductListScreen.kt:256-260 | Toggling the same category twice restores the original selection. |
| ProductListFilters.SelectPriceRange | app/src/main/java/com/example/ecommerce/ui/screens/ProductListScreen.kt:272 | The result is empty exactly when the tapped range was the selected one; otherwise it is the tapped range. |
| ProductListFilters.SelectRating | app/src/main/java/com/example/ecommerce/ui/screens/ProductListScreen.kt:284 | The minimum drops to 0 exactly when the tapped rating was the current one (or is 0); otherwise it is the tapped rating. |
| ProductListFilters.SelectSort | app/src/main/java/com/example/ecommerce/ui/screens/ProductListScreen.kt:296 | The order falls back to `None` exactly when the tapped option was the current one (or is `None`); otherwise it is the tapped option. |
| ProductListFilters.Reset | app/src/main/java/com/example/ecommerce/ui/screens/ProductListScreen.kt:219-222 | Whatever the filters were, Reset gives the state the screen starts in. |
| ProductListFilters.ResetShowsAll | app/src/main/java/com/example/ecommerce/ui/screens/ProductListScreen.kt:219-222 | After Reset, a blank query shows the whole catalogue in catalogue order. |
| ProductListFilters.TruncateToInt | app/src/main/java/com/example/ecommerce/ui/screens/ProductListScreen.kt:110 | The result is the integer next to the rate on the side of zero: below it by less than one for a non-negative rate, above it by less than one for a negative rate. |
| ProductListFilters.RatingThreshold | app/src/main/java/com/example/ecommerce/ui/screens/ProductListScreen.kt:110 | For a positive minimum, the truncated rate reaches it exactly when the rate itself does. |
| ProductListFilters.InRange | app/src/main/java/com/example/ecommerce/ui/screens/ProductListScreen.kt:103-106 | No contract; `PriceInExactlyOneRange` states that every price is in exactly one chip's range, and `ByPrice` that the filter keeps exactly the prices in range. |
| ProductListFilters.IsBlank | app/src/main/java/com/example/ecommerce/ui/screens/ProductListScreen.kt:92 | No contract; `ByQuery` states that a blank query keeps every product. |
| ProductListFilters.ContainsIgnoreCase | app/src/main/java/com/example/ecommerce/ui/screens/ProductListScreen.kt:94-95 | No contract; `ByQuery` states that a non-blank query keeps exactly the products whose title or category contains it. |
| ProductListFilters.Filtered | app/src/main/java/com/example/ecommerce/ui/screens/ProductListScreen.kt:91-111 | No contract; `FilteredExactly` states that it keeps, in order, every copy of exactly the products all active filters admit. |
| ProductListFilters.Sorted | app/src/main/java/com/example/ecommerce/ui/screens/ProductListScreen.kt:112-117 | No contract; `SortingPermutes`, `SortedByChip` and `UnsortedKeepsOrder` state that it permutes its input into the chip's order, and is the identity for `None`. |
| ProductListFilters.ProductList | app/src/main/java/com/example/ecommerce/ui/screens/ProductListScreen.kt:91-117 | No contract; `SortingPermutes`, `SortedByChip` and `UnsortedKeepsOrder` state what the grid shows. |
| ProductListFilters.Categories | app/src/main/java/com/example/ecommerce/ui/screens/ProductListScreen.kt:89 | No contract; `CategoriesSortedDistinct` states that it is strictly ascending and holds exactly the catalogue's categories. |
| ProductListFilters.priceRanges | app/src/main/java/com/example/ecommerce/ui/screens/ProductListScreen.kt:471-477 | A constant; `PriceRangesAdjacent` and `PriceInExactlyOneRange` state its shape. |
| ProductListFilters.initialFilters | app/src/main/java/com/example/ecommerce/ui/screens/ProductListScreen.kt:73-76 | A constant; `Reset` returns it and `ResetShowsAll` states that it shows the whole catalogue. |
| ProductListFilters.ByQuery | app/src/main/java/com/example/ecommerce/ui/screens/ProductListScreen.kt:92-97 | A blank query returns the products unchanged. A non-blank query keeps, in order and with every copy, exactly the products whose title or category contains the query ignoring case. |
| ProductListFilters.ByCategory | app/src/main/java/com/example/ecommerce/ui/screens/ProductListScreen.kt:98-100 | An empty selection returns the products unchanged. A non-empty one keeps, in order, exactly the products whose category is selected. |
| ProductListFilters.ByPrice | app/src/main/java/com/example/ecommerce/ui/screens/ProductListScreen.kt:101-108 | No selected range returns the products unchanged. A selected range keeps, in order, exactly the products with `min <= price < max`; an absent bound is not checked. |
| ProductListFilters.ByRating | app/src/main/java/com/example/ecommerce/ui/screens/ProductListScreen.kt:109-111 | A minimum of 0 or less returns the products unchanged. A positive one keeps, in order, exactly the products whose truncated rate reaches it. |
| ProductListFilters.InOrderIsOrder | app/src/main/java/com/example/ecommerce/ui/screens/ProductListScreen.kt:112-115 | Each sort chip's comparison is total and transitive, so sorting by it is well defined. |
| ProductListFilters.FilteredExactly | app/src/main/java/com/example/ecommerce/ui/screens/ProductListScreen.kt:91-111 | The four filters together keep an order-preserving subsequence of the catalogue. It holds every copy of each product that passes all active filters and nothing else. |
| ProductListFilters.UnsortedKeepsOrder | app/src/main/java/com/example/ecommerce/ui/screens/ProductListScreen.kt:116 | With no sort chip the grid is an order-preserving subsequence of the catalogue. |
| ProductListFilters.SortingPermutes | app/src/main/java/com/example/ecommerce/ui/screens/ProductListScreen.kt:112-117 | Whatever the sort chip, the grid is a permutation of the filtered products. |
| ProductListFilters.SortedByChip | app/src/main/java/com/example/ecommerce/ui/screens/ProductListScreen.kt:112-117 | The grid is in the chip's order: price non-decreasing for `PriceAsc`, price non-increasing for `PriceDesc`, rate non-increasing for `RatingDesc`. |
| ProductListFilters.CodeUnits | app/src/main/java/com/example/ecommerce/ui/screens/ProductListScreen.kt:89 | A character takes one or two UTF-16 code units, and two exactly when its first unit is a high surrogate. |
| ProductListFilters.CodeUnitsInjective | app/src/main/java/com/example/ecommerce/ui/screens/ProductListScreen.kt:89 | Different characters have different code units. |
| ProductListFilters.Utf16Injective | app/src/main/java/com/example/ecommerce/ui/screens/ProductListScreen.kt:89 | Different strings have different UTF-16 code-unit sequences. |
| ProductListFilters.SurrogatePairSortsLow | app/src/main/java/com/example/ecommerce/ui/screens/ProductListScreen.kt:89 | `sorted()` compares code units, not code points: U+1F600 sorts before U+FF21 although its code point is larger. |
| ProductListFilters.StrLessTotal | app/src/main/java/com/example/ecommerce/ui/screens/ProductListScreen.kt:89 | Of two different strings, one sorts strictly before the other. |
| ProductListFilters.StrLessTransitive | app/src/main/java/com/example/ecommerce/ui/screens/ProductListScreen.kt:89 | String order is transitive. |
| ProductListFilters.Distinct | app/src/main/java/com/example/ecommerce/ui/screens/ProductListScreen.kt:89 | The result holds the same values as the input, with no value twice. |
| ProductListFilters.CategoriesOf | app/src/main/java/com/example/ecommerce/ui/screens/ProductListScreen.kt:89 | One entry per product, at the same position, holding that product's category. |
| ProductListFilters.SortedDistinctIsStrict | app/src/main/java/com/example/ecommerce/ui/screens/ProductListScreen.kt:89 | A sorted list of strings with no repeats is strictly ascending. |
| ProductListFilters.CategoriesSortedDistinct | app/src/main/java/com/example/ecommerce/ui/screens/ProductListScreen.kt:89 | The category chips are strictly ascending, with no duplicates. They hold exactly the categories that occur in the catalogue. |

## Left out

- Room, the coroutines and the Flow: each `viewModelScope.launch` write and each `collectLatest` emission is modelled as one atomic step. Interleavings of concurrent writes and emissions are not modelled.
- The table is only what the cart uses: its rows, `clear` and `upsertAll`. The single-row `upsert` and `deleteById` are never called by the cart and are not modelled. The database itself is not part of this model.
- CartViewModels.CartViewModel.AddToCartQuantity: quantities are unbounded integers. The 32-bit wrap-around of a Kotlin `Int` after about two billion units is not modelled. The same holds for `AddToCart` and `Increment`.
- CartViewModels.CartViewModel.BuildViews: the order of the grouped lines is the iteration order of `mutableStateMapOf`, which the code does not fix. The model leaves that order open. Every property holds for any order, and the flat list follows whichever order was chosen.
- CartViewModels.CartViewModel.Hydrate: it requires that no stored row has a negative quantity. With one, `List(quantity)` in the flat view would throw in the source, and that exception is not modelled. Rows with quantity 0 are accepted, as in the source.
- ProductListFilters.SortBy: `sortedBy` and `sortedByDescending` are stable, and the insertion sort keeps equal keys in input order too. The contracts state only sortedness and permutation, not stability.
- ProductListFilters.ContainsIgnoreCase: case folding is ASCII only. Kotlin's `ignoreCase` also folds non-ASCII letters, and that is not modelled.
- ProductListFilters.IsBlank: only ASCII whitespace counts. Unicode space separators that `isBlank` also accepts are not modelled.
- ProductListFilters.TruncateToInt: `real` has no NaN and no infinities, and Kotlin's saturation of `toInt()` at the `Int` bounds is not modelled. Rates come from a 0-5 catalogue rating.
- Doubles are exact reals. Rounding in `price * quantity` and in the `sumOf` total is not modelled.
- The 300 ms debounce of the search query is timing and is not modelled. The query given to the pipeline is the debounced one.
- The initial `fetchProducts` call, the network, and all Compose layout and rendering are not modelled.
- `data/model/Product.kt` is not part of this model. The product's fields are those used at CartViewModel.kt:118-126.
