# Check24App product overview — a Dafny model

This project models the state store behind the app's product overview screen,
`ProductOverviewViewModel`, together with the data classes it works on
(`Product`, `ProductResponse`, `Header`) and the `ProductFilter` enum. The store holds:
- a three-way load status (`Loading`, `Success(list)`, `Error(message)`);
- the active filter;
- the authoritative product list;
- a load-attempt counter;
- a cached "active" product for the detail screen.

It offers four operations (load, set filter, toggle favourite, observe a
product by id) and one derived list, `filteredProducts`.

Layout, one module per source file or component:

- `kotlin_types.dfy` (`KotlinTypes`): Kotlin's 32-bit `Int` as a newtype. `++`
  wraps from the largest to the smallest value. `%` truncates toward zero
  (only `% 3` occurs). `T?` is `Option`, and `?:` is `OrElse`.
- `product.dfy` (`ProductModel`): the data classes as datatypes. The default
  constructor has `isFavorite = false`. `copy(isFavorite = b)` is `WithFavorite`.
- `product_filter.dfy` (`Filters`): the three filters, their labels and the
  label-to-filter inverse.
- `product_lists.dfy` (`ProductLists`): the list operations the view model
  performs, as pure functions:
  - `indexOfFirst`;
  - `find`;
  - the favourite merge of a reload (`map` + `find`);
  - the replace-by-index toggle;
  - `filter`;
  - the lemmas about each of them.
- `product_overview_view_model.dfy` (`ProductOverviewViewModel`): the load
  status, the fetch result, the `filteredProducts` projection and the class
  `ProductStore`. The class has the view model's five fields and one method
  per operation. The file ends with client scenarios that drive a
  `ProductStore` through whole sessions.

The repository call is an input: a load takes a `FetchResult`, either
`Fetched(response)` or `Failed(message)`, where the message may be null as a
Kotlin exception's may. `loadProducts` is split at its coroutine launch:
- `BeginLoad` is the synchronous `Loading` assignment;
- `CompleteLoad` is the launched body;
- `LoadProducts` runs both.

Any other operation may run between `BeginLoad` and `CompleteLoad`.

The object invariant `ProductStore.Valid()` is established by the
constructor and kept by every operation. A toggle changes the product list but
not the `Success` payload, so while the status is `Success`, its payload and
the list agree position by position in everything except the favourite flags.

Behaviour worth noting:

- Every load whose counter is divisible by three fails with "Simulated error"
  without consulting the repository (`EffectiveResult`). The load started by
  `init` is attempt one, so the second explicit reload is the first to fail.
- On reload, a product whose id is not favourited in the old list keeps the
  flag it was fetched with, whatever that flag is. The favourite test uses
  the *first* old product with that id.
- The cached active product follows toggles (`ToggleKeepsActiveMatch`) but
  not reloads. A reload leaves the cache as it was, even when the new list
  no longer holds that product (`ReloadCanLeaveActiveStale`).

## Model

| member | source | states |
|---|---|---|
| `KotlinTypes.Increment` | app/src/main/java/com/example/check24app/viewmodel/ProductOverviewViewModel.kt:44 | `loadAttempt++` adds exactly one, except that it wraps from 2147483647 to -2147483648 |
| `KotlinTypes.RemThree` | app/src/main/java/com/example/check24app/viewmodel/ProductOverviewViewModel.kt:46 | `loadAttempt % 3` is a remainder with the dividend's sign, strictly between -3 and 3, differing from the dividend by a multiple of three |
| `KotlinTypes.RemThreeZeroIsDivisible` | app/src/main/java/com/example/check24app/viewmodel/ProductOverviewViewModel.kt:46 | the test `loadAttempt % 3 == 0` holds exactly when the counter is divisible by three, negative counters included |
| `ProductModel.NewProduct` | app/src/main/java/com/example/check24app/model/product.kt:14-23 | a product built without `isFavorite` is not a favourite and holds the seven given values |
| `ProductModel.WithFavorite` | app/src/main/java/com/example/check24app/model/product.kt:14-23 | `copy(isFavorite = b)` has flag `b` and agrees with the original on every other field |
| `ProductModel.EqualityIsStructural` | app/src/main/java/com/example/check24app/model/product.kt:14 | two products are equal exactly when all eight fields are equal |
| `ProductModel.WithSameFavoriteIsIdentity` | app/src/main/java/com/example/check24app/viewmodel/ProductOverviewViewModel.kt:57 | copying with the flag a product already has yields an equal product |
| `ProductModel.ToggledCopyDiffers` | app/src/main/java/com/example/check24app/viewmodel/ProductOverviewViewModel.kt:94 | a copy with the flag flipped differs from the original, and flipping back restores it |
| `Filters.Label` | app/src/main/java/com/example/check24app/model/ProductFilter.kt:3-7 | every filter has a non-empty label: ALL "Alle", AVAILABLE "Verfügbar", FAVORITES "Vorgemerkt" |
| `Filters.FromLabel` | app/src/main/java/com/example/check24app/model/ProductFilter.kt:4-6 | not a source function: a reference inverse of the fixed `label` table, which makes the distinct-labels property statable; the filter found for a label has that label, and when none is found no filter has it |
| `Filters.EntriesAreExhaustive` | app/src/main/java/com/example/check24app/model/ProductFilter.kt:3-7 | there are exactly three distinct filter values, and every value is one of them |
| `Filters.LabelIsInjective` | app/src/main/java/com/example/check24app/model/ProductFilter.kt:4-6 | distinct filters have distinct labels |
| `Filters.LabelRoundTrip` | app/src/main/java/com/example/check24app/model/ProductFilter.kt:4-6 | looking up a filter's label gives back that filter |
| `ProductLists.IndexOfFirst` | app/src/main/java/com/example/check24app/viewmodel/ProductOverviewViewModel.kt:92 | the result is -1 exactly when no product has the id; otherwise it is the first position holding the id |
| `ProductLists.FindById` | app/src/main/java/com/example/check24app/viewmodel/ProductOverviewViewModel.kt:82 | the result is null exactly when no product has the id; otherwise it is a product of the list with that id |
| `ProductLists.FindAgreesWithIndexOfFirst` | app/src/main/java/com/example/check24app/viewmodel/ProductOverviewViewModel.kt:55 | `find` returns the element at the position `indexOfFirst` reports, and null when that is -1 |
| `ProductLists.IndexOfFirstOnlyReadsIds` | app/src/main/java/com/example/check24app/viewmodel/ProductOverviewViewModel.kt:92 | two lists with the same ids in the same order give the same look-up position |
| `ProductLists.Merged` | app/src/main/java/com/example/check24app/viewmodel/ProductOverviewViewModel.kt:55-60 | a merged product agrees with the fetched one in all fields but the flag; it keeps a fetched favourite; it gains the flag only from an old product with the same id that was a favourite |
| `ProductLists.MergeFavorites` | app/src/main/java/com/example/check24app/viewmodel/ProductOverviewViewModel.kt:54-61 | the merged list has the fetched list's length, and element i is the merge of fetched element i |
| `ProductLists.MergeOnlyRaisesFavorites` | app/src/main/java/com/example/check24app/viewmodel/ProductOverviewViewModel.kt:54-61 | the merge keeps the fetched ids in order, changes no field but `isFavorite`, and never turns a flag off |
| `ProductLists.MergedFavoriteFlag` | app/src/main/java/com/example/check24app/viewmodel/ProductOverviewViewModel.kt:55-60 | a merged product is a favourite exactly when it was fetched as one or the first old product with its id was one |
| `ProductLists.FavoriteSurvivesReload` | app/src/main/java/com/example/check24app/viewmodel/ProductOverviewViewModel.kt:54-61 | when old ids are unique, every fetched product sharing an id with an old favourite comes out a favourite |
| `ProductLists.MergeIntoEmpty` | app/src/main/java/com/example/check24app/viewmodel/ProductOverviewViewModel.kt:54-61 | merging against an empty old list returns the fetched list unchanged |
| `ProductLists.MergeIsIdempotent` | app/src/main/java/com/example/check24app/viewmodel/ProductOverviewViewModel.kt:54-61 | merging a merged list again against the same old list changes nothing |
| `ProductLists.Toggled` | app/src/main/java/com/example/check24app/viewmodel/ProductOverviewViewModel.kt:92-95 | the toggle keeps length and ids; only the first product with the id changes, and only in its flag, which is flipped |
| `ProductLists.ToggleAbsentIsNoOp` | app/src/main/java/com/example/check24app/viewmodel/ProductOverviewViewModel.kt:92-93 | toggling an id no product has leaves the list unchanged |
| `ProductLists.TogglePresentChangesOne` | app/src/main/java/com/example/check24app/viewmodel/ProductOverviewViewModel.kt:92-95 | toggling a present id changes exactly one element, the first with that id, and makes it unequal to what it was |
| `ProductLists.ToggleIsInvolution` | app/src/main/java/com/example/check24app/viewmodel/ProductOverviewViewModel.kt:91-95 | toggling the same id twice restores the list |
| `ProductLists.Select` | app/src/main/java/com/example/check24app/viewmodel/ProductOverviewViewModel.kt:115-116 | `filter` returns at most as many elements as it is given, each of them from the list and satisfying the predicate |
| `ProductLists.SelectIsSubsequence` | app/src/main/java/com/example/check24app/viewmodel/ProductOverviewViewModel.kt:115-116 | `filter` keeps the original order (the result is a subsequence) |
| `ProductLists.SelectMultiplicity` | app/src/main/java/com/example/check24app/viewmodel/ProductOverviewViewModel.kt:115-116 | every element satisfying the predicate is kept as often as it occurs, and no other element is kept |
| `ProductOverviewViewModel.EffectiveResult` | app/src/main/java/com/example/check24app/viewmodel/ProductOverviewViewModel.kt:46-50 | an attempt number divisible by three yields the simulated failure whatever the repository returns; any other attempt number yields the repository's result |
| `ProductOverviewViewModel.FilteredProducts` | app/src/main/java/com/example/check24app/viewmodel/ProductOverviewViewModel.kt:107-118 | the projection is empty unless the status is Success; under ALL it is the product list itself; its elements come from the list and match the filter |
| `ProductOverviewViewModel.FilteredIsOrderedSelection` | app/src/main/java/com/example/check24app/viewmodel/ProductOverviewViewModel.kt:111-118 | under Success the projection is exactly the products matching the filter: in list order, each as often as it occurs |
| `ProductOverviewViewModel.FilteredIgnoresPayload` | app/src/main/java/com/example/check24app/viewmodel/ProductOverviewViewModel.kt:110-114 | the projection reads the product list, not the Success payload |
| `ProductOverviewViewModel.ActiveAfterToggle` | app/src/main/java/com/example/check24app/viewmodel/ProductOverviewViewModel.kt:92-100 | a toggle never empties or fills the cache and never changes which id it holds; a cache with another id, or a toggle of an absent id, leaves it unchanged; a cache holding the toggled id becomes the list's flipped copy |
| `ProductOverviewViewModel.ToggleKeepsActiveMatch` | app/src/main/java/com/example/check24app/viewmodel/ProductOverviewViewModel.kt:91-101 | if the cached product is the list's product for its id before a toggle, it still is after it |
| `ProductOverviewViewModel.ReloadCanLeaveActiveStale` | app/src/main/java/com/example/check24app/viewmodel/ProductOverviewViewModel.kt:79-85 | a cache that matched the old list need not match the reloaded one, since a reload does not refresh it |
| `ProductOverviewViewModel.ToggleThenReload` | app/src/main/java/com/example/check24app/viewmodel/ProductOverviewViewModel.kt:54-118 | load two products, toggle the first and reload the same two: the flag survives and the favourites filter shows that product alone |
| `ProductOverviewViewModel.OnlyFavoriteShown` | app/src/main/java/com/example/check24app/viewmodel/ProductOverviewViewModel.kt:116 | the favourites filter over a favourite followed by a non-favourite shows the favourite alone |
| `ProductOverviewViewModel.ProductStore.constructor` | app/src/main/java/com/example/check24app/viewmodel/ProductOverviewViewModel.kt:23-39 | a new view model is Loading, with filter ALL, an empty list, counter 0, no cached product, and satisfies the invariant |
| `ProductOverviewViewModel.ProductStore.BeginLoad` | app/src/main/java/com/example/check24app/viewmodel/ProductOverviewViewModel.kt:42 | starting a load sets the status to Loading and touches nothing else |
| `ProductOverviewViewModel.ProductStore.CompleteLoad` | app/src/main/java/com/example/check24app/viewmodel/ProductOverviewViewModel.kt:44-68 | the counter goes up by one (wrapping). On success the list becomes the merged list and the status is Success of it. On failure the status carries the message, or "Unknown error" when there is none, and the list is kept. Filter and cache are unchanged |
| `ProductOverviewViewModel.ProductStore.LoadProducts` | app/src/main/java/com/example/check24app/viewmodel/ProductOverviewViewModel.kt:41-70 | a whole load ends in the same state as `CompleteLoad`, passing through Loading |
| `ProductOverviewViewModel.ProductStore.SetFilter` | app/src/main/java/com/example/check24app/viewmodel/ProductOverviewViewModel.kt:74-76 | only the filter changes, and it becomes the given one |
| `ProductOverviewViewModel.ProductStore.ObserveProductById` | app/src/main/java/com/example/check24app/viewmodel/ProductOverviewViewModel.kt:79-85 | a cache already holding the id is kept; otherwise the cache becomes the first product with the id, or null. The cache is returned, and it holds that id when non-null. A consistent cache stays consistent |
| `ProductOverviewViewModel.ProductStore.ToggleFavorite` | app/src/main/java/com/example/check24app/viewmodel/ProductOverviewViewModel.kt:91-104 | the list becomes the toggled list and the cache is refreshed only when it holds the toggled id; status, filter and counter are unchanged; the invariant and cache consistency are preserved |
| `ProductOverviewViewModel.ProductStore.Filtered` | app/src/main/java/com/example/check24app/viewmodel/ProductOverviewViewModel.kt:107-120 | the current filtered list is empty unless the status is Success, and holds only list products that match the active filter |
| `ProductOverviewViewModel.FavoriteSurvivesReloadScenario` | app/src/main/java/com/example/check24app/viewmodel/ProductOverviewViewModel.kt:41-118 | on a fresh view model: load, filter on favourites, toggle product 1, reload the same catalog; the favourites shown are exactly product 1 with its flag set |
| `ProductOverviewViewModel.SimulatedFailureScenario` | app/src/main/java/com/example/check24app/viewmodel/ProductOverviewViewModel.kt:37-50 | after `init`'s load completes, the first explicit reload is attempt two and the second is attempt three, which fails with "Simulated error" whatever the fetch and keeps the list |
| `ProductOverviewViewModel.FetchFailureScenario` | app/src/main/java/com/example/check24app/viewmodel/ProductOverviewViewModel.kt:63-118 | a first load failing with "timeout" gives Error("timeout"), an empty filtered list under all three filters, and null for an unknown id |

## Left out

- Coroutines and flows are not modelled: `viewModelScope.launch`, `StateFlow`, `combine`, `snapshotFlow` and `stateIn`. A flow's current value is a field, and `filteredProducts` is the pure function of the three values it combines.
- Racing loads are not modelled. In the source, a load's counter increment and its merge are separated by the repository's suspension. The model runs `CompleteLoad` as one step, so it does not represent interleavings inside that step. Nor does it model when the main dispatcher runs the launched part.
- `ProductStore.ObserveProductById`: it returns the cached value at the time of the call. The source returns a live `StateFlow` that later toggles update.
- `ProductStore.ToggleFavorite`: the source re-assigns the filter to itself (line 103). Assigning a state flow the value it already holds has no effect, so the model leaves the filter alone.
- Nothing forces a started load to complete: `BeginLoad` may be followed by any operations, or by another `BeginLoad`, before (or without) the matching `CompleteLoad`, and the scenarios complete each load they start.
- The repository, Retrofit and the JSON decoding are not modelled: a load takes the fetch result as a parameter.
- A `products` field that the JSON decoder leaves null is not modelled. This value lies outside Kotlin's type system, and the source's `?: emptyList()` fallback covers it.
- `rating` is a Kotlin `Double` and is carried as a `real`. No behaviour depends on it, and IEEE arithmetic and NaN equality are not modelled.
- The contents of `Header` and of the `filters` label list are display-only. They are carried but not interpreted.
- The Compose screens, navigation, the web view and `MainActivity` are presentation. They are not part of this model.
