/**
 * The overview screen's view model: a load status, the active filter, the
 * authoritative product list, a load-attempt counter and a cached "active"
 * product for the detail screen, with the operations load, setFilter,
 * toggleFavorite and observeProductById and the derived filtered list.
 *
 * The repository call is the only input from outside: it is a parameter of
 * the load, a `FetchResult`. The reactive plumbing (flows, coroutines) is
 * not modelled; a flow's current value is a field, and the combined
 * `filteredProducts` flow is the pure function `FilteredProducts` of the
 * three values it combines.
 */
module ProductOverviewViewModel {
  import opened KotlinTypes
  import opened ProductModel
  import opened Filters
  import opened ProductLists

  /** The three-way load status shown by the overview screen. */
  datatype ProductUiState = Loading | Success(products: seq<Product>) | Error(message: string)

  /**
   * What `repository.getProducts()` yields: the decoded catalog, or a failure
   * carrying the exception's message, which Kotlin allows to be null.
   */
  datatype FetchResult = Fetched(response: ProductResponse) | Failed(message: Option<string>)

  const SimulatedErrorMessage: string := "Simulated error"
  const UnknownErrorMessage: string := "Unknown error"

  /**
   * The result a load acts on, for the attempt number after the increment:
   * every attempt whose number is divisible by three fails with the simulated
   * error and the repository is not consulted; any other attempt takes the
   * repository's result.
   */
  function EffectiveResult(attempt: int32, fetch: FetchResult): (r: FetchResult)
    ensures (attempt as int) % 3 == 0 ==> r == Failed(Some(SimulatedErrorMessage))
    ensures (attempt as int) % 3 != 0 ==> r == fetch
  {
    RemThreeZeroIsDivisible(attempt);
    if RemThree(attempt) == 0 then Failed(Some(SimulatedErrorMessage)) else fetch
  }

  /** The filter predicate each selection stands for. */
  predicate Matches(filter: ProductFilter, p: Product) {
    match filter
    case ALL => true
    case AVAILABLE => p.available
    case FAVORITES => p.isFavorite
  }

  /**
   * The `filteredProducts` projection: empty unless the status is Success;
   * otherwise the product list itself (not the Success payload), filtered by
   * the active selection.
   */
  function FilteredProducts(state: ProductUiState, filter: ProductFilter, products: seq<Product>): (r: seq<Product>)
    ensures !state.Success? ==> r == []
    ensures state.Success? && filter == ALL ==> r == products
    ensures forall x :: x in r ==> x in products && Matches(filter, x)
  {
    if state.Success? then
      match filter
      case ALL => products
      case AVAILABLE => Select(products, (p: Product) => p.available)
      case FAVORITES => Select(products, (p: Product) => p.isFavorite)
    else []
  }

  /**
   * Under Success, the projection is exactly the products matching the
   * filter: in their order, each as often as it occurs in the list.
   */
  lemma FilteredIsOrderedSelection(state: ProductUiState, filter: ProductFilter, products: seq<Product>, x: Product)
    requires state.Success?
    ensures IsSubsequence(FilteredProducts(state, filter, products), products)
    ensures multiset(FilteredProducts(state, filter, products))[x] ==
              if Matches(filter, x) then multiset(products)[x] else 0
  {
    var keep := (p: Product) => Matches(filter, p);
    SelectIsSubsequence(products, keep);
    SelectMultiplicity(products, keep, x);
    match filter
    case ALL =>
      SelectEverything(products, keep);
    case AVAILABLE =>
      assert Select(products, (p: Product) => p.available) == Select(products, keep) by {
        SelectSameKeep(products, (p: Product) => p.available, keep);
      }
    case FAVORITES =>
      assert Select(products, (p: Product) => p.isFavorite) == Select(products, keep) by {
        SelectSameKeep(products, (p: Product) => p.isFavorite, keep);
      }
  }

  /** Selecting with two predicates that agree everywhere gives the same list. */
  lemma {:induction false} SelectSameKeep(ps: seq<Product>, k1: Product -> bool, k2: Product -> bool)
    requires forall p :: k1(p) == k2(p)
    ensures Select(ps, k1) == Select(ps, k2)
  {
    if ps != [] {
      SelectSameKeep(ps[1..], k1, k2);
    }
  }

  /** The projection reads the product list, never the Success payload. */
  lemma FilteredIgnoresPayload(a: seq<Product>, b: seq<Product>, filter: ProductFilter, products: seq<Product>)
    ensures FilteredProducts(Success(a), filter, products) == FilteredProducts(Success(b), filter, products)
  {
  }

  /** The cached active product, if any, is the one the list currently holds for its id. */
  predicate ActiveMatches(products: seq<Product>, active: Option<Product>) {
    active.Some? ==> FindById(products, active.value.id) == active
  }

  /**
   * The cached product after `toggleFavorite(id)`: the toggled copy when a
   * product with `id` was found and the cache holds that id, else unchanged.
   */
  function ActiveAfterToggle(products: seq<Product>, id: int32, active: Option<Product>): (r: Option<Product>)
    ensures r.Some? <==> active.Some?
    ensures r.Some? ==> r.value.id == active.value.id
    ensures active.Some? && active.value.id != id ==> r == active
    ensures IndexOfFirst(products, id) == -1 ==> r == active
    ensures active.Some? && active.value.id == id && IndexOfFirst(products, id) != -1 ==>
              r == FindById(Toggled(products, id), id)
  {
    var i := IndexOfFirst(products, id);
    IndexOfFirstOnlyReadsIds(products, Toggled(products, id), id);
    FindAgreesWithIndexOfFirst(Toggled(products, id), id);
    if i != -1 && active.Some? && active.value.id == id then Some(Toggled(products, id)[i]) else active
  }

  /** A toggle keeps a consistent cache consistent with the new list. */
  lemma ToggleKeepsActiveMatch(products: seq<Product>, id: int32, active: Option<Product>)
    requires ActiveMatches(products, active)
    ensures ActiveMatches(Toggled(products, id), ActiveAfterToggle(products, id, active))
  {
    var toggled := Toggled(products, id);
    if active.Some? {
      var a := active.value;
      FindAgreesWithIndexOfFirst(products, a.id);
      FindAgreesWithIndexOfFirst(toggled, a.id);
      IndexOfFirstOnlyReadsIds(products, toggled, a.id);
      IndexOfFirstOnlyReadsIds(products, toggled, id);
    }
  }

  /**
   * A reload does not refresh the cache: a product cached from the old list
   * stays cached even when the reloaded list no longer holds it.
   */
  lemma ReloadCanLeaveActiveStale(p: Product)
    ensures ActiveMatches([p], Some(p))
    ensures !ActiveMatches(MergeFavorites([p], []), Some(p))
  {
  }

  /** The view model's state; each field is the current value of the corresponding Kotlin field or flow. */
  class ProductStore {
    var uiState: ProductUiState
    var currentFilter: ProductFilter
    var products: seq<Product>
    var loadAttempt: int32
    var activeProduct: Option<Product>

    /**
     * A Success payload is the list as last loaded; later toggles change the
     * list's flags but not the payload, so the two agree except for flags.
     */
    ghost predicate Valid()
      reads this
    {
      uiState.Success? ==> AgreeExceptFavorites(uiState.products, products)
    }

    /** The field initialisers, then `init`, which starts a load. */
    constructor ()
      ensures Valid()
      ensures uiState == Loading && currentFilter == DefaultFilter && products == []
      ensures loadAttempt == 0 && activeProduct == None
    {
      uiState := Loading;
      currentFilter := DefaultFilter;
      products := [];
      loadAttempt := 0;
      activeProduct := None;
      new;
      BeginLoad();
    }

    /** The synchronous start of `loadProducts`: the status becomes Loading. */
    method BeginLoad()
      modifies this`uiState
      ensures Valid()
      ensures uiState == Loading
    {
      uiState := Loading;
    }

    /**
     * The launched part of `loadProducts`: count the attempt, take the
     * (possibly simulated) result, and on success merge favourite flags into
     * the fetched list and replace the list with it; on failure record the
     * message and keep the list.
     */
    method CompleteLoad(fetch: FetchResult)
      requires Valid()
      modifies this`loadAttempt, this`products, this`uiState
      ensures Valid()
      ensures loadAttempt == Increment(old(loadAttempt))
      ensures match EffectiveResult(loadAttempt, fetch)
              case Fetched(response) =>
                products == MergeFavorites(old(products), response.products) && uiState == Success(products)
              case Failed(message) =>
                products == old(products) && uiState == Error(message.OrElse(UnknownErrorMessage))
    {
      loadAttempt := Increment(loadAttempt);
      var result := EffectiveResult(loadAttempt, fetch);
      match result
      case Fetched(response) =>
        var updated := MergeFavorites(products, response.products);
        products := updated;
        uiState := Success(updated);
      case Failed(message) =>
        uiState := Error(message.OrElse(UnknownErrorMessage));
    }

    /** `loadProducts` when its launched part runs to completion. */
    method LoadProducts(fetch: FetchResult)
      requires Valid()
      modifies this`loadAttempt, this`products, this`uiState
      ensures Valid()
      ensures loadAttempt == Increment(old(loadAttempt))
      ensures match EffectiveResult(loadAttempt, fetch)
              case Fetched(response) =>
                products == MergeFavorites(old(products), response.products) && uiState == Success(products)
              case Failed(message) =>
                products == old(products) && uiState == Error(message.OrElse(UnknownErrorMessage))
    {
      BeginLoad();
      CompleteLoad(fetch);
    }

    /** `setFilter`: only the active selection changes. */
    method SetFilter(filter: ProductFilter)
      requires Valid()
      modifies this`currentFilter
      ensures Valid()
      ensures currentFilter == filter
    {
      currentFilter := filter;
    }

    /**
     * `observeProductById`: look the product up again only when the cache does
     * not already hold one with this id, then report the cache.
     */
    method ObserveProductById(id: int32) returns (r: Option<Product>)
      requires Valid()
      modifies this`activeProduct
      ensures Valid()
      ensures old(activeProduct).Some? && old(activeProduct).value.id == id ==> activeProduct == old(activeProduct)
      ensures !(old(activeProduct).Some? && old(activeProduct).value.id == id) ==>
                activeProduct == FindById(products, id)
      ensures r == activeProduct
      ensures r.Some? ==> r.value.id == id
      ensures ActiveMatches(products, old(activeProduct)) ==>
                r == FindById(products, id) && ActiveMatches(products, activeProduct)
    {
      if !(activeProduct.Some? && activeProduct.value.id == id) {
        activeProduct := FindById(products, id);
      }
      r := activeProduct;
    }

    /**
     * `toggleFavorite`: replace the first product with `id` by a copy with the
     * flag flipped, and refresh the cache when it holds that id. The filter's
     * self-assignment is a re-emission only and changes no state.
     */
    method ToggleFavorite(id: int32)
      requires Valid()
      modifies this`products, this`activeProduct
      ensures Valid()
      ensures products == Toggled(old(products), id)
      ensures activeProduct == ActiveAfterToggle(old(products), id, old(activeProduct))
      ensures ActiveMatches(old(products), old(activeProduct)) ==> ActiveMatches(products, activeProduct)
    {
      ghost var before := products;
      var index := IndexOfFirst(products, id);
      if index != -1 {
        var updatedProduct := WithFavorite(products[index], !products[index].isFavorite);
        products := products[index := updatedProduct];
        if activeProduct.Some? && activeProduct.value.id == id {
          activeProduct := Some(updatedProduct);
        }
      }
      if uiState.Success? {
        AgreeExceptFavoritesIsTransitive(uiState.products, before, products);
      }
      if ActiveMatches(before, old(activeProduct)) {
        ToggleKeepsActiveMatch(before, id, old(activeProduct));
      }
    }

    /** The current value of the `filteredProducts` flow. */
    function Filtered(): (r: seq<Product>)
      reads this
      ensures !uiState.Success? ==> r == []
      ensures forall x :: x in r ==> x in products && Matches(currentFilter, x)
    {
      FilteredProducts(uiState, currentFilter, products)
    }
  }

  /**
   * The list-level steps of a load, a toggle of the first product and a
   * reload of the same two fetched products: the toggled flag survives the
   * reload and the favourites filter then shows exactly that product.
   */
  lemma ToggleThenReload(p1: Product, p2: Product, payload: seq<Product>)
    requires p1.id != p2.id && !p1.isFavorite && !p2.isFavorite
    ensures MergeFavorites([], [p1, p2]) == [p1, p2]
    ensures Toggled([p1, p2], p1.id) == [WithFavorite(p1, true), p2]
    ensures MergeFavorites([WithFavorite(p1, true), p2], [p1, p2]) == [WithFavorite(p1, true), p2]
    ensures FilteredProducts(Success(payload), FAVORITES, [WithFavorite(p1, true), p2]) == [WithFavorite(p1, true)]
  {
    var q1 := WithFavorite(p1, true);
    MergeIntoEmpty([p1, p2]);
    assert IndexOfFirst([p1, p2], p1.id) == 0;
    assert [q1, p2][1..] == [p2];
    assert FindById([q1, p2], p2.id) == Some(p2);
    OnlyFavoriteShown(q1, p2, payload);
  }

  /** Of a favourite followed by a non-favourite, the favourites filter shows the first alone. */
  lemma OnlyFavoriteShown(q1: Product, p2: Product, payload: seq<Product>)
    requires q1.isFavorite && !p2.isFavorite
    ensures FilteredProducts(Success(payload), FAVORITES, [q1, p2]) == [q1]
  {
    assert [q1, p2][1..] == [p2] && [p2][1..] == [];
    assert Select([q1, p2], (p: Product) => p.isFavorite) == [q1];
  }

  /**
   * A session on a fresh view model: a load, a toggle of the first product
   * under the favourites filter, and a reload of the same catalog, after
   * which the favourites shown are exactly the toggled product.
   */
  method FavoriteSurvivesReloadScenario(p1: Product, p2: Product, header: Header)
    returns (favorites: seq<Product>)
    requires p1.id == 1 && p2.id == 2 && !p1.isFavorite && !p2.isFavorite
    ensures favorites == [WithFavorite(p1, true)]
  {
    var catalog := Fetched(ProductResponse(header, [], [p1, p2]));
    var q1 := WithFavorite(p1, true);
    var store := new ProductStore();

    assert EffectiveResult(1, catalog) == catalog;
    store.CompleteLoad(catalog);
    assert store.products == [p1, p2] by { ToggleThenReload(p1, p2, [p1, p2]); }
    store.SetFilter(FAVORITES);
    store.ToggleFavorite(1);
    assert store.products == [q1, p2] by { ToggleThenReload(p1, p2, [p1, p2]); }

    assert EffectiveResult(2, catalog) == catalog;
    store.LoadProducts(catalog);
    assert store.products == [q1, p2] by { ToggleThenReload(p1, p2, [p1, p2]); }
    assert store.uiState == Success([q1, p2]) && store.currentFilter == FAVORITES;
    var state, filter, products := store.uiState, store.currentFilter, store.products;
    OnlyFavoriteShown(q1, p2, [q1, p2]);
    favorites := FilteredProducts(state, filter, products);
  }

  /**
   * A fresh view model whose own first load completes, followed by two
   * explicit reloads: the second reload is attempt three, so it fails with the
   * simulated error whatever the repository would have returned, and the list
   * it leaves is the one the first reload produced.
   */
  method SimulatedFailureScenario(first: FetchResult, second: FetchResult, third: FetchResult)
    returns (last: ProductUiState, kept: bool)
    ensures last == Error(SimulatedErrorMessage)
    ensures kept
  {
    var store := new ProductStore();
    store.CompleteLoad(first);
    store.LoadProducts(second);
    var before := store.products;
    assert store.loadAttempt == 2;
    assert EffectiveResult(3, third) == Failed(Some(SimulatedErrorMessage));
    store.LoadProducts(third);
    last := store.uiState;
    kept := store.products == before;
  }

  /**
   * A first load whose fetch fails with "timeout": the status carries the
   * message, every filter shows nothing, and looking up an unknown id gives null.
   */
  method FetchFailureScenario() returns (state: ProductUiState, shown: seq<seq<Product>>, found: Option<Product>)
    ensures state == Error("timeout")
    ensures |shown| == 3 && forall i :: 0 <= i < |shown| ==> shown[i] == []
    ensures found == None
  {
    var store := new ProductStore();
    store.CompleteLoad(Failed(Some("timeout")));
    state := store.uiState;
    store.SetFilter(ALL);
    var all := store.Filtered();
    store.SetFilter(AVAILABLE);
    var available := store.Filtered();
    store.SetFilter(FAVORITES);
    var favorites := store.Filtered();
    shown := [all, available, favorites];
    found := store.ObserveProductById(99);
  }
}
