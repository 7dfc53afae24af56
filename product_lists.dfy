/**
 * The list operations the view model performs on its product list: the
 * Kotlin collection calls `indexOfFirst`, `find`, `map` and `filter` as they
 * are used there, the favourite merge of a reload, and the replace-by-index
 * toggle, each with the lemmas that say what it does.
 */
module ProductLists {
  import opened KotlinTypes
  import opened ProductModel

  // ---------------------------------------------------------------------------
  // Look-up by id
  // ---------------------------------------------------------------------------

  /** `ps.indexOfFirst { it.id == id }`: the first position holding `id`, or -1. */
  function IndexOfFirst(ps: seq<Product>, id: int32): (i: int)
    ensures -1 <= i < |ps|
    ensures i == -1 <==> forall j :: 0 <= j < |ps| ==> ps[j].id != id
    ensures 0 <= i ==> ps[i].id == id && forall j :: 0 <= j < i ==> ps[j].id != id
  {
    if ps == [] then -1
    else if ps[0].id == id then 0
    else
      var k := IndexOfFirst(ps[1..], id);
      if k == -1 then -1 else k + 1
  }

  /** `ps.find { it.id == id }`: the first product holding `id`, or null. */
  function FindById(ps: seq<Product>, id: int32): (r: Option<Product>)
    ensures r.None? <==> forall j :: 0 <= j < |ps| ==> ps[j].id != id
    ensures r.Some? ==> r.value in ps && r.value.id == id
  {
    if ps == [] then None
    else if ps[0].id == id then Some(ps[0])
    else FindById(ps[1..], id)
  }

  /** `find` returns exactly the element at the position `indexOfFirst` reports. */
  lemma {:induction false} FindAgreesWithIndexOfFirst(ps: seq<Product>, id: int32)
    ensures IndexOfFirst(ps, id) == -1 ==> FindById(ps, id) == None
    ensures IndexOfFirst(ps, id) != -1 ==> FindById(ps, id) == Some(ps[IndexOfFirst(ps, id)])
  {
    if ps != [] && ps[0].id != id {
      FindAgreesWithIndexOfFirst(ps[1..], id);
    }
  }

  /** Two lists with the same ids at the same positions. */
  predicate SameIds(ps: seq<Product>, qs: seq<Product>) {
    |ps| == |qs| && forall j :: 0 <= j < |ps| ==> ps[j].id == qs[j].id
  }

  /** Look-up by id depends on nothing but the ids and their order. */
  lemma IndexOfFirstOnlyReadsIds(ps: seq<Product>, qs: seq<Product>, id: int32)
    requires SameIds(ps, qs)
    ensures IndexOfFirst(ps, id) == IndexOfFirst(qs, id)
  {
  }

  // ---------------------------------------------------------------------------
  // Pointwise agreement except for favourite flags
  // ---------------------------------------------------------------------------

  /** Same length, and position by position the same product up to its `isFavorite` flag. */
  predicate AgreeExceptFavorites(ps: seq<Product>, qs: seq<Product>) {
    |ps| == |qs| && forall j :: 0 <= j < |ps| ==> SameExceptFavorite(ps[j], qs[j])
  }

  lemma AgreeExceptFavoritesIsTransitive(ps: seq<Product>, qs: seq<Product>, rs: seq<Product>)
    requires AgreeExceptFavorites(ps, qs) && AgreeExceptFavorites(qs, rs)
    ensures AgreeExceptFavorites(ps, rs)
  {
  }

  // ---------------------------------------------------------------------------
  // The favourite merge of a reload
  // ---------------------------------------------------------------------------

  /**
   * The merge applied to one freshly fetched product: if the first product in
   * `existing` with the same id was a favourite, the fetched one becomes a
   * favourite via `copy(isFavorite = true)`; otherwise it is kept as fetched.
   */
  function Merged(existing: seq<Product>, fetched: Product): (q: Product)
    ensures SameExceptFavorite(fetched, q)
    ensures fetched.isFavorite ==> q.isFavorite
    ensures q.isFavorite && !fetched.isFavorite ==>
              exists j :: 0 <= j < |existing| && existing[j].id == fetched.id && existing[j].isFavorite
  {
    var found := FindById(existing, fetched.id);
    if found.Some? && found.value.isFavorite then WithFavorite(fetched, true) else fetched
  }

  /** `fetched.map { Merged(existing, it) }`. */
  function MergeFavorites(existing: seq<Product>, fetched: seq<Product>): (r: seq<Product>)
    ensures |r| == |fetched|
    ensures forall i :: 0 <= i < |fetched| ==> r[i] == Merged(existing, fetched[i])
  {
    if fetched == [] then []
    else [Merged(existing, fetched[0])] + MergeFavorites(existing, fetched[1..])
  }

  /**
   * The merge keeps length and id order, changes nothing but `isFavorite`
   * and never turns a fetched favourite off.
   */
  lemma MergeOnlyRaisesFavorites(existing: seq<Product>, fetched: seq<Product>)
    ensures SameIds(fetched, MergeFavorites(existing, fetched))
    ensures AgreeExceptFavorites(fetched, MergeFavorites(existing, fetched))
    ensures forall i :: 0 <= i < |fetched| && fetched[i].isFavorite ==>
              MergeFavorites(existing, fetched)[i].isFavorite
  {
  }

  /**
   * The flag of each merged product: a favourite exactly when it was fetched as
   * one or the first existing product with its id was one. In particular a
   * product whose first earlier copy was a favourite stays a favourite.
   */
  lemma MergedFavoriteFlag(existing: seq<Product>, fetched: seq<Product>, i: nat)
    requires i < |fetched|
    ensures var k := IndexOfFirst(existing, fetched[i].id);
            MergeFavorites(existing, fetched)[i].isFavorite <==>
              fetched[i].isFavorite || (k != -1 && existing[k].isFavorite)
  {
    FindAgreesWithIndexOfFirst(existing, fetched[i].id);
  }

  /** When every existing id occurs once, any earlier favourite survives the merge. */
  lemma FavoriteSurvivesReload(existing: seq<Product>, fetched: seq<Product>, j: nat, i: nat)
    requires j < |existing| && i < |fetched|
    requires forall a, b :: 0 <= a < b < |existing| ==> existing[a].id != existing[b].id
    requires existing[j].isFavorite && existing[j].id == fetched[i].id
    ensures MergeFavorites(existing, fetched)[i].isFavorite
  {
    MergedFavoriteFlag(existing, fetched, i);
    var k := IndexOfFirst(existing, fetched[i].id);
    assert k == j by {
      if k < j {
        assert existing[k].id == existing[j].id;
      }
    }
  }

  /** With no earlier list, the merge returns the fetched list unchanged. */
  lemma MergeIntoEmpty(fetched: seq<Product>)
    ensures MergeFavorites([], fetched) == fetched
  {
  }

  /** Merging twice against the same earlier list is the same as merging once. */
  lemma MergeIsIdempotent(existing: seq<Product>, fetched: seq<Product>)
    ensures MergeFavorites(existing, MergeFavorites(existing, fetched)) == MergeFavorites(existing, fetched)
  {
    var once := MergeFavorites(existing, fetched);
    var twice := MergeFavorites(existing, once);
    forall i | 0 <= i < |once|
      ensures twice[i] == once[i]
    {
      assert once[i].id == fetched[i].id;
    }
  }

  // ---------------------------------------------------------------------------
  // The favourite toggle
  // ---------------------------------------------------------------------------

  /**
   * `toggleFavorite` on the list: flip `isFavorite` of the first product with
   * `id` by replacing it with a copy; leave the list alone when `id` is absent.
   */
  function Toggled(ps: seq<Product>, id: int32): (r: seq<Product>)
    ensures AgreeExceptFavorites(ps, r)
    ensures SameIds(ps, r)
    ensures forall j :: 0 <= j < |ps| && j != IndexOfFirst(ps, id) ==> r[j] == ps[j]
    ensures IndexOfFirst(ps, id) != -1 ==>
              r[IndexOfFirst(ps, id)].isFavorite == !ps[IndexOfFirst(ps, id)].isFavorite
  {
    var i := IndexOfFirst(ps, id);
    if i == -1 then ps else ps[i := WithFavorite(ps[i], !ps[i].isFavorite)]
  }

  /** Toggling an id that no product has leaves the list unchanged. */
  lemma ToggleAbsentIsNoOp(ps: seq<Product>, id: int32)
    requires forall j :: 0 <= j < |ps| ==> ps[j].id != id
    ensures Toggled(ps, id) == ps
  {
  }

  /** Toggling a present id changes exactly one element, and that element really changes. */
  lemma TogglePresentChangesOne(ps: seq<Product>, id: int32, j: nat)
    requires j < |ps| && ps[j].id == id
    ensures var i := IndexOfFirst(ps, id);
            0 <= i <= j && Toggled(ps, id)[i] != ps[i] &&
            forall k :: 0 <= k < |ps| && k != i ==> Toggled(ps, id)[k] == ps[k]
  {
  }

  /** Toggling the same id twice restores the list. */
  lemma ToggleIsInvolution(ps: seq<Product>, id: int32)
    ensures Toggled(Toggled(ps, id), id) == ps
  {
    var once := Toggled(ps, id);
    IndexOfFirstOnlyReadsIds(ps, once, id);
    var i := IndexOfFirst(ps, id);
    if i != -1 {
      var twice := Toggled(once, id);
      forall k | 0 <= k < |ps|
        ensures twice[k] == ps[k]
      {
        if k == i {
          EqualityIsStructural(twice[k], ps[k]);
        }
      }
    }
  }

  // ---------------------------------------------------------------------------
  // Order-preserving selection
  // ---------------------------------------------------------------------------

  /** `r` can be obtained from `s` by deleting elements, keeping the order of the rest. */
  predicate IsSubsequence<T(==)>(r: seq<T>, s: seq<T>)
    decreases |s|
  {
    if r == [] then true
    else if s == [] then false
    else (r[0] == s[0] && IsSubsequence(r[1..], s[1..])) || IsSubsequence(r, s[1..])
  }

  /** `ps.filter(keep)`. */
  function Select(ps: seq<Product>, keep: Product -> bool): (r: seq<Product>)
    ensures |r| <= |ps|
    ensures forall x :: x in r ==> x in ps && keep(x)
  {
    if ps == [] then []
    else if keep(ps[0]) then [ps[0]] + Select(ps[1..], keep)
    else Select(ps[1..], keep)
  }

  /** The selection keeps the order of the list it is taken from. */
  lemma {:induction false} SelectIsSubsequence(ps: seq<Product>, keep: Product -> bool)
    ensures IsSubsequence(Select(ps, keep), ps)
  {
    if ps != [] {
      SelectIsSubsequence(ps[1..], keep);
      var r := Select(ps, keep);
      if keep(ps[0]) {
        assert r[0] == ps[0] && r[1..] == Select(ps[1..], keep);
      }
    }
  }

  /** Every product satisfying `keep` is selected as often as it occurs; no other product is. */
  lemma {:induction false} SelectMultiplicity(ps: seq<Product>, keep: Product -> bool, x: Product)
    ensures multiset(Select(ps, keep))[x] == if keep(x) then multiset(ps)[x] else 0
  {
    if ps != [] {
      SelectMultiplicity(ps[1..], keep, x);
      assert ps == [ps[0]] + ps[1..];
    }
  }

  /** Selecting with a predicate every element satisfies returns the whole list. */
  lemma {:induction false} SelectEverything(ps: seq<Product>, keep: Product -> bool)
    requires forall j :: 0 <= j < |ps| ==> keep(ps[j])
    ensures Select(ps, keep) == ps
  {
    if ps != [] {
      SelectEverything(ps[1..], keep);
    }
  }
}
