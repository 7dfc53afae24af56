/** The three filter choices of the overview screen and their fixed labels. */
module Filters {
  import opened KotlinTypes

  datatype ProductFilter = ALL | AVAILABLE | FAVORITES

  /** The selection a fresh view model starts with. */
  const DefaultFilter: ProductFilter := ALL

  /** The enum's entries, in declaration order. */
  const Entries: seq<ProductFilter> := [ALL, AVAILABLE, FAVORITES]

  /** The `label` property of each entry. */
  function Label(f: ProductFilter): (s: string)
    ensures s != []
  {
    match f
    case ALL => "Alle"
    case AVAILABLE => "Verfügbar"
    case FAVORITES => "Vorgemerkt"
  }

  /** The entry whose label is `s`, if there is one. */
  function FromLabel(s: string): (r: Option<ProductFilter>)
    ensures r.Some? ==> Label(r.value) == s
    ensures r.None? ==> forall f: ProductFilter :: Label(f) != s
  {
    if s == "Alle" then Some(ALL)
    else if s == "Verfügbar" then Some(AVAILABLE)
    else if s == "Vorgemerkt" then Some(FAVORITES)
    else None
  }

  /** Every filter value is one of the three entries, each listed once. */
  lemma EntriesAreExhaustive(f: ProductFilter)
    ensures f in Entries
    ensures |Entries| == 3
    ensures forall i, j :: 0 <= i < j < |Entries| ==> Entries[i] != Entries[j]
  {
  }

  /** Labels are pairwise distinct, so a label determines its filter. */
  lemma LabelIsInjective(f: ProductFilter, g: ProductFilter)
    ensures Label(f) == Label(g) ==> f == g
  {
  }

  /** Label and FromLabel are inverse to each other. */
  lemma LabelRoundTrip(f: ProductFilter)
    ensures FromLabel(Label(f)) == Some(f)
  {
  }
}
