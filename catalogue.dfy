/**
 The read-only catalogues of wall textures, tiles and ceiling images: each
 is a list of categories, each category a list of items. The editor shows
 the items of the first category whose name equals the selected one, or
 nothing when no category has that name.
 */
module Catalogue {
  import opened JsValues

  datatype CatalogItem = CatalogItem(id: string, name: string, image: string)

  datatype CatalogEntry = CatalogEntry(category: string, items: seq<CatalogItem>)

  /** `i` is the first position of `cat` whose category is `c`. */
  ghost predicate IsFirst(cat: seq<CatalogEntry>, c: string, i: int) {
    0 <= i < |cat| && cat[i].category == c && forall j :: 0 <= j < i ==> cat[j].category != c
  }

  ghost predicate NoMatch(cat: seq<CatalogEntry>, c: string) {
    forall j :: 0 <= j < |cat| ==> cat[j].category != c
  }

  /** `r` is what `cat.find(e => e.category === c)?.items || []` gives. */
  ghost predicate IsLookup(cat: seq<CatalogEntry>, c: string, r: seq<CatalogItem>) {
    && (forall i {:trigger IsFirst(cat, c, i)} :: IsFirst(cat, c, i) ==> r == cat[i].items)
    && (NoMatch(cat, c) ==> r == [])
  }

  /** The index `find` stops at, if any. */
  function FirstMatch(cat: seq<CatalogEntry>, c: string): (r: Option<nat>)
    ensures r.Some? ==> IsFirst(cat, c, r.value)
    ensures r.None? ==> NoMatch(cat, c)
    decreases |cat|
  {
    if cat == [] then None
    else if cat[0].category == c then Some(0)
    else match FirstMatch(cat[1..], c)
      case None => None
      case Some(i) => Some(i + 1)
  }

  /** The first match is unique, so its items are the whole lookup result. */
  lemma FirstDeterminesLookup(cat: seq<CatalogEntry>, c: string, i: int)
    requires IsFirst(cat, c, i)
    ensures IsLookup(cat, c, cat[i].items)
  {
  }

  /** `cat.find(e => e.category === c)?.items || []` */
  function CategoryItems(cat: seq<CatalogEntry>, c: string): (r: seq<CatalogItem>)
    ensures IsLookup(cat, c, r)
  {
    match FirstMatch(cat, c)
    case Some(i) =>
      FirstDeterminesLookup(cat, c, i);
      cat[i].items
    case None => []
  }
}
