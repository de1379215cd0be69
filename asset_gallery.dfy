/** The asset gallery's type filter and search. */
module AssetGallery {
  import opened Base
  import opened Text

  datatype AssetKind = Image | Document | Video

  /** An asset; `event` is the optional name of the event it belongs to. */
  datatype Asset = Asset(id: string, name: string, kind: AssetKind, event: Option<string>)

  /** The type filter: "all" or one kind. */
  datatype KindFilter = AllKinds | OnlyKind(kind: AssetKind)

  predicate KindMatches(a: Asset, filter: KindFilter)
  {
    filter == AllKinds || a.kind == filter.kind
  }

  predicate AssetSearchMatches(a: Asset, query: string)
  {
    IncludesIgnoringCase(a.name, query) || (a.event.Some? && IncludesIgnoringCase(a.event.value, query))
  }

  /** `filteredAssets`. */
  function FilteredAssets(assets: seq<Asset>, filter: KindFilter, query: string): (r: seq<Asset>)
    ensures IsSubsequence(r, assets)
    ensures forall i :: 0 <= i < |r| ==> r[i] in assets && KindMatches(r[i], filter) && AssetSearchMatches(r[i], query)
    ensures forall i :: 0 <= i < |assets| && KindMatches(assets[i], filter) && AssetSearchMatches(assets[i], query)
              ==> assets[i] in r
    ensures forall x: Asset :: multiset(r)[x] == if KindMatches(x, filter) && AssetSearchMatches(x, query) then multiset(assets)[x] else 0
  {
    FilterIsSubsequence(assets, (a: Asset) => KindMatches(a, filter) && AssetSearchMatches(a, query));
    FilterMultiplicity(assets, (a: Asset) => KindMatches(a, filter) && AssetSearchMatches(a, query));
    Filter(assets, (a: Asset) => KindMatches(a, filter) && AssetSearchMatches(a, query))
  }

  /** Filter "all" with an empty query shows every asset. */
  lemma UnfilteredShowsAll(assets: seq<Asset>)
    ensures FilteredAssets(assets, AllKinds, "") == assets
  {
    forall i | 0 <= i < |assets|
      ensures AssetSearchMatches(assets[i], "")
    {
      EmptyIsContained(ToLower(assets[i].name));
    }
    FilterAll(assets, (a: Asset) => KindMatches(a, AllKinds) && AssetSearchMatches(a, ""));
  }

  /** A single-kind filter shows no asset of another kind. */
  lemma OnlyKindExcludesOthers(assets: seq<Asset>, k: AssetKind, query: string)
    ensures forall i :: 0 <= i < |FilteredAssets(assets, OnlyKind(k), query)| ==>
              FilteredAssets(assets, OnlyKind(k), query)[i].kind == k
  {
  }

  /** An asset with no event can be found by its name only. */
  lemma UnattachedMatchesByName(a: Asset, query: string)
    requires a.event.None?
    ensures AssetSearchMatches(a, query) <==> IncludesIgnoringCase(a.name, query)
  {
  }
}
