/**
 * The public shops page: the list of areas offered by the area select, and
 * the effect that narrows the shop store by the search box and the selected
 * area, with the button that clears both.
 */
module ShopsPage {
  import opened Types
  import opened Seqs
  import opened Text

  function AreaOf(s: Shop): string { s.area }

  /** `areas`: every shop's area, each once, in order of first appearance. */
  function Areas(all: seq<Shop>): (r: seq<string>)
    ensures forall i :: 0 <= i < |all| ==> all[i].area in r
    ensures forall a :: a in r ==> exists i :: 0 <= i < |all| && all[i].area == a
    ensures forall i, j :: 0 <= i < j < |r| ==> r[i] != r[j]
  {
    var areas := Map(all, AreaOf);
    assert forall i :: 0 <= i < |all| ==> areas[i] == all[i].area;
    Distinct(areas)
  }

  /** The search: name, area and description, all ignoring case. */
  predicate MatchesSearch(s: Shop, term: string) {
    || ContainsIgnoreCase(s.name, term)
    || ContainsIgnoreCase(s.area, term)
    || ContainsIgnoreCase(s.description, term)
  }

  function Searched(term: string): Shop -> bool { (s: Shop) => MatchesSearch(s, term) }

  /** The area select narrows only when set to something other than "all". */
  predicate AreaFilterOn(area: string) { area != "" && area != "all" }

  function InArea(area: string): Shop -> bool { (s: Shop) => s.area == area }

  /** What the page shows: the shops matching a non-empty search and lying in the selected
      area, in store order. */
  function ShownShops(all: seq<Shop>, term: string, area: string): (r: seq<Shop>)
    ensures forall i :: 0 <= i < |r| ==>
              r[i] in all && (term != "" ==> MatchesSearch(r[i], term))
              && (AreaFilterOn(area) ==> r[i].area == area)
    ensures forall i :: (0 <= i < |all| && (term != "" ==> MatchesSearch(all[i], term))
                         && (AreaFilterOn(area) ==> all[i].area == area)) ==> all[i] in r
    ensures IsSubsequence(r, all)
  {
    var p := And(When(term != "", Searched(term)), When(AreaFilterOn(area), InArea(area)));
    FilterIsSubsequence(all, p);
    Filter(all, p)
  }

  /** Every area the select offers shows at least one shop when the search box is empty. */
  lemma OfferedAreaShowsShops(all: seq<Shop>, area: string)
    requires area in Areas(all)
    ensures |ShownShops(all, "", area)| > 0
  {
    var i :| 0 <= i < |all| && all[i].area == area;
    assert all[i] in ShownShops(all, "", area);
  }

  /** With an empty search and the area "all" the page shows every shop, in order. */
  lemma ClearedShowsAll(all: seq<Shop>)
    ensures ShownShops(all, "", "all") == all
  {
    FilterKeepsAll(all, And(When("" != "", Searched("")), When(AreaFilterOn("all"), InArea("all"))));
  }

  /** The page's filter state. */
  class ShopsView {
    var searchTerm: string
    var selectedArea: string
    var filteredShops: seq<Shop>

    /** The page opens with an empty search, the area "all" and every shop. */
    constructor (allShops: seq<Shop>)
      ensures searchTerm == "" && selectedArea == "all" && filteredShops == allShops
    {
      searchTerm := "";
      selectedArea := "all";
      filteredShops := allShops;
    }

    /** The effect: a copy of the store, narrowed by the search when one is typed and by the
        area when one is selected. */
    method Refilter(allShops: seq<Shop>)
      modifies this
      ensures filteredShops == ShownShops(allShops, searchTerm, selectedArea)
      ensures searchTerm == old(searchTerm) && selectedArea == old(selectedArea)
    {
      var filtered := allShops;
      if searchTerm != "" {
        filtered := Filter(filtered, Searched(searchTerm));
      }
      StageIsFilter(allShops, searchTerm != "", Searched(searchTerm));
      var searched := filtered;
      if AreaFilterOn(selectedArea) {
        filtered := Filter(filtered, InArea(selectedArea));
      }
      StageIsFilter(searched, AreaFilterOn(selectedArea), InArea(selectedArea));
      FilterFilter(allShops, When(searchTerm != "", Searched(searchTerm)),
                   When(AreaFilterOn(selectedArea), InArea(selectedArea)));
      filteredShops := filtered;
    }

    /** Typing into the search box, then the effect. */
    method SetSearchTerm(term: string, allShops: seq<Shop>)
      modifies this
      ensures searchTerm == term && selectedArea == old(selectedArea)
      ensures filteredShops == ShownShops(allShops, term, selectedArea)
    {
      searchTerm := term;
      Refilter(allShops);
    }

    /** Choosing an area, then the effect. */
    method SelectArea(area: string, allShops: seq<Shop>)
      modifies this
      ensures selectedArea == area && searchTerm == old(searchTerm)
      ensures filteredShops == ShownShops(allShops, searchTerm, area)
    {
      selectedArea := area;
      Refilter(allShops);
    }

    /** `handleClearFilters`, then the effect: every shop is shown again. */
    method ClearFilters(allShops: seq<Shop>)
      modifies this
      ensures searchTerm == "" && selectedArea == "all"
      ensures filteredShops == allShops
    {
      searchTerm := "";
      selectedArea := "all";
      Refilter(allShops);
      ClearedShowsAll(allShops);
    }
  }
}
