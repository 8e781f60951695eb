/**
 * The bike catalogue: all bikes, the filtered and sorted list the listing
 * page shows, the selected bike, the filter object last applied, and the
 * add/update/delete operations.
 *
 * The location filter and the shop-name lookup read the static seed list of
 * shops, not the live shop store; that list is the constant `mockShops`.
 */
module BikeContext {
  import opened Wrappers
  import opened Types
  import opened Seqs
  import Text

  /** `bike${n}`. */
  function BikeId(n: nat): string { Text.Id("bike", n) }

  function BikeWithId(id: string): Bike -> bool { (b: Bike) => b.id == id }

  // ---------------------------------------------------------------- the filter stages

  /** A shop serves a location text when its area or its city contains it, ignoring case. */
  predicate ShopServes(shop: Shop, location: string) {
    Text.ContainsIgnoreCase(shop.area, location) || Text.ContainsIgnoreCase(shop.city, location)
  }

  function Serving(location: string): Shop -> bool { (s: Shop) => ShopServes(s, location) }

  /** The ids of the shops serving a location, in list order. */
  function LocationShopIds(shops: seq<Shop>, location: string): (ids: seq<string>)
    ensures forall i :: 0 <= i < |ids| ==>
      exists j :: 0 <= j < |shops| && shops[j].id == ids[i] && ShopServes(shops[j], location)
    ensures forall j :: 0 <= j < |shops| && ShopServes(shops[j], location) ==> shops[j].id in ids
    ensures |ids| == 0 <==> forall j :: 0 <= j < |shops| ==> !ShopServes(shops[j], location)
  {
    var serving := Filter(shops, Serving(location));
    var ids := Map(serving, (s: Shop) => s.id);
    assert forall i :: 0 <= i < |ids| ==> ids[i] == serving[i].id && serving[i] in shops;
    assert |ids| > 0 ==> serving[0] in shops;
    ids
  }

  /** The location stage runs only for a location that is not blank and that some shop serves. */
  predicate LocationActive(f: SearchFilters, shops: seq<Shop>) {
    f.location.Some? && Text.Trim(f.location.value) != ""
    && |LocationShopIds(shops, f.location.value)| > 0
  }

  predicate LocationOk(f: SearchFilters, shops: seq<Shop>, b: Bike) {
    LocationActive(f, shops) ==> b.shopId in LocationShopIds(shops, f.location.value)
  }

  /** A date range only asks for bikes marked available; bookings are not consulted. */
  predicate DateOk(f: SearchFilters, b: Bike) {
    f.dateRange.Some? ==> b.isAvailable
  }

  /** Both price bounds are inclusive. */
  predicate PriceOk(f: SearchFilters, b: Bike) {
    f.priceRange.Some? ==> f.priceRange.value.0 <= b.pricePerDay <= f.priceRange.value.1
  }

  /** An empty list filters nothing. */
  predicate BrandOk(f: SearchFilters, b: Bike) {
    f.brands.Some? && |f.brands.value| > 0 ==> b.brand in f.brands.value
  }

  predicate GearOk(f: SearchFilters, b: Bike) {
    f.gearTypes.Some? && |f.gearTypes.value| > 0 ==> b.gearType in f.gearTypes.value
  }

  predicate ShopOk(f: SearchFilters, b: Bike) {
    f.shops.Some? && |f.shops.value| > 0 ==> b.shopId in f.shops.value
  }

  /** The type stage runs for a non-empty type other than "all", and compares ignoring case. */
  predicate TypeActive(f: SearchFilters) {
    f.bikeType.Some? && f.bikeType.value != "" && f.bikeType.value != "all"
  }

  predicate TypeOk(f: SearchFilters, b: Bike) {
    TypeActive(f) ==> Text.Lower(b.bikeType) == Text.Lower(f.bikeType.value)
  }

  /** A bike passes the filter object when it passes every stage. */
  predicate Matches(f: SearchFilters, shops: seq<Shop>, b: Bike) {
    LocationOk(f, shops, b) && DateOk(f, b) && PriceOk(f, b) && BrandOk(f, b)
    && GearOk(f, b) && ShopOk(f, b) && TypeOk(f, b)
  }

  /** The n-th stage (1 to 7, in the order they run); any other number keeps everything. */
  predicate StageOk(f: SearchFilters, shops: seq<Shop>, n: nat, b: Bike) {
    if n == 1 then LocationOk(f, shops, b)
    else if n == 2 then DateOk(f, b)
    else if n == 3 then PriceOk(f, b)
    else if n == 4 then BrandOk(f, b)
    else if n == 5 then GearOk(f, b)
    else if n == 6 then ShopOk(f, b)
    else if n == 7 then TypeOk(f, b)
    else true
  }

  /** Whether the n-th stage runs at all; a stage that does not run keeps every bike. */
  predicate StageActive(f: SearchFilters, shops: seq<Shop>, n: nat) {
    if n == 1 then LocationActive(f, shops)
    else if n == 2 then f.dateRange.Some?
    else if n == 3 then f.priceRange.Some?
    else if n == 4 then f.brands.Some? && |f.brands.value| > 0
    else if n == 5 then f.gearTypes.Some? && |f.gearTypes.value| > 0
    else if n == 6 then f.shops.Some? && |f.shops.value| > 0
    else if n == 7 then TypeActive(f)
    else false
  }

  /** A bike passes the first n stages. */
  predicate Passes(f: SearchFilters, shops: seq<Shop>, n: nat, b: Bike) {
    && (n >= 1 ==> LocationOk(f, shops, b))
    && (n >= 2 ==> DateOk(f, b))
    && (n >= 3 ==> PriceOk(f, b))
    && (n >= 4 ==> BrandOk(f, b))
    && (n >= 5 ==> GearOk(f, b))
    && (n >= 6 ==> ShopOk(f, b))
    && (n >= 7 ==> TypeOk(f, b))
  }

  function Stage(f: SearchFilters, shops: seq<Shop>, n: nat): Bike -> bool {
    (b: Bike) => StageOk(f, shops, n, b)
  }

  function FirstStages(f: SearchFilters, shops: seq<Shop>, n: nat): Bike -> bool {
    (b: Bike) => Passes(f, shops, n, b)
  }

  /** Running one more stage on the output of the first n is filtering by the first n + 1. */
  lemma NextStage(s: seq<Bike>, f: SearchFilters, shops: seq<Shop>, n: nat)
    ensures Filter(Filter(s, FirstStages(f, shops, n)), Stage(f, shops, n + 1))
         == Filter(s, FirstStages(f, shops, n + 1))
  {
    FilterFilter(s, FirstStages(f, shops, n), Stage(f, shops, n + 1));
    FilterSamePredicate(s, And(FirstStages(f, shops, n), Stage(f, shops, n + 1)), FirstStages(f, shops, n + 1));
  }

  /** A stage that does not run keeps every bike. */
  lemma InactiveStageKeepsAll(s: seq<Bike>, f: SearchFilters, shops: seq<Shop>, n: nat)
    requires !StageActive(f, shops, n)
    ensures Filter(s, Stage(f, shops, n)) == s
  {
    FilterKeepsAll(s, Stage(f, shops, n));
  }

  function ApplyStage(filtered: seq<Bike>, f: SearchFilters, shops: seq<Shop>, n: nat): seq<Bike> {
    if StageActive(f, shops, n) then Filter(filtered, Stage(f, shops, n)) else filtered
  }

  /** One stage of the pipeline: applied when it runs, skipped otherwise, it takes the
      output of the first n stages to the output of the first n + 1. */
  lemma StageStep(all: seq<Bike>, filtered: seq<Bike>, f: SearchFilters, shops: seq<Shop>, n: nat)
    requires filtered == Filter(all, FirstStages(f, shops, n))
    ensures ApplyStage(filtered, f, shops, n + 1) == Filter(all, FirstStages(f, shops, n + 1))
  {
    NextStage(all, f, shops, n);
    if !StageActive(f, shops, n + 1) {
      InactiveStageKeepsAll(filtered, f, shops, n + 1);
    }
  }

  /** Running the seven stages and then the sort gives the search result. */
  lemma StagedSearch(all: seq<Bike>, f: SearchFilters, shops: seq<Shop>)
    ensures Ordered(Filter(all, FirstStages(f, shops, 7)), f.sortBy) == SearchResult(all, f, shops)
  {
    FilterSamePredicate(all, FirstStages(f, shops, 7), Pipeline(f, shops));
  }

  /** The whole pipeline as one predicate. */
  function Pipeline(f: SearchFilters, shops: seq<Shop>): Bike -> bool {
    (b: Bike) => Matches(f, shops, b)
  }

  // ---------------------------------------------------------------- the sort stage

  function PriceKey(b: Bike): int { b.pricePerDay }
  function RatingKey(b: Bike): int { b.rating }

  /** The key a sort order compares. */
  function SortKey(order: SortOrder): Bike -> int {
    match order
    case PriceLowToHigh => PriceKey
    case PriceHighToLow => PriceKey
    case ByRating => RatingKey
  }

  /** The final sort: none, price ascending, price descending, or rating descending; the
      sorts are stable, so bikes with equal keys keep the order they came in. */
  function Ordered(bikes: seq<Bike>, sortBy: Option<SortOrder>): (r: seq<Bike>)
    ensures multiset(r) == multiset(bikes)
    ensures sortBy.None? ==> r == bikes
    ensures sortBy == Some(PriceLowToHigh) ==> SortedBy(r, PriceKey)
    ensures sortBy == Some(PriceHighToLow) ==> SortedDescendingBy(r, PriceKey)
    ensures sortBy == Some(ByRating) ==> SortedDescendingBy(r, RatingKey)
    ensures sortBy.Some? ==>
      forall k :: Filter(r, KeyIs(SortKey(sortBy.value), k)) == Filter(bikes, KeyIs(SortKey(sortBy.value), k))
  {
    match sortBy
    case None => bikes
    case Some(PriceLowToHigh) => SortBy(bikes, PriceKey)
    case Some(PriceHighToLow) => SortDescendingBy(bikes, PriceKey)
    case Some(ByRating) => SortDescendingBy(bikes, RatingKey)
  }

  /** What `setSearchFilters` puts in `filteredBikes`: exactly the bikes that pass every
      stage, each as often as in the catalogue, in catalogue order unless a sort is asked for,
      and then in that sort's order with ties in catalogue order. */
  function SearchResult(bikes: seq<Bike>, f: SearchFilters, shops: seq<Shop>): (r: seq<Bike>)
    ensures forall i :: 0 <= i < |r| ==> r[i] in bikes && Matches(f, shops, r[i])
    ensures forall i :: 0 <= i < |bikes| && Matches(f, shops, bikes[i]) ==> bikes[i] in r
    ensures forall b :: multiset(r)[b] == if Matches(f, shops, b) then multiset(bikes)[b] else 0
    ensures f.sortBy.None? ==> IsSubsequence(r, bikes)
    ensures f.sortBy == Some(PriceLowToHigh) ==> SortedBy(r, PriceKey)
    ensures f.sortBy == Some(PriceHighToLow) ==> SortedDescendingBy(r, PriceKey)
    ensures f.sortBy == Some(ByRating) ==> SortedDescendingBy(r, RatingKey)
    ensures f.sortBy.Some? ==>
      forall k :: Filter(r, KeyIs(SortKey(f.sortBy.value), k))
                    == Filter(bikes, And(Pipeline(f, shops), KeyIs(SortKey(f.sortBy.value), k)))
  {
    var kept := Filter(bikes, Pipeline(f, shops));
    assert forall key: Bike -> int, k :: Filter(kept, KeyIs(key, k)) == Filter(bikes, And(Pipeline(f, shops), KeyIs(key, k))) by {
      forall key: Bike -> int, k ensures Filter(kept, KeyIs(key, k)) == Filter(bikes, And(Pipeline(f, shops), KeyIs(key, k))) {
        FilterFilter(bikes, Pipeline(f, shops), KeyIs(key, k));
      }
    }
    FilterMultiset(bikes, Pipeline(f, shops));
    FilterIsSubsequence(bikes, Pipeline(f, shops));
    var r := Ordered(kept, f.sortBy);
    SameMembers(r, kept);
    r
  }

  /** With the empty filter object every stage is a no-op and there is no sort: the listing
      is the whole catalogue, in catalogue order. */
  lemma {:induction false} NoFiltersShowEverything(bikes: seq<Bike>, shops: seq<Shop>)
    ensures SearchResult(bikes, NoFilters, shops) == bikes
  {
    FilterKeepsAll(bikes, Pipeline(NoFilters, shops));
  }

  /** A blank location, or one that no shop serves, is skipped entirely: the result is the
      one without any location, not the empty list. */
  lemma LocationSkippedWhenNoShopServes(bikes: seq<Bike>, f: SearchFilters, shops: seq<Shop>)
    requires f.location.Some?
    requires Text.Trim(f.location.value) == ""
          || forall j :: 0 <= j < |shops| ==> !ShopServes(shops[j], f.location.value)
    ensures SearchResult(bikes, f, shops) == SearchResult(bikes, f.(location := None), shops)
  {
    FilterSamePredicate(bikes, Pipeline(f, shops), Pipeline(f.(location := None), shops));
  }

  /** When the location stage runs, it keeps exactly the bikes of shops serving the location. */
  lemma LocationKeepsServedBikes(f: SearchFilters, shops: seq<Shop>, b: Bike)
    requires LocationActive(f, shops)
    ensures LocationOk(f, shops, b) <==>
      exists j :: 0 <= j < |shops| && shops[j].id == b.shopId && ShopServes(shops[j], f.location.value)
  {
    var ids := LocationShopIds(shops, f.location.value);
    if b.shopId in ids {
      var i :| 0 <= i < |ids| && ids[i] == b.shopId;
    }
  }

  /** An empty brand list filters nothing: it gives the listing of no brand filter at all. */
  lemma EmptyBrandsFilterNothing(bikes: seq<Bike>, f: SearchFilters, shops: seq<Shop>)
    ensures SearchResult(bikes, f.(brands := Some([])), shops) == SearchResult(bikes, f.(brands := None), shops)
  {
    FilterSamePredicate(bikes, Pipeline(f.(brands := Some([])), shops), Pipeline(f.(brands := None), shops));
  }

  /** An empty gear-type list filters nothing. */
  lemma EmptyGearTypesFilterNothing(bikes: seq<Bike>, f: SearchFilters, shops: seq<Shop>)
    ensures SearchResult(bikes, f.(gearTypes := Some([])), shops) == SearchResult(bikes, f.(gearTypes := None), shops)
  {
    FilterSamePredicate(bikes, Pipeline(f.(gearTypes := Some([])), shops), Pipeline(f.(gearTypes := None), shops));
  }

  /** An empty shop list filters nothing. */
  lemma EmptyShopsFilterNothing(bikes: seq<Bike>, f: SearchFilters, shops: seq<Shop>)
    ensures SearchResult(bikes, f.(shops := Some([])), shops) == SearchResult(bikes, f.(shops := None), shops)
  {
    FilterSamePredicate(bikes, Pipeline(f.(shops := Some([])), shops), Pipeline(f.(shops := None), shops));
  }

  /** The type "all" filters nothing. */
  lemma TypeAllFiltersNothing(bikes: seq<Bike>, f: SearchFilters, shops: seq<Shop>)
    ensures SearchResult(bikes, f.(bikeType := Some("all")), shops) == SearchResult(bikes, f.(bikeType := None), shops)
  {
    FilterSamePredicate(bikes, Pipeline(f.(bikeType := Some("all")), shops), Pipeline(f.(bikeType := None), shops));
  }

  // ---------------------------------------------------------------- lookups

  /** `getBikesByShop`: the shop's bikes, in catalogue order. */
  function BikesByShop(bikes: seq<Bike>, shopId: string): (r: seq<Bike>)
    ensures forall i :: 0 <= i < |r| ==> r[i].shopId == shopId
    ensures forall i :: 0 <= i < |bikes| && bikes[i].shopId == shopId ==> bikes[i] in r
    ensures IsSubsequence(r, bikes)
  {
    FilterIsSubsequence(bikes, (b: Bike) => b.shopId == shopId);
    Filter(bikes, (b: Bike) => b.shopId == shopId)
  }

  /** `allBikes.find(b => b.id === id) || null`. */
  function BikeById(bikes: seq<Bike>, id: string): (r: Option<Bike>)
    ensures r.None? <==> forall i :: 0 <= i < |bikes| ==> bikes[i].id != id
    ensures r.Some? ==> r.value.id == id && r.value == bikes[FirstIndex(bikes, BikeWithId(id))]
  {
    Find(bikes, BikeWithId(id))
  }

  /** `getShopNameById`: the name of the first listed shop with the id, or "Unknown Shop". */
  function ShopNameById(shops: seq<Shop>, shopId: string): (name: string)
    ensures (forall j :: 0 <= j < |shops| ==> shops[j].id != shopId) ==> name == "Unknown Shop"
    ensures forall j :: (0 <= j < |shops| && shops[j].id == shopId
                         && forall i :: 0 <= i < j ==> shops[i].id != shopId) ==> name == shops[j].name
  {
    var k := FirstIndex(shops, (s: Shop) => s.id == shopId);
    if k == -1 then "Unknown Shop" else shops[k].name
  }

  // ---------------------------------------------------------------- catalogue updates

  /** The bike `addBike` appends: the caller's fields, a new id, and no rating or reviews yet. */
  function NewBike(b: BikeInput, id: string): (r: Bike)
    ensures r.id == id && r.rating == 0 && r.reviewCount == 0
    ensures r.name == b.name && r.brand == b.brand && r.model == b.model && r.year == b.year
    ensures r.bikeType == b.bikeType && r.cc == b.cc && r.gearType == b.gearType
    ensures r.pricePerHour == b.pricePerHour && r.pricePerDay == b.pricePerDay && r.deposit == b.deposit
    ensures r.description == b.description && r.images == b.images && r.features == b.features
    ensures r.shopId == b.shopId && r.isAvailable == b.isAvailable
  {
    Bike(id, b.name, b.brand, b.model, b.year, b.bikeType, b.cc, b.gearType,
         b.pricePerHour, b.pricePerDay, b.deposit, b.description, b.images,
         b.features, b.shopId, b.isAvailable, 0, 0)
  }

  /** The outcome of `updateBike`: nothing for an unknown id; otherwise the patch merged
      into the first bike with the id, every other bike as it was. */
  function BikeUpdated(bikes: seq<Bike>, id: string, patch: BikePatch): (r: Option<seq<Bike>>)
    ensures r.None? <==> forall i :: 0 <= i < |bikes| ==> bikes[i].id != id
    ensures r.Some? ==>
      var k := FirstIndex(bikes, BikeWithId(id));
      && |r.value| == |bikes| && bikes[k].id == id
      && r.value[k] == MergeBike(bikes[k], patch)
      && forall j :: 0 <= j < |bikes| && j != k ==> r.value[j] == bikes[j]
  {
    UpdateFirst(bikes, BikeWithId(id), (b: Bike) => MergeBike(b, patch))
  }

  /** The outcome of `deleteBike`: nothing for an unknown id; otherwise every bike with the id
      is gone and every other bike stays, in order. */
  function BikeDeleted(bikes: seq<Bike>, id: string): (r: Option<seq<Bike>>)
    ensures r.None? <==> forall i :: 0 <= i < |bikes| ==> bikes[i].id != id
    ensures r.Some? ==>
      && |r.value| < |bikes|
      && (forall i :: 0 <= i < |r.value| ==> r.value[i].id != id)
      && (forall i :: 0 <= i < |bikes| && bikes[i].id != id ==> bikes[i] in r.value)
      && IsSubsequence(r.value, bikes)
  {
    RemoveAll(bikes, BikeWithId(id))
  }

  /** The body of `setSearchFilters`: narrows a copy of the catalogue stage by stage,
      skipping every stage whose field is absent, then sorts it. */
  method Narrowed(all: seq<Bike>, f: SearchFilters, shops: seq<Shop>) returns (filtered: seq<Bike>)
    ensures filtered == SearchResult(all, f, shops)
  {
    filtered := all;
    var before := all;
    FilterKeepsAll(all, FirstStages(f, shops, 0));

    // location
    before := filtered;
    filtered := ApplyStage(filtered, f, shops, 1);
    StageStep(all, before, f, shops, 0);

    // date range
    before := filtered;
    filtered := ApplyStage(filtered, f, shops, 2);
    StageStep(all, before, f, shops, 1);

    // price range
    before := filtered;
    filtered := ApplyStage(filtered, f, shops, 3);
    StageStep(all, before, f, shops, 2);

    // brands
    before := filtered;
    filtered := ApplyStage(filtered, f, shops, 4);
    StageStep(all, before, f, shops, 3);

    // gear types
    before := filtered;
    filtered := ApplyStage(filtered, f, shops, 5);
    StageStep(all, before, f, shops, 4);

    // shops
    before := filtered;
    filtered := ApplyStage(filtered, f, shops, 6);
    StageStep(all, before, f, shops, 5);

    // type
    before := filtered;
    filtered := ApplyStage(filtered, f, shops, 7);
    StageStep(all, before, f, shops, 6);

    // sort
    StagedSearch(all, f, shops);
    filtered := Ordered(filtered, f.sortBy);
  }

  class BikeCatalogue {
    var allBikes: seq<Bike>
    var filteredBikes: seq<Bike>
    var selectedBike: Option<Bike>
    var filters: SearchFilters
    /** The static seed list of shops read by the location filter. */
    const mockShops: seq<Shop>

    /** The catalogue as loaded: everything listed, nothing selected, no filters. */
    constructor (bikes: seq<Bike>, shops: seq<Shop>)
      ensures allBikes == bikes && filteredBikes == bikes && mockShops == shops
      ensures selectedBike == None && filters == NoFilters
    {
      allBikes := bikes;
      filteredBikes := bikes;
      selectedBike := None;
      filters := NoFilters;
      mockShops := shops;
    }

    /** `setSearchFilters`: records the filter object and stores the narrowed, sorted copy of
        the catalogue. */
    method SetSearchFilters(newFilters: SearchFilters)
      modifies this
      ensures filters == newFilters
      ensures filteredBikes == SearchResult(allBikes, newFilters, mockShops)
      ensures allBikes == old(allBikes) && selectedBike == old(selectedBike)
    {
      filters := newFilters;
      filteredBikes := Narrowed(allBikes, newFilters, mockShops);
    }

    /** `selectBike`: the first bike with the id, or none. */
    method SelectBike(bikeId: string)
      modifies this
      ensures selectedBike == BikeById(allBikes, bikeId)
      ensures allBikes == old(allBikes) && filteredBikes == old(filteredBikes) && filters == old(filters)
    {
      selectedBike := BikeById(allBikes, bikeId);
    }

    method ClearSelectedBike()
      modifies this
      ensures selectedBike == None
      ensures allBikes == old(allBikes) && filteredBikes == old(filteredBikes) && filters == old(filters)
    {
      selectedBike := None;
    }

    /** `addBike`: appends one bike numbered after the current length, then re-applies the
        current filters — to the catalogue as it was before the append, which is the list the
        re-applied filter function still holds. */
    method AddBike(bike: BikeInput)
      modifies this
      ensures allBikes == old(allBikes) + [NewBike(bike, BikeId(|old(allBikes)| + 1))]
      ensures filteredBikes == SearchResult(old(allBikes), old(filters), mockShops)
      ensures filters == old(filters) && selectedBike == old(selectedBike)
    {
      var before := allBikes;
      var newBike := NewBike(bike, BikeId(|allBikes| + 1));
      var updatedBikes := allBikes + [newBike];
      allBikes := updatedBikes;
      filteredBikes := SearchResult(before, filters, mockShops);
    }

    /** `updateBike`: false and no change for an unknown id; otherwise the merge into the first
        match, the selected bike following it when it has that id, and the filters re-applied
        to the catalogue as it was before. */
    method UpdateBike(bikeId: string, updates: BikePatch) returns (ok: bool)
      modifies this
      ensures var r := BikeUpdated(old(allBikes), bikeId, updates);
              ok == r.Some? && allBikes == (if ok then r.value else old(allBikes))
      ensures !ok ==> filteredBikes == old(filteredBikes) && selectedBike == old(selectedBike)
      ensures ok ==> filteredBikes == SearchResult(old(allBikes), old(filters), mockShops)
      ensures ok ==> (selectedBike ==
        if old(selectedBike).Some? && old(selectedBike).value.id == bikeId
        then Some(allBikes[FirstIndex(old(allBikes), BikeWithId(bikeId))])
        else old(selectedBike))
      ensures filters == old(filters)
    {
      var bikeIndex := FirstIndex(allBikes, BikeWithId(bikeId));
      if bikeIndex == -1 {
        return false;
      }
      var before := allBikes;
      var updatedBikes := allBikes;
      updatedBikes := updatedBikes[bikeIndex := MergeBike(updatedBikes[bikeIndex], updates)];
      allBikes := updatedBikes;
      if selectedBike.Some? && selectedBike.value.id == bikeId {
        selectedBike := Some(updatedBikes[bikeIndex]);
      }
      filteredBikes := SearchResult(before, filters, mockShops);
      ok := true;
    }

    /** `deleteBike`: false and no change for an unknown id; otherwise every bike with the id
        removed, the selection cleared when it had that id, and the filters re-applied to the
        catalogue as it was before. */
    method DeleteBike(bikeId: string) returns (ok: bool)
      modifies this
      ensures var r := BikeDeleted(old(allBikes), bikeId);
              ok == r.Some? && allBikes == (if ok then r.value else old(allBikes))
      ensures !ok ==> filteredBikes == old(filteredBikes) && selectedBike == old(selectedBike)
      ensures ok ==> filteredBikes == SearchResult(old(allBikes), old(filters), mockShops)
      ensures ok ==> (selectedBike ==
        if old(selectedBike).Some? && old(selectedBike).value.id == bikeId then None else old(selectedBike))
      ensures filters == old(filters)
    {
      var bikeIndex := FirstIndex(allBikes, BikeWithId(bikeId));
      if bikeIndex == -1 {
        return false;
      }
      var before := allBikes;
      allBikes := Filter(allBikes, Not(BikeWithId(bikeId)));
      if selectedBike.Some? && selectedBike.value.id == bikeId {
        selectedBike := None;
      }
      filteredBikes := SearchResult(before, filters, mockShops);
      ok := true;
    }
  }
}
