/**
 * The home page: the search box that turns a location and a picked date range
 * into a query for the bikes page, the category cards built from the bike
 * types, and the featured shops.
 */
module HomePage {
  import opened Wrappers
  import opened Types
  import opened Seqs
  import opened Text
  import BikesPage

  // ---------------------------------------------------------------- the search

  /** The filter object `handleSearch` builds: the location when one is typed; the date range
      when one is picked, its start defaulting to now and its end to one day after the
      start. No other field is set. */
  function HomeFilters(location: string, date: Option<BikesPage.PickedRange>, now: Instant): (r: SearchFilters)
    ensures r.location.Some? <==> location != ""
    ensures r.location.Some? ==> r.location.value == location
    ensures r.dateRange.Some? <==> date.Some?
    ensures date.Some? ==>
      var start := if date.value.from.Some? then date.value.from.value else now;
      r.dateRange.value.startDate == start
      && r.dateRange.value.endDate == (if date.value.to.Some? then date.value.to.value else start + DayMs)
    ensures r == NoFilters.(location := r.location, dateRange := r.dateRange)
  {
    NoFilters.(
      location := if location != "" then Some(location) else None,
      dateRange :=
        if date.Some? then
          var start := date.value.from.GetOr(now);
          Some(DateTimeRange(start, date.value.to.GetOr(start + DayMs)))
        else None)
  }

  /** One parameter of the query string. Dates travel as instants: `toISOString` and its
      parsing are not modelled. */
  datatype QueryParam =
    | LocationParam(value: string)
    | StartDateParam(at: Instant)
    | EndDateParam(at: Instant)
    | TypeParam(value: string)

  /** `handleSearch`: appends the location when set, then the start and the end date when a
      range is set, and returns the query the bikes page is opened with. */
  method HandleSearch(location: string, date: Option<BikesPage.PickedRange>, now: Instant)
    returns (params: seq<QueryParam>)
    ensures var f := HomeFilters(location, date, now);
      && |params| == (if f.location.Some? then 1 else 0) + (if f.dateRange.Some? then 2 else 0)
      && (LocationParam(location) in params <==> f.location.Some?)
      && (f.dateRange.Some? ==> params[|params| - 2..] == [StartDateParam(f.dateRange.value.startDate),
                                                          EndDateParam(f.dateRange.value.endDate)])
    ensures BikesPage.UrlFilters(ReadQuery(params)) ==
              var f := HomeFilters(location, date, now); if f == NoFilters then None else Some(f)
  {
    var filters := HomeFilters(location, date, now);
    params := [];
    if filters.location.Some? {
      params := params + [LocationParam(filters.location.value)];
    }
    if filters.dateRange.Some? {
      params := params + [StartDateParam(filters.dateRange.value.startDate)];
      params := params + [EndDateParam(filters.dateRange.value.endDate)];
    }
    ReadBackHome(filters, params);
  }

  /** The bikes page's `searchParams.get`: the first value of each name; a missing location
      or type reads as "", a missing date as nothing. */
  function ReadQuery(params: seq<QueryParam>): (p: BikesPage.UrlParams)
    ensures (forall i :: 0 <= i < |params| ==> !params[i].LocationParam?) ==> p.location == ""
    ensures (forall i :: 0 <= i < |params| ==> !params[i].StartDateParam?) ==> p.startDate.None?
    ensures (forall i :: 0 <= i < |params| ==> !params[i].EndDateParam?) ==> p.endDate.None?
    ensures (forall i :: 0 <= i < |params| ==> !params[i].TypeParam?) ==> p.bikeType == ""
    decreases |params|
  {
    if |params| == 0 then BikesPage.UrlParams("", None, None, "")
    else
      var rest := ReadQuery(params[1..]);
      match params[0]
      case LocationParam(v) => rest.(location := v)
      case StartDateParam(t) => rest.(startDate := Some(t))
      case EndDateParam(t) => rest.(endDate := Some(t))
      case TypeParam(v) => rest.(bikeType := v)
  }

  /** The query built from the home page's filters reads back as them. */
  lemma ReadBackHome(f: SearchFilters, params: seq<QueryParam>)
    requires f == NoFilters.(location := f.location, dateRange := f.dateRange)
    requires f.location.Some? ==> f.location.value != ""
    requires params == (if f.location.Some? then [LocationParam(f.location.value)] else [])
                     + (if f.dateRange.Some?
                        then [StartDateParam(f.dateRange.value.startDate), EndDateParam(f.dateRange.value.endDate)]
                        else [])
    ensures BikesPage.UrlFilters(ReadQuery(params)) == if f == NoFilters then None else Some(f)
  {
    var dates := if f.dateRange.Some?
                 then [StartDateParam(f.dateRange.value.startDate), EndDateParam(f.dateRange.value.endDate)]
                 else [];
    if f.dateRange.Some? {
      assert dates[1..][1..] == [];
      assert ReadQuery(dates) == BikesPage.UrlParams("", Some(f.dateRange.value.startDate),
                                                     Some(f.dateRange.value.endDate), "");
    }
    if f.location.Some? {
      assert params[1..] == dates;
    }
  }

  // ---------------------------------------------------------------- categories

  function TypeOf(b: Bike): string { b.bikeType }

  /** The predicate "is of type `t`". */
  function HasType(t: string): Bike -> bool {
    (b: Bike) => b.bikeType == t
  }

  /** A type first occurs in the list of types where it first occurs among the bikes. */
  lemma TypeFirstIndex(bikes: seq<Bike>, t: string)
    ensures FirstIndex(Map(bikes, TypeOf), Is(t)) == FirstIndex(bikes, HasType(t))
  {
    var types := Map(bikes, TypeOf);
    assert forall i :: 0 <= i < |bikes| ==> Is(t)(types[i]) == HasType(t)(bikes[i]);
    var a := FirstIndex(types, Is(t));
    var b := FirstIndex(bikes, HasType(t));
    if a >= 0 && b >= 0 {
      assert !(a < b) && !(b < a);
    }
  }

  /** `bikeTypes`: every bike's type, each once, in order of first appearance. */
  function HomeBikeTypes(bikes: seq<Bike>): (r: seq<string>)
    ensures forall i :: 0 <= i < |bikes| ==> bikes[i].bikeType in r
    ensures forall t :: t in r ==> exists i :: 0 <= i < |bikes| && bikes[i].bikeType == t
    ensures forall i, j :: 0 <= i < j < |r| ==> r[i] != r[j]
    ensures forall i, j :: 0 <= i < j < |r| ==> FirstIndex(bikes, HasType(r[i])) < FirstIndex(bikes, HasType(r[j]))
  {
    TypesOfBikes(bikes);
    TypesByFirstAppearance(bikes);
    Distinct(Map(bikes, TypeOf))
  }

  /** The distinct types are exactly the bikes' types, each once. */
  lemma TypesOfBikes(bikes: seq<Bike>)
    ensures var d := Distinct(Map(bikes, TypeOf));
            && (forall i :: 0 <= i < |bikes| ==> bikes[i].bikeType in d)
            && (forall t :: t in d ==> exists i :: 0 <= i < |bikes| && bikes[i].bikeType == t)
  {
    var types := Map(bikes, TypeOf);
    assert forall i :: 0 <= i < |bikes| ==> types[i] == bikes[i].bikeType;
  }

  /** The distinct types come in the order in which the bikes first show them. */
  lemma TypesByFirstAppearance(bikes: seq<Bike>)
    ensures var d := Distinct(Map(bikes, TypeOf));
            forall i, j :: 0 <= i < j < |d| ==> FirstIndex(bikes, HasType(d[i])) < FirstIndex(bikes, HasType(d[j]))
  {
    var d := Distinct(Map(bikes, TypeOf));
    forall i, j | 0 <= i < j < |d| ensures FirstIndex(bikes, HasType(d[i])) < FirstIndex(bikes, HasType(d[j])) {
      TypeFirstIndex(bikes, d[i]);
      TypeFirstIndex(bikes, d[j]);
    }
  }

  /** The category cards: the first four types, so at most four cards, none repeated, and
      every type left without a card first occurs after each type that has one. */
  function CategoryCards(bikes: seq<Bike>): (r: seq<string>)
    ensures |r| <= 4 && |r| <= |HomeBikeTypes(bikes)| && r == HomeBikeTypes(bikes)[..|r|]
    ensures |HomeBikeTypes(bikes)| >= 4 ==> |r| == 4
    ensures forall i, j :: 0 <= i < j < |r| ==> r[i] != r[j]
    ensures forall t, i :: t in HomeBikeTypes(bikes) && t !in r && 0 <= i < |r| ==>
              FirstIndex(bikes, HasType(r[i])) < FirstIndex(bikes, HasType(t))
  {
    var all := HomeBikeTypes(bikes);
    var r := Take(all, 4);
    UncardedComeLater(bikes, all, r);
    r
  }

  /** A type outside a prefix of the type list first occurs after every type in it. */
  lemma UncardedComeLater(bikes: seq<Bike>, all: seq<string>, r: seq<string>)
    requires all == HomeBikeTypes(bikes) && |r| <= |all| && r == all[..|r|]
    ensures forall t, i :: t in all && t !in r && 0 <= i < |r| ==>
              FirstIndex(bikes, HasType(r[i])) < FirstIndex(bikes, HasType(t))
  {
    forall t, i | t in all && t !in r && 0 <= i < |r|
      ensures FirstIndex(bikes, HasType(r[i])) < FirstIndex(bikes, HasType(t)) {
      var j :| 0 <= j < |all| && all[j] == t;
      assert r[i] == all[i];
    }
  }

  /** A card's "View All" button: the bikes page opened with the lower-cased type. */
  function CategoryQuery(bikeType: string): seq<QueryParam> {
    [TypeParam(Lower(bikeType))]
  }

  /** The bikes page reads that query as a type filter and nothing else. */
  lemma CategoryQueryFiltersType(bikeType: string)
    requires bikeType != ""
    ensures BikesPage.UrlFilters(ReadQuery(CategoryQuery(bikeType))) == Some(NoFilters.(bikeType := Some(Lower(bikeType))))
  {
    assert Lower(bikeType) != "";
  }

  // ---------------------------------------------------------------- featured shops

  function Rating(s: Shop): int { s.rating }

  /** `featuredShops`: a copy of the shops sorted by rating, highest first, cut to three.
      The sort works on the copy, so the store's own order is left alone; being stable, it
      keeps, among shops of equal rating, the ones listed first in the store. */
  function FeaturedShops(all: seq<Shop>): (r: seq<Shop>)
    ensures |r| == if |all| < 3 then |all| else 3
    ensures SortedDescendingBy(r, Rating)
    ensures multiset(r) <= multiset(all)
    ensures forall s :: s in all && s !in r ==> forall i :: 0 <= i < |r| ==> r[i].rating >= s.rating
    ensures forall k :: Filter(r, KeyIs(Rating, k)) <= Filter(all, KeyIs(Rating, k))
  {
    var sorted := SortDescendingBy(all, Rating);
    FeaturedAreTop(all, sorted, Take(sorted, 3));
    assert forall k :: Filter(Take(sorted, 3), KeyIs(Rating, k)) <= Filter(all, KeyIs(Rating, k)) by {
      forall k ensures Filter(Take(sorted, 3), KeyIs(Rating, k)) <= Filter(all, KeyIs(Rating, k)) {
        TakeFilterIsPrefix(sorted, 3, KeyIs(Rating, k));
      }
    }
    Take(sorted, 3)
  }

  /** The first three of a rating-sorted permutation of the shops hold the highest ratings:
      any shop not among them is rated no higher than each of them. */
  lemma FeaturedAreTop(all: seq<Shop>, sorted: seq<Shop>, r: seq<Shop>)
    requires SortedDescendingBy(sorted, Rating) && multiset(sorted) == multiset(all)
    requires r == Take(sorted, 3)
    ensures |r| == if |all| < 3 then |all| else 3
    ensures SortedDescendingBy(r, Rating)
    ensures multiset(r) <= multiset(all)
    ensures forall s :: s in all && s !in r ==> forall i :: 0 <= i < |r| ==> r[i].rating >= s.rating
  {
    assert |sorted| == |multiset(sorted)| == |multiset(all)| == |all|;
    assert sorted == r + sorted[|r|..];
    SameMembers(all, sorted);
    PrefixOutranks(sorted, r);
  }

  /** A shop of a rating-sorted list outside its prefix is rated no higher than each shop of
      the prefix. */
  lemma PrefixOutranks(sorted: seq<Shop>, r: seq<Shop>)
    requires SortedDescendingBy(sorted, Rating) && |r| <= |sorted| && r == sorted[..|r|]
    ensures forall s :: s in sorted && s !in r ==> forall i :: 0 <= i < |r| ==> r[i].rating >= s.rating
  {
    forall s | s in sorted && s !in r
      ensures forall i :: 0 <= i < |r| ==> r[i].rating >= s.rating
    {
      var j :| 0 <= j < |sorted| && sorted[j] == s;
      assert j >= |r|;
      forall i | 0 <= i < |r| ensures r[i].rating >= s.rating {
        assert Rating(sorted[i]) >= Rating(sorted[j]);
      }
    }
  }
}
