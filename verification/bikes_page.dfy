/**
 * The bike listing page: the filter form, the choices it offers (brands,
 * types, the price span), and the filter object it submits to the catalogue
 * from the URL, from "Apply" and from "Reset".
 */
module BikesPage {
  import opened Wrappers
  import opened Types
  import opened Seqs
  import BikeContext

  // ---------------------------------------------------------------- choices offered

  /** The distinct brands, in order of first appearance. */
  function Brands(bikes: seq<Bike>): (r: seq<string>)
    ensures forall i :: 0 <= i < |bikes| ==> bikes[i].brand in r
    ensures forall i :: 0 <= i < |r| ==> exists j :: 0 <= j < |bikes| && bikes[j].brand == r[i]
    ensures forall i, j :: 0 <= i < j < |r| ==> r[i] != r[j]
  {
    var all := Map(bikes, (b: Bike) => b.brand);
    var r := Distinct(all);
    assert forall i :: 0 <= i < |r| ==> r[i] in all;
    assert forall i :: 0 <= i < |r| ==> exists j :: 0 <= j < |bikes| && all[j] == r[i];
    r
  }

  /** "all" followed by the distinct bike types, in order of first appearance. */
  function BikeTypes(bikes: seq<Bike>): (r: seq<string>)
    ensures |r| >= 1 && r[0] == "all"
    ensures forall i :: 0 <= i < |bikes| ==> bikes[i].bikeType in r[1..]
    ensures forall i :: 1 <= i < |r| ==> exists j :: 0 <= j < |bikes| && bikes[j].bikeType == r[i]
    ensures forall i, j :: 1 <= i < j < |r| ==> r[i] != r[j]
  {
    var all := Map(bikes, (b: Bike) => b.bikeType);
    var d := Distinct(all);
    assert forall i :: 0 <= i < |d| ==> d[i] in all;
    assert forall i :: 0 <= i < |d| ==> exists j :: 0 <= j < |bikes| && all[j] == d[i];
    assert (["all"] + d)[1..] == d;
    ["all"] + d
  }

  /** The lowest daily price of a non-empty list. */
  function LowestPrice(bikes: seq<Bike>): (m: int)
    requires |bikes| > 0
    ensures exists i :: 0 <= i < |bikes| && bikes[i].pricePerDay == m
    ensures forall i :: 0 <= i < |bikes| ==> m <= bikes[i].pricePerDay
    decreases |bikes|
  {
    if |bikes| == 1 then bikes[0].pricePerDay
    else
      var rest := LowestPrice(bikes[1..]);
      assert forall i :: 1 <= i < |bikes| ==> bikes[i] == bikes[1..][i - 1];
      if bikes[0].pricePerDay <= rest then bikes[0].pricePerDay else rest
  }

  /** The highest daily price of a non-empty list. */
  function HighestPrice(bikes: seq<Bike>): (m: int)
    requires |bikes| > 0
    ensures exists i :: 0 <= i < |bikes| && bikes[i].pricePerDay == m
    ensures forall i :: 0 <= i < |bikes| ==> bikes[i].pricePerDay <= m
    decreases |bikes|
  {
    if |bikes| == 1 then bikes[0].pricePerDay
    else
      var rest := HighestPrice(bikes[1..]);
      assert forall i :: 1 <= i < |bikes| ==> bikes[i] == bikes[1..][i - 1];
      if bikes[0].pricePerDay >= rest then bikes[0].pricePerDay else rest
  }

  /** `minPrice`: the lowest daily price, or 0 without bikes. */
  function MinPrice(bikes: seq<Bike>): (m: int)
    ensures |bikes| == 0 ==> m == 0
    ensures |bikes| > 0 ==> forall i :: 0 <= i < |bikes| ==> m <= bikes[i].pricePerDay
  {
    if |bikes| > 0 then LowestPrice(bikes) else 0
  }

  /** `maxPrice`: the highest daily price, or 2000 without bikes. */
  function MaxPrice(bikes: seq<Bike>): (m: int)
    ensures |bikes| == 0 ==> m == 2000
    ensures |bikes| > 0 ==> forall i :: 0 <= i < |bikes| ==> bikes[i].pricePerDay <= m
  {
    if |bikes| > 0 then HighestPrice(bikes) else 2000
  }

  /** With bikes listed, the span runs from a price some bike has to a price some bike has. */
  lemma PriceSpanIsAttained(bikes: seq<Bike>)
    requires |bikes| > 0
    ensures MinPrice(bikes) <= MaxPrice(bikes)
    ensures exists i :: 0 <= i < |bikes| && bikes[i].pricePerDay == MinPrice(bikes)
    ensures exists j :: 0 <= j < |bikes| && bikes[j].pricePerDay == MaxPrice(bikes)
  {
    assert MinPrice(bikes) <= bikes[0].pricePerDay <= MaxPrice(bikes);
  }

  // ---------------------------------------------------------------- the form

  /** A picked date range: the picker may have a start without an end. */
  datatype PickedRange = PickedRange(from: Option<Instant>, to: Option<Instant>)

  /** The form's fields; `sortOption` None is the "default" entry. */
  datatype FilterForm = FilterForm(
    location: string, dateRange: Option<PickedRange>, priceRange: (int, int),
    brands: seq<string>, gearTypes: seq<GearType>, shops: seq<string>,
    selectedType: string, sortOption: Option<SortOrder>)

  /** The filter object "Apply" submits: each field only when the form differs from its
      resting value there; the price only when it differs from the full span; a start date
      without an end date extends to one day later. */
  function FormFilters(form: FilterForm, minPrice: int, maxPrice: int): (r: SearchFilters)
    ensures r.location.Some? <==> form.location != ""
    ensures r.location.Some? ==> r.location.value == form.location
    ensures r.dateRange.Some? <==> form.dateRange.Some? && form.dateRange.value.from.Some?
    ensures r.dateRange.Some? ==>
      var start := form.dateRange.value.from.value;
      && r.dateRange.value.startDate == start
      && r.dateRange.value.endDate == form.dateRange.value.to.GetOr(start + DayMs)
    ensures r.priceRange.Some? <==> form.priceRange != (minPrice, maxPrice)
    ensures r.priceRange.Some? ==> r.priceRange.value == form.priceRange
    ensures r.brands.Some? <==> |form.brands| > 0
    ensures r.gearTypes.Some? <==> |form.gearTypes| > 0
    ensures r.shops.Some? <==> |form.shops| > 0
    ensures r.brands.Some? ==> r.brands.value == form.brands
    ensures r.gearTypes.Some? ==> r.gearTypes.value == form.gearTypes
    ensures r.shops.Some? ==> r.shops.value == form.shops
    ensures r.bikeType.Some? <==> form.selectedType != "all"
    ensures r.bikeType.Some? ==> r.bikeType.value == form.selectedType
    ensures r.sortBy == form.sortOption
  {
    SearchFilters(
      if form.location != "" then Some(form.location) else None,
      if form.dateRange.Some? && form.dateRange.value.from.Some? then
        var start := form.dateRange.value.from.value;
        Some(DateTimeRange(start, form.dateRange.value.to.GetOr(start + DayMs)))
      else None,
      if form.priceRange != (minPrice, maxPrice) then Some(form.priceRange) else None,
      if |form.brands| > 0 then Some(form.brands) else None,
      if |form.gearTypes| > 0 then Some(form.gearTypes) else None,
      if |form.shops| > 0 then Some(form.shops) else None,
      form.sortOption,
      if form.selectedType != "all" then Some(form.selectedType) else None)
  }

  /** The form at rest, with the price span of the listed bikes. */
  function RestingForm(minPrice: int, maxPrice: int): FilterForm {
    FilterForm("", None, (minPrice, maxPrice), [], [], [], "all", None)
  }

  /** The form at rest submits the empty filter object. */
  lemma RestingFormSubmitsNothing(minPrice: int, maxPrice: int)
    ensures FormFilters(RestingForm(minPrice, maxPrice), minPrice, maxPrice) == NoFilters
  {
  }

  /** Leaving the price out when the slider spans every listed price loses nothing: the
      same bikes come back, in the same order, as with that span applied. */
  lemma FullSpanPriceIsNoFilter(bikes: seq<Bike>, f: SearchFilters, shops: seq<Shop>)
    requires f.priceRange.None?
    ensures var g := f.(priceRange := Some((MinPrice(bikes), MaxPrice(bikes))));
            BikeContext.SearchResult(bikes, g, shops) == BikeContext.SearchResult(bikes, f, shops)
  {
    var g := f.(priceRange := Some((MinPrice(bikes), MaxPrice(bikes))));
    forall i | 0 <= i < |bikes|
      ensures BikeContext.Pipeline(g, shops)(bikes[i]) == BikeContext.Pipeline(f, shops)(bikes[i])
    {
      assert BikeContext.PriceOk(g, bikes[i]);
    }
    FilterSamePredicate(bikes, BikeContext.Pipeline(g, shops), BikeContext.Pipeline(f, shops));
  }

  /** The query string the page was opened with; absent and empty parameters are alike,
      and a date parameter is present only when it parsed. */
  datatype UrlParams = UrlParams(location: string, startDate: Option<Instant>,
                                 endDate: Option<Instant>, bikeType: string)

  /** The filter object built from the URL, or nothing when no parameter was found. */
  function UrlFilters(p: UrlParams): (r: Option<SearchFilters>)
    ensures r.None? <==> p.location == "" && !(p.startDate.Some? && p.endDate.Some?) && p.bikeType == ""
    ensures r.Some? ==>
      && (r.value.location.Some? <==> p.location != "")
      && (r.value.location.Some? ==> r.value.location.value == p.location)
      && (r.value.dateRange.Some? <==> p.startDate.Some? && p.endDate.Some?)
      && (r.value.dateRange.Some? ==>
            r.value.dateRange.value == DateTimeRange(p.startDate.value, p.endDate.value))
      && (r.value.bikeType.Some? <==> p.bikeType != "")
      && (r.value.bikeType.Some? ==> r.value.bikeType.value == p.bikeType)
      && r.value.priceRange.None? && r.value.brands.None? && r.value.gearTypes.None?
      && r.value.shops.None? && r.value.sortBy.None?
  {
    var f := NoFilters.(
      location := if p.location != "" then Some(p.location) else None,
      dateRange := if p.startDate.Some? && p.endDate.Some? then Some(DateTimeRange(p.startDate.value, p.endDate.value)) else None,
      bikeType := if p.bikeType != "" then Some(p.bikeType) else None);
    if f == NoFilters then None else Some(f)
  }

  /** The filter object read from the URL never carries a brand, so it differs from any
      submitted form that ticked one: a re-run of the URL effect after "Apply" drops it. */
  lemma UrlDropsTickedBrands(form: FilterForm, p: UrlParams, minPrice: int, maxPrice: int)
    requires UrlFilters(p).Some? && |form.brands| > 0
    ensures UrlFilters(p).value != FormFilters(form, minPrice, maxPrice)
    ensures UrlFilters(p).value.brands.None? && FormFilters(form, minPrice, maxPrice).brands == Some(form.brands)
  {
  }

  /** `applyFilters` builds the filter object field by field from the form. */
  method BuildFilters(form: FilterForm, minPrice: int, maxPrice: int) returns (newFilters: SearchFilters)
    ensures newFilters == FormFilters(form, minPrice, maxPrice)
  {
    newFilters := NoFilters;
    if form.location != "" { newFilters := newFilters.(location := Some(form.location)); }
    if form.dateRange.Some? && form.dateRange.value.from.Some? {
      var start := form.dateRange.value.from.value;
      newFilters := newFilters.(dateRange := Some(DateTimeRange(start, form.dateRange.value.to.GetOr(start + DayMs))));
    }
    if form.priceRange.0 != minPrice || form.priceRange.1 != maxPrice {
      newFilters := newFilters.(priceRange := Some(form.priceRange));
    }
    if |form.brands| > 0 { newFilters := newFilters.(brands := Some(form.brands)); }
    if |form.gearTypes| > 0 { newFilters := newFilters.(gearTypes := Some(form.gearTypes)); }
    if |form.shops| > 0 { newFilters := newFilters.(shops := Some(form.shops)); }
    if form.selectedType != "all" { newFilters := newFilters.(bikeType := Some(form.selectedType)); }
    if form.sortOption.Some? { newFilters := newFilters.(sortBy := form.sortOption); }
  }

  /** The page's form state. */
  class BikesView {
    var locationFilter: string
    var dateRange: Option<PickedRange>
    var priceRange: (int, int)
    var selectedBrands: seq<string>
    var selectedGearTypes: seq<GearType>
    var selectedShops: seq<string>
    var selectedType: string
    var sortOption: Option<SortOrder>
    /** The query string the URL effect last ran for, when it is keyed on the query string. */
    var urlEffectRanFor: Option<UrlParams>

    function Form(): FilterForm
      reads this
    {
      FilterForm(locationFilter, dateRange, priceRange, selectedBrands, selectedGearTypes,
                 selectedShops, selectedType, sortOption)
    }

    constructor ()
      ensures Form() == RestingForm(0, 2000)
      ensures urlEffectRanFor.None?
    {
      locationFilter := "";
      dateRange := None;
      priceRange := (0, 2000);
      selectedBrands := [];
      selectedGearTypes := [];
      selectedShops := [];
      selectedType := "all";
      sortOption := None;
      urlEffectRanFor := None;
    }

    /** The effect that moves the slider to the span of the listed bikes, when there are any. */
    method SyncPriceRange(allBikes: seq<Bike>)
      modifies this
      ensures priceRange == if |allBikes| > 0 then (MinPrice(allBikes), MaxPrice(allBikes)) else old(priceRange)
      ensures Form() == old(Form()).(priceRange := priceRange)
      ensures urlEffectRanFor == old(urlEffectRanFor)
    {
      if |allBikes| > 0 {
        priceRange := (MinPrice(allBikes), MaxPrice(allBikes));
      }
    }

    /** One run of the effect that reads the URL: the form takes the parameters found, and
        the filter object built from them is submitted when there is at least one. */
    method InitFromUrl(p: UrlParams, catalogue: BikeContext.BikeCatalogue)
      modifies this, catalogue
      ensures locationFilter == (if p.location != "" then p.location else old(locationFilter))
      ensures dateRange == (if p.startDate.Some? && p.endDate.Some? then Some(PickedRange(p.startDate, p.endDate))
                            else old(dateRange))
      ensures selectedType == (if p.bikeType != "" then p.bikeType else old(selectedType))
      ensures Form() == old(Form()).(location := locationFilter, dateRange := dateRange, selectedType := selectedType)
      ensures var r := UrlFilters(p);
              if r.Some? then
                && catalogue.filters == r.value
                && catalogue.filteredBikes == BikeContext.SearchResult(catalogue.allBikes, r.value, catalogue.mockShops)
              else catalogue.filters == old(catalogue.filters) && catalogue.filteredBikes == old(catalogue.filteredBikes)
      ensures catalogue.allBikes == old(catalogue.allBikes) && catalogue.selectedBike == old(catalogue.selectedBike)
      ensures urlEffectRanFor == old(urlEffectRanFor)
    {
      if p.location != "" { locationFilter := p.location; }
      if p.startDate.Some? && p.endDate.Some? { dateRange := Some(PickedRange(p.startDate, p.endDate)); }
      if p.bikeType != "" { selectedType := p.bikeType; }

      var initFilters := NoFilters;
      if p.location != "" { initFilters := initFilters.(location := Some(p.location)); }
      if p.startDate.Some? && p.endDate.Some? {
        initFilters := initFilters.(dateRange := Some(DateTimeRange(p.startDate.value, p.endDate.value)));
      }
      if p.bikeType != "" { initFilters := initFilters.(bikeType := Some(p.bikeType)); }

      if initFilters != NoFilters {
        catalogue.SetSearchFilters(initFilters);
      }
    }

    /** A render as written: the effect depends on a `URLSearchParams` built afresh on every
        render, so it runs again after every render, not once per URL. */
    method RenderAsWritten(p: UrlParams, catalogue: BikeContext.BikeCatalogue)
      modifies this, catalogue
      ensures UrlFilters(p).Some? ==>
                && catalogue.filters == UrlFilters(p).value
                && catalogue.filteredBikes == BikeContext.SearchResult(catalogue.allBikes, UrlFilters(p).value, catalogue.mockShops)
      ensures UrlFilters(p).None? ==>
                catalogue.filters == old(catalogue.filters) && catalogue.filteredBikes == old(catalogue.filteredBikes)
      ensures p.location != "" ==> locationFilter == p.location
      ensures p.bikeType != "" ==> selectedType == p.bikeType
      ensures catalogue.allBikes == old(catalogue.allBikes) && catalogue.selectedBike == old(catalogue.selectedBike)
    {
      InitFromUrl(p, catalogue);
    }

    /** "Apply" followed by the render it causes, as written: whenever the URL carries a
        parameter, the submitted filters are replaced by the URL's, whatever the form held. */
    method ApplyThenRenderAsWritten(p: UrlParams, catalogue: BikeContext.BikeCatalogue)
      modifies this, catalogue
      ensures UrlFilters(p).Some? ==> catalogue.filters == UrlFilters(p).value
      ensures UrlFilters(p).None? ==>
                catalogue.filters == FormFilters(old(Form()), MinPrice(catalogue.allBikes), MaxPrice(catalogue.allBikes))
      ensures catalogue.allBikes == old(catalogue.allBikes) && catalogue.selectedBike == old(catalogue.selectedBike)
    {
      ApplyFilters(catalogue);
      RenderAsWritten(p, catalogue);
    }

    /** A render with the effect keyed on the query string: it runs only for a query string
        it has not yet run for, so later renders of the same URL leave form and filters alone. */
    method Render(p: UrlParams, catalogue: BikeContext.BikeCatalogue)
      modifies this, catalogue
      ensures urlEffectRanFor == Some(p)
      ensures old(urlEffectRanFor) == Some(p) ==>
                && Form() == old(Form())
                && catalogue.filters == old(catalogue.filters)
                && catalogue.filteredBikes == old(catalogue.filteredBikes)
      ensures old(urlEffectRanFor) != Some(p) && UrlFilters(p).Some? ==>
                && catalogue.filters == UrlFilters(p).value
                && catalogue.filteredBikes == BikeContext.SearchResult(catalogue.allBikes, UrlFilters(p).value, catalogue.mockShops)
      ensures catalogue.allBikes == old(catalogue.allBikes) && catalogue.selectedBike == old(catalogue.selectedBike)
    {
      if urlEffectRanFor != Some(p) {
        InitFromUrl(p, catalogue);
        urlEffectRanFor := Some(p);
      }
    }

    /** "Apply" followed by the render it causes, with the keyed effect: once the page has
        rendered for the URL, the submitted filters stay. */
    method ApplyThenRender(p: UrlParams, catalogue: BikeContext.BikeCatalogue)
      modifies this, catalogue
      ensures old(urlEffectRanFor) == Some(p) ==>
                var f := FormFilters(old(Form()), MinPrice(catalogue.allBikes), MaxPrice(catalogue.allBikes));
                && catalogue.filters == f
                && catalogue.filteredBikes == BikeContext.SearchResult(catalogue.allBikes, f, catalogue.mockShops)
                && Form() == old(Form())
      ensures catalogue.allBikes == old(catalogue.allBikes) && catalogue.selectedBike == old(catalogue.selectedBike)
    {
      ApplyFilters(catalogue);
      Render(p, catalogue);
    }

    /** "Apply": the form becomes a filter object and is submitted. */
    method ApplyFilters(catalogue: BikeContext.BikeCatalogue)
      modifies catalogue
      ensures var f := FormFilters(Form(), MinPrice(catalogue.allBikes), MaxPrice(catalogue.allBikes));
              && catalogue.filters == f
              && catalogue.filteredBikes == BikeContext.SearchResult(catalogue.allBikes, f, catalogue.mockShops)
      ensures catalogue.allBikes == old(catalogue.allBikes) && catalogue.selectedBike == old(catalogue.selectedBike)
    {
      var newFilters := BuildFilters(Form(), MinPrice(catalogue.allBikes), MaxPrice(catalogue.allBikes));
      catalogue.SetSearchFilters(newFilters);
    }

    /** "Reset": the form returns to rest with the current price span and the empty filter
        object is submitted, so every bike is listed in catalogue order. */
    method ResetFilters(catalogue: BikeContext.BikeCatalogue)
      modifies this, catalogue
      ensures Form() == RestingForm(MinPrice(catalogue.allBikes), MaxPrice(catalogue.allBikes))
      ensures catalogue.filters == NoFilters && catalogue.filteredBikes == catalogue.allBikes
      ensures catalogue.allBikes == old(catalogue.allBikes) && catalogue.selectedBike == old(catalogue.selectedBike)
      ensures urlEffectRanFor == old(urlEffectRanFor)
    {
      var all := catalogue.allBikes;
      BikeContext.NoFiltersShowEverything(all, catalogue.mockShops);
      catalogue.SetSearchFilters(NoFilters);
      locationFilter := "";
      dateRange := None;
      priceRange := (MinPrice(all), MaxPrice(all));
      selectedBrands := [];
      selectedGearTypes := [];
      selectedShops := [];
      selectedType := "all";
      sortOption := None;
    }
  }
}
