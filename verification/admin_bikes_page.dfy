/**
 * The administrators' bikes page: the search box over the catalogue, the add
 * form with its validation, defaults and comma-separated features field, and
 * the edit and delete dialogs that forward to the catalogue.
 */
module AdminBikesPage {
  import opened Wrappers
  import opened Types
  import opened Seqs
  import opened Text
  import BikeContext

  // ---------------------------------------------------------------- search

  /** The search: name, brand, model and the catalogue's shop name, all ignoring case. */
  predicate MatchesSearch(shops: seq<Shop>, b: Bike, term: string) {
    || ContainsIgnoreCase(b.name, term)
    || ContainsIgnoreCase(b.brand, term)
    || ContainsIgnoreCase(b.model, term)
    || ContainsIgnoreCase(BikeContext.ShopNameById(shops, b.shopId), term)
  }

  /** `filteredBikes`: the bikes matching the search, in catalogue order. */
  function FilteredBikes(all: seq<Bike>, shops: seq<Shop>, term: string): (r: seq<Bike>)
    ensures forall i :: 0 <= i < |r| ==> r[i] in all && MatchesSearch(shops, r[i], term)
    ensures forall i :: 0 <= i < |all| && MatchesSearch(shops, all[i], term) ==> all[i] in r
    ensures IsSubsequence(r, all)
  {
    var p := (b: Bike) => MatchesSearch(shops, b, term);
    FilterIsSubsequence(all, p);
    Filter(all, p)
  }

  /** An empty search box lists the whole catalogue, in order. */
  lemma EmptySearchListsAll(all: seq<Bike>, shops: seq<Shop>)
    ensures FilteredBikes(all, shops, "") == all
  {
    forall i | 0 <= i < |all| ensures MatchesSearch(shops, all[i], "") {
      ContainsEmpty(Lower(all[i].name));
    }
    FilterKeepsAll(all, (b: Bike) => MatchesSearch(shops, b, ""));
  }

  // ---------------------------------------------------------------- the features field

  /** What the features field stores when typed into: the text split on commas, each piece
      trimmed. */
  function FeaturesFromInput(text: string): seq<string> {
    Map(Split(text, ','), Trim)
  }

  /** Every stored entry is trimmed and free of commas, and there is at least one. */
  lemma StoredFeaturesClean(text: string)
    ensures var r := FeaturesFromInput(text);
            |r| >= 1 && forall i :: 0 <= i < |r| ==> ',' !in r[i] && Trim(r[i]) == r[i]
  {
    var parts := Split(text, ',');
    forall i | 0 <= i < |parts| ensures ',' !in Trim(parts[i]) && Trim(Trim(parts[i])) == Trim(parts[i]) {
      TrimIsPiece(parts[i]);
    }
  }

  /** Showing what was typed and reading it back changes nothing: reopening the field and
      leaving it as shown is harmless. */
  lemma TypedFeaturesStable(text: string)
    ensures FeaturesFromInput(FeaturesShown(FeaturesFromInput(text))) == FeaturesFromInput(text)
  {
    StoredFeaturesClean(text);
    FeaturesRoundTrip(FeaturesFromInput(text));
  }

  /** What the features field shows: the list joined with ", ". */
  function FeaturesShown(features: seq<string>): string {
    Join(features, ", ")
  }

  /** A features list whose entries are trimmed and free of commas survives being shown in the
      field and read back; this is what the form stores whenever the field has been typed in. */
  lemma {:induction false} FeaturesRoundTrip(features: seq<string>)
    requires |features| >= 1
    requires forall i :: 0 <= i < |features| ==> ',' !in features[i] && Trim(features[i]) == features[i]
    ensures FeaturesFromInput(FeaturesShown(features)) == features
    decreases |features|
  {
    if |features| == 1 {
      ReadBackOne(features[0]);
    } else {
      FeaturesRoundTrip(features[1..]);
      RoundTripStep(features);
    }
  }

  /** The step: a clean first entry in front of a tail that survives the round trip. */
  lemma RoundTripStep(features: seq<string>)
    requires |features| >= 2 && ',' !in features[0] && Trim(features[0]) == features[0]
    requires FeaturesFromInput(FeaturesShown(features[1..])) == features[1..]
    ensures FeaturesFromInput(FeaturesShown(features)) == features
  {
    ReadBackStep(features);
    HeadAndTail(features, FeaturesFromInput(FeaturesShown(features)), features[1..]);
  }

  /** Reading back the shown list gives the first entry in front of the tail read back. */
  lemma ReadBackStep(features: seq<string>)
    requires |features| >= 2 && ',' !in features[0] && Trim(features[0]) == features[0]
    ensures FeaturesFromInput(FeaturesShown(features)) == [features[0]] + FeaturesFromInput(FeaturesShown(features[1..]))
  {
    ShownStep(features);
    ReadBackJoined(features[0], FeaturesShown(features[1..]));
  }

  /** A single entry is shown as itself. */
  lemma ReadBackOne(only: string)
    requires ',' !in only && Trim(only) == only
    ensures FeaturesFromInput(FeaturesShown([only])) == [only]
  {
    SplitWithoutSeparator(only, ',');
  }

  /** Several entries are shown as the first, a comma, a space and the rest. */
  lemma ShownStep(features: seq<string>)
    requires |features| >= 2
    ensures FeaturesShown(features) == features[0] + [','] + (" " + FeaturesShown(features[1..]))
  {
  }

  /** Reading back a trimmed, comma-free first entry, a comma, a space and the rest. */
  lemma ReadBackJoined(first: string, tail: string)
    requires ',' !in first && Trim(first) == first
    ensures FeaturesFromInput(first + [','] + (" " + tail)) == [first] + FeaturesFromInput(tail)
  {
    SplitAtFirst(first, " " + tail, ',');
    var more := Split(" " + tail, ',');
    assert FeaturesFromInput(first + [','] + (" " + tail)) == Map([first] + more, Trim);
    ReadBackFirst(first, more);
    SplitLeadingSpace(tail);
  }

  /** Reading back a first piece followed by more pieces. */
  lemma ReadBackFirst(first: string, more: seq<string>)
    ensures Map([first] + more, Trim) == [Trim(first)] + Map(more, Trim)
  {
  }

  /** A leading space does not change what the field stores. */
  lemma SplitLeadingSpace(text: string)
    ensures FeaturesFromInput(" " + text) == FeaturesFromInput(text)
  {
    var parts := Split(text, ',');
    assert (" " + text)[1..] == text;
    assert Split(" " + text, ',') == [" " + parts[0]] + parts[1..];
    TrimSkipsSpace(parts[0]);
  }

  /** The pieces of a trimmed string: a trimmed piece is trimmed again to itself, and holds no
      character the untrimmed one lacks. */
  lemma TrimIsPiece(s: string)
    ensures Trim(Trim(s)) == Trim(s)
    ensures forall c :: c in Trim(s) ==> c in s
  {
    TrimIsTrimmed(s);
    var t := Trim(s);
    var i :| OccursAt(s, t, i);
    assert forall k :: 0 <= k < |t| ==> t[k] == s[i + k];
    if |t| > 0 {
      assert TrimStart(t) == t;
      assert TrimEnd(t) == t;
    }
  }

  /** A field cleared and left empty stores one empty feature, not an empty list. */
  lemma ClearedFieldStoresBlank()
    ensures FeaturesFromInput("") == [""]
  {
  }

  /** The form's `features` value: the source checks for text, for a list, and otherwise
      (the field absent) uses no features. */
  datatype FeaturesValue = FeatureText(text: string) | FeatureList(items: seq<string>) | NoFeatures

  /** `featuresArray` of `handleAddBike`. */
  function ParsedFeatures(v: FeaturesValue): (r: seq<string>)
    ensures v.FeatureText? ==> r == FeaturesFromInput(v.text)
    ensures v.FeatureList? ==> r == v.items
    ensures v.NoFeatures? ==> r == []
  {
    match v
    case FeatureText(text) => FeaturesFromInput(text)
    case FeatureList(items) => items
    case NoFeatures => []
  }

  // ---------------------------------------------------------------- the add form

  /** A number field after `parseInt`: a number, or NaN when the text is not one. */
  datatype Number = Num(value: int) | NaN

  /** `0` and `NaN` are the falsy numbers. */
  predicate Falsy(n: Number) { n.NaN? || n.value == 0 }

  /** `n || d`. */
  function OrDefault(n: Number, d: int): (r: int)
    ensures Falsy(n) ==> r == d
    ensures !Falsy(n) ==> r == n.value && r != 0
  {
    if Falsy(n) then d else n.value
  }

  /** The add form (`Partial<Bike>`); the type field is free text, "" standing for unset. */
  datatype BikeForm = BikeForm(
    name: string, brand: string, model: string, year: Number, bikeType: string,
    cc: Number, gearType: GearType, pricePerHour: Number, pricePerDay: Number,
    deposit: Number, description: string, images: seq<string>,
    features: FeaturesValue, shopId: string, isAvailable: Option<bool>)

  /** The form as the page opens and as it is reset after an add. */
  function InitialForm(currentYear: int): BikeForm {
    BikeForm("", "", "", Num(currentYear), "standard", Num(0), Manual, Num(0), Num(0),
             Num(0), "", [], FeatureList([]), "", Some(true))
  }

  /** The check of `handleAddBike`: name, brand and shop must be filled in and the daily
      price must be truthy, so 0 and a number that did not parse are refused. */
  predicate MissingRequired(f: BikeForm) {
    f.name == "" || f.brand == "" || f.shopId == "" || Falsy(f.pricePerDay)
  }

  /** The record handed to `addBike`: the form's fields with their defaults. */
  function AddedBike(f: BikeForm, currentYear: int): (r: BikeInput)
    requires !MissingRequired(f)
    ensures r.name == f.name && r.brand == f.brand && r.shopId == f.shopId
    ensures r.pricePerDay == f.pricePerDay.value && r.pricePerDay != 0
    ensures r.features == ParsedFeatures(f.features)
    ensures r.isAvailable <==> f.isAvailable != Some(false)
    ensures r.bikeType != "" && (f.bikeType != "" ==> r.bikeType == f.bikeType)
  {
    BikeInput(
      f.name, f.brand, f.model, OrDefault(f.year, currentYear),
      if f.bikeType == "" then "standard" else f.bikeType,
      OrDefault(f.cc, 0), f.gearType, OrDefault(f.pricePerHour, 0),
      OrDefault(f.pricePerDay, 0), OrDefault(f.deposit, 0), f.description, f.images,
      ParsedFeatures(f.features), f.shopId,
      if f.isAvailable.Some? then f.isAvailable.value else true)
  }

  /** Filling in only the required fields of the opening form gives the defaults: no model,
      the current year, type "standard", 0 cc, manual gears, no hourly price or deposit, no
      description, images or features, and available. */
  lemma RequiredOnlyDefaults(currentYear: int, name: string, brand: string, shopId: string, price: int)
    requires name != "" && brand != "" && shopId != "" && price != 0
    ensures var f := InitialForm(currentYear).(name := name, brand := brand, shopId := shopId,
                                              pricePerDay := Num(price));
            !MissingRequired(f)
            && AddedBike(f, currentYear)
               == BikeInput(name, brand, "", currentYear, "standard", 0, Manual, 0, price, 0, "",
                            [], [], shopId, true)
  {
  }

  /** A daily price of 0 is refused with everything else filled in; a negative one is not. */
  lemma ZeroPriceRefusedNegativeAccepted(f: BikeForm)
    requires f.name != "" && f.brand != "" && f.shopId != ""
    ensures MissingRequired(f.(pricePerDay := Num(0)))
    ensures !MissingRequired(f.(pricePerDay := Num(-1)))
  {
  }

  // ---------------------------------------------------------------- the page

  /** The page's form and dialog state. */
  class AdminBikesView {
    var newBike: BikeForm
    var selectedBike: Option<Bike>
    var isAddBikeOpen: bool
    var isEditBikeOpen: bool
    var isDeleteBikeOpen: bool

    constructor (currentYear: int)
      ensures newBike == InitialForm(currentYear) && selectedBike == None
      ensures !isAddBikeOpen && !isEditBikeOpen && !isDeleteBikeOpen
    {
      newBike := InitialForm(currentYear);
      selectedBike := None;
      isAddBikeOpen := false;
      isEditBikeOpen := false;
      isDeleteBikeOpen := false;
    }

    /** `handleAddBike`: a form missing a required field changes nothing; otherwise the
        catalogue gains the bike built from the form, the form is reset and the dialog
        closes. */
    method HandleAddBike(catalogue: BikeContext.BikeCatalogue, currentYear: int) returns (added: bool)
      modifies this, catalogue
      ensures added <==> !MissingRequired(old(newBike))
      ensures !added ==>
        && catalogue.allBikes == old(catalogue.allBikes) && catalogue.filteredBikes == old(catalogue.filteredBikes)
        && newBike == old(newBike) && isAddBikeOpen == old(isAddBikeOpen)
      ensures added ==>
        && catalogue.allBikes == old(catalogue.allBikes)
             + [BikeContext.NewBike(AddedBike(old(newBike), currentYear),
                                    BikeContext.BikeId(|old(catalogue.allBikes)| + 1))]
        && catalogue.filteredBikes
             == BikeContext.SearchResult(old(catalogue.allBikes), old(catalogue.filters), catalogue.mockShops)
        && newBike == InitialForm(currentYear) && !isAddBikeOpen
      ensures catalogue.selectedBike == old(catalogue.selectedBike) && catalogue.filters == old(catalogue.filters)
      ensures selectedBike == old(selectedBike)
      ensures isEditBikeOpen == old(isEditBikeOpen) && isDeleteBikeOpen == old(isDeleteBikeOpen)
    {
      if MissingRequired(newBike) {
        return false;
      }
      catalogue.AddBike(AddedBike(newBike, currentYear));
      newBike := InitialForm(currentYear);
      isAddBikeOpen := false;
      added := true;
    }

    /** The edit button: selects the bike and opens the edit dialog. */
    method OpenEditDialog(b: Bike)
      modifies this
      ensures selectedBike == Some(b) && isEditBikeOpen
      ensures newBike == old(newBike) && isAddBikeOpen == old(isAddBikeOpen)
      ensures isDeleteBikeOpen == old(isDeleteBikeOpen)
    {
      selectedBike := Some(b);
      isEditBikeOpen := true;
    }

    /** Typing into the edit dialog's features field. */
    method EditFeatures(text: string)
      requires selectedBike.Some?
      modifies this
      ensures selectedBike == Some(old(selectedBike).value.(features := FeaturesFromInput(text)))
      ensures newBike == old(newBike) && isEditBikeOpen == old(isEditBikeOpen)
      ensures isAddBikeOpen == old(isAddBikeOpen) && isDeleteBikeOpen == old(isDeleteBikeOpen)
    {
      selectedBike := Some(selectedBike.value.(features := FeaturesFromInput(text)));
    }

    /** `handleUpdateBike`: nothing without a selection; otherwise the selected bike, every
        field of it, goes to `updateBike` under its id, the result is reported as returned,
        and the dialog closes on success, leaving the stored bike equal to the edited one. */
    method HandleUpdateBike(catalogue: BikeContext.BikeCatalogue) returns (ok: bool)
      modifies this, catalogue
      ensures old(selectedBike).None? ==> !ok && catalogue.allBikes == old(catalogue.allBikes)
      ensures old(selectedBike).Some? ==>
        var r := BikeContext.BikeUpdated(old(catalogue.allBikes), old(selectedBike).value.id,
                                         FullBikePatch(old(selectedBike).value));
        ok == r.Some? && catalogue.allBikes == (if ok then r.value else old(catalogue.allBikes))
      ensures ok ==> old(selectedBike).value in catalogue.allBikes
      ensures !ok ==> catalogue.filteredBikes == old(catalogue.filteredBikes)
                      && catalogue.selectedBike == old(catalogue.selectedBike)
      ensures ok ==>
        && catalogue.filteredBikes
             == BikeContext.SearchResult(old(catalogue.allBikes), old(catalogue.filters), catalogue.mockShops)
        && catalogue.selectedBike ==
             (if old(catalogue.selectedBike).Some? && old(catalogue.selectedBike).value.id == old(selectedBike).value.id
              then old(selectedBike) else old(catalogue.selectedBike))
      ensures catalogue.filters == old(catalogue.filters)
      ensures isEditBikeOpen == (old(isEditBikeOpen) && !ok)
      ensures selectedBike == old(selectedBike) && newBike == old(newBike)
      ensures isAddBikeOpen == old(isAddBikeOpen) && isDeleteBikeOpen == old(isDeleteBikeOpen)
    {
      if selectedBike.None? {
        return false;
      }
      var bike := selectedBike.value;
      ok := catalogue.UpdateBike(bike.id, FullBikePatch(bike));
      if ok {
        var k := FirstIndex(old(catalogue.allBikes), BikeContext.BikeWithId(bike.id));
        MergeBikeLaws(old(catalogue.allBikes)[k], bike);
        assert catalogue.allBikes[k] == bike;
        isEditBikeOpen := false;
      }
    }

    /** The delete button: selects the bike and opens the confirmation. */
    method OpenDeleteDialog(b: Bike)
      modifies this
      ensures selectedBike == Some(b) && isDeleteBikeOpen
      ensures newBike == old(newBike) && isAddBikeOpen == old(isAddBikeOpen)
      ensures isEditBikeOpen == old(isEditBikeOpen)
    {
      selectedBike := Some(b);
      isDeleteBikeOpen := true;
    }

    /** `handleDeleteBike`: nothing without a selection; otherwise `deleteBike` on the selected
        id, the result reported as returned, and the confirmation closes on success. */
    method HandleDeleteBike(catalogue: BikeContext.BikeCatalogue) returns (ok: bool)
      modifies this, catalogue
      ensures old(selectedBike).None? ==> !ok && catalogue.allBikes == old(catalogue.allBikes)
      ensures old(selectedBike).Some? ==>
        var r := BikeContext.BikeDeleted(old(catalogue.allBikes), old(selectedBike).value.id);
        ok == r.Some? && catalogue.allBikes == (if ok then r.value else old(catalogue.allBikes))
      ensures !ok ==> catalogue.filteredBikes == old(catalogue.filteredBikes)
                      && catalogue.selectedBike == old(catalogue.selectedBike)
      ensures ok ==>
        && catalogue.filteredBikes
             == BikeContext.SearchResult(old(catalogue.allBikes), old(catalogue.filters), catalogue.mockShops)
        && catalogue.selectedBike ==
             (if old(catalogue.selectedBike).Some? && old(catalogue.selectedBike).value.id == old(selectedBike).value.id
              then None else old(catalogue.selectedBike))
      ensures catalogue.filters == old(catalogue.filters)
      ensures isDeleteBikeOpen == (old(isDeleteBikeOpen) && !ok)
      ensures selectedBike == old(selectedBike) && newBike == old(newBike)
      ensures isAddBikeOpen == old(isAddBikeOpen) && isEditBikeOpen == old(isEditBikeOpen)
    {
      if selectedBike.None? {
        return false;
      }
      ok := catalogue.DeleteBike(selectedBike.value.id);
      if ok {
        isDeleteBikeOpen := false;
      }
    }
  }
}
