/**
 * The administrators' shops page: the search box over the shop store, the add
 * form with its validation, defaults and reset, and the edit and delete
 * dialogs that forward to the store.
 */
module AdminShopsPage {
  import opened Wrappers
  import opened Types
  import opened Seqs
  import opened Text
  import ShopContext

  // ---------------------------------------------------------------- search

  /** The search: name, area and address, all ignoring case. */
  predicate MatchesSearch(s: Shop, term: string) {
    || ContainsIgnoreCase(s.name, term)
    || ContainsIgnoreCase(s.area, term)
    || ContainsIgnoreCase(s.address, term)
  }

  /** `filteredShops`: the shops matching the search, in store order. */
  function FilteredShops(all: seq<Shop>, term: string): (r: seq<Shop>)
    ensures forall i :: 0 <= i < |r| ==> r[i] in all && MatchesSearch(r[i], term)
    ensures forall i :: 0 <= i < |all| && MatchesSearch(all[i], term) ==> all[i] in r
    ensures IsSubsequence(r, all)
  {
    var p := (s: Shop) => MatchesSearch(s, term);
    FilterIsSubsequence(all, p);
    Filter(all, p)
  }

  /** An empty search box lists every shop, in order. */
  lemma EmptySearchListsAll(all: seq<Shop>)
    ensures FilteredShops(all, "") == all
  {
    forall i | 0 <= i < |all| ensures MatchesSearch(all[i], "") {
      ContainsEmpty(Lower(all[i].name));
    }
    FilterKeepsAll(all, (s: Shop) => MatchesSearch(s, ""));
  }

  /** The search ignores case: a term and its lower-case form find the same shops. */
  lemma SearchIgnoresCase(all: seq<Shop>, term: string)
    ensures FilteredShops(all, Lower(term)) == FilteredShops(all, term)
  {
    LowerIdempotent(term);
    FilterSamePredicate(all, (s: Shop) => MatchesSearch(s, Lower(term)), (s: Shop) => MatchesSearch(s, term));
  }

  // ---------------------------------------------------------------- the add form

  /** The add form (`Partial<Shop>`; the map coordinates are not modelled). */
  datatype ShopForm = ShopForm(
    name: string, address: string, city: string, area: string, pincode: string,
    phone: string, email: string, description: string, openingTime: string,
    closingTime: string, images: seq<string>, isActive: Option<bool>)

  /** The form as the page opens and as it is reset after an add. */
  const InitialForm := ShopForm("", "", "Bangalore", "", "", "", "", "", "09:00", "18:00", [], Some(true))

  /** The check of `handleAddShop`: name, address, area and phone must be filled in. */
  predicate MissingRequired(f: ShopForm) {
    f.name == "" || f.address == "" || f.area == "" || f.phone == ""
  }

  /** `s || d` on a text field. */
  function OrDefault(s: string, d: string): (r: string)
    ensures s != "" ==> r == s
    ensures s == "" ==> r == d
  {
    if s == "" then d else s
  }

  /** The record handed to `addShop`: the form's fields with their defaults. */
  function AddedShop(f: ShopForm): (r: ShopInput)
    requires !MissingRequired(f)
    ensures r.name == f.name && r.address == f.address && r.area == f.area && r.phone == f.phone
    ensures r.name != "" && r.address != "" && r.area != "" && r.phone != ""
    ensures r.city != "" && r.openingTime != "" && r.closingTime != ""
    ensures r.pincode == f.pincode && r.email == f.email && r.description == f.description
    ensures r.images == f.images
    ensures r.isActive <==> f.isActive != Some(false)
  {
    ShopInput(
      f.name, f.address, OrDefault(f.city, "Bangalore"), f.area, f.pincode, f.phone, f.email,
      f.description, OrDefault(f.openingTime, "09:00"), OrDefault(f.closingTime, "18:00"),
      f.images, if f.isActive.Some? then f.isActive.value else true)
  }

  /** Filling in only the required fields of the opening form gives the defaults: city
      Bangalore, open from 09:00 to 18:00, active, nothing else. */
  lemma RequiredOnlyDefaults(name: string, address: string, area: string, phone: string)
    requires name != "" && address != "" && area != "" && phone != ""
    ensures var f := InitialForm.(name := name, address := address, area := area, phone := phone);
            !MissingRequired(f)
            && AddedShop(f) == ShopInput(name, address, "Bangalore", area, "", phone, "", "",
                                         "09:00", "18:00", [], true)
  {
  }

  /** A cleared city or opening hour falls back to its default rather than being stored empty. */
  lemma ClearedFieldsFallBack(f: ShopForm)
    requires !MissingRequired(f) && f.city == "" && f.openingTime == "" && f.closingTime == ""
    ensures AddedShop(f).city == "Bangalore"
    ensures AddedShop(f).openingTime == "09:00" && AddedShop(f).closingTime == "18:00"
  {
  }

  // ---------------------------------------------------------------- the page

  /** The page's form and dialog state. */
  class AdminShopsView {
    var newShop: ShopForm
    var selectedShop: Option<Shop>
    var isAddShopOpen: bool
    var isEditShopOpen: bool
    var isDeleteShopOpen: bool

    constructor ()
      ensures newShop == InitialForm && selectedShop == None
      ensures !isAddShopOpen && !isEditShopOpen && !isDeleteShopOpen
    {
      newShop := InitialForm;
      selectedShop := None;
      isAddShopOpen := false;
      isEditShopOpen := false;
      isDeleteShopOpen := false;
    }

    /** `handleAddShop`: a form missing a required field changes nothing; otherwise the store
        gains the shop built from the form, the form returns to its opening values and the
        dialog closes. */
    method HandleAddShop(store: ShopContext.ShopStore) returns (added: bool)
      modifies this, store
      ensures added <==> !MissingRequired(old(newShop))
      ensures !added ==> store.allShops == old(store.allShops) && newShop == old(newShop)
                         && isAddShopOpen == old(isAddShopOpen)
      ensures added ==>
        && store.allShops == old(store.allShops)
             + [ShopContext.NewShop(AddedShop(old(newShop)), ShopContext.ShopId(|old(store.allShops)| + 1))]
        && newShop == InitialForm && !isAddShopOpen
      ensures selectedShop == old(selectedShop) && store.selectedShop == old(store.selectedShop)
      ensures isEditShopOpen == old(isEditShopOpen) && isDeleteShopOpen == old(isDeleteShopOpen)
    {
      if MissingRequired(newShop) {
        return false;
      }
      store.AddShop(AddedShop(newShop));
      newShop := InitialForm;
      isAddShopOpen := false;
      added := true;
    }

    /** The edit button: selects the shop and opens the edit dialog. */
    method OpenEditDialog(s: Shop)
      modifies this
      ensures selectedShop == Some(s) && isEditShopOpen
      ensures newShop == old(newShop) && isAddShopOpen == old(isAddShopOpen)
      ensures isDeleteShopOpen == old(isDeleteShopOpen)
    {
      selectedShop := Some(s);
      isEditShopOpen := true;
    }

    /** An input of the edit dialog: any field but the id. */
    method EditSelected(edited: Shop)
      requires selectedShop.Some? && edited.id == selectedShop.value.id
      modifies this
      ensures selectedShop == Some(edited)
      ensures newShop == old(newShop) && isEditShopOpen == old(isEditShopOpen)
      ensures isAddShopOpen == old(isAddShopOpen) && isDeleteShopOpen == old(isDeleteShopOpen)
    {
      selectedShop := Some(edited);
    }

    /** `handleUpdateShop`: nothing without a selection; otherwise the whole selected shop goes
        to `updateShop` under its id, the result is reported as returned, and the dialog
        closes on success, leaving the stored shop equal to the edited one. */
    method HandleUpdateShop(store: ShopContext.ShopStore) returns (ok: bool)
      modifies this, store
      ensures old(selectedShop).None? ==> !ok && store.allShops == old(store.allShops)
      ensures old(selectedShop).Some? ==>
        var r := ShopContext.ShopUpdated(old(store.allShops), old(selectedShop).value.id,
                                         FullShopPatch(old(selectedShop).value));
        ok == r.Some? && store.allShops == (if ok then r.value else old(store.allShops))
      ensures ok ==> old(selectedShop).value in store.allShops
      ensures store.selectedShop ==
        if ok && old(store.selectedShop).Some? && old(store.selectedShop).value.id == old(selectedShop).value.id
        then old(selectedShop) else old(store.selectedShop)
      ensures isEditShopOpen == (old(isEditShopOpen) && !ok)
      ensures selectedShop == old(selectedShop) && newShop == old(newShop)
      ensures isAddShopOpen == old(isAddShopOpen) && isDeleteShopOpen == old(isDeleteShopOpen)
    {
      if selectedShop.None? {
        return false;
      }
      var shop := selectedShop.value;
      ok := store.UpdateShop(shop.id, FullShopPatch(shop));
      if ok {
        var k := FirstIndex(old(store.allShops), ShopContext.ShopWithId(shop.id));
        assert store.allShops[k] == MergeShop(old(store.allShops)[k], FullShopPatch(shop)) == shop;
        isEditShopOpen := false;
      }
    }

    /** The delete button: selects the shop and opens the confirmation. */
    method OpenDeleteDialog(s: Shop)
      modifies this
      ensures selectedShop == Some(s) && isDeleteShopOpen
      ensures newShop == old(newShop) && isAddShopOpen == old(isAddShopOpen)
      ensures isEditShopOpen == old(isEditShopOpen)
    {
      selectedShop := Some(s);
      isDeleteShopOpen := true;
    }

    /** `handleDeleteShop`: nothing without a selection; otherwise `deleteShop` on the selected
        id, the result reported as returned, and the confirmation closes on success. */
    method HandleDeleteShop(store: ShopContext.ShopStore) returns (ok: bool)
      modifies this, store
      ensures old(selectedShop).None? ==> !ok && store.allShops == old(store.allShops)
      ensures old(selectedShop).Some? ==>
        var r := ShopContext.ShopDeleted(old(store.allShops), old(selectedShop).value.id);
        ok == r.Some? && store.allShops == (if ok then r.value else old(store.allShops))
      ensures store.selectedShop ==
        if ok && old(store.selectedShop).Some? && old(store.selectedShop).value.id == old(selectedShop).value.id
        then None else old(store.selectedShop)
      ensures isDeleteShopOpen == (old(isDeleteShopOpen) && !ok)
      ensures selectedShop == old(selectedShop) && newShop == old(newShop)
      ensures isAddShopOpen == old(isAddShopOpen) && isEditShopOpen == old(isEditShopOpen)
    {
      if selectedShop.None? {
        return false;
      }
      ok := store.DeleteShop(selectedShop.value.id);
      if ok {
        isDeleteShopOpen := false;
      }
    }
  }
}
