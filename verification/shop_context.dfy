/**
 * The shop store: all shops and the selected shop, with add, update and
 * delete.
 */
module ShopContext {
  import opened Wrappers
  import opened Types
  import opened Seqs
  import Text
  import Ids

  /** `shop${n}`. */
  function ShopId(n: nat): string { Text.Id("shop", n) }

  function ShopWithId(id: string): Shop -> bool { (s: Shop) => s.id == id }

  function ShopIds(shops: seq<Shop>): seq<string> {
    Map(shops, (s: Shop) => s.id)
  }

  /** `allShops.find(s => s.id === id) || null`: the first shop with the id, or none. */
  function ShopById(shops: seq<Shop>, id: string): (r: Option<Shop>)
    ensures r.None? <==> forall i :: 0 <= i < |shops| ==> shops[i].id != id
    ensures r.Some? ==> r.value.id == id && r.value == shops[FirstIndex(shops, ShopWithId(id))]
  {
    Find(shops, ShopWithId(id))
  }

  /** The shop `addShop` appends: the caller's fields, a new id, and no rating or reviews yet. */
  function NewShop(s: ShopInput, id: string): (r: Shop)
    ensures r.id == id && r.rating == 0 && r.reviewCount == 0
    ensures r.name == s.name && r.address == s.address && r.city == s.city && r.area == s.area
    ensures r.pincode == s.pincode && r.phone == s.phone && r.email == s.email
    ensures r.description == s.description && r.openingTime == s.openingTime
    ensures r.closingTime == s.closingTime && r.images == s.images && r.isActive == s.isActive
  {
    Shop(id, s.name, s.address, s.city, s.area, s.pincode, s.phone, s.email,
         s.description, s.openingTime, s.closingTime, s.images, 0, 0, s.isActive)
  }

  /** The outcome of `updateShop`: nothing for an unknown id; otherwise the patch merged into
      the first shop with the id, every other shop as it was. */
  function ShopUpdated(shops: seq<Shop>, id: string, patch: ShopPatch): (r: Option<seq<Shop>>)
    ensures r.None? <==> forall i :: 0 <= i < |shops| ==> shops[i].id != id
    ensures r.Some? ==>
      var k := FirstIndex(shops, ShopWithId(id));
      && |r.value| == |shops| && shops[k].id == id
      && r.value[k] == MergeShop(shops[k], patch)
      && forall j :: 0 <= j < |shops| && j != k ==> r.value[j] == shops[j]
  {
    UpdateFirst(shops, ShopWithId(id), (s: Shop) => MergeShop(s, patch))
  }

  /** The outcome of `deleteShop`: nothing for an unknown id; otherwise every shop with the id
      is gone and every other shop stays, in order. */
  function ShopDeleted(shops: seq<Shop>, id: string): (r: Option<seq<Shop>>)
    ensures r.None? <==> forall i :: 0 <= i < |shops| ==> shops[i].id != id
    ensures r.Some? ==>
      && |r.value| < |shops|
      && (forall i :: 0 <= i < |r.value| ==> r.value[i].id != id)
      && (forall i :: 0 <= i < |shops| && shops[i].id != id ==> shops[i] in r.value)
      && IsSubsequence(r.value, shops)
  {
    RemoveAll(shops, ShopWithId(id))
  }

  /** Where two shops share an id, an update changes only the first of them while a delete
      removes both. */
  lemma UpdateHitsFirstDeleteHitsAll(shops: seq<Shop>, i: nat, j: nat, patch: ShopPatch)
    requires i < j < |shops| && shops[i].id == shops[j].id
    ensures ShopUpdated(shops, shops[i].id, patch).Some?
    ensures ShopUpdated(shops, shops[i].id, patch).value[j] == shops[j]
    ensures ShopDeleted(shops, shops[i].id).Some?
    ensures shops[i] !in ShopDeleted(shops, shops[i].id).value
    ensures shops[j] !in ShopDeleted(shops, shops[i].id).value
  {
    var k := FirstIndex(shops, ShopWithId(shops[i].id));
    assert k <= i;
  }

  /** Ids are the list length plus one, so they are not unique once a shop other than the
      last has been deleted: the next shop added gets the id of the current last shop. */
  lemma DeleteThenAddRepeatsId(shops: seq<Shop>, k: nat, input: ShopInput)
    requires Ids.Canonical(ShopIds(shops), "shop")
    requires k < |shops| - 1
    ensures ShopDeleted(shops, shops[k].id).Some?
    ensures var rest := ShopDeleted(shops, shops[k].id).value;
            var added := NewShop(input, ShopId(|rest| + 1));
            exists j :: 0 <= j < |rest| && rest[j].id == added.id
  {
    var ids := ShopIds(shops);
    Ids.CanonicalUnique(ids, "shop");
    forall j | 0 <= j < |shops| && j != k ensures Not(ShopWithId(shops[k].id))(shops[j]) {
      assert ids[j] == shops[j].id && ids[k] == shops[k].id;
    }
    FilterRemovesOne(shops, Not(ShopWithId(shops[k].id)), k);
    var rest := ShopDeleted(shops, shops[k].id).value;
    assert rest[|rest| - 1] == shops[|shops| - 1];
    assert ids[|shops| - 1] == shops[|shops| - 1].id;
  }

  class ShopStore {
    var allShops: seq<Shop>
    var selectedShop: Option<Shop>

    constructor (shops: seq<Shop>)
      ensures allShops == shops && selectedShop == None
    {
      allShops := shops;
      selectedShop := None;
    }

    /** `selectShop`: the first shop with the id, or none. */
    method SelectShop(shopId: string)
      modifies this
      ensures selectedShop == ShopById(allShops, shopId) && allShops == old(allShops)
    {
      selectedShop := ShopById(allShops, shopId);
    }

    method ClearSelectedShop()
      modifies this
      ensures selectedShop == None && allShops == old(allShops)
    {
      selectedShop := None;
    }

    /** `addShop`: appends one shop numbered after the current length. */
    method AddShop(shop: ShopInput)
      modifies this
      ensures allShops == old(allShops) + [NewShop(shop, ShopId(|old(allShops)| + 1))]
      ensures selectedShop == old(selectedShop)
    {
      var newShop := NewShop(shop, ShopId(|allShops| + 1));
      allShops := allShops + [newShop];
    }

    /** `updateShop`: false and no change for an unknown id; otherwise the merge into the first
        match, with the selected shop following it when it has that id. */
    method UpdateShop(shopId: string, updates: ShopPatch) returns (ok: bool)
      modifies this
      ensures var r := ShopUpdated(old(allShops), shopId, updates);
              ok == r.Some? && allShops == (if ok then r.value else old(allShops))
      ensures selectedShop ==
        if ok && old(selectedShop).Some? && old(selectedShop).value.id == shopId
        then Some(allShops[FirstIndex(old(allShops), ShopWithId(shopId))])
        else old(selectedShop)
    {
      var shopIndex := FirstIndex(allShops, ShopWithId(shopId));
      if shopIndex == -1 {
        return false;
      }
      var updatedShops := allShops;
      updatedShops := updatedShops[shopIndex := MergeShop(updatedShops[shopIndex], updates)];
      allShops := updatedShops;
      if selectedShop.Some? && selectedShop.value.id == shopId {
        selectedShop := Some(updatedShops[shopIndex]);
      }
      ok := true;
    }

    /** `deleteShop`: false and no change for an unknown id; otherwise every shop with the id
        removed and the selection cleared when it had that id. */
    method DeleteShop(shopId: string) returns (ok: bool)
      modifies this
      ensures var r := ShopDeleted(old(allShops), shopId);
              ok == r.Some? && allShops == (if ok then r.value else old(allShops))
      ensures selectedShop ==
        if ok && old(selectedShop).Some? && old(selectedShop).value.id == shopId then None
        else old(selectedShop)
    {
      var shopIndex := FirstIndex(allShops, ShopWithId(shopId));
      if shopIndex == -1 {
        return false;
      }
      allShops := Filter(allShops, Not(ShopWithId(shopId)));
      if selectedShop.Some? && selectedShop.value.id == shopId {
        selectedShop := None;
      }
      ok := true;
    }
  }
}
