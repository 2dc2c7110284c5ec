/**
  The "centralized" cart storage utility over the same 'cart' localStorage key
  as the simple utility. It differs from it in three ways: a saved
  `totalItems` that is not a number falls back to the number of lines, a line
  is also found by its product id, and an update drops every line whose
  quantity is not positive.
 */
module CartStorage {
  import opened Carts

  /** The record `saveCart` writes, or None when building it throws. `items`
      None stands for an undefined `items` on the argument. */
  function ToSave(data: RawCart): (r: Option<RawCart>)
    ensures r.None? <==> data.items.None? && data.totalItems.None?
    ensures r.Some? ==> r.value.items == Some(ItemsOr(data.items)) && r.value.error.None?
    ensures r.Some? && data.totalItems.None? ==> r.value.totalItems == Some(|data.items.value|)
    ensures r.Some? ==> r.value.total == Some(NumberOr(data.total, 0))
  {
    if data.totalItems.None? && data.items.None? then None
    else
      var totalItems := if data.totalItems.Some? then data.totalItems.value else |data.items.value|;
      Some(RawCart(Some(ItemsOr(data.items)), Some(totalItems), Some(NumberOr(data.total, 0)), None))
  }

  /** `saveCart(cartData)`: false when the record cannot be built or the write throws. */
  method SaveCart(storage: Slot<RawCart>, data: RawCart) returns (ok: bool)
    modifies storage
    ensures ok <==> ToSave(data).Some? && storage.writable
    ensures storage.stored == if ok then ToSave(data) else old(storage.stored)
  {
    var record := ToSave(data);
    if record.None? {
      return false;
    }
    ok := storage.SetItem(record.value);
  }

  /** Saving a cart with numeric totals and reading it back gives that cart. */
  lemma SaveThenRead(c: Cart)
    ensures ToSave(Persisted(c)) == Some(Persisted(c))
    ensures ReadCart(ToSave(Persisted(c))) == c
  {
    ReadPersisted(c);
  }

  /** A record whose `totalItems` is missing is saved with the number of lines,
      which is not the number of units once a line has quantity above one. */
  lemma MissingTotalCountsLines(items: seq<Line>)
    ensures ReadCart(ToSave(RawCart(Some(items), None, None, None))).totalItems == |items|
  {
  }

  /** The line `addToCart` pushes: the product's own fields, with one stamp used
      for both the unique id and the key. */
  function StampedLine(p: Product, quantity: Option<int>, stamp: string): (l: Line)
    requires p.id.Some?
    ensures l.id == p.id.value && l.price == p.price
    ensures l.quantity != 0 && (quantity.Some? && quantity.value != 0 ==> l.quantity == quantity.value)
    ensures l.uniqueId == l.key == p.id.value + "_" + stamp
  {
    var q := if quantity.Some? && quantity.value != 0 then quantity.value else 1;
    Line(p.id.value, p.id.value + "_" + stamp, p.id.value + "_" + stamp, p.name, p.price, q, None, None)
  }

  /** `addToCart(product, quantity)`: append one stamped line, recompute, save. */
  method AddToCart(storage: Slot<RawCart>, product: Option<Product>, quantity: Option<int>, stamp: string)
    returns (ok: bool)
    modifies storage
    ensures ok <==> product.Some? && product.value.id.Some? && product.value.id.value != "" && storage.writable
    ensures !ok ==> storage.stored == old(storage.stored)
    ensures ok ==>
      ReadCart(storage.stored) == Totalled(ReadCart(old(storage.stored)).items + [StampedLine(product.value, quantity, stamp)])
  {
    if product.None? || product.value.id.None? || product.value.id.value == "" {
      return false;
    }
    var line := StampedLine(product.value, quantity, stamp);
    var cart := ReadCart(storage.stored);
    var items := cart.items + [line];
    ok := SaveCart(storage, Persisted(Totalled(items)));
    SaveThenRead(Totalled(items));
  }

  /** The update and removal test: unique id, key or product id is `itemId`. */
  function Hit(itemId: string): (hit: Line -> bool)
    ensures forall l: Line :: hit(l) ==> itemId != ""
    ensures forall l: Line :: l.id == itemId && itemId != "" ==> hit(l)
  {
    (l: Line) => Names(l.uniqueId, itemId) || Names(l.key, itemId) || Names(l.id, itemId)
  }

  function IsPositive(l: Line): bool {
    l.quantity > 0
  }

  /** The lines of `updateCartItem`: every hit line gets `max(1, newQuantity)`,
      then lines whose quantity is not positive are dropped. */
  function UpdatedItems(items: seq<Line>, itemId: string, newQuantity: int): (r: seq<Line>)
    ensures |r| <= |items|
    ensures forall l :: l in r ==> l.quantity > 0
  {
    FilterMembers(SetQuantityWhere(items, Hit(itemId), AtLeastOne(newQuantity)), IsPositive);
    Filter(SetQuantityWhere(items, Hit(itemId), AtLeastOne(newQuantity)), IsPositive)
  }

  /** `updateCartItem(itemId, newQuantity)`: false for an empty id and when no line is hit. */
  method UpdateCartItem(storage: Slot<RawCart>, itemId: string, newQuantity: int) returns (ok: bool)
    modifies storage
    ensures ok <==> itemId != "" && AnyHit(ReadCart(old(storage.stored)).items, Hit(itemId)) && storage.writable
    ensures !ok ==> storage.stored == old(storage.stored)
    ensures ok ==> ReadCart(storage.stored) == Totalled(UpdatedItems(ReadCart(old(storage.stored)).items, itemId, newQuantity))
  {
    if itemId == "" {
      return false;
    }
    var cart := ReadCart(storage.stored);
    var updated := AnyHit(cart.items, Hit(itemId));
    var items := UpdatedItems(cart.items, itemId, newQuantity);
    if !updated {
      return false;
    }
    ok := SaveCart(storage, Persisted(Totalled(items)));
    SaveThenRead(Totalled(items));
  }

  /** The lines of `removeCartItem`: those that no field names. */
  function RemainingItems(items: seq<Line>, itemId: string): (r: seq<Line>)
    ensures |r| <= |items|
    ensures forall l :: l in r ==> l in items && !Hit(itemId)(l)
  {
    FilterMembers(items, Negate(Hit(itemId)));
    Filter(items, Negate(Hit(itemId)))
  }

  /** `removeCartItem(itemId)`: false for an empty id and when no line was removed. */
  method RemoveCartItem(storage: Slot<RawCart>, itemId: string) returns (ok: bool)
    modifies storage
    ensures ok <==> itemId != "" && AnyHit(ReadCart(old(storage.stored)).items, Hit(itemId)) && storage.writable
    ensures !ok ==> storage.stored == old(storage.stored)
    ensures ok ==> ReadCart(storage.stored) == Totalled(RemainingItems(ReadCart(old(storage.stored)).items, itemId))
  {
    if itemId == "" {
      return false;
    }
    var cart := ReadCart(storage.stored);
    var initialLength := |cart.items|;
    var items := RemainingItems(cart.items, itemId);
    RemoveChangesLength(cart.items, itemId);
    if |items| == initialLength {
      return false;
    }
    ok := SaveCart(storage, Persisted(Totalled(items)));
    SaveThenRead(Totalled(items));
  }

  /** `clearCart()`: save the empty cart. */
  method ClearCart(storage: Slot<RawCart>) returns (ok: bool)
    modifies storage
    ensures ok == storage.writable
    ensures ok ==> ReadCart(storage.stored) == EmptyCart
    ensures !ok ==> storage.stored == old(storage.stored)
  {
    ok := SaveCart(storage, Persisted(EmptyCart));
    SaveThenRead(EmptyCart);
  }

  // ---------------------------------------------------------------------------
  // Properties
  // ---------------------------------------------------------------------------

  /** Removal shortens the list exactly when some line is hit. */
  lemma RemoveChangesLength(items: seq<Line>, itemId: string)
    ensures |RemainingItems(items, itemId)| < |items| <==> AnyHit(items, Hit(itemId))
  {
    if AnyHit(items, Hit(itemId)) {
      var i :| 0 <= i < |items| && Hit(itemId)(items[i]);
      assert !Negate(Hit(itemId))(items[i]);
    }
  }

  /** After an update every line is positive, every hit line is still there
      with quantity `max(1, newQuantity)`, and every positive line that was not
      hit is still there unchanged. Only non-positive lines that were not hit go. */
  lemma UpdateKeepsHitLines(items: seq<Line>, itemId: string, newQuantity: int)
    ensures forall l :: l in UpdatedItems(items, itemId, newQuantity) ==> l.quantity > 0
    ensures forall j :: 0 <= j < |items| && Hit(itemId)(items[j]) ==>
      items[j].(quantity := AtLeastOne(newQuantity)) in UpdatedItems(items, itemId, newQuantity)
    ensures forall j :: 0 <= j < |items| && !Hit(itemId)(items[j]) && items[j].quantity > 0 ==>
      items[j] in UpdatedItems(items, itemId, newQuantity)
  {
    var mapped := SetQuantityWhere(items, Hit(itemId), AtLeastOne(newQuantity));
    FilterMembers(mapped, IsPositive);
    forall j | 0 <= j < |items|
      ensures mapped[j] == if Hit(itemId)(items[j]) then items[j].(quantity := AtLeastOne(newQuantity)) else items[j]
    {
    }
  }

  /** When every line is positive, an update keeps every line in place. */
  lemma UpdateKeepsPositiveCarts(items: seq<Line>, itemId: string, newQuantity: int)
    requires forall j :: 0 <= j < |items| ==> items[j].quantity > 0
    ensures UpdatedItems(items, itemId, newQuantity) == SetQuantityWhere(items, Hit(itemId), AtLeastOne(newQuantity))
    ensures |UpdatedItems(items, itemId, newQuantity)| == |items|
  {
    var mapped := SetQuantityWhere(items, Hit(itemId), AtLeastOne(newQuantity));
    assert forall j :: 0 <= j < |mapped| ==> IsPositive(mapped[j]);
  }

  /** Removing by a product id removes every line of that product, whatever its
      unique id or key, and keeps exactly the lines no field names. */
  lemma RemoveByProductId(items: seq<Line>, productId: string)
    requires productId != ""
    ensures forall l :: l in RemainingItems(items, productId) ==> l.id != productId
    ensures forall l :: l in items && !Hit(productId)(l) ==> l in RemainingItems(items, productId)
  {
    FilterMembers(items, Negate(Hit(productId)));
    forall l | l in RemainingItems(items, productId) ensures l.id != productId {
      assert Negate(Hit(productId))(l);
    }
    forall l | l in items && !Hit(productId)(l) ensures l in RemainingItems(items, productId) {
      var i :| 0 <= i < |items| && items[i] == l;
      assert Negate(Hit(productId))(items[i]);
    }
  }

  /** Add then remove by the new line's unique id, when no earlier line is hit
      by it, gives back the earlier lines. */
  lemma AddThenRemoveRestores(items: seq<Line>, p: Product, quantity: Option<int>, stamp: string)
    requires p.id.Some?
    requires forall j :: 0 <= j < |items| ==> !Hit(p.id.value + "_" + stamp)(items[j])
    ensures RemainingItems(items + [StampedLine(p, quantity, stamp)], p.id.value + "_" + stamp) == items
  {
    var l := StampedLine(p, quantity, stamp);
    var keep := Negate(Hit(l.uniqueId));
    FilterAppend(items, [l], keep);
    assert |l.uniqueId| > 0;
    assert !keep(l);
    assert Filter([l], keep) == [];
    assert Filter(items, keep) == items;
    assert items + [] == items;
  }
}
