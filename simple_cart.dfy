/**
  The "ultra simple" cart utility over the 'cart' localStorage key. Every
  operation loads the cart, changes its item list, recomputes both totals from
  scratch and saves. It never merges: each add appends a new line whose unique
  id and key carry a clock stamp.
 */
module SimpleCart {
  import opened Carts

  /** `saveCart(cart)`: write the three fields; false when the write throws. */
  method SaveCart(storage: Slot<RawCart>, cart: Cart) returns (ok: bool)
    modifies storage
    ensures ok == storage.writable
    ensures storage.stored == if ok then Some(Persisted(cart)) else old(storage.stored)
    ensures ok ==> ReadCart(storage.stored) == cart
  {
    ok := storage.SetItem(Persisted(cart));
    ReadPersisted(cart);
  }

  /** `recalculateCart(cart)`: both totals recomputed by one pass over the lines. */
  method RecalculateCart(cart: Cart) returns (r: Cart)
    ensures r.items == cart.items
    ensures r.totalItems == TotalQuantity(cart.items) && r.total == TotalPrice(cart.items)
  {
    var items := cart.items;
    var totalItems := 0;
    var total := 0;
    var i := 0;
    while i < |items|
      invariant 0 <= i <= |items|
      invariant totalItems == TotalQuantity(items[..i])
      invariant total == TotalPrice(items[..i])
    {
      assert items[..i + 1][..i] == items[..i];
      totalItems := totalItems + items[i].quantity;
      total := total + items[i].price * items[i].quantity;
      i := i + 1;
    }
    assert items[..i] == items;
    r := Cart(items, totalItems, total);
  }

  /** `!product || !product.id` */
  predicate ValidProduct(product: Option<Product>) {
    product.Some? && product.value.id.Some? && product.value.id.value != ""
  }

  /** `name || title || 'Product'` */
  function DisplayName(p: Product): (name: string)
    ensures name != ""
    ensures p.name != "" ==> name == p.name
    ensures p.name == "" && p.title != "" ==> name == p.title
  {
    if p.name != "" then p.name else if p.title != "" then p.title else "Product"
  }

  /** `parseInt(quantity, 10) || 1`: None is NaN; NaN and 0 both become 1. */
  function ParsedQuantity(quantity: Option<int>): (q: int)
    ensures q != 0
    ensures quantity.Some? && quantity.value != 0 ==> q == quantity.value
  {
    if quantity.Some? && quantity.value != 0 then quantity.value else 1
  }

  /** The normalised line `addToCart` pushes; the two stamps are the two
      `Date.now()` readings for the unique id and the key. */
  function StampedLine(p: Product, quantity: Option<int>, idStamp: string, keyStamp: string): (l: Line)
    requires p.id.Some?
    ensures l.id == p.id.value && l.quantity == ParsedQuantity(quantity) && l.price == p.price
    ensures l.uniqueId == p.id.value + "_" + idStamp && l.key == p.id.value + "_" + keyStamp
  {
    Line(p.id.value, p.id.value + "_" + idStamp, p.id.value + "_" + keyStamp,
         DisplayName(p), p.price, ParsedQuantity(quantity), None, None)
  }

  /** `addToCart(product, quantity)`: append one stamped line and save. */
  method AddToCart(storage: Slot<RawCart>, product: Option<Product>, quantity: Option<int>,
                   idStamp: string, keyStamp: string) returns (ok: bool)
    modifies storage
    ensures ok <==> ValidProduct(product) && storage.writable
    ensures !ok ==> storage.stored == old(storage.stored)
    ensures ok ==>
      ReadCart(storage.stored) == Totalled(ReadCart(old(storage.stored)).items + [StampedLine(product.value, quantity, idStamp, keyStamp)])
  {
    if !ValidProduct(product) {
      return false;
    }
    var cart := ReadCart(storage.stored);
    var line := StampedLine(product.value, quantity, idStamp, keyStamp);
    cart := cart.(items := cart.items + [line]);
    cart := RecalculateCart(cart);
    ok := SaveCart(storage, cart);
  }

  /** The lines of `updateQuantity`: every line named by unique id or key gets
      quantity `max(1, quantity)`. */
  function UpdatedItems(items: seq<Line>, itemId: string, quantity: int): (r: seq<Line>)
    ensures |r| == |items|
    ensures forall j :: 0 <= j < |items| && NamedBy(itemId)(items[j]) ==> r[j].quantity >= 1
    ensures forall j :: 0 <= j < |items| && !NamedBy(itemId)(items[j]) ==> r[j] == items[j]
  {
    SetQuantityWhere(items, NamedBy(itemId), AtLeastOne(quantity))
  }

  /** `updateQuantity(itemId, quantity)`: false, and nothing written, when no
      line is named by `itemId`. */
  method UpdateQuantity(storage: Slot<RawCart>, itemId: string, quantity: int) returns (ok: bool)
    modifies storage
    ensures ok <==> AnyHit(ReadCart(old(storage.stored)).items, NamedBy(itemId)) && storage.writable
    ensures !ok ==> storage.stored == old(storage.stored)
    ensures ok ==> ReadCart(storage.stored) == Totalled(UpdatedItems(ReadCart(old(storage.stored)).items, itemId, quantity))
  {
    var cart := ReadCart(storage.stored);
    var updated := false;
    var items: seq<Line> := [];
    var i := 0;
    while i < |cart.items|
      invariant 0 <= i <= |cart.items|
      invariant items == UpdatedItems(cart.items, itemId, quantity)[..i]
      invariant updated <==> AnyHit(cart.items[..i], NamedBy(itemId))
    {
      var item := cart.items[i];
      if NamedBy(itemId)(item) {
        updated := true;
        items := items + [item.(quantity := AtLeastOne(quantity))];
      } else {
        items := items + [item];
      }
      assert cart.items[..i + 1][..i] == cart.items[..i];
      i := i + 1;
    }
    assert cart.items[..i] == cart.items;
    assert items == UpdatedItems(cart.items, itemId, quantity);
    if !updated {
      return false;
    }
    var recalculated := RecalculateCart(cart.(items := items));
    assert recalculated == Totalled(items);
    ok := SaveCart(storage, recalculated);
  }

  /** The lines of `removeItem`: those that neither unique id nor key names. */
  function RemainingItems(items: seq<Line>, itemId: string): (r: seq<Line>)
    ensures |r| <= |items|
    ensures forall l :: l in r ==> l in items && !Names(l.uniqueId, itemId) && !Names(l.key, itemId)
  {
    FilterMembers(items, Negate(NamedBy(itemId)));
    Filter(items, Negate(NamedBy(itemId)))
  }

  /** `removeItem(itemId)`: false, and nothing written, when no line was removed. */
  method RemoveItem(storage: Slot<RawCart>, itemId: string) returns (ok: bool)
    modifies storage
    ensures ok <==> AnyHit(ReadCart(old(storage.stored)).items, NamedBy(itemId)) && storage.writable
    ensures !ok ==> storage.stored == old(storage.stored)
    ensures ok ==> ReadCart(storage.stored) == Totalled(RemainingItems(ReadCart(old(storage.stored)).items, itemId))
  {
    var cart := ReadCart(storage.stored);
    var initialCount := |cart.items|;
    var items := RemainingItems(cart.items, itemId);
    RemoveChangesLength(cart.items, itemId);
    if |items| == initialCount {
      return false;
    }
    cart := RecalculateCart(cart.(items := items));
    ok := SaveCart(storage, cart);
  }

  /** `clearCart()`: save the empty cart. */
  method ClearCart(storage: Slot<RawCart>) returns (ok: bool)
    modifies storage
    ensures ok == storage.writable
    ensures ok ==> ReadCart(storage.stored) == EmptyCart
    ensures !ok ==> storage.stored == old(storage.stored)
  {
    ok := SaveCart(storage, EmptyCart);
  }

  // ---------------------------------------------------------------------------
  // Properties
  // ---------------------------------------------------------------------------

  /** Removal shortens the list exactly when some line is named: the length
      test of `removeItem` is the "not found" test. */
  lemma RemoveChangesLength(items: seq<Line>, itemId: string)
    ensures |RemainingItems(items, itemId)| < |items| <==> AnyHit(items, NamedBy(itemId))
  {
    if AnyHit(items, NamedBy(itemId)) {
      var i :| 0 <= i < |items| && NamedBy(itemId)(items[i]);
      assert !Negate(NamedBy(itemId))(items[i]);
    }
  }

  /** Nothing merges: adding a product already in the cart adds a second line. */
  lemma AddNeverMerges(items: seq<Line>, p: Product, quantity: Option<int>, idStamp: string, keyStamp: string)
    requires p.id.Some?
    ensures |Totalled(items + [StampedLine(p, quantity, idStamp, keyStamp)]).items| == |items| + 1
    ensures TotalQuantity(items + [StampedLine(p, quantity, idStamp, keyStamp)]) == TotalQuantity(items) + ParsedQuantity(quantity)
  {
    var l := StampedLine(p, quantity, idStamp, keyStamp);
    assert (items + [l])[..|items|] == items;
  }

  /** Add then remove: removing by the unique id of a freshly stamped line,
      one that no earlier line is named by, gives back the earlier lines. */
  lemma AddThenRemoveRestores(items: seq<Line>, p: Product, quantity: Option<int>, idStamp: string, keyStamp: string)
    requires p.id.Some? && p.id.value != ""
    requires forall j :: 0 <= j < |items| ==> !NamedBy(p.id.value + "_" + idStamp)(items[j])
    ensures RemainingItems(items + [StampedLine(p, quantity, idStamp, keyStamp)], p.id.value + "_" + idStamp) == items
  {
    var l := StampedLine(p, quantity, idStamp, keyStamp);
    var keep := Negate(NamedBy(l.uniqueId));
    FilterAppend(items, [l], keep);
    assert !keep(l);
    assert Filter([l], keep) == [];
    assert Filter(items, keep) == items;
    assert items + [] == items;
  }

  /** Updating twice to the same quantity is the same as updating once, and
      every named line ends with quantity at least 1 while the others keep theirs. */
  lemma UpdateIdempotent(items: seq<Line>, itemId: string, quantity: int)
    ensures UpdatedItems(UpdatedItems(items, itemId, quantity), itemId, quantity) == UpdatedItems(items, itemId, quantity)
    ensures forall j :: 0 <= j < |items| ==>
      var u := UpdatedItems(items, itemId, quantity)[j];
      if NamedBy(itemId)(items[j]) then u == items[j].(quantity := AtLeastOne(quantity)) && u.quantity >= 1
      else u == items[j]
  {
  }
}
