/**
  The mini cart: a separate store under the 'woo_cart_mini' localStorage key
  holding `{items, count}`. Every add appends a line of quantity one, and
  `count` is the number of lines, recomputed after each change.
 */
module MiniCart {
  import opened Carts

  /** A mini-cart line; `addedAt` is the ISO time of the add. */
  datatype MiniItem = MiniItem(id: string, name: string, price: int, quantity: int, uniqueId: string, addedAt: string)

  /**
    The parsed 'woo_cart_mini' value, used as it is read: `items` None when it
    is not an array (or the value is `null`), `count` None when absent.
   */
  datatype MiniCartRecord = MiniCartRecord(items: Option<seq<MiniItem>>, count: Option<int>)

  const EmptyMiniCart := MiniCartRecord(Some([]), Some(0))

  /** `count` agrees with the lines. */
  predicate CountMatches(c: MiniCartRecord) {
    c.items.Some? && c.count == Some(|c.items.value|)
  }

  /** `getCart()`: the parsed value unchanged, or the empty cart when the key is
      missing or does not parse. */
  function GetCart(stored: Option<MiniCartRecord>): (c: MiniCartRecord)
    ensures stored.None? ==> c == EmptyMiniCart && CountMatches(c)
    ensures stored.Some? ==> c == stored.value
  {
    if stored.Some? then stored.value else EmptyMiniCart
  }

  /** `saveCart(cart)`: false when the write throws. */
  method SaveCart(storage: Slot<MiniCartRecord>, cart: MiniCartRecord) returns (ok: bool)
    modifies storage
    ensures ok == storage.writable
    ensures storage.stored == if ok then Some(cart) else old(storage.stored)
  {
    ok := storage.SetItem(cart);
  }

  /** `title || name || 'Product'`: the title wins here, unlike in the other stores. */
  function MiniName(p: Product): (name: string)
    ensures name != ""
    ensures p.title != "" ==> name == p.title
    ensures p.title == "" && p.name != "" ==> name == p.name
  {
    if p.title != "" then p.title else if p.name != "" then p.name else "Product"
  }

  /** The line `addItem` pushes: quantity one, unique id stamped with the clock. */
  function MiniLine(p: Product, stamp: string, addedAt: string): (l: MiniItem)
    requires p.id.Some?
    ensures l.id == p.id.value && l.quantity == 1 && l.price == p.price
    ensures l.uniqueId == p.id.value + "_" + stamp && l.addedAt == addedAt
  {
    MiniItem(p.id.value, MiniName(p), p.price, 1, p.id.value + "_" + stamp, addedAt)
  }

  /** `addItem(product)`: false when the product or its id is missing, when the
      stored `items` is not an array, or when the write throws. */
  method AddItem(storage: Slot<MiniCartRecord>, product: Option<Product>, stamp: string, addedAt: string)
    returns (ok: bool)
    modifies storage
    ensures ok <==> product.Some? && product.value.id.Some? && GetCart(old(storage.stored)).items.Some? && storage.writable
    ensures !ok ==> storage.stored == old(storage.stored)
    ensures ok ==> (storage.stored.Some? && CountMatches(storage.stored.value) &&
      storage.stored.value.items.value == GetCart(old(storage.stored)).items.value + [MiniLine(product.value, stamp, addedAt)])
  {
    var cart := GetCart(storage.stored);
    if cart.items.None? || product.None? || product.value.id.None? {
      return false;
    }
    var items := cart.items.value + [MiniLine(product.value, stamp, addedAt)];
    cart := cart.(items := Some(items), count := Some(|items|));
    ok := SaveCart(storage, cart);
  }

  /** `item.uniqueId !== itemId`; an absent ("") unique id never equals the argument. */
  function KeepsLine(itemId: string): MiniItem -> bool {
    (l: MiniItem) => !Names(l.uniqueId, itemId)
  }

  /** `removeItem(itemId)`: drop the lines with that unique id; save and report
      true only when something was removed. */
  method RemoveItem(storage: Slot<MiniCartRecord>, itemId: string) returns (ok: bool)
    modifies storage
    ensures ok <==>
      GetCart(old(storage.stored)).items.Some? &&
      (exists j :: 0 <= j < |GetCart(old(storage.stored)).items.value| &&
                   Names(GetCart(old(storage.stored)).items.value[j].uniqueId, itemId)) &&
      storage.writable
    ensures !ok ==> storage.stored == old(storage.stored)
    ensures ok ==> (storage.stored.Some? && CountMatches(storage.stored.value) &&
      storage.stored.value.items.value == Filter(GetCart(old(storage.stored)).items.value, KeepsLine(itemId)))
  {
    var cart := GetCart(storage.stored);
    if cart.items.None? {
      return false;
    }
    var initialCount := |cart.items.value|;
    var items := Filter(cart.items.value, KeepsLine(itemId));
    cart := cart.(items := Some(items), count := Some(|items|));
    RemoveChangesLength(GetCart(storage.stored).items.value, itemId);
    if |items| != initialCount {
      ok := SaveCart(storage, cart);
    } else {
      ok := false;
    }
  }

  /** `clearCart()`: save the empty cart. */
  method ClearCart(storage: Slot<MiniCartRecord>) returns (ok: bool)
    modifies storage
    ensures ok == storage.writable
    ensures ok ==> storage.stored == Some(EmptyMiniCart) && CountMatches(EmptyMiniCart)
    ensures !ok ==> storage.stored == old(storage.stored)
  {
    ok := SaveCart(storage, EmptyMiniCart);
  }

  // ---------------------------------------------------------------------------
  // Properties
  // ---------------------------------------------------------------------------

  /** Removal shortens the list exactly when some line has that unique id. */
  lemma RemoveChangesLength(items: seq<MiniItem>, itemId: string)
    ensures |Filter(items, KeepsLine(itemId))| < |items| <==> exists j :: 0 <= j < |items| && Names(items[j].uniqueId, itemId)
  {
    if exists j :: 0 <= j < |items| && Names(items[j].uniqueId, itemId) {
      var j :| 0 <= j < |items| && Names(items[j].uniqueId, itemId);
      assert !KeepsLine(itemId)(items[j]);
    }
  }

  /** Add then remove by the new line's unique id, when no earlier line has it,
      gives back the earlier lines. */
  lemma AddThenRemoveRestores(items: seq<MiniItem>, p: Product, stamp: string, addedAt: string)
    requires p.id.Some?
    requires forall j :: 0 <= j < |items| ==> items[j].uniqueId != p.id.value + "_" + stamp
    ensures Filter(items + [MiniLine(p, stamp, addedAt)], KeepsLine(p.id.value + "_" + stamp)) == items
  {
    var l := MiniLine(p, stamp, addedAt);
    var keep := KeepsLine(l.uniqueId);
    FilterAppend(items, [l], keep);
    assert |l.uniqueId| > 0;
    assert !keep(l);
    assert Filter([l], keep) == [];
    forall j | 0 <= j < |items| ensures keep(items[j]) {
      assert items[j].uniqueId != l.uniqueId;
    }
    assert items + [] == items;
  }
}
