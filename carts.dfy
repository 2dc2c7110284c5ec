/**
  Shapes shared by the client-side cart stores: the cart line, the product a
  line is built from, the persisted cart records, the totals every store
  recomputes from scratch, and one browser key-value slot.

  Money is in integer cents, so the source's `parseFloat(x.toFixed(2))`
  rounding is exact and does not appear here.
 */
module Carts {

  datatype Option<+T> = None | Some(value: T)

  /** One add-on group of a product and the option labels selected in it. */
  datatype AddonGroup = AddonGroup(name: string, options: seq<string>)

  /** `selected_addons`: group name to selected labels, in insertion order. */
  type Selection = seq<AddonGroup>

  /** The add-on fields only the context store writes on a line
      (`base_price`, `addon_price`, `hasAddons`, `selected_addons`). */
  datatype AddonSnapshot = AddonSnapshot(basePrice: int, addonPrice: int, hasAddons: bool, selection: Selection)

  /**
    A cart line as persisted in a slot. `uniqueId` or `key` equal to "" stand
    for an absent (falsy) field. `lineTotal` is `totals.line_total`, which only
    lines built by the commerce back end carry.
   */
  datatype Line = Line(
    id: string,
    uniqueId: string,
    key: string,
    name: string,
    price: int,
    quantity: int,
    addons: Option<AddonSnapshot>,
    lineTotal: Option<int>)

  /**
    A product as handed to the stores. `id` None is an undefined id; `name` or
    `title` "" are absent; `price` and `addonPrice` are the parsed prices
    (`addonPrice` 0 when absent); `selection` None is an undefined `selected_addons`.
   */
  datatype Product = Product(
    id: Option<string>,
    name: string,
    title: string,
    price: int,
    addonPrice: int,
    selection: Option<Selection>)

  /** `item.hasAddons`: false when the line has no add-on fields at all. */
  predicate LineHasAddons(l: Line) {
    l.addons.Some? && l.addons.value.hasAddons
  }

  // ---------------------------------------------------------------------------
  // Totals: `items.reduce((sum, item) => sum + ..., 0)`, folded from the left.
  // ---------------------------------------------------------------------------

  /** No line has a negative quantity or price. */
  predicate NonNegativeLines(items: seq<Line>) {
    forall i :: 0 <= i < |items| ==> items[i].quantity >= 0 && items[i].price >= 0
  }

  function TotalQuantity(items: seq<Line>): int {
    if items == [] then 0 else TotalQuantity(items[..|items| - 1]) + items[|items| - 1].quantity
  }

  function TotalPrice(items: seq<Line>): int {
    if items == [] then 0
    else TotalPrice(items[..|items| - 1]) + items[|items| - 1].price * items[|items| - 1].quantity
  }

  /** Lines of non-negative quantity and price never sum to a negative total. */
  lemma {:induction false} TotalsNonNegative(items: seq<Line>)
    requires NonNegativeLines(items)
    ensures TotalQuantity(items) >= 0 && TotalPrice(items) >= 0
  {
    if items != [] {
      var last := items[|items| - 1];
      TotalsNonNegative(items[..|items| - 1]);
      assert last.price * last.quantity >= 0;
    }
  }

  /** Totals are additive over concatenation. */
  lemma {:induction false} TotalsAppend(a: seq<Line>, b: seq<Line>)
    ensures TotalQuantity(a + b) == TotalQuantity(a) + TotalQuantity(b)
    ensures TotalPrice(a + b) == TotalPrice(a) + TotalPrice(b)
    decreases |b|
  {
    if b == [] {
      assert a + b == a;
    } else {
      var b' := b[..|b| - 1];
      assert (a + b)[..|a + b| - 1] == a + b';
      TotalsAppend(a, b');
    }
  }

  /** A line in front adds its own quantity and price to the totals. */
  lemma TotalsCons(l: Line, s: seq<Line>)
    ensures TotalQuantity([l] + s) == l.quantity + TotalQuantity(s)
    ensures TotalPrice([l] + s) == l.price * l.quantity + TotalPrice(s)
  {
    TotalsAppend([l], s);
    assert [l][..0] == [];
  }

  /** Replacing one line changes the totals by the difference of that line alone. */
  lemma TotalsUpdateAt(s: seq<Line>, i: int, l: Line)
    requires 0 <= i < |s|
    ensures TotalQuantity(s[i := l]) == TotalQuantity(s) - s[i].quantity + l.quantity
    ensures TotalPrice(s[i := l]) == TotalPrice(s) - s[i].price * s[i].quantity + l.price * l.quantity
  {
    assert s == s[..i] + [s[i]] + s[i + 1..];
    assert s[i := l] == s[..i] + [l] + s[i + 1..];
    TotalsAppend(s[..i] + [s[i]], s[i + 1..]);
    TotalsAppend(s[..i] + [l], s[i + 1..]);
    TotalsAppend(s[..i], [s[i]]);
    TotalsAppend(s[..i], [l]);
    TotalsCons(s[i], []);
    TotalsCons(l, []);
    assert [s[i]] + [] == [s[i]] && [l] + [] == [l];
  }

  // ---------------------------------------------------------------------------
  // The 'cart' slot record and its normalisation on read.
  // ---------------------------------------------------------------------------

  /** A normalised cart as `getCart` returns it. */
  datatype Cart = Cart(items: seq<Line>, totalItems: int, total: int)

  /**
    A parsed 'cart' slot value: a field is None when it is absent or of the
    wrong JSON type (`items` not an array, a total not a number; `error`
    absent, Some(None) for `null`).
   */
  datatype RawCart = RawCart(
    items: Option<seq<Line>>,
    totalItems: Option<int>,
    total: Option<int>,
    error: Option<Option<string>>)

  const EmptyCart := Cart([], 0, 0)

  /** Totals agree with the lines they summarise. */
  predicate Consistent(c: Cart) {
    c.totalItems == TotalQuantity(c.items) && c.total == TotalPrice(c.items)
  }

  /** `Array.isArray(x) ? x : []` */
  function ItemsOr(items: Option<seq<Line>>): seq<Line> {
    if items.Some? then items.value else []
  }

  /** `typeof x === 'number' ? x : 0` */
  function NumberOr(n: Option<int>, default: int): int {
    if n.Some? then n.value else default
  }

  /** `x || 0` on a number: undefined and 0 both give 0. */
  function OrZero(n: Option<int>): int {
    if n.Some? then n.value else 0
  }

  /**
    The `getCart` of both 'cart'-slot utilities: a missing, unparsable or
    non-object value gives the empty cart, and each malformed field of an
    object falls back to its default. It is total: reading never fails.
   */
  function ReadCart(stored: Option<RawCart>): (c: Cart)
    ensures stored.None? ==> c == EmptyCart
    ensures stored.Some? ==> c.items == ItemsOr(stored.value.items)
    ensures stored.Some? && stored.value.totalItems.None? ==> c.totalItems == 0
    ensures stored.Some? && stored.value.total.None? ==> c.total == 0
  {
    match stored
    case None => EmptyCart
    case Some(raw) => Cart(ItemsOr(raw.items), NumberOr(raw.totalItems, 0), NumberOr(raw.total, 0))
  }

  /** The object `saveCart` serialises: the three fields, nothing else. */
  function Persisted(c: Cart): RawCart {
    RawCart(Some(c.items), Some(c.totalItems), Some(c.total), None)
  }

  /** The cart holding `items` with totals recomputed from them. */
  function Totalled(items: seq<Line>): (c: Cart)
    ensures c.items == items && Consistent(c)
  {
    Cart(items, TotalQuantity(items), TotalPrice(items))
  }

  /** Writing a normalised cart and reading it back gives the same cart. */
  lemma ReadPersisted(c: Cart)
    ensures ReadCart(Some(Persisted(c))) == c
  {
  }

  // ---------------------------------------------------------------------------
  // The 'direct_cart_v1' slot record.
  // ---------------------------------------------------------------------------

  /** The direct cart `{items, count}`; `total` is read by the order route. */
  datatype DirectCart = DirectCart(items: Option<seq<Line>>, count: Option<int>, total: Option<int>)

  const EmptyDirectCart := DirectCart(Some([]), Some(0), None)

  // ---------------------------------------------------------------------------
  // One browser localStorage key.
  // ---------------------------------------------------------------------------

  /**
    A localStorage key holding a JSON value. `stored` is None when the key is
    missing or holds text that does not parse; `writable` is false when the
    browser refuses writes (quota exceeded, storage disabled), in which case
    `setItem` throws and the value stays as it was.
   */
  class Slot<T> {
    var stored: Option<T>
    const writable: bool

    constructor (initial: Option<T>, writable: bool)
      ensures stored == initial && this.writable == writable
    {
      stored := initial;
      this.writable := writable;
    }

    /** `localStorage.setItem(key, JSON.stringify(value))`; false when it throws. */
    method SetItem(value: T) returns (ok: bool)
      modifies this
      ensures ok == writable
      ensures stored == if ok then Some(value) else old(stored)
    {
      ok := writable;
      if ok {
        stored := Some(value);
      }
    }
  }

  // ---------------------------------------------------------------------------
  // Array.prototype.filter and the quantity-setting map, shared by the stores.
  // ---------------------------------------------------------------------------

  /** `s.filter(keep)`: the elements satisfying `keep`, in their original order. */
  function Filter<T>(s: seq<T>, keep: T -> bool): (r: seq<T>)
    ensures |r| <= |s|
    ensures |r| == |s| <==> AllPass(s, keep)
    ensures AllPass(s, keep) ==> r == s
  {
    if s == [] then []
    else
      var rest := Filter(s[1..], keep);
      assert forall i :: 1 <= i < |s| ==> s[i] == s[1..][i - 1];
      if keep(s[0]) then [s[0]] + rest else rest
  }

  /** Filtering distributes over concatenation (order is preserved). */
  lemma {:induction false} FilterAppend<T>(a: seq<T>, b: seq<T>, keep: T -> bool)
    ensures Filter(a + b, keep) == Filter(a, keep) + Filter(b, keep)
  {
    if a == [] {
      assert a + b == b;
    } else {
      HeadTail(a, b);
      FilterAppend(a[1..], b, keep);
      var rest, restB := Filter(a[1..], keep), Filter(b, keep);
      calc {
        Filter(a + b, keep);
        Filter([a[0]] + (a[1..] + b), keep);
        { FilterCons(a[0], a[1..] + b, keep); }
        if keep(a[0]) then [a[0]] + (rest + restB) else rest + restB;
        { assert [a[0]] + (rest + restB) == ([a[0]] + rest) + restB; }
        (if keep(a[0]) then [a[0]] + rest else rest) + restB;
        { FilterCons(a[0], a[1..], keep); }
        Filter([a[0]] + a[1..], keep) + restB;
        Filter(a, keep) + restB;
      }
    }
  }

  /** The filtered sequence holds exactly the elements that pass. */
  lemma {:induction false} FilterMembers<T>(s: seq<T>, keep: T -> bool)
    ensures forall x :: x in Filter(s, keep) <==> x in s && keep(x)
  {
    if s != [] {
      FilterMembers(s[1..], keep);
      FilterCons(s[0], s[1..], keep);
      assert s == [s[0]] + s[1..];
    }
  }

  lemma HeadTail<T>(a: seq<T>, b: seq<T>)
    requires a != []
    ensures a == [a[0]] + a[1..] && a + b == [a[0]] + (a[1..] + b)
  {
  }

  /** Every element passes the test. */
  predicate AllPass<T>(s: seq<T>, keep: T -> bool) {
    forall i :: 0 <= i < |s| ==> keep(s[i])
  }

  /** Filtering a sequence with `x` in front. */
  lemma FilterCons<T>(x: T, s: seq<T>, keep: T -> bool)
    ensures Filter([x] + s, keep) == if keep(x) then [x] + Filter(s, keep) else Filter(s, keep)
  {
    assert ([x] + s)[1..] == s;
  }

  /** The complement of a filter condition. */
  function Negate<T>(keep: T -> bool): T -> bool {
    x => !keep(x)
  }

  /** The kept and the dropped lines together carry all of the original
      totals, so a filter never loses or double-counts a line. */
  lemma {:induction false} FilterSplitsTotals(s: seq<Line>, keep: Line -> bool)
    ensures TotalQuantity(Filter(s, keep)) + TotalQuantity(Filter(s, Negate(keep))) == TotalQuantity(s)
    ensures TotalPrice(Filter(s, keep)) + TotalPrice(Filter(s, Negate(keep))) == TotalPrice(s)
  {
    if s != [] {
      FilterSplitsTotals(s[1..], keep);
      SplitStep(s, keep);
    }
  }

  /** One step of `FilterSplitsTotals`: the head goes to exactly one side. */
  lemma SplitStep(s: seq<Line>, keep: Line -> bool)
    requires s != []
    ensures TotalQuantity(Filter(s, keep)) + TotalQuantity(Filter(s, Negate(keep)))
         == s[0].quantity + TotalQuantity(Filter(s[1..], keep)) + TotalQuantity(Filter(s[1..], Negate(keep)))
    ensures TotalPrice(Filter(s, keep)) + TotalPrice(Filter(s, Negate(keep)))
         == s[0].price * s[0].quantity + TotalPrice(Filter(s[1..], keep)) + TotalPrice(Filter(s[1..], Negate(keep)))
    ensures TotalQuantity(s) == s[0].quantity + TotalQuantity(s[1..])
    ensures TotalPrice(s) == s[0].price * s[0].quantity + TotalPrice(s[1..])
  {
    assert s == [s[0]] + s[1..];
    TotalsCons(s[0], s[1..]);
    if keep(s[0]) {
      FilterHead(s, keep);
      TotalsCons(s[0], Filter(s[1..], keep));
    } else {
      FilterHead(s, Negate(keep));
      TotalsCons(s[0], Filter(s[1..], Negate(keep)));
    }
  }

  /** Where the head passes, it leads the filtered sequence; where it fails the
      complement, the filter is that of the tail. */
  lemma FilterHead(s: seq<Line>, keep: Line -> bool)
    requires s != [] && keep(s[0])
    ensures Filter(s, keep) == [s[0]] + Filter(s[1..], keep)
    ensures Filter(s, Negate(keep)) == Filter(s[1..], Negate(keep))
  {
  }


  /** `items.map(item => hit(item) ? {...item, quantity: q} : item)` */
  function SetQuantityWhere(items: seq<Line>, hit: Line -> bool, q: int): (r: seq<Line>)
    ensures |r| == |items|
    ensures forall i :: 0 <= i < |items| ==> r[i].quantity == (if hit(items[i]) then q else items[i].quantity)
    ensures forall i :: 0 <= i < |items| ==> r[i].(quantity := items[i].quantity) == items[i]
  {
    seq(|items|, i requires 0 <= i < |items| => if hit(items[i]) then items[i].(quantity := q) else items[i])
  }

  /** `field === arg` for a line field that may be absent (""): an absent
      field never equals a string argument. */
  predicate Names(field: string, arg: string) {
    field != "" && field == arg
  }

  /** The line's unique id or its key is `itemId`: the test by which the stores
      find the line a cart page asks to change or remove. */
  function NamedBy(itemId: string): Line -> bool {
    (l: Line) => Names(l.uniqueId, itemId) || Names(l.key, itemId)
  }

  /** Whether some line satisfies `hit` (the `updated` flag of the maps). */
  predicate AnyHit(items: seq<Line>, hit: Line -> bool) {
    exists i :: 0 <= i < |items| && hit(items[i])
  }

  /** `Math.max(1, q)` */
  function AtLeastOne(q: int): int {
    if q > 1 then q else 1
  }
}
