/**
  The React cart context: a reducer over `{items, total, totalItems,
  isLoading, error}` and a provider whose handlers compute a new item list,
  dispatch a request and a success (or error) action, and write the cart to
  the 'cart' localStorage key. This is the only store that merges lines: a
  line's identity is the product id together with its add-on selection.
 */
module CartContext {
  import opened Carts
  import StringSort

  // ---------------------------------------------------------------------------
  // Reducer
  // ---------------------------------------------------------------------------

  datatype State = State(items: seq<Line>, total: int, totalItems: int, isLoading: bool, error: Option<string>)

  const InitialState := State([], 0, 0, false, None)

  /** The four operations that have REQUEST / SUCCESS / ERROR action types. */
  datatype Op = AddOp | UpdateOp | RemoveOp | ClearOp

  /**
    A dispatched action. `Success(ClearOp, _)` is CLEAR_CART_SUCCESS, which
    ignores its payload; `Unknown` is any other action type.
   */
  datatype Action =
    | Initialize(payload: RawCart)
    | SetCart(payload: RawCart)
    | Request(op: Op)
    | Success(op: Op, payload: RawCart)
    | Failure(op: Op, message: string)
    | Unknown(tag: string)

  /** `cartReducer(state, action)` */
  function Reduce(state: State, action: Action): (r: State)
    ensures r.items != state.items || r.total != state.total || r.totalItems != state.totalItems ==>
      action.Initialize? || action.SetCart? || action.Success?
    ensures r.isLoading <==> action.Request? || ((action.SetCart? || action.Unknown?) && state.isLoading)
    ensures r.error != state.error ==>
      action.Request? || action.Failure? || (action.Initialize? && action.payload.error.Some?)
  {
    match action
    case Initialize(p) =>
      // {...state, ...payload, isLoading: false}: present fields override.
      state.(items := if p.items.Some? then p.items.value else state.items,
             totalItems := if p.totalItems.Some? then p.totalItems.value else state.totalItems,
             total := if p.total.Some? then p.total.value else state.total,
             error := if p.error.Some? then p.error.value else state.error,
             isLoading := false)
    case SetCart(p) =>
      state.(items := ItemsOr(p.items), total := OrZero(p.total), totalItems := OrZero(p.totalItems))
    case Request(_) =>
      state.(isLoading := true, error := None)
    case Success(op, p) =>
      if op == ClearOp then
        state.(items := [], total := 0, totalItems := 0, isLoading := false)
      else
        state.(items := ItemsOr(p.items), total := OrZero(p.total), totalItems := OrZero(p.totalItems),
               isLoading := false)
    case Failure(_, message) =>
      state.(isLoading := false, error := Some(message))
    case Unknown(_) =>
      state
  }

  /** The totals of a state agree with its lines. */
  predicate StateConsistent(s: State) {
    s.totalItems == TotalQuantity(s.items) && s.total == TotalPrice(s.items)
  }

  /** A payload that carries an item array and totals computed from it. */
  predicate PayloadConsistent(p: RawCart) {
    p.items.Some? && p.totalItems == Some(TotalQuantity(p.items.value)) && p.total == Some(TotalPrice(p.items.value))
  }

  /** Every *_REQUEST action starts loading, clears the error and keeps the cart. */
  lemma RequestStartsLoading(state: State, op: Op)
    ensures var r := Reduce(state, Request(op));
      r.isLoading && r.error == None &&
      r.items == state.items && r.total == state.total && r.totalItems == state.totalItems
  {
  }

  /** CLEAR_CART_SUCCESS empties the cart and stops loading, whatever its payload. */
  lemma ClearSuccessEmpties(state: State, payload: RawCart)
    ensures var r := Reduce(state, Success(ClearOp, payload));
      r.items == [] && r.total == 0 && r.totalItems == 0 && !r.isLoading && r.error == state.error
  {
  }

  /** Every *_ERROR action stops loading, records the message and keeps the cart. */
  lemma FailureKeepsCart(state: State, op: Op, message: string)
    ensures var r := Reduce(state, Failure(op, message));
      !r.isLoading && r.error == Some(message) &&
      r.items == state.items && r.total == state.total && r.totalItems == state.totalItems
  {
  }

  /** An action type the reducer does not know leaves the state as it was. */
  lemma UnknownLeavesState(state: State, tag: string)
    ensures Reduce(state, Unknown(tag)) == state
  {
  }

  /** The reducer never makes totals drift from the lines: from a consistent
      state, every action whose payload is consistent gives a consistent state. */
  lemma ReducePreservesConsistency(state: State, action: Action)
    requires StateConsistent(state)
    requires action.Initialize? || action.SetCart? || (action.Success? && action.op != ClearOp)
             ==> PayloadConsistent(action.payload)
    ensures StateConsistent(Reduce(state, action))
  {
  }

  // ---------------------------------------------------------------------------
  // Line identity
  // ---------------------------------------------------------------------------

  /** `Object.values(selected).some(options => options && options.length > 0)` */
  function AnySelected(groups: Selection): (b: bool)
    ensures b <==> exists i :: 0 <= i < |groups| && |groups[i].options| > 0
  {
    if groups == [] then false
    else
      assert forall i :: 1 <= i < |groups| ==> groups[i] == groups[1..][i - 1];
      |groups[0].options| > 0 || AnySelected(groups[1..])
  }

  /** `hasAddons`: `selected_addons` is present and some group has a selected option. */
  function HasAddons(selection: Option<Selection>): (b: bool)
    ensures b <==> selection.Some? && exists i :: 0 <= i < |selection.value| && |selection.value[i].options| > 0
  {
    selection.Some? && AnySelected(selection.value)
  }

  /** `${product.id}`: an undefined id prints as "undefined". */
  function IdText(id: Option<string>): string {
    if id.Some? then id.value else "undefined"
  }

  function JsonString(s: string): string {
    "\"" + s + "\""
  }

  function JsonStrings(xs: seq<string>): string {
    if xs == [] then ""
    else if |xs| == 1 then JsonString(xs[0])
    else JsonString(xs[0]) + "," + JsonStrings(xs[1..])
  }

  function JsonGroups(groups: Selection): string {
    if groups == [] then ""
    else
      var g := JsonString(groups[0].name) + ":[" + JsonStrings(groups[0].options) + "]";
      if |groups| == 1 then g else g + "," + JsonGroups(groups[1..])
  }

  /** `JSON.stringify(selected_addons)`, groups in insertion order. */
  function SelectionJson(selection: Selection): (json: string)
    ensures |json| >= 2 && json[0] == '{' && json[|json| - 1] == '}'
    ensures |json| == 2 <==> selection == []
  {
    "{" + JsonGroups(selection) + "}"
  }

  /** `itemUniqueId`: the id, followed by the selection when add-ons are selected. */
  function UniqueIdOf(p: Product): (u: string)
    ensures |IdText(p.id)| <= |u| && u[..|IdText(p.id)|] == IdText(p.id)
    ensures HasAddons(p.selection) <==> |u| > |IdText(p.id)|
  {
    if HasAddons(p.selection) then IdText(p.id) + "_" + SelectionJson(p.selection.value)
    else IdText(p.id)
  }

  /** The `key` of a new line: one key for every add-on variant of a product. */
  function KeyOf(p: Product): (k: string)
    ensures |k| >= 5 + |IdText(p.id)| && k[..5] == "item_" && k[5..5 + |IdText(p.id)|] == IdText(p.id)
    ensures HasAddons(p.selection) <==> |k| > 5 + |IdText(p.id)|
  {
    "item_" + IdText(p.id) + (if HasAddons(p.selection) then "_addons" else "")
  }

  /** The `findIndex` test: with add-ons the same unique id; without, the same
      product id on a line that has no add-ons. */
  predicate SameLine(l: Line, p: Product): (same: bool)
    ensures same && HasAddons(p.selection) ==> l.uniqueId == UniqueIdOf(p)
    ensures same && !HasAddons(p.selection) ==> l.id == IdText(p.id) && !LineHasAddons(l)
    ensures l.uniqueId == UniqueIdOf(p) && HasAddons(p.selection) ==> same
  {
    if HasAddons(p.selection) then l.uniqueId == UniqueIdOf(p)
    else l.id == IdText(p.id) && !LineHasAddons(l)
  }

  /** The callback `addToCart` passes to `findIndex`. */
  function Matches(p: Product): Line -> bool {
    (l: Line) => SameLine(l, p)
  }

  /** `items.findIndex(test)`: the first line passing the test, or -1 when none does. */
  function FindFirst(items: seq<Line>, test: Line -> bool): (r: int)
    ensures -1 <= r < |items|
    ensures r >= 0 ==> test(items[r]) && forall j :: 0 <= j < r ==> !test(items[j])
    ensures r == -1 <==> forall j :: 0 <= j < |items| ==> !test(items[j])
  {
    if items == [] then -1
    else if test(items[0]) then 0
    else
      var k := FindFirst(items[1..], test);
      assert forall j :: 1 <= j < |items| ==> items[j] == items[1..][j - 1];
      if k < 0 then -1 else k + 1
  }

  /** The line `addToCart` appends for a product it has not seen. */
  function NewLine(p: Product, quantity: int): (l: Line)
    ensures SameLine(l, p)
    ensures l.price == p.price + p.addonPrice && l.quantity == quantity
  {
    Line(
      id := IdText(p.id),
      uniqueId := UniqueIdOf(p),
      key := KeyOf(p),
      name := p.name,
      price := p.price + p.addonPrice,
      quantity := quantity,
      addons := Some(AddonSnapshot(p.price, p.addonPrice, HasAddons(p.selection),
                                   if p.selection.Some? then p.selection.value else [])),
      lineTotal := None)
  }

  /** Raise the quantity of the first line passing `test` by `quantity`, or
      append `line` when no line passes. */
  function MergeOrAppend(items: seq<Line>, test: Line -> bool, line: Line, quantity: int): (r: seq<Line>)
    ensures |r| == if FindFirst(items, test) >= 0 then |items| else |items| + 1
  {
    var i := FindFirst(items, test);
    if i >= 0 then items[i := items[i].(quantity := items[i].quantity + quantity)]
    else items + [line]
  }

  /** `updatedItems` of `addToCart`: raise the quantity of the line with the
      product's identity, or append a new line. */
  function AddLine(items: seq<Line>, p: Product, quantity: int): (r: seq<Line>)
    ensures |r| == if FindFirst(items, Matches(p)) >= 0 then |items| else |items| + 1
  {
    MergeOrAppend(items, Matches(p), NewLine(p, quantity), quantity)
  }

  function IsPositive(l: Line): bool {
    l.quantity > 0
  }

  /** `updatedItems` of `updateCartItem`: set the quantity of every line named by
      key or unique id, then
      drop every line whose quantity is not positive. */
  function UpdateLines(items: seq<Line>, itemKey: string, quantity: int): (r: seq<Line>)
    ensures |r| <= |items|
    ensures forall l :: l in r ==> l.quantity > 0
  {
    FilterMembers(SetQuantityWhere(items, NamedBy(itemKey), quantity), IsPositive);
    Filter(SetQuantityWhere(items, NamedBy(itemKey), quantity), IsPositive)
  }

  /** `updatedItems` of `removeCartItem`: keep the lines whose key and unique id
      both differ from the argument. */
  function RemoveLines(items: seq<Line>, itemKey: string): (r: seq<Line>)
    ensures |r| <= |items|
    ensures forall l :: l in r ==> l in items && !Names(l.key, itemKey) && !Names(l.uniqueId, itemKey)
  {
    FilterMembers(items, Negate(NamedBy(itemKey)));
    Filter(items, Negate(NamedBy(itemKey)))
  }

  // ---------------------------------------------------------------------------
  // Properties of the item-list computations
  // ---------------------------------------------------------------------------

  /** Raising the quantity of line `i` by `quantity` keeps the number of lines
      and every other line, raises the unit total by `quantity` and the price
      total by that line's price times `quantity`. */
  lemma RaiseAt(items: seq<Line>, i: int, quantity: int)
    requires 0 <= i < |items|
    ensures var r := items[i := items[i].(quantity := items[i].quantity + quantity)];
      |r| == |items| && r[i].quantity == items[i].quantity + quantity &&
      r[i] == items[i].(quantity := items[i].quantity + quantity) &&
      (forall j :: 0 <= j < |items| && j != i ==> r[j] == items[j]) &&
      TotalQuantity(r) == TotalQuantity(items) + quantity &&
      TotalPrice(r) == TotalPrice(items) + items[i].price * quantity
  {
    var before := items[i];
    var after := before.(quantity := before.quantity + quantity);
    TotalsUpdateAt(items, i, after);
    assert after.price * after.quantity == before.price * before.quantity + before.price * quantity by {
      MulAddDistributes(before.price, before.quantity, quantity);
    }
  }

  lemma MulAddDistributes(a: int, b: int, c: int)
    ensures a * (b + c) == a * b + a * c
  {
  }

  /** Where no line passes the test, after appending `l` the first line that
      passes is `l` itself, if it passes. */
  lemma FirstAfterAppend(items: seq<Line>, l: Line, test: Line -> bool)
    requires forall j :: 0 <= j < |items| ==> !test(items[j])
    ensures FindFirst(items + [l], test) == if test(l) then |items| else -1
  {
    var s := items + [l];
    assert forall j :: 0 <= j < |items| ==> s[j] == items[j];
    assert s[|items|] == l;
  }

  /** Where no line passes the test, merging appends the line. */
  lemma AppendedWhenAbsent(items: seq<Line>, test: Line -> bool, line: Line, quantity: int)
    requires forall j :: 0 <= j < |items| ==> !test(items[j])
    ensures MergeOrAppend(items, test, line, quantity) == items + [line]
  {
  }

  /** Where no line passes the test, merging appends the line and raises the
      totals by that line's quantity and price times quantity. */
  lemma AppendWhenAbsent(items: seq<Line>, test: Line -> bool, line: Line)
    requires forall j :: 0 <= j < |items| ==> !test(items[j])
    ensures var r := MergeOrAppend(items, test, line, line.quantity);
      r == items + [line] &&
      TotalQuantity(r) == TotalQuantity(items) + line.quantity &&
      TotalPrice(r) == TotalPrice(items) + line.price * line.quantity
  {
    AppendedWhenAbsent(items, test, line, line.quantity);
    TotalsAppend(items, [line]);
    TotalsCons(line, []);
    assert [line] + [] == [line];
  }

  /** Where some line passes the test, merging raises the first such line's
      quantity and the totals, and leaves the other lines alone. */
  lemma RaiseWhenPresent(items: seq<Line>, test: Line -> bool, line: Line, quantity: int)
    requires FindFirst(items, test) >= 0
    ensures var r, i := MergeOrAppend(items, test, line, quantity), FindFirst(items, test);
      |r| == |items| && r[i].quantity == items[i].quantity + quantity &&
      r[i] == items[i].(quantity := items[i].quantity + quantity) &&
      (forall j :: 0 <= j < |items| && j != i ==> r[j] == items[j]) &&
      TotalQuantity(r) == TotalQuantity(items) + quantity &&
      TotalPrice(r) == TotalPrice(items) + items[i].price * quantity
  {
    var i := FindFirst(items, test);
    var r := items[i := items[i].(quantity := items[i].quantity + quantity)];
    assert MergeOrAppend(items, test, line, quantity) == r;
    RaiseAt(items, i, quantity);
  }

  /** Adding an identity already present keeps the number of lines, raises that
      line's quantity by exactly `quantity` and leaves every other line alone. */
  lemma AddMergesExisting(items: seq<Line>, p: Product, quantity: int)
    requires FindFirst(items, Matches(p)) >= 0
    ensures var r, i := AddLine(items, p, quantity), FindFirst(items, Matches(p));
      |r| == |items| && r[i].quantity == items[i].quantity + quantity &&
      r[i] == items[i].(quantity := items[i].quantity + quantity) &&
      (forall j :: 0 <= j < |items| && j != i ==> r[j] == items[j]) &&
      TotalQuantity(r) == TotalQuantity(items) + quantity &&
      TotalPrice(r) == TotalPrice(items) + items[i].price * quantity
  {
    RaiseWhenPresent(items, Matches(p), NewLine(p, quantity), quantity);
  }

  /** Adding a new identity appends exactly one line priced base plus add-ons,
      after the untouched existing lines. */
  lemma AddAppendsNew(items: seq<Line>, p: Product, quantity: int)
    requires forall j :: 0 <= j < |items| ==> !SameLine(items[j], p)
    ensures var r := AddLine(items, p, quantity);
      |r| == |items| + 1 && r[..|items|] == items &&
      r[|items|].price == p.price + p.addonPrice && r[|items|].quantity == quantity &&
      TotalQuantity(r) == TotalQuantity(items) + quantity &&
      TotalPrice(r) == TotalPrice(items) + (p.price + p.addonPrice) * quantity
  {
    var l := NewLine(p, quantity);
    forall j | 0 <= j < |items| ensures !Matches(p)(items[j]) {
    }
    AppendWhenAbsent(items, Matches(p), l);
    assert AddLine(items, p, quantity) == items + [l];
    assert (items + [l])[..|items|] == items;
  }

  /** Merging twice by one test, starting where no line passes it and with a
      first line that does, gives a single line carrying both quantities. */
  lemma MergeTwice(items: seq<Line>, test: Line -> bool, first: Line, second: Line, quantity: int)
    requires forall j :: 0 <= j < |items| ==> !test(items[j])
    requires test(first)
    ensures MergeOrAppend(MergeOrAppend(items, test, first, first.quantity), test, second, quantity)
            == items + [first.(quantity := first.quantity + quantity)]
  {
    AppendedWhenAbsent(items, test, first, first.quantity);
    var once := items + [first];
    FirstAfterAppend(items, first, test);
    var merged := first.(quantity := first.quantity + quantity);
    assert once[|items|] == first;
    assert once[|items| := merged] == items + [merged] by {
      assert forall j :: 0 <= j < |items| ==> once[|items| := merged][j] == items[j];
    }
  }

  /** Merging by two tests, where no line passes either and the line appended
      by the first fails the second, appends both lines. */
  lemma MergeSeparately(items: seq<Line>, test1: Line -> bool, test2: Line -> bool, first: Line, second: Line)
    requires forall j :: 0 <= j < |items| ==> !test1(items[j]) && !test2(items[j])
    requires !test2(first)
    ensures MergeOrAppend(MergeOrAppend(items, test1, first, first.quantity), test2, second, second.quantity)
            == items + [first, second]
  {
    AppendedWhenAbsent(items, test1, first, first.quantity);
    FirstAfterAppend(items, first, test2);
    assert items + [first] + [second] == items + [first, second];
  }

  /** Idempotent merge: adding the same identity twice, with quantities q1 and
      q2, gives one line of quantity q1 + q2, never two. */
  lemma AddTwiceMerges(items: seq<Line>, p: Product, q1: int, q2: int)
    requires forall j :: 0 <= j < |items| ==> !SameLine(items[j], p)
    ensures AddLine(AddLine(items, p, q1), p, q2) == items + [NewLine(p, q1 + q2)]
  {
    MergeTwice(items, Matches(p), NewLine(p, q1), NewLine(p, q2), q2);
  }

  /** Identity sensitivity: two add-on selections of the same or different
      products whose unique ids differ stay two separate lines. */
  lemma DistinctSelectionsStaySeparate(items: seq<Line>, p1: Product, p2: Product, q1: int, q2: int)
    requires HasAddons(p1.selection) && HasAddons(p2.selection)
    requires UniqueIdOf(p1) != UniqueIdOf(p2)
    requires forall j :: 0 <= j < |items| ==> !SameLine(items[j], p1) && !SameLine(items[j], p2)
    ensures AddLine(AddLine(items, p1, q1), p2, q2) == items + [NewLine(p1, q1), NewLine(p2, q2)]
  {
    assert !Matches(p2)(NewLine(p1, q1));
    MergeSeparately(items, Matches(p1), Matches(p2), NewLine(p1, q1), NewLine(p2, q2));
  }

  /** One add-on group with a single selected choice, as the product page
      builds it for a one-choice group such as a colour. */
  function OneLabel(group: string, choice: string): (s: Selection)
    ensures AnySelected(s)
  {
    [AddonGroup(group, [choice])]
  }

  /** Different strings after a common prefix stay different. */
  lemma CommonPrefixDiffers(prefix: string, x: string, y: string)
    requires x != y
    ensures prefix + x != prefix + y
  {
    assert (prefix + x)[|prefix|..] == x && (prefix + y)[|prefix|..] == y;
  }

  /** Two different quote-free strings stay different when both are followed
      by one tail that starts with a quote: the quote cannot be matched by a
      character of the other string. */
  lemma QuoteLedTailsDiffer(a: string, b: string, tail: string)
    requires a != b && '"' !in a && '"' !in b
    requires |tail| > 0 && tail[0] == '"'
    ensures a + tail != b + tail
  {
    if |a| == |b| {
      var k :| 0 <= k < |a| && a[k] != b[k];
      assert (a + tail)[k] == a[k] && (b + tail)[k] == b[k];
    } else if |a| < |b| {
      assert (a + tail)[|a|] == '"' && (b + tail)[|a|] == b[|a|];
    } else {
      assert (b + tail)[|b|] == '"' && (a + tail)[|b|] == a[|b|];
    }
  }

  /** The unique id of a one-choice selection: a prefix fixed by the product id
      and the group, then the choice, then a tail that starts with a quote. */
  lemma OneLabelUniqueId(p: Product, group: string, choice: string)
    requires p.selection == Some(OneLabel(group, choice))
    ensures UniqueIdOf(p) == (IdText(p.id) + "_{\"" + group + "\":[\"") + (choice + "\"]}")
  {
    assert JsonStrings([choice]) == "\"" + choice + "\"";
    assert JsonGroups(OneLabel(group, choice)) == "\"" + group + "\"" + ":[" + ("\"" + choice + "\"") + "]";
  }

  /** Identity sensitivity for one-choice selections: one product with two
      different labels in the same group gets two different unique ids,
      provided neither choice holds a quote (the encoder does not escape). */
  lemma OneLabelSelectionsDiffer(p1: Product, p2: Product, group: string, a: string, b: string)
    requires p1.id == p2.id && a != b && '"' !in a && '"' !in b
    requires p1.selection == Some(OneLabel(group, a)) && p2.selection == Some(OneLabel(group, b))
    ensures HasAddons(p1.selection) && HasAddons(p2.selection)
    ensures UniqueIdOf(p1) != UniqueIdOf(p2)
  {
    OneLabelUniqueId(p1, group, a);
    OneLabelUniqueId(p2, group, b);
    var prefix := IdText(p1.id) + "_{\"" + group + "\":[\"";
    QuoteLedTailsDiffer(a, b, "\"]}");
    CommonPrefixDiffers(prefix, a + "\"]}", b + "\"]}");
  }

  /** Two labels of one group, added to a cart holding neither, stay two lines. */
  lemma OneLabelSelectionsStaySeparate(items: seq<Line>, p1: Product, p2: Product, group: string, a: string, b: string,
                                       q1: int, q2: int)
    requires p1.id == p2.id && a != b && '"' !in a && '"' !in b
    requires p1.selection == Some(OneLabel(group, a)) && p2.selection == Some(OneLabel(group, b))
    requires forall j :: 0 <= j < |items| ==> !SameLine(items[j], p1) && !SameLine(items[j], p2)
    ensures AddLine(AddLine(items, p1, q1), p2, q2) == items + [NewLine(p1, q1), NewLine(p2, q2)]
  {
    OneLabelSelectionsDiffer(p1, p2, group, a, b);
    DistinctSelectionsStaySeparate(items, p1, p2, q1, q2);
  }

  /** The shared key: every add-on variant of one product gets the same `key`,
      so removing by that key drops all of those variants at once. */
  lemma VariantsShareKey(items: seq<Line>, p1: Product, p2: Product, q1: int, q2: int)
    requires p1.id == p2.id && HasAddons(p1.selection) && HasAddons(p2.selection)
    ensures KeyOf(p1) == KeyOf(p2)
    ensures RemoveLines(items + [NewLine(p1, q1), NewLine(p2, q2)], KeyOf(p1)) == RemoveLines(items, KeyOf(p1))
  {
    var keep := Negate(NamedBy(KeyOf(p1)));
    var added := [NewLine(p1, q1), NewLine(p2, q2)];
    FilterAppend(items, added, keep);
    assert Filter(added, keep) == [] by {
      assert !keep(added[0]) && !keep(added[1]);
    }
    assert Filter(items, keep) + [] == Filter(items, keep);
  }

  /** After an update no line has a non-positive quantity, and every line the
      argument does not name, with a positive quantity, is still there. Updating
      to zero or less therefore removes the named lines. */
  lemma UpdateDropsNonPositive(items: seq<Line>, itemKey: string, quantity: int)
    ensures forall l :: l in UpdateLines(items, itemKey, quantity) ==> l.quantity > 0
    ensures quantity <= 0 ==> forall l :: l in UpdateLines(items, itemKey, quantity) ==> !NamedBy(itemKey)(l)
    ensures forall l :: l in items && !NamedBy(itemKey)(l) && l.quantity > 0 ==> l in UpdateLines(items, itemKey, quantity)
    ensures quantity > 0 ==> forall j :: 0 <= j < |items| && NamedBy(itemKey)(items[j]) ==>
      items[j].(quantity := quantity) in UpdateLines(items, itemKey, quantity)
  {
    var mapped := SetQuantityWhere(items, NamedBy(itemKey), quantity);
    FilterMembers(mapped, IsPositive);
    forall l | l in items && !NamedBy(itemKey)(l) && l.quantity > 0
      ensures l in UpdateLines(items, itemKey, quantity)
    {
      var i :| 0 <= i < |items| && items[i] == l;
      assert mapped[i] == l;
    }
    if quantity <= 0 {
      forall l | l in UpdateLines(items, itemKey, quantity) ensures !NamedBy(itemKey)(l) {
        assert l in mapped;
        var i :| 0 <= i < |mapped| && mapped[i] == l;
      }
    }
  }

  /** Updating a line to a positive quantity, when no line has a non-positive
      quantity, keeps every line in place and sets exactly the named ones. */
  lemma UpdateKeepsLines(items: seq<Line>, itemKey: string, quantity: int)
    requires quantity > 0
    requires forall j :: 0 <= j < |items| ==> items[j].quantity > 0
    ensures UpdateLines(items, itemKey, quantity) == SetQuantityWhere(items, NamedBy(itemKey), quantity)
  {
  }

  /** Updating the same line to the same quantity twice is the same as once. */
  lemma UpdateIdempotent(items: seq<Line>, itemKey: string, quantity: int)
    ensures UpdateLines(UpdateLines(items, itemKey, quantity), itemKey, quantity) == UpdateLines(items, itemKey, quantity)
  {
    var hit := NamedBy(itemKey);
    var mapped := SetQuantityWhere(items, hit, quantity);
    var once := Filter(mapped, IsPositive);
    FilterMembers(mapped, IsPositive);
    forall i | 0 <= i < |once| && hit(once[i]) ensures once[i].quantity == quantity {
      assert once[i] in mapped;
      var j :| 0 <= j < |mapped| && mapped[j] == once[i];
    }
    assert SetQuantityWhere(once, hit, quantity) == once;
  }

  /** Removing keeps exactly the lines whose key and unique id both differ from
      the argument. */
  lemma RemoveKeepsExactly(items: seq<Line>, itemKey: string)
    ensures forall l :: l in RemoveLines(items, itemKey) <==> l in items && !Names(l.key, itemKey) && !Names(l.uniqueId, itemKey)
  {
    FilterMembers(items, Negate(NamedBy(itemKey)));
    forall l | l in items && !Names(l.key, itemKey) && !Names(l.uniqueId, itemKey) ensures l in RemoveLines(items, itemKey) {
      var i :| 0 <= i < |items| && items[i] == l;
      assert Negate(NamedBy(itemKey))(items[i]);
    }
  }

  /** Removal lowers the totals by exactly the totals of the removed lines. */
  lemma RemoveSubtractsTotals(items: seq<Line>, itemKey: string)
    ensures TotalQuantity(RemoveLines(items, itemKey)) == TotalQuantity(items) - TotalQuantity(Filter(items, NamedBy(itemKey)))
    ensures TotalPrice(RemoveLines(items, itemKey)) == TotalPrice(items) - TotalPrice(Filter(items, NamedBy(itemKey)))
  {
    FilterSplitsTotals(items, NamedBy(itemKey));
  }


  // ---------------------------------------------------------------------------
  // The sync check of `syncCartWithLocalStorage`
  // ---------------------------------------------------------------------------

  /** `item.uniqueId || item.id` */
  function SyncId(l: Line): string {
    if l.uniqueId != "" then l.uniqueId else l.id
  }

  function SyncIds(items: seq<Line>): (ids: seq<string>)
    ensures |ids| == |items| && forall i :: 0 <= i < |items| ==> ids[i] == SyncId(items[i])
  {
    seq(|items|, i requires 0 <= i < |items| => SyncId(items[i]))
  }

  /** `a.length !== b.length || a.some((id, i) => id !== b[i])` */
  predicate ListsDiffer(a: seq<string>, b: seq<string>): (differ: bool)
    ensures differ <==> a != b
  {
    |a| != |b| || exists i :: 0 <= i < |a| && (i >= |b| || a[i] != b[i])
  }

  /** `needsSync`: the sorted identity lists differ, or the stored `totalItems`
      (None when it is not a number) is not the state's. */
  predicate NeedsSync(state: State, storedItems: seq<Line>, storedTotalItems: Option<int>): (b: bool)
    ensures storedItems == state.items && storedTotalItems == Some(state.totalItems) ==> !b
    ensures storedTotalItems != Some(state.totalItems) ==> b
  {
    ListsDiffer(StringSort.Sort(SyncIds(state.items)), StringSort.Sort(SyncIds(storedItems)))
    || storedTotalItems != Some(state.totalItems)
  }

  /** A sync is needed exactly when the two carts differ as multisets of
      identities, or in `totalItems`: the order of lines never matters. */
  lemma NeedsSyncIff(state: State, storedItems: seq<Line>, storedTotalItems: Option<int>)
    ensures NeedsSync(state, storedItems, storedTotalItems)
        <==> multiset(SyncIds(state.items)) != multiset(SyncIds(storedItems))
             || storedTotalItems != Some(state.totalItems)
  {
    var a, b := StringSort.Sort(SyncIds(state.items)), StringSort.Sort(SyncIds(storedItems));
    StringSort.SortEqualIff(SyncIds(state.items), SyncIds(storedItems));
    if !ListsDiffer(a, b) {
      assert a == b;
    }
  }

  // ---------------------------------------------------------------------------
  // The provider and its handlers
  // ---------------------------------------------------------------------------

  /** The object the handlers write: the cart with `isLoading: false, error: null`. */
  function Saved(items: seq<Line>): RawCart {
    RawCart(Some(items), Some(TotalQuantity(items)), Some(TotalPrice(items)), Some(None))
  }

  /** The message of the TypeError that reading `product.price` of an undefined product throws. */
  const MissingProductMessage := "Cannot read properties of undefined (reading 'price')"

  /** The cart provider: the reducer state and the 'cart' localStorage key. */
  class CartProvider {
    var state: State
    const storage: Slot<RawCart>

    constructor (storage: Slot<RawCart>)
      ensures state == InitialState && this.storage == storage
    {
      state := InitialState;
      this.storage := storage;
    }

    /** Writes the cart; a refused write is logged and otherwise ignored. */
    method Store(items: seq<Line>)
      modifies storage
      ensures storage.stored == if storage.writable then Some(Saved(items)) else old(storage.stored)
    {
      var _ := storage.SetItem(Saved(items));
    }

    /** `addToCart(product, quantity)`: merge or append, recompute the totals
        from scratch, dispatch, and write the cart. */
    method AddToCart(product: Option<Product>, quantity: int)
      modifies this, storage
      ensures product.None? ==>
        state == old(state).(isLoading := false, error := Some(MissingProductMessage)) &&
        storage.stored == old(storage.stored)
      ensures product.Some? ==>
        state.items == AddLine(old(state.items), product.value, quantity) &&
        StateConsistent(state) && !state.isLoading && state.error == None &&
        storage.stored == if storage.writable then Some(Saved(state.items)) else old(storage.stored)
    {
      var cartItems := state.items;
      state := Reduce(state, Request(AddOp));
      if product.None? {
        state := Reduce(state, Failure(AddOp, MissingProductMessage));
        return;
      }
      var updatedItems := AddLine(cartItems, product.value, quantity);
      var payload := RawCart(Some(updatedItems), Some(TotalQuantity(updatedItems)), Some(TotalPrice(updatedItems)), None);
      state := Reduce(state, Success(AddOp, payload));
      Store(updatedItems);
    }

    /** `updateCartItem(itemKey, newQuantity)`: set the quantity of every line
        named by key or unique id, drop non-positive lines, recompute, write. */
    method UpdateCartItem(itemKey: string, newQuantity: int)
      modifies this, storage
      ensures state.items == UpdateLines(old(state.items), itemKey, newQuantity)
      ensures StateConsistent(state) && !state.isLoading && state.error == None
      ensures storage.stored == if storage.writable then Some(Saved(state.items)) else old(storage.stored)
    {
      var cartItems := state.items;
      state := Reduce(state, Request(UpdateOp));
      var updatedItems := UpdateLines(cartItems, itemKey, newQuantity);
      var payload := RawCart(Some(updatedItems), Some(TotalQuantity(updatedItems)), Some(TotalPrice(updatedItems)), None);
      state := Reduce(state, Success(UpdateOp, payload));
      Store(updatedItems);
    }

    /** `removeCartItem(itemKey)`: drop every line named by key or unique id,
        recompute, write. */
    method RemoveCartItem(itemKey: string)
      modifies this, storage
      ensures state.items == RemoveLines(old(state.items), itemKey)
      ensures StateConsistent(state) && !state.isLoading && state.error == None
      ensures storage.stored == if storage.writable then Some(Saved(state.items)) else old(storage.stored)
    {
      var cartItems := state.items;
      state := Reduce(state, Request(RemoveOp));
      var updatedItems := RemoveLines(cartItems, itemKey);
      var payload := RawCart(Some(updatedItems), Some(TotalQuantity(updatedItems)), Some(TotalPrice(updatedItems)), None);
      state := Reduce(state, Success(RemoveOp, payload));
      Store(updatedItems);
    }

    /** `clearCart()`: empty the state and write the empty cart. */
    method ClearCart()
      modifies this, storage
      ensures state == old(state).(items := [], total := 0, totalItems := 0, isLoading := false, error := None)
      ensures storage.stored == if storage.writable then Some(Saved([])) else old(storage.stored)
    {
      state := Reduce(state, Request(ClearOp));
      state := Reduce(state, Success(ClearOp, RawCart(None, None, None, None)));
      Store([]);
    }

    /** `syncCartWithLocalStorage()`: when the stored cart has an item array and
        differs from the state, re-initialise the state from it. */
    method SyncCartWithLocalStorage() returns (synced: bool)
      modifies this
      ensures synced <==>
        storage.stored.Some? && storage.stored.value.items.Some? &&
        NeedsSync(old(state), storage.stored.value.items.value, storage.stored.value.totalItems)
      ensures state == if synced then Reduce(old(state), Initialize(storage.stored.value)) else old(state)
    {
      synced := false;
      if storage.stored.Some? && storage.stored.value.items.Some? {
        var parsed := storage.stored.value;
        if NeedsSync(state, parsed.items.value, parsed.totalItems) {
          state := Reduce(state, Initialize(parsed));
          synced := true;
        }
      }
    }
  }

  // ---------------------------------------------------------------------------
  // Worked scenarios
  // ---------------------------------------------------------------------------

  const Pixel := Product(Some("pixel-7a"), "Pixel 7a", "", 69999, 0, None)

  /** Adding the phone once, then twice more: one line of three. */
  lemma PixelAdds()
    ensures AddLine([], Pixel, 1) == [NewLine(Pixel, 1)]
    ensures AddLine([NewLine(Pixel, 1)], Pixel, 2) == [NewLine(Pixel, 3)]
    ensures TotalPrice([NewLine(Pixel, 1)]) == 69999 && TotalPrice([NewLine(Pixel, 3)]) == 209997
  {
    assert FindFirst([NewLine(Pixel, 1)], Matches(Pixel)) == 0;
    TotalsCons(NewLine(Pixel, 1), []);
    TotalsCons(NewLine(Pixel, 3), []);
    assert [NewLine(Pixel, 1)] + [] == [NewLine(Pixel, 1)];
    assert [NewLine(Pixel, 3)] + [] == [NewLine(Pixel, 3)];
  }

  /** Updating the line of three to one, then removing it by the product's id. */
  lemma PixelUpdateRemove()
    ensures UpdateLines([NewLine(Pixel, 3)], "pixel-7a", 1) == [NewLine(Pixel, 1)]
    ensures RemoveLines([NewLine(Pixel, 1)], "pixel-7a") == []
  {
    assert SetQuantityWhere([NewLine(Pixel, 3)], NamedBy("pixel-7a"), 1) == [NewLine(Pixel, 1)];
    assert !Negate(NamedBy("pixel-7a"))(NewLine(Pixel, 1));
  }

  /** One product without add-ons: 699.99 once, twice more, back to one, removed. */
  lemma PixelScenario()
    ensures var s1 := AddLine([], Pixel, 1);
      var s2 := AddLine(s1, Pixel, 2);
      var s3 := UpdateLines(s2, "pixel-7a", 1);
      var s4 := RemoveLines(s3, "pixel-7a");
      |s1| == 1 && TotalPrice(s1) == 69999 &&
      |s2| == 1 && s2[0].quantity == 3 && TotalPrice(s2) == 209997 &&
      TotalPrice(s3) == 69999 && s4 == [] && TotalPrice(s4) == 0
  {
    PixelAdds();
    PixelUpdateRemove();
  }

  const FaradayBlack := Product(Some("faraday-bag"), "Faraday Bag", "", 4999, 0, Some([AddonGroup("Color", ["Black"])]))
  const FaradayRed := Product(Some("faraday-bag"), "Faraday Bag", "", 4999, 0, Some([AddonGroup("Color", ["Red"])]))

  /** The two colours have different unique ids: their selections print with different lengths. */
  lemma FaradayIdsDiffer()
    ensures HasAddons(FaradayBlack.selection) && HasAddons(FaradayRed.selection)
    ensures UniqueIdOf(FaradayBlack) != UniqueIdOf(FaradayRed)
  {
    assert AnySelected([AddonGroup("Color", ["Black"])]);
    assert AnySelected([AddonGroup("Color", ["Red"])]);
    assert |SelectionJson([AddonGroup("Color", ["Black"])])| == |SelectionJson([AddonGroup("Color", ["Red"])])| + 2;
  }

  /** One product in two colours: two lines, two items, 2 x 49.99, one shared key. */
  lemma FaradayScenario()
    ensures var s := AddLine(AddLine([], FaradayBlack, 1), FaradayRed, 1);
      |s| == 2 && TotalQuantity(s) == 2 && TotalPrice(s) == 9998 && s[0].key == s[1].key
  {
    FaradayIdsDiffer();
    DistinctSelectionsStaySeparate([], FaradayBlack, FaradayRed, 1, 1);
    var black, red := NewLine(FaradayBlack, 1), NewLine(FaradayRed, 1);
    assert [] + [black, red] == [black, red];
    TotalsOfTwo(black, red);
  }

  /** The totals of a two-line cart. */
  lemma TotalsOfTwo(a: Line, b: Line)
    ensures TotalQuantity([a, b]) == a.quantity + b.quantity
    ensures TotalPrice([a, b]) == a.price * a.quantity + b.price * b.quantity
  {
    TotalsCons(a, [b]);
    TotalsCons(b, []);
    assert [b] + [] == [b] && [a] + [b] == [a, b];
  }

}
