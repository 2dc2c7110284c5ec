/**
  The order-creation endpoint (POST /api/create-order): it answers with a mock
  order built from the request body, or with a 500 reply when building it throws.
  The two random draws and the clock reading are parameters.
 */
module CreateOrder {
  import opened Carts

  /** A shipping or billing address as sent by the checkout page. */
  datatype Address = Address(
    firstName: string, lastName: string, address1: string, address2: string, city: string,
    state: string, postcode: string, country: string, email: string, phone: string, company: string)

  /** The request body: payment method and title, the two addresses and the cart as stored. */
  datatype OrderRequest = OrderRequest(
    paymentMethod: string, paymentMethodTitle: string, shipping: Address, billing: Address, cart: DirectCart)

  /** One entry of `line_items`; `total` None is an undefined `totals.line_total`. */
  datatype LineItem = LineItem(id: string, name: string, quantity: int, price: int, total: Option<int>)

  datatype Order = Order(
    id: int, number: string, status: string, dateCreated: string, total: Option<int>,
    lineItems: seq<LineItem>, billing: Address, shipping: Address,
    paymentMethod: string, paymentMethodTitle: string)

  /** The JSON reply: the order, or status 500 with `{error, message}`. */
  datatype Response = Created(order: Order) | ServerError(error: string, message: string)

  const ServerErrorText := "Server error"
  const ItemsMissingMessage := "Cannot read properties of undefined (reading 'map')"
  const TotalsMissingMessage := "Cannot read properties of undefined (reading 'line_total')"

  /** The title the route assigns, ignoring the title the client sent. */
  function RouteTitle(paymentMethod: string): (title: string)
    ensures paymentMethod == "bacs" ==> title == "Direct Bank Transfer"
    ensures paymentMethod == "cheque" ==> title == "Check Payment"
    ensures paymentMethod != "bacs" && paymentMethod != "cheque" ==> title == "Credit Card"
  {
    if paymentMethod == "bacs" then "Direct Bank Transfer"
    else if paymentMethod == "cheque" then "Check Payment"
    else "Credit Card"
  }

  /** The `line_items` entry for one cart line, with its line total when it has one. */
  function LineItemOf(l: Line): (item: LineItem)
    ensures item.id == l.id && item.name == l.name && item.quantity == l.quantity && item.price == l.price
    ensures item.total.Some? <==> l.lineTotal.Some?
    ensures l.lineTotal.Some? ==> item.total == l.lineTotal
  {
    LineItem(l.id, l.name, l.quantity, l.price, l.lineTotal)
  }

  /** The order for `items`, the rest taken from the request and the parameters. */
  function MockOrder(req: OrderRequest, items: seq<Line>, id: int, number: string, now: string): (o: Order)
    ensures |o.lineItems| == |items| && forall i :: 0 <= i < |items| ==> o.lineItems[i] == LineItemOf(items[i])
    ensures |o.number| >= 3 && o.number[..3] == "PS-" && o.status == "processing" && o.total == req.cart.total
    ensures o.billing == req.billing && o.shipping == req.shipping
    ensures o.paymentMethod == req.paymentMethod && o.paymentMethodTitle == RouteTitle(req.paymentMethod)
  {
    Order(id, "PS-" + number, "processing", now, req.cart.total,
          seq(|items|, i requires 0 <= i < |items| => LineItemOf(items[i])),
          req.billing, req.shipping, req.paymentMethod, RouteTitle(req.paymentMethod))
  }

  /** Whether some line lacks `totals`. */
  predicate SomeLineWithoutTotals(items: seq<Line>) {
    exists i :: 0 <= i < |items| && items[i].lineTotal.None?
  }

  /**
    `POST` as written: reading `item.totals.line_total` throws on the first line
    without `totals`, and so does mapping a cart without an item array.
   */
  function PostAsWritten(req: OrderRequest, id: int, number: string, now: string): (r: Response)
    ensures r.ServerError? <==> req.cart.items.None? || SomeLineWithoutTotals(req.cart.items.value)
    ensures r.ServerError? ==> r.error == ServerErrorText
    ensures r.Created? ==> r.order == MockOrder(req, req.cart.items.value, id, number, now)
  {
    if req.cart.items.None? then ServerError(ServerErrorText, ItemsMissingMessage)
    else if SomeLineWithoutTotals(req.cart.items.value) then ServerError(ServerErrorText, TotalsMissingMessage)
    else Created(MockOrder(req, req.cart.items.value, id, number, now))
  }

  /**
    `POST` with the line total read optionally (`item.totals?.line_total`), as
    the checkout summary reads it: only a cart without an item array fails.
   */
  function Post(req: OrderRequest, id: int, number: string, now: string): (r: Response)
    ensures r.ServerError? <==> req.cart.items.None?
    ensures r.ServerError? ==> r.error == ServerErrorText
    ensures r.Created? ==>
      var items := req.cart.items.value;
      |r.order.lineItems| == |items| &&
      (forall i :: 0 <= i < |items| ==>
         r.order.lineItems[i].id == items[i].id && r.order.lineItems[i].name == items[i].name &&
         r.order.lineItems[i].quantity == items[i].quantity && r.order.lineItems[i].price == items[i].price &&
         r.order.lineItems[i].total == items[i].lineTotal) &&
      r.order.status == "processing" && r.order.total == req.cart.total &&
      r.order.billing == req.billing && r.order.shipping == req.shipping &&
      r.order.paymentMethod == req.paymentMethod && r.order.paymentMethodTitle == RouteTitle(req.paymentMethod)
  {
    if req.cart.items.None? then ServerError(ServerErrorText, ItemsMissingMessage)
    else Created(MockOrder(req, req.cart.items.value, id, number, now))
  }

  /** Where every line carries `totals`, the corrected route answers exactly as
      the route as written. */
  lemma AgreesWhenTotalsPresent(req: OrderRequest, id: int, number: string, now: string)
    requires req.cart.items.Some?
    requires forall i :: 0 <= i < |req.cart.items.value| ==> req.cart.items.value[i].lineTotal.Some?
    ensures PostAsWritten(req, id, number, now) == Post(req, id, number, now)
  {
  }

  /** The client's title is never used: a cash-on-delivery order comes back
      titled "Credit Card" whatever the page sent. */
  lemma CashOnDeliveryTitledCreditCard(req: OrderRequest, id: int, number: string, now: string)
    requires req.paymentMethod == "cod" && req.cart.items.Some?
    ensures Post(req, id, number, now).order.paymentMethodTitle == "Credit Card"
  {
  }

  /** A line as the product page stores it in 'direct_cart_v1': no `totals`. */
  const PixelLine := Line("pixel-7a", "pixel-7a", "item_pixel-7a", "Pixel 7a", 69999, 1,
                          Some(AddonSnapshot(69999, 0, false, [])), None)

  const NoAddress := Address("", "", "", "", "", "", "", "US", "", "", "")

  /** The body checkout sends for a one-line cart written by the product page. */
  const ProductPageRequest := OrderRequest("cod", "Cash on Delivery", NoAddress, NoAddress,
                                           DirectCart(Some([PixelLine]), Some(1), None))

  /** Counterexample: the route as written answers such a body with a 500,
      while the corrected route creates the order with the line's total left undefined. */
  lemma ProductPageCartFails(id: int, number: string, now: string)
    ensures PostAsWritten(ProductPageRequest, id, number, now) == ServerError(ServerErrorText, TotalsMissingMessage)
    ensures var r := Post(ProductPageRequest, id, number, now);
      r.Created? && |r.order.lineItems| == 1 && r.order.lineItems[0].quantity == 1 && r.order.lineItems[0].total.None?
  {
    assert ProductPageRequest.cart.items.value[0].lineTotal.None?;
  }
}
