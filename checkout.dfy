/**
  The checkout page: it reads the direct cart ('direct_cart_v1'), builds the
  order body from the form, posts it to the order endpoint and, on success,
  empties the direct cart. The endpoint is a function parameter of the submit
  handler; `ReplyOf` says what the page receives from the endpoint's responses.
 */
module Checkout {
  import opened Carts
  import CreateOrder

  /** An offered payment method. */
  datatype PaymentMethod = PaymentMethod(id: string, title: string, description: string)

  /** The two methods the page offers. */
  const DefaultMethods := [
    PaymentMethod("cod", "Cash on Delivery", "Pay with cash upon delivery."),
    PaymentMethod("stripe", "Credit Card (Stripe)", "Pay with your credit card via Stripe.")
  ]

  /** The main form: contact and address fields, and the chosen payment method. */
  datatype FormData = FormData(contact: CreateOrder.Address, paymentMethod: string)

  const BlankAddress := CreateOrder.Address("", "", "", "", "", "", "", "US", "", "", "")

  const EmptyCartMessage := "Your cart is empty. Please add items to your cart before checking out."
  const FailedOrderMessage := "Failed to create order"

  /** `getDirectCart()`: the parsed value, or `{items: [], count: 0}` when the key
      is missing or does not parse. */
  function GetDirectCart(stored: Option<DirectCart>): (c: DirectCart)
    ensures stored.None? ==> c == EmptyDirectCart
    ensures stored.Some? ==> c == stored.value
  {
    if stored.Some? then stored.value else EmptyDirectCart
  }

  /** `methods.find(m => m.id === id)`: the first method with that id. */
  function FindMethod(methods: seq<PaymentMethod>, id: string): (r: Option<PaymentMethod>)
    ensures r.Some? ==> r.value in methods && r.value.id == id
    ensures r.None? <==> forall k :: 0 <= k < |methods| ==> methods[k].id != id
    ensures forall k :: (0 <= k < |methods| && methods[k].id == id &&
                         (forall j :: 0 <= j < k ==> methods[j].id != id)) ==> r == Some(methods[k])
  {
    if methods == [] then None
    else if methods[0].id == id then Some(methods[0])
    else
      var r := FindMethod(methods[1..], id);
      assert forall k :: 1 <= k < |methods| ==> methods[k] == methods[1..][k - 1];
      r
  }

  /** `find(...)?.title || 'Cash on Delivery'` */
  function PaymentTitle(methods: seq<PaymentMethod>, id: string): (title: string)
    ensures title != ""
    ensures forall k :: (0 <= k < |methods| && methods[k].id == id &&
                         (forall j :: 0 <= j < k ==> methods[j].id != id)) ==>
                        title == (if methods[k].title != "" then methods[k].title else "Cash on Delivery")
    ensures (forall k :: 0 <= k < |methods| ==> methods[k].id != id) ==> title == "Cash on Delivery"
  {
    var m := FindMethod(methods, id);
    if m.Some? && m.value.title != "" then m.value.title else "Cash on Delivery"
  }

  /** With the offered methods, each id gets its own title and any other id is
      sent titled "Cash on Delivery". */
  lemma DefaultTitles(id: string)
    ensures PaymentTitle(DefaultMethods, "cod") == "Cash on Delivery"
    ensures PaymentTitle(DefaultMethods, "stripe") == "Credit Card (Stripe)"
    ensures id != "cod" && id != "stripe" ==> PaymentTitle(DefaultMethods, id) == "Cash on Delivery"
  {
    assert FindMethod(DefaultMethods[1..], "stripe") == Some(DefaultMethods[1]);
    if id != "cod" && id != "stripe" {
      assert FindMethod(DefaultMethods, id).None?;
    }
  }

  /** The `orderData` body: shipping from the form; billing from the billing form
      when the box is ticked, else a copy of shipping; the cart as held. */
  function OrderData(form: FormData, billingDifferent: bool, billingForm: CreateOrder.Address,
                     methods: seq<PaymentMethod>, cart: DirectCart): (req: CreateOrder.OrderRequest)
    ensures req.shipping == form.contact && req.cart == cart && req.paymentMethod == form.paymentMethod
    ensures req.billing == if billingDifferent then billingForm else form.contact
    ensures req.paymentMethodTitle == PaymentTitle(methods, form.paymentMethod)
  {
    CreateOrder.OrderRequest(form.paymentMethod, PaymentTitle(methods, form.paymentMethod), form.contact,
                             if billingDifferent then billingForm else form.contact, cart)
  }

  /** What `fetch` gives the page: a 2xx reply with the order (and possibly a
      payment URL), a non-2xx reply with its `error` field, or a rejected request. */
  datatype Reply =
    | Ok(order: CreateOrder.Order, paymentUrl: Option<string>)
    | NotOk(error: Option<string>)
    | FetchFailed(message: string)

  /** The reply the page receives from the order endpoint's response. */
  function ReplyOf(r: CreateOrder.Response): (reply: Reply)
    ensures r.Created? <==> reply.Ok?
    ensures r.ServerError? ==> reply == NotOk(Some(r.error))
  {
    match r
    case Created(order) => Ok(order, None)
    case ServerError(error, _) => NotOk(Some(error))
  }

  /** The message the page shows for a failed submit, None after a success. */
  function ErrorText(reply: Reply): (e: Option<string>)
    ensures reply.Ok? <==> e.None?
    ensures reply.NotOk? && reply.error.Some? && reply.error.value != "" ==> e == reply.error
    ensures reply.NotOk? && (reply.error.None? || reply.error.value == "") ==> e == Some(FailedOrderMessage)
    ensures reply.FetchFailed? ==> e == Some(reply.message)
  {
    match reply
    case Ok(_, _) => None
    case NotOk(error) => Some(if error.Some? && error.value != "" then error.value else FailedOrderMessage)
    case FetchFailed(message) => Some(message)
  }

  /** `!cart.items || cart.items.length === 0` */
  predicate CartEmpty(cart: DirectCart) {
    cart.items.None? || cart.items.value == []
  }

  /** The checkout page's state and the 'direct_cart_v1' key it reads and clears. */
  class CheckoutPage {
    var cart: DirectCart
    var form: FormData
    var billingDifferent: bool
    var billingForm: CreateOrder.Address
    var methods: seq<PaymentMethod>
    var isSubmitting: bool
    var error: Option<string>
    var orderComplete: bool
    var orderDetails: Option<CreateOrder.Order>
    const storage: Slot<DirectCart>

    /** Mounting the page: default form state and the cart read from the key. */
    constructor (storage: Slot<DirectCart>)
      ensures this.storage == storage && cart == GetDirectCart(storage.stored)
      ensures form == FormData(BlankAddress, "cod") && !billingDifferent && billingForm == BlankAddress
      ensures methods == DefaultMethods && !isSubmitting && error.None? && !orderComplete && orderDetails.None?
    {
      this.storage := storage;
      cart := GetDirectCart(storage.stored);
      form := FormData(BlankAddress, "cod");
      billingDifferent := false;
      billingForm := BlankAddress;
      methods := DefaultMethods;
      isSubmitting := false;
      error := None;
      orderComplete := false;
      orderDetails := None;
    }

    /**
      The success branch of `handleSubmit`: record the order, write the empty
      direct cart (a refused write is ignored) and re-read it, as the page's own
      `directCartUpdated` listener does; a Stripe order with a payment URL
      redirects there.
     */
    method CompleteOrder(order: CreateOrder.Order, paymentUrl: Option<string>) returns (redirect: Option<string>)
      modifies this, storage
      ensures orderComplete && orderDetails == Some(order) && error == old(error) && isSubmitting == old(isSubmitting)
      ensures storage.stored == (if storage.writable then Some(EmptyDirectCart) else old(storage.stored))
      ensures cart == GetDirectCart(storage.stored)
      ensures redirect == (if form.paymentMethod == "stripe" && paymentUrl.Some? && paymentUrl.value != ""
                           then paymentUrl else None)
      ensures form == old(form) && billingDifferent == old(billingDifferent) &&
              billingForm == old(billingForm) && methods == old(methods)
    {
      orderDetails := Some(order);
      orderComplete := true;
      var _ := storage.SetItem(EmptyDirectCart);
      cart := GetDirectCart(storage.stored);
      redirect := None;
      if form.paymentMethod == "stripe" && paymentUrl.Some? && paymentUrl.value != "" {
        redirect := paymentUrl;
      }
    }

    /**
      `handleSubmit`: refuse an empty cart; otherwise send the order body to
      `respond`, complete the order on success and show the error text otherwise.
     */
    method HandleSubmit(respond: CreateOrder.OrderRequest -> Reply)
      returns (sent: Option<CreateOrder.OrderRequest>, redirect: Option<string>)
      modifies this, storage
      ensures CartEmpty(old(cart)) ==>
        sent.None? && redirect.None? && error == Some(EmptyCartMessage) &&
        cart == old(cart) && isSubmitting == old(isSubmitting) && orderComplete == old(orderComplete) &&
        orderDetails == old(orderDetails) && storage.stored == old(storage.stored)
      ensures !CartEmpty(old(cart)) ==>
        sent == Some(OrderData(form, billingDifferent, billingForm, methods, old(cart))) && !isSubmitting &&
        error == ErrorText(respond(sent.value))
      ensures !CartEmpty(old(cart)) && respond(sent.value).Ok? ==>
        orderComplete && orderDetails == Some(respond(sent.value).order) &&
        storage.stored == (if storage.writable then Some(EmptyDirectCart) else old(storage.stored)) &&
        cart == GetDirectCart(storage.stored) &&
        redirect == (if form.paymentMethod == "stripe" && respond(sent.value).paymentUrl.Some? &&
                        respond(sent.value).paymentUrl.value != ""
                     then respond(sent.value).paymentUrl else None)
      ensures !CartEmpty(old(cart)) && !respond(sent.value).Ok? ==>
        redirect.None? && cart == old(cart) && storage.stored == old(storage.stored) &&
        orderComplete == old(orderComplete) && orderDetails == old(orderDetails)
      ensures form == old(form) && billingDifferent == old(billingDifferent) &&
              billingForm == old(billingForm) && methods == old(methods)
    {
      if CartEmpty(cart) {
        error := Some(EmptyCartMessage);
        return None, None;
      }
      isSubmitting := true;
      error := None;
      var orderData := OrderData(form, billingDifferent, billingForm, methods, cart);
      sent := Some(orderData);
      var reply := respond(orderData);
      if reply.Ok? {
        redirect := CompleteOrder(reply.order, reply.paymentUrl);
      } else {
        redirect := None;
        error := ErrorText(reply);
      }
      isSubmitting := false;
    }
  }

  /**
    A non-empty cart some line of which has no `totals` (every line the product
    page writes), posted to the order endpoint as written, comes back as a
    "Server error" and the cart is kept; posted to the corrected endpoint, it
    succeeds.
   */
  lemma CartWithoutTotalsRefused(form: FormData, billingDifferent: bool, billingForm: CreateOrder.Address,
                                 methods: seq<PaymentMethod>, cart: DirectCart, id: int, number: string, now: string)
    requires cart.items.Some? && CreateOrder.SomeLineWithoutTotals(cart.items.value)
    ensures var req := OrderData(form, billingDifferent, billingForm, methods, cart);
      ErrorText(ReplyOf(CreateOrder.PostAsWritten(req, id, number, now))) == Some(CreateOrder.ServerErrorText) &&
      ErrorText(ReplyOf(CreateOrder.Post(req, id, number, now))).None?
  {
  }
}
