/**
 * The cart page: the cart fetched from the server, quantity changes and
 * removal, the checkout form, and the checkout orchestration that either
 * creates a cash order directly or runs the two-phase payment-gateway
 * handshake (create a gateway order, open the widget, verify the payment).
 */
module Cart {

  import opened Support
  import opened Text
  import opened Catalog

  /** The delivery fee of 2.99, in cents. */
  const DeliveryFee: int := 299

  /**
   * `cart.total + 2.99`: the server's subtotal plus `DeliveryFee`, in cents.
   * It is the "Total" of the order summary and the amount every payment
   * request carries.
   */
  function GrandTotal(cart: CartData): (amount: int)
    ensures amount > cart.total
    ensures cart.total >= 0 ==> amount >= DeliveryFee
  {
    cart.total + DeliveryFee
  }

  /** A line of an order request: `{ menuItem: item.menuItem._id, quantity: item.quantity }`. */
  datatype OrderLine = OrderLine(menuItem: string, quantity: int)

  /** `cart.items.map(...)`: one order line per cart line, in the cart's order. */
  function OrderLines(items: seq<CartItem>): (lines: seq<OrderLine>)
    ensures |lines| == |items|
    ensures forall i :: 0 <= i < |items| ==>
      lines[i].menuItem == items[i].menuItem.id && lines[i].quantity == items[i].quantity
  {
    if items == [] then []
    else [OrderLine(items[0].menuItem.id, items[0].quantity)] + OrderLines(items[1..])
  }

  /** `cart.items[0]?.menuItem.restaurant`: the order's restaurant, taken from the first line. */
  function FirstRestaurant(items: seq<CartItem>): (r: Option<string>)
    ensures r.Some? <==> items != [] && items[0].menuItem.restaurantId.Some?
    ensures r.Some? ==> r == items[0].menuItem.restaurantId
  {
    if items == [] then None else items[0].menuItem.restaurantId
  }

  /** The checkout form's state `checkoutData`. */
  datatype CheckoutData = CheckoutData(
    deliveryAddress: string, paymentMethod: string,
    cardNumber: string, cardExpiry: string, cardCvv: string, nameOnCard: string)

  /** The form's initial value, and its value after a successful order: the gateway selected, everything else empty. */
  const DefaultCheckout := CheckoutData("", "razorpay", "", "", "", "")

  /** The `name` attribute of a checkout input. */
  datatype CheckoutField =
    | DeliveryAddressField | PaymentMethodField
    | CardNumberField | CardExpiryField | CardCvvField | NameOnCardField

  function FieldValue(d: CheckoutData, f: CheckoutField): string {
    match f
    case DeliveryAddressField => d.deliveryAddress
    case PaymentMethodField => d.paymentMethod
    case CardNumberField => d.cardNumber
    case CardExpiryField => d.cardExpiry
    case CardCvvField => d.cardCvv
    case NameOnCardField => d.nameOnCard
  }

  /** `{ ...checkoutData, [name]: value }`: the named field changes and no other. */
  function SetField(d: CheckoutData, f: CheckoutField, value: string): (r: CheckoutData)
    ensures FieldValue(r, f) == value
    ensures forall g :: g != f ==> FieldValue(r, g) == FieldValue(d, g)
  {
    match f
    case DeliveryAddressField => d.(deliveryAddress := value)
    case PaymentMethodField => d.(paymentMethod := value)
    case CardNumberField => d.(cardNumber := value)
    case CardExpiryField => d.(cardExpiry := value)
    case CardCvvField => d.(cardCvv := value)
    case NameOnCardField => d.(nameOnCard := value)
  }

  datatype CardDetails = CardDetails(cardNumber: string, cardExpiry: string, cardCvv: string, nameOnCard: string)

  /** `paymentDetails`: the four card fields when the method is 'card', otherwise null. */
  function PaymentDetails(d: CheckoutData): (r: Option<CardDetails>)
    ensures r.Some? <==> d.paymentMethod == "card"
    ensures r.Some? ==> r.value == CardDetails(d.cardNumber, d.cardExpiry, d.cardCvv, d.nameOnCard)
  {
    if d.paymentMethod == "card" then Some(CardDetails(d.cardNumber, d.cardExpiry, d.cardCvv, d.nameOnCard))
    else None
  }

  /** The body of `POST orders`. */
  datatype OrderPayload = OrderPayload(
    userId: string, restaurant: string, items: seq<OrderLine>, totalAmount: int,
    deliveryAddress: string, paymentMethod: string, paymentDetails: Option<CardDetails>)

  /** Where the checks of `placeOrder` lead, before it sends anything. */
  datatype Decision =
    | LoginRequired
    | PayThroughGateway
    | RestaurantMissing
    | FieldsMissing
    | SubmitOrder(order: OrderPayload)

  /**
   * The validation chain of `placeOrder`, in the code's order: a signed-in
   * user, then the payment method (the gateway path goes no further here),
   * then a restaurant on the first cart line, then the required fields; an
   * order that passes is built from the cart and the form.
   */
  function Decide(userId: Option<string>, cart: CartData, form: CheckoutData): (d: Decision)
    ensures d.LoginRequired? <==> !Truthy(userId)
    ensures d.PayThroughGateway? <==> Truthy(userId) && form.paymentMethod == "razorpay"
    ensures d.RestaurantMissing? <==>
      Truthy(userId) && form.paymentMethod != "razorpay" && !Truthy(FirstRestaurant(cart.items))
    ensures d.FieldsMissing? <==>
      Truthy(userId) && form.paymentMethod != "razorpay" && Truthy(FirstRestaurant(cart.items)) &&
      (form.deliveryAddress == "" || form.paymentMethod == "")
    ensures d.SubmitOrder? ==>
      && d.order.userId == userId.value
      && Some(d.order.restaurant) == FirstRestaurant(cart.items)
      && d.order.items == OrderLines(cart.items)
      && d.order.totalAmount == GrandTotal(cart)
      && d.order.deliveryAddress == form.deliveryAddress != ""
      && d.order.paymentMethod == form.paymentMethod != ""
      && d.order.paymentDetails == PaymentDetails(form)
  {
    if !Truthy(userId) then LoginRequired
    else if form.paymentMethod == "razorpay" then PayThroughGateway
    else
      var restaurantId := FirstRestaurant(cart.items);
      if !Truthy(restaurantId) then RestaurantMissing
      else
        var lines := OrderLines(cart.items);
        if |lines| == 0 || form.deliveryAddress == "" || form.paymentMethod == "" then FieldsMissing
        else
          SubmitOrder(OrderPayload(userId.value, restaurantId.value, lines, GrandTotal(cart),
                                   form.deliveryAddress, form.paymentMethod, PaymentDetails(form)))
  }

  /**
   * The restaurant check comes before the field check: off the gateway path,
   * an empty cart is reported as a missing restaurant whatever the form holds.
   */
  lemma EmptyCartReportsRestaurant(userId: Option<string>, cart: CartData, form: CheckoutData)
    requires Truthy(userId) && form.paymentMethod != "razorpay" && cart.items == []
    ensures Decide(userId, cart, form) == RestaurantMissing
  {
  }

  /** An accepted order has one line per cart line, in order, each carrying that line's item and quantity. */
  lemma {:induction false} SubmittedLinesFollowCart(userId: Option<string>, cart: CartData, form: CheckoutData, i: nat)
    requires Decide(userId, cart, form).SubmitOrder?
    requires i < |cart.items|
    ensures |Decide(userId, cart, form).order.items| == |cart.items|
    ensures Decide(userId, cart, form).order.items[i] == OrderLine(cart.items[i].menuItem.id, cart.items[i].quantity)
  {
  }

  /** The message and style of the status banner (`orderStatus`). */
  datatype StatusKind = NoStatus | ErrorStatus | SuccessStatus
  datatype OrderStatus = OrderStatus(message: string, kind: StatusKind)

  const NoOrderStatus := OrderStatus("", NoStatus)
  const LoginToOrder := OrderStatus("Please login to place an order", ErrorStatus)
  const MissingRestaurantStatus := OrderStatus("Restaurant information missing in cart.", ErrorStatus)
  const MissingFieldsStatus := OrderStatus("Please fill all required fields.", ErrorStatus)
  const OrderPlacedMessage := "Order placed successfully!"
  const PaymentDoneMessage := "Payment successful! Order placed."
  const GatewayStartFailed := "Payment initialization failed"
  const OrderFailed := "Failed to place order"
  const OrderError := "Error placing order. Please try again."

  /** The redirect to the orders page two seconds after an order is placed, carrying the success message. */
  const OrderRedirect: Effect<Request> := NavigateLater(2000, "/orders", Some(OrderPlacedMessage))

  /** The public key the gateway widget is opened with. */
  const GatewayKey := "rzp_test_q37h619q7PNVMd"

  /** The answer of `POST create-razorpay-order`. */
  datatype GatewayOrder = GatewayOrder(id: string, amount: int, currency: string)

  /** What the widget passes to its success handler. */
  datatype PaymentResult = PaymentResult(orderId: string, paymentId: string, signature: string)

  /** The answer of `POST orders` and `POST verify-payment`: `{ success, message }`. */
  datatype Ack = Ack(success: bool, message: Option<string>)

  /**
   * The options the widget was opened with, together with what its handler
   * closes over: the signed-in user, the cart and the delivery address as
   * they were when the payment was started.
   */
  datatype WidgetOptions = WidgetOptions(
    key: string, amount: int, currency: string, orderId: string,
    userId: string, cart: CartData, deliveryAddress: string)

  /** The body of `POST verify-payment`. */
  datatype VerifyPayload = VerifyPayload(
    orderId: string, paymentId: string, signature: string, userId: string,
    restaurantId: Option<string>, items: seq<OrderLine>, totalAmount: int, deliveryAddress: string)

  /** The requests of the cart page; `user` is the path segment `${userId}`. */
  datatype Request =
    | FetchCart(user: string)                                      // GET cart/{user}
    | UpdateQuantity(user: string, menuItemId: string, quantity: int)  // PUT cart/{user}/update
    | RemoveItem(user: string, menuItemId: string)                 // DELETE cart/{user}/remove/{menuItemId}
    | CreateGatewayOrder(amount: int, receipt: string)             // POST create-razorpay-order
    | CreateOrder(order: OrderPayload)                             // POST orders
    | VerifyPayment(payment: VerifyPayload)                        // POST verify-payment

  /** A missing user id interpolates into a path as the text "null". */
  function UserSegment(userId: Option<string>): string {
    if userId.Some? then userId.value else "null"
  }

  /** The receipt of a gateway order: `order_${Date.now()}`. */
  function Receipt(now: nat): string {
    "order_" + Show(now)
  }

  /** The verification request the widget's handler sends for a payment result. */
  function Verification(w: WidgetOptions, p: PaymentResult): VerifyPayload {
    VerifyPayload(p.orderId, p.paymentId, p.signature, w.userId,
                  FirstRestaurant(w.cart.items), OrderLines(w.cart.items), GrandTotal(w.cart), w.deliveryAddress)
  }

  /** The quantity the "-" control requests, or None while it is disabled (quantity at most 1). */
  function DecrementTarget(item: CartItem): (q: Option<int>)
    ensures q.None? <==> item.quantity <= 1
    ensures q.Some? ==> q.value == item.quantity - 1 && q.value >= 1
  {
    if item.quantity <= 1 then None else Some(item.quantity - 1)
  }

  /** What the page shows. */
  datatype Screen = LoadingScreen | LoginPrompt | EmptyCartPrompt | CartList | CheckoutForm

  /** The whole state of the cart page. */
  datatype CartState = CartState(
    cart: Option<CartData>, loading: bool, showCheckout: bool,
    checkout: CheckoutData, status: OrderStatus, processingPayment: bool)

  /** The branch of the page's markup that is rendered. */
  function ScreenOf(s: CartState): (v: Screen)
    ensures v == CheckoutForm ==> !s.loading && s.cart.Some? && |s.cart.value.items| > 0 && s.showCheckout
    ensures v == EmptyCartPrompt <==> !s.loading && s.cart.Some? && |s.cart.value.items| == 0
    ensures v == LoginPrompt <==> !s.loading && s.cart.None?
  {
    if s.loading then LoadingScreen
    else if s.cart.None? then LoginPrompt
    else if |s.cart.value.items| == 0 then EmptyCartPrompt
    else if !s.showCheckout then CartList
    else CheckoutForm
  }

  class CartView {
    var cart: Option<CartData>
    var loading: bool
    var showCheckout: bool
    var checkout: CheckoutData
    var status: OrderStatus
    var processingPayment: bool

    function State(): CartState
      reads this
    {
      CartState(cart, loading, showCheckout, checkout, status, processingPayment)
    }

    constructor ()
      ensures State() == CartState(None, true, false, DefaultCheckout, NoOrderStatus, false)
    {
      cart, loading, showCheckout := None, true, false;
      checkout, status, processingPayment := DefaultCheckout, NoOrderStatus, false;
    }

    /** The mount effect: fetch the cart of the signed-in user, if any. */
    method Load(userId: Option<string>, reply: Reply<Option<CartData>>) returns (effects: seq<Effect<Request>>)
      modifies this
      ensures !Truthy(userId) ==> effects == [] && State() == old(State()).(loading := false)
      ensures Truthy(userId) ==> effects == [Send(FetchCart(userId.value))]
      ensures Truthy(userId) ==>
        State() == old(State()).(loading := false, cart := if reply.Ok? then reply.data else old(cart))
    {
      if !Truthy(userId) {
        loading := false;
        return [];
      }
      effects := [Send(FetchCart(userId.value))];
      if reply.Ok? {
        cart := reply.data;
      }
      loading := false;
    }

    /** `updateQuantity`: write the new quantity, then re-fetch the whole cart. */
    method UpdateQuantity(userId: Option<string>, menuItemId: string, quantity: int,
                          putReply: Reply<()>, getReply: Reply<Option<CartData>>)
      returns (effects: seq<Effect<Request>>)
      modifies this
      ensures effects ==
        [Send(Request.UpdateQuantity(UserSegment(userId), menuItemId, quantity))] +
        (if putReply.Ok? then [Send(FetchCart(UserSegment(userId)))] else [])
      ensures State() == old(State()).(cart := if putReply.Ok? && getReply.Ok? then getReply.data else old(cart))
    {
      var user := UserSegment(userId);
      effects := [Send(Request.UpdateQuantity(user, menuItemId, quantity))];
      if putReply.Fail? {
        return;
      }
      effects := effects + [Send(FetchCart(user))];
      if getReply.Ok? {
        cart := getReply.data;
      }
    }

    /** `removeItem`: delete the line, then re-fetch the whole cart. */
    method RemoveItem(userId: Option<string>, menuItemId: string,
                      deleteReply: Reply<()>, getReply: Reply<Option<CartData>>)
      returns (effects: seq<Effect<Request>>)
      modifies this
      ensures effects ==
        [Send(Request.RemoveItem(UserSegment(userId), menuItemId))] +
        (if deleteReply.Ok? then [Send(FetchCart(UserSegment(userId)))] else [])
      ensures State() == old(State()).(cart := if deleteReply.Ok? && getReply.Ok? then getReply.data else old(cart))
    {
      var user := UserSegment(userId);
      effects := [Send(Request.RemoveItem(user, menuItemId))];
      if deleteReply.Fail? {
        return;
      }
      effects := effects + [Send(FetchCart(user))];
      if getReply.Ok? {
        cart := getReply.data;
      }
    }

    /** `handleCheckoutChange` */
    method HandleCheckoutChange(field: CheckoutField, value: string)
      modifies this
      ensures State() == old(State()).(checkout := SetField(old(checkout), field, value))
    {
      checkout := SetField(checkout, field, value);
    }

    /** "Proceed to Checkout" */
    method ProceedToCheckout()
      modifies this
      ensures State() == old(State()).(showCheckout := true)
    {
      showCheckout := true;
    }

    /** "Back to Cart" */
    method BackToCart()
      modifies this
      ensures State() == old(State()).(showCheckout := false)
    {
      showCheckout := false;
    }

    /**
     * `initiateRazorpayPayment`: ask the server for a gateway order for the
     * grand total, then open the widget with it. The handler's data is the
     * cart and address of this moment. A failed request shows the server's
     * message or a generic one; a widget that cannot be created (script not
     * loaded) shows the generic one.
     */
    method InitiateGatewayPayment(userId: Option<string>, now: nat, gatewayReply: Reply<GatewayOrder>, widgetLoads: bool)
      returns (started: bool, effects: seq<Effect<Request>>, widget: Option<WidgetOptions>)
      requires cart.Some?
      modifies this
      ensures started <==> Truthy(userId) && gatewayReply.Ok? && widgetLoads
      ensures widget.Some? <==> started
      ensures !Truthy(userId) ==> effects == [] && State() == old(State()).(status := LoginToOrder)
      ensures Truthy(userId) ==> effects == [Send(CreateGatewayOrder(GrandTotal(old(cart).value), Receipt(now)))]
      ensures started ==>
        && State() == old(State())
        && widget.value == WidgetOptions(GatewayKey, gatewayReply.data.amount, gatewayReply.data.currency,
                                         gatewayReply.data.id, userId.value, old(cart).value, old(checkout).deliveryAddress)
      ensures Truthy(userId) && gatewayReply.Fail? ==>
        State() == old(State()).(status := OrderStatus(OrElse(ServerMessage(gatewayReply.failure), GatewayStartFailed), ErrorStatus))
      ensures Truthy(userId) && gatewayReply.Ok? && !widgetLoads ==>
        State() == old(State()).(status := OrderStatus(GatewayStartFailed, ErrorStatus))
    {
      if !Truthy(userId) {
        status := LoginToOrder;
        return false, [], None;
      }
      effects := [Send(CreateGatewayOrder(GrandTotal(cart.value), Receipt(now)))];
      if gatewayReply.Fail? {
        status := OrderStatus(OrElse(ServerMessage(gatewayReply.failure), GatewayStartFailed), ErrorStatus);
        return false, effects, None;
      }
      var g := gatewayReply.data;
      if !widgetLoads {
        // `new window.Razorpay(...)` throws a TypeError, which carries no server response
        status := OrderStatus(GatewayStartFailed, ErrorStatus);
        return false, effects, None;
      }
      widget := Some(WidgetOptions(GatewayKey, g.amount, g.currency, g.id, userId.value, cart.value, checkout.deliveryAddress));
      started := true;
    }

    /**
     * The widget's success handler: send the verification request built from
     * the data captured when the payment started; on `success` show the
     * confirmation, reset the form and schedule the redirect. A reply without
     * `success`, or a rejected request, changes nothing.
     */
    method HandlePaymentResult(w: WidgetOptions, p: PaymentResult, verifyReply: Reply<Ack>)
      returns (effects: seq<Effect<Request>>)
      modifies this
      ensures verifyReply.Ok? && verifyReply.data.success ==>
        effects == [Send(VerifyPayment(Verification(w, p))), OrderRedirect] &&
        State() == old(State()).(status := OrderStatus(PaymentDoneMessage, SuccessStatus), checkout := DefaultCheckout)
      ensures !(verifyReply.Ok? && verifyReply.data.success) ==>
        effects == [Send(VerifyPayment(Verification(w, p)))] && State() == old(State())
    {
      effects := [Send(VerifyPayment(Verification(w, p)))];
      if verifyReply.Ok? && verifyReply.data.success {
        status := OrderStatus(PaymentDoneMessage, SuccessStatus);
        checkout := DefaultCheckout;
        effects := effects + [OrderRedirect];
      }
    }

    /**
     * `placeOrder`, the checkout form's submit handler. It follows `Decide`:
     * the gateway path hands over to `InitiateGatewayPayment`; the cash path
     * posts the order and, on `success`, resets the form and schedules the
     * redirect. `processingPayment` is false again on every path.
     */
    method PlaceOrder(userId: Option<string>, now: nat, gatewayReply: Reply<GatewayOrder>, widgetLoads: bool,
                      orderReply: Reply<Ack>)
      returns (effects: seq<Effect<Request>>, widget: Option<WidgetOptions>)
      requires cart.Some?
      modifies this
      ensures !processingPayment
      ensures cart == old(cart) && loading == old(loading) && showCheckout == old(showCheckout)
      ensures widget.Some? ==> Decide(userId, old(cart).value, old(checkout)).PayThroughGateway?
      ensures Decide(userId, old(cart).value, old(checkout)) == LoginRequired ==>
        effects == [] && status == LoginToOrder && checkout == old(checkout)
      ensures Decide(userId, old(cart).value, old(checkout)) == RestaurantMissing ==>
        effects == [] && status == MissingRestaurantStatus && checkout == old(checkout)
      ensures Decide(userId, old(cart).value, old(checkout)) == FieldsMissing ==>
        effects == [] && status == MissingFieldsStatus && checkout == old(checkout)
      ensures Decide(userId, old(cart).value, old(checkout)) == PayThroughGateway ==>
        && effects == [Send(CreateGatewayOrder(GrandTotal(old(cart).value), Receipt(now)))]
        && checkout == old(checkout)
        && (widget.Some? <==> gatewayReply.Ok? && widgetLoads)
        && (widget.Some? ==>
              status == old(status) &&
              widget.value == WidgetOptions(GatewayKey, gatewayReply.data.amount, gatewayReply.data.currency,
                                            gatewayReply.data.id, userId.value, old(cart).value, old(checkout).deliveryAddress))
        && (gatewayReply.Fail? ==>
              status == OrderStatus(OrElse(ServerMessage(gatewayReply.failure), GatewayStartFailed), ErrorStatus))
        && (gatewayReply.Ok? && !widgetLoads ==> status == OrderStatus(GatewayStartFailed, ErrorStatus))
      ensures Decide(userId, old(cart).value, old(checkout)).SubmitOrder? ==>
        var order := Decide(userId, old(cart).value, old(checkout)).order;
        && (orderReply.Ok? && orderReply.data.success ==>
              effects == [Send(CreateOrder(order)), OrderRedirect] &&
              status == OrderStatus(OrderPlacedMessage, SuccessStatus) && checkout == DefaultCheckout)
        && (orderReply.Ok? && !orderReply.data.success ==>
              effects == [Send(CreateOrder(order))] && checkout == old(checkout) &&
              status == OrderStatus(OrElse(orderReply.data.message, OrderFailed), ErrorStatus))
        && (orderReply.Fail? ==>
              effects == [Send(CreateOrder(order))] && checkout == old(checkout) &&
              status == OrderStatus(OrElse(ServerMessage(orderReply.failure), OrderError), ErrorStatus))
    {
      processingPayment := true;
      effects, widget := [], None;
      var decision := Decide(userId, cart.value, checkout);
      if !Truthy(userId) {
        status := LoginToOrder;
      } else if checkout.paymentMethod == "razorpay" {
        var started;
        started, effects, widget := InitiateGatewayPayment(userId, now, gatewayReply, widgetLoads);
      } else {
        var restaurantId := FirstRestaurant(cart.value.items);
        if !Truthy(restaurantId) {
          status := MissingRestaurantStatus;
        } else if decision.FieldsMissing? {
          status := MissingFieldsStatus;
        } else {
          effects := [Send(CreateOrder(decision.order))];
          match orderReply
          case Ok(ack) =>
            if ack.success {
              status := OrderStatus(OrderPlacedMessage, SuccessStatus);
              checkout := DefaultCheckout;
              effects := effects + [OrderRedirect];
            } else {
              status := OrderStatus(OrElse(ack.message, OrderFailed), ErrorStatus);
            }
          case Fail(f) =>
            status := OrderStatus(OrElse(ServerMessage(f), OrderError), ErrorStatus);
        }
      }
      processingPayment := false;
    }
  }

  /**
   * A cash order from a freshly mounted page: a cart with a subtotal of 12.50
   * whose first line names its restaurant, an address typed in and 'cod'
   * chosen. The one order request carries 15.49, the page confirms, and the
   * redirect to the orders page follows.
   */
  method CashOrderScenario(cart: CartData, user: string, address: string)
    returns (effects: seq<Effect<Request>>, status: OrderStatus)
    requires cart.total == 1250 && |cart.items| > 0 && Truthy(cart.items[0].menuItem.restaurantId)
    requires user != "" && address != ""
    ensures |effects| == 2 && effects[1] == OrderRedirect
    ensures effects[0].Send? && effects[0].request.CreateOrder?
    ensures effects[0].request.order.totalAmount == 1549
    ensures effects[0].request.order.deliveryAddress == address && effects[0].request.order.paymentMethod == "cod"
    ensures effects[0].request.order.paymentDetails == None
    ensures status == OrderStatus(OrderPlacedMessage, SuccessStatus)
  {
    var view := new CartView();
    var _ := view.Load(Some(user), Ok(Some(cart)));
    view.HandleCheckoutChange(DeliveryAddressField, address);
    view.HandleCheckoutChange(PaymentMethodField, "cod");
    view.ProceedToCheckout();
    var widget;
    effects, widget := view.PlaceOrder(Some(user), 0, Fail(NoResponse), false, Ok(Ack(true, None)));
    status := view.status;
  }

  /**
   * A gateway payment from a freshly mounted page: the amount asked of the
   * gateway and the total sent for verification are the same grand total, and
   * the verified order carries the cart's lines and the address typed in.
   */
  method GatewayScenario(cart: CartData, user: string, address: string, now: nat, g: GatewayOrder, p: PaymentResult)
    returns (created: Request, verified: Request, status: OrderStatus)
    requires user != ""
    ensures created == CreateGatewayOrder(GrandTotal(cart), Receipt(now))
    ensures verified == VerifyPayment(Verification(WidgetOptions(GatewayKey, g.amount, g.currency, g.id, user, cart, address), p))
    ensures verified.payment.totalAmount == created.amount
    ensures verified.payment.items == OrderLines(cart.items) && verified.payment.deliveryAddress == address
    ensures status == OrderStatus(PaymentDoneMessage, SuccessStatus)
  {
    var view := new CartView();
    var _ := view.Load(Some(user), Ok(Some(cart)));
    view.HandleCheckoutChange(DeliveryAddressField, address);
    view.ProceedToCheckout();
    var effects, widget := view.PlaceOrder(Some(user), now, Ok(g), true, Fail(NoResponse));
    created := effects[0].request;
    var after := view.HandlePaymentResult(widget.value, p, Ok(Ack(true, None)));
    verified := after[0].request;
    status := view.status;
  }
}
