/** The order service of `src/service/order.ts`: how each call classifies
    the server's reply. The reply (status and payload) and the customer
    cookie, already parsed, are inputs. */
module OrderService {
  import opened Wrappers
  import opened JsStrings
  import opened DataConfig
  import Http

  datatype OrderCustomer = OrderCustomer(id: int, fullName: string, email: string)

  datatype OrderedProduct = OrderedProduct(id: int, name: string, sku: string, thumbnail: string, price: real, discountPercent: real)

  datatype OrderLine = OrderLine(quantity: int, product: OrderedProduct)

  /** `OrderType`. */
  datatype Order = Order(
    id: int, customerId: int, phone: string, address: string, shippingCost: real,
    deliveryMethod: DeliveryMethod, paymentMethod: PaymentMethod, status: OrderStatus,
    subTotal: real, grandTotal: real, createdAt: string, updatedAt: string,
    customer: OrderCustomer, orderProducts: seq<OrderLine>)

  /** The fields of a reply payload the service looks at; a field the
      server did not send is `None`. */
  datatype Payload = Payload(
    message: Option<string>, order: Option<Order>, data: Option<seq<Order>>,
    totalCount: Option<int>, page: Option<int>, pageSize: Option<int>)

  /** The payload `request` builds when the call throws: only a message. */
  function ErrorPayload(message: string): Payload {
    Payload(Some(message), None, None, None, None, None)
  }

  /** A settled reply as the service sees it. */
  function PayloadOf(p: Http.ReplyPayload<Payload>): Payload {
    match p
    case Parsed(body) => body
    case Failure(message) => ErrorPayload(message)
  }

  /** `BooleanResponse`. */
  datatype BooleanResponse = BooleanResponse(success: bool, message: Option<string>, orderId: Option<int>)

  const OrderMadeMessage: string := "Order made successfully"
  const OrderFailedMessage: string := "Failed to make order"

  /** `createOrder`: success exactly on status 201 with an order, carrying
      its id; otherwise the server's message, or the fallback when that is
      empty or missing. */
  function CreateOrder(status: int, payload: Payload): (r: BooleanResponse)
    ensures r.success <==> status == 201 && payload.order.Some?
    ensures r.success ==> r == BooleanResponse(true, Some(OrderMadeMessage), Some(payload.order.value.id))
    ensures !r.success ==> r.orderId.None? && r.message.Some? && r.message.value != ""
    ensures !r.success && payload.message.Some? && payload.message.value != "" ==> r.message == payload.message
    ensures !r.success && (payload.message.None? || payload.message.value == "") ==> r.message == Some(OrderFailedMessage)
  {
    if status == 201 && payload.order.Some? then
      BooleanResponse(true, Some(OrderMadeMessage), Some(payload.order.value.id))
    else
      var text := if payload.message.Some? && payload.message.value != "" then payload.message.value else OrderFailedMessage;
      BooleanResponse(false, Some(text), None)
  }

  /** The customer cookie after `JSON.parse`: present or not, with an id or
      not. */
  datatype CookieCustomer = CookieCustomer(id: Option<int>)

  /** `getOrderById`: the order only when the reply is 200 with an order
      that belongs to the customer of the cookie. */
  function GetOrderById(status: int, payload: Payload, cookie: Option<CookieCustomer>): (r: Option<Order>)
    ensures r.Some? <==> status == 200 && payload.order.Some? && cookie.Some? && cookie.value.id == Some(payload.order.value.customerId)
    ensures r.Some? ==> r == payload.order
  {
    if status == 200 && payload.order.Some? then
      if cookie.Some? && cookie.value.id == Some(payload.order.value.customerId) then payload.order else None
    else None
  }

  /** An order is never handed to a visitor without a customer cookie. */
  lemma NoCookieNoOrder(status: int, payload: Payload)
    ensures GetOrderById(status, payload, None) == None
  {
  }

  /** The request path of `getOrdersByCustomer`, if a request is made at
      all: none without a cookie. A cookie without an id gives the path
      ".../undefined", as the template literal does. */
  function CustomerOrdersPath(cookie: Option<CookieCustomer>): (path: Option<string>)
    ensures path.Some? <==> cookie.Some?
  {
    match cookie
    case None => None
    case Some(c) => Some("/order/user/" + (if c.id.Some? then IntToString(c.id.value) else "undefined"))
  }

  /** `getOrdersByCustomer`: `None` without a cookie (and no request is
      sent), the list when the reply is 200 with data, `None` otherwise. */
  function GetOrdersByCustomer(cookie: Option<CookieCustomer>, status: int, payload: Payload): (r: Option<seq<Order>>)
    ensures r.Some? <==> cookie.Some? && status == 200 && payload.data.Some?
    ensures r.Some? ==> r == payload.data
  {
    if cookie.None? then None
    else if status == 200 && payload.data.Some? then payload.data
    else None
  }

  /** `getOrders`: the whole payload when the reply is 200 with data. */
  function GetOrders(status: int, payload: Payload): (r: Option<Payload>)
    ensures r.Some? <==> status == 200 && payload.data.Some?
    ensures r.Some? ==> r.value == payload
  {
    if status == 200 && payload.data.Some? then Some(payload) else None
  }

  /** `updateOrderStatus`: success exactly on status 200 with a message;
      the message is passed through in both cases. */
  function UpdateOrderStatus(status: int, payload: Payload): (r: BooleanResponse)
    ensures r.success <==> status == 200 && payload.message.Some?
    ensures r.message == payload.message && r.orderId.None?
  {
    BooleanResponse(status == 200 && payload.message.Some?, payload.message, None)
  }

  /** When the request throws, every call fails: the order calls report
      "An unknow error", the lookups give nothing. */
  lemma ThrownRequestFails(cookie: Option<CookieCustomer>)
    ensures var r := Http.Settle<Payload>(Http.Threw); var p := PayloadOf(r.payload);
      CreateOrder(r.status, p) == BooleanResponse(false, Some(Http.UnknownErrorMessage), None) &&
      UpdateOrderStatus(r.status, p) == BooleanResponse(false, Some(Http.UnknownErrorMessage), None) &&
      GetOrderById(r.status, p, cookie).None? &&
      GetOrdersByCustomer(cookie, r.status, p).None? &&
      GetOrders(r.status, p).None?
  {
  }
}
