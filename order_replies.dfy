/** The order-list reply of the brokerage, as both order clients read it:
    `OrdersResponse.Order` is a list of orders (or nulls), each order may carry an
    `OrderDetail` list of details (or nulls), and each detail may carry an
    `Instrument` list. Only the scalar fields the clients look up are kept. The
    order-id check that both clients' `cancel_order` make before any request is
    here too. */
module OrderReplies {
  import opened Basics
  import opened Dicts
  import opened Values

  /** The scalar fields of one JSON object. */
  type Fields = Dict<Value>

  /** `obj.get(key)`: the value stored under `key`, or None. */
  function Field(obj: Fields, key: string): Value
  {
    GetOr(obj, key, Null)
  }

  /** `cancel_order` up to the request, in both clients: the id it would send, or
      the error a falsy id gives. */
  function RequireOrderId(orderId: Value): (r: Result<Value, string>)
    ensures r.Ok? <==> Truthy(orderId)
    ensures r.Ok? ==> r.value == orderId
    ensures r.Err? ==> r.error == "Order ID is required"
  {
    if !Truthy(orderId) then Err("Order ID is required") else Ok(orderId)
  }

  /** An instrument record; `product` is the nested `Product` object when present. */
  datatype Instrument = Instrument(fields: Fields, product: Option<Fields>)

  /** An `OrderDetail` entry; `instruments` is its `Instrument` list when present. */
  datatype Detail = Detail(fields: Fields, instruments: Option<seq<Instrument>>)

  /** An `Order` entry; `details` is its `OrderDetail` list when present. */
  datatype OrderEntry = OrderEntry(fields: Fields, details: Option<seq<Option<Detail>>>)

  /** `response["OrdersResponse"]`, whose `Order` list may be absent. */
  datatype OrdersResponse = OrdersResponse(orders: Option<seq<Option<OrderEntry>>>)

  /** The decoded reply body, whose `OrdersResponse` may be absent. */
  datatype Reply = Reply(ordersResponse: Option<OrdersResponse>)

  /** One instrument together with the order and the detail it is listed under. */
  datatype Line = Line(order: Fields, detail: Fields, instrument: Instrument)

  /** The order list, when the reply has one. */
  function OrderList(reply: Option<Reply>): Option<seq<Option<OrderEntry>>>
  {
    if reply.Some? && reply.value.ordersResponse.Some? then reply.value.ordersResponse.value.orders else None
  }

  /** The first n instruments of one detail, as lines. */
  function InstrumentLines(order: Fields, detail: Fields, instruments: seq<Instrument>, n: nat): (ls: seq<Line>)
    requires n <= |instruments|
    ensures |ls| == n
    ensures forall k :: 0 <= k < n ==> ls[k] == Line(order, detail, instruments[k])
  {
    if n == 0 then [] else InstrumentLines(order, detail, instruments, n - 1) + [Line(order, detail, instruments[n - 1])]
  }

  /** The lines of one detail: none for a null detail or one without `Instrument`. */
  function DetailLinesOf(order: Fields, detail: Option<Detail>): seq<Line>
  {
    if detail.Some? && detail.value.instruments.Some? then
      var instruments := detail.value.instruments.value;
      InstrumentLines(order, detail.value.fields, instruments, |instruments|)
    else []
  }

  /** The lines of the first n details of one order. */
  function DetailLines(order: Fields, details: seq<Option<Detail>>, n: nat): seq<Line>
    requires n <= |details|
  {
    if n == 0 then [] else DetailLines(order, details, n - 1) + DetailLinesOf(order, details[n - 1])
  }

  /** The lines of one order: none for a null order or one without `OrderDetail`. */
  function OrderLinesOf(order: Option<OrderEntry>): seq<Line>
  {
    if order.Some? && order.value.details.Some? then
      var details := order.value.details.value;
      DetailLines(order.value.fields, details, |details|)
    else []
  }

  /** The lines of the first n orders. */
  function OrderLines(orders: seq<Option<OrderEntry>>, n: nat): seq<Line>
    requires n <= |orders|
  {
    if n == 0 then [] else OrderLines(orders, n - 1) + OrderLinesOf(orders[n - 1])
  }

  /** Every instrument of the reply, in the order the reply lists them; nothing
      when `OrdersResponse` or its `Order` list is missing. */
  function Lines(reply: Option<Reply>): (ls: seq<Line>)
    ensures OrderList(reply).None? ==> ls == []
  {
    match OrderList(reply)
    case None => []
    case Some(orders) => OrderLines(orders, |orders|)
  }

  /** How many instruments a detail lists. */
  function DetailCount(detail: Option<Detail>): nat
  {
    if detail.Some? && detail.value.instruments.Some? then |detail.value.instruments.value| else 0
  }

  /** How many instruments the first n details of an order list. */
  function DetailsCount(details: seq<Option<Detail>>, n: nat): nat
    requires n <= |details|
  {
    if n == 0 then 0 else DetailsCount(details, n - 1) + DetailCount(details[n - 1])
  }

  function OrderCount(order: Option<OrderEntry>): nat
  {
    if order.Some? && order.value.details.Some? then
      var details := order.value.details.value;
      DetailsCount(details, |details|)
    else 0
  }

  /** How many instruments the first n orders list. */
  function OrdersCount(orders: seq<Option<OrderEntry>>, n: nat): nat
    requires n <= |orders|
  {
    if n == 0 then 0 else OrdersCount(orders, n - 1) + OrderCount(orders[n - 1])
  }

  /** How many instruments the reply lists under non-null orders and details. */
  function InstrumentCount(reply: Option<Reply>): nat
  {
    match OrderList(reply)
    case None => 0
    case Some(orders) => OrdersCount(orders, |orders|)
  }

  lemma {:induction false} DetailLinesCount(order: Fields, details: seq<Option<Detail>>, n: nat)
    requires n <= |details|
    ensures |DetailLines(order, details, n)| == DetailsCount(details, n)
  {
    if n > 0 {
      DetailLinesCount(order, details, n - 1);
    }
  }

  lemma {:induction false} OrderLinesCount(orders: seq<Option<OrderEntry>>, n: nat)
    requires n <= |orders|
    ensures |OrderLines(orders, n)| == OrdersCount(orders, n)
  {
    if n > 0 {
      OrderLinesCount(orders, n - 1);
      var order := orders[n - 1];
      if order.Some? && order.value.details.Some? {
        var details := order.value.details.value;
        DetailLinesCount(order.value.fields, details, |details|);
      }
    }
  }

  /** One line per instrument: the flattening loses and invents nothing. */
  lemma LinesCount(reply: Option<Reply>)
    ensures |Lines(reply)| == InstrumentCount(reply)
  {
    if OrderList(reply).Some? {
      var orders := OrderList(reply).value;
      OrderLinesCount(orders, |orders|);
    }
  }
}
