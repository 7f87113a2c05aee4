/** The order client of the package: parameter validation, the checks made before
    any preview, placement or cancellation request, the advertised order options,
    and the flattening of order-list replies into rows. */
module Orders {
  import opened Basics
  import opened Dicts
  import opened Values
  import opened OrderReplies

  /** The `order_params` dict a caller passes in. */
  type Params = Dict<Value>

  /** The answer of `get_order_options`. */
  datatype OrderOptions = OrderOptions(
    priceTypes: seq<string>,
    orderTerms: seq<string>,
    orderActions: seq<string>,
    securityTypes: seq<string>,
    quantityTypes: seq<string>)

  /** The price types and order actions it advertises are exactly those the
      validator accepts. */
  function GetOrderOptions(): (options: OrderOptions)
    ensures forall v :: OneOf(v, options.priceTypes) <==> v in [Str("MARKET"), Str("LIMIT")]
    ensures forall v :: (OneOf(v, options.orderActions)
                         <==> v in [Str("BUY"), Str("SELL"), Str("BUY_TO_COVER"), Str("SELL_SHORT")])
  {
    OrderOptions(
      ["MARKET", "LIMIT"],
      ["GOOD_FOR_DAY", "IMMEDIATE_OR_CANCEL", "FILL_OR_KILL"],
      ["BUY", "SELL", "BUY_TO_COVER", "SELL_SHORT"],
      ["EQ"],
      ["QUANTITY"])
  }

  const RequiredFields: seq<string> := ["symbol", "order_action", "quantity", "price_type"]

  const InvalidParams := "Invalid order parameters"

  /** The bounds of the random `client_order_id`. */
  const ClientOrderIdLow := 1000000000
  const ClientOrderIdHigh := 9999999999

  /** `field in order_params and order_params[field]` */
  predicate Supplied(params: Params, field: string)
  {
    Has(params, field) && Truthy(Field(params, field))
  }

  /** The loop over the required fields, returning at the first one missing or falsy. */
  predicate AllSupplied(params: Params, fields: seq<string>)
  {
    forall i :: 0 <= i < |fields| ==> Supplied(params, fields[i])
  }

  /** `_validate_order_params`, check by check in the order the source makes them. */
  predicate ValidateOrderParams(params: Params)
    ensures ValidateOrderParams(params) ==>
      AllSupplied(params, RequiredFields) && IntConvertible(Field(params, "quantity"))
  {
    if !AllSupplied(params, RequiredFields) then false
    else if Field(params, "price_type") !in [Str("MARKET"), Str("LIMIT")] then false
    else if Field(params, "price_type") == Str("LIMIT") && !Supplied(params, "limit_price") then false
    else if Field(params, "order_action") !in [Str("BUY"), Str("SELL"), Str("BUY_TO_COVER"), Str("SELL_SHORT")] then false
    else IntConvertible(Field(params, "quantity"))
  }

  /** `v` is the string `s` for one of the strings `s` offered. */
  predicate OneOf(v: Value, offered: seq<string>)
  {
    exists s :: s in offered && v == Str(s)
  }

  /** The validator accepts exactly the parameters that supply a truthy symbol,
      action, quantity and price type, whose price type and action are among
      those `get_order_options` advertises, whose LIMIT orders carry a truthy
      limit price, and whose quantity `int()` accepts. */
  lemma ValidateOrderParamsMeaning(params: Params)
    ensures ValidateOrderParams(params) <==>
      && Supplied(params, "symbol")
      && Supplied(params, "order_action")
      && Supplied(params, "quantity")
      && Supplied(params, "price_type")
      && OneOf(Field(params, "price_type"), GetOrderOptions().priceTypes)
      && (Field(params, "price_type") == Str("LIMIT") ==> Supplied(params, "limit_price"))
      && OneOf(Field(params, "order_action"), GetOrderOptions().orderActions)
      && IntConvertible(Field(params, "quantity"))
  {
    assert AllSupplied(params, RequiredFields) <==>
      Supplied(params, "symbol") && Supplied(params, "order_action") &&
      Supplied(params, "quantity") && Supplied(params, "price_type") by {
      var fs := RequiredFields;
      assert fs[0] == "symbol" && fs[1] == "order_action" && fs[2] == "quantity" && fs[3] == "price_type";
    }
    var price := Field(params, "price_type");
    var action := Field(params, "order_action");
    assert OneOf(price, GetOrderOptions().priceTypes) <==> price in [Str("MARKET"), Str("LIMIT")] by {
      if price in [Str("MARKET"), Str("LIMIT")] {
        assert price == Str("MARKET") || price == Str("LIMIT");
      }
    }
    assert OneOf(action, GetOrderOptions().orderActions) <==>
      action in [Str("BUY"), Str("SELL"), Str("BUY_TO_COVER"), Str("SELL_SHORT")] by {
      if action in [Str("BUY"), Str("SELL"), Str("BUY_TO_COVER"), Str("SELL_SHORT")] {
        assert action == Str("BUY") || action == Str("SELL") || action == Str("BUY_TO_COVER") || action == Str("SELL_SHORT");
      }
    }
  }

  /** A quantity of 0 (or any falsy quantity) is refused, while the string "0" is
      truthy and `int()`-convertible and so passes. */
  lemma ZeroQuantity(params: Params)
    ensures Field(params, "quantity") == Int(0) ==> !ValidateOrderParams(params)
    ensures Field(params, "quantity") == Float(0.0) ==> !ValidateOrderParams(params)
    ensures ValidateOrderParams([("symbol", Str("AAPL")), ("order_action", Str("BUY")),
                                 ("quantity", Str("0")), ("price_type", Str("MARKET"))])
  {
    ValidateOrderParamsMeaning(params);
    var example := [("symbol", Str("AAPL")), ("order_action", Str("BUY")),
                    ("quantity", Str("0")), ("price_type", Str("MARKET"))];
    ValidateOrderParamsMeaning(example);
    assert Field(example, "quantity") == Str("0");
    assert Strip("0") == "0";
    assert IntLiteral("0");
    assert OneOf(Str("MARKET"), GetOrderOptions().priceTypes);
    assert OneOf(Str("BUY"), GetOrderOptions().orderActions);
  }

  /** `order = order_params.copy()` with a generated `client_order_id` when the
      caller gave none (or a falsy one). Dafny values are immutable, so the
      caller's dict is untouched, as the copy in the source guarantees. */
  function WithClientOrderId(params: Params, generated: int): (order: Params)
    requires ClientOrderIdLow <= generated <= ClientOrderIdHigh
    ensures Truthy(Field(order, "client_order_id"))
    ensures Supplied(params, "client_order_id") ==> order == params
    ensures !Supplied(params, "client_order_id") ==> Field(order, "client_order_id") == Int(generated)
    ensures forall k :: k != "client_order_id" ==> Get(order, k) == Get(params, k)
    ensures DistinctKeys(params) ==> DistinctKeys(order)
  {
    if Supplied(params, "client_order_id") then params
    else
      if DistinctKeys(params) then
        PutDistinct(params, "client_order_id", Int(generated));
        Put(params, "client_order_id", Int(generated))
      else Put(params, "client_order_id", Int(generated))
  }

  /** `preview_order` up to the request: the order it would send, or the error it
      returns without sending anything. */
  function PreviewOrder(params: Params, generated: int): (r: Result<Params, string>)
    requires ClientOrderIdLow <= generated <= ClientOrderIdHigh
    ensures r.Err? <==> !ValidateOrderParams(params)
    ensures r.Err? ==> r.error == InvalidParams
    ensures r.Ok? ==> r.value == WithClientOrderId(params, generated)
  {
    if !ValidateOrderParams(params) then Err(InvalidParams)
    else Ok(WithClientOrderId(params, generated))
  }

  /** `place_order` up to the request: the parameters are checked before the
      preview id, and both before anything is sent. */
  function PlaceOrder(params: Params, previewId: Value, generated: int): (r: Result<Params, string>)
    requires ClientOrderIdLow <= generated <= ClientOrderIdHigh
    ensures r.Ok? <==> ValidateOrderParams(params) && Truthy(previewId)
    ensures !ValidateOrderParams(params) ==> r == Err(InvalidParams)
    ensures ValidateOrderParams(params) && !Truthy(previewId) ==> r == Err("Preview ID is required")
    ensures r.Ok? ==> r.value == WithClientOrderId(params, generated)
  {
    if !ValidateOrderParams(params) then Err(InvalidParams)
    else if !Truthy(previewId) then Err("Preview ID is required")
    else Ok(WithClientOrderId(params, generated))
  }

  /** One row of `extract_orders_data`; None is Null. */
  datatype OrderRow = OrderRow(
    orderId: Value,
    orderType: Value,
    priceType: Value,
    orderTerm: Value,
    limitPrice: Value,
    status: Value,
    securityType: Value,
    symbol: Value,
    orderAction: Value,
    quantity: Value,
    filledQuantity: Value,
    averageExecutionPrice: Value,
    bid: Value,
    ask: Value,
    netPrice: Value)

  /** The row for one instrument, as a single expression. Only the "open" listing
      carries quotes, an instrument without a Product has no security type or
      symbol, and the quantity is the filled or the ordered one. */
  function RowOf(line: Line, status: string): (r: OrderRow)
    ensures status != "open" ==> r.bid == Null && r.ask == Null && r.netPrice == Null
    ensures line.instrument.product.None? ==> r.securityType == Null && r.symbol == Null
    ensures r.quantity == Field(line.instrument.fields, "filledQuantity")
         || r.quantity == Field(line.instrument.fields, "orderedQuantity")
  {
    var ins := line.instrument;
    var product := ins.product;
    var filled := Field(ins.fields, "filledQuantity");
    OrderRow(
      Field(line.order, "orderId"),
      Field(line.order, "orderType"),
      Field(line.detail, "priceType"),
      Field(line.detail, "orderTerm"),
      Field(line.detail, "limitPrice"),
      Field(line.detail, "status"),
      if product.Some? then Field(product.value, "securityType") else Null,
      if product.Some? then Field(product.value, "symbol") else Null,
      Field(ins.fields, "orderAction"),
      if status == "individual_fills" && Truthy(filled) then filled else Field(ins.fields, "orderedQuantity"),
      filled,
      Field(ins.fields, "averageExecutionPrice"),
      if status == "open" then Field(line.detail, "netBid") else Null,
      if status == "open" then Field(line.detail, "netAsk") else Null,
      if status == "open" then Field(line.detail, "netPrice") else Null)
  }

  /** `rows` holds, position by position, the row of each line. */
  predicate RowsFor(rows: seq<OrderRow>, lines: seq<Line>, status: string)
  {
    |rows| == |lines| && forall k :: 0 <= k < |rows| ==> rows[k] == RowOf(lines[k], status)
  }

  lemma RowsForAppend(rows: seq<OrderRow>, lines: seq<Line>, status: string, line: Line)
    requires RowsFor(rows, lines, status)
    ensures RowsFor(rows + [RowOf(line, status)], lines + [line], status)
  {
  }

  /** `order_obj` for one instrument: the dict literal, then the product fields,
      then the individual-fills quantity. */
  method BuildRow(order: Fields, detail: Fields, instrument: Instrument, status: string) returns (row: OrderRow)
    ensures row == RowOf(Line(order, detail, instrument), status)
  {
    row := OrderRow(
      Field(order, "orderId"),
      Field(order, "orderType"),
      Field(detail, "priceType"),
      Field(detail, "orderTerm"),
      Field(detail, "limitPrice"),
      Field(detail, "status"),
      Null,
      Null,
      Field(instrument.fields, "orderAction"),
      Field(instrument.fields, "orderedQuantity"),
      Field(instrument.fields, "filledQuantity"),
      Field(instrument.fields, "averageExecutionPrice"),
      if status == "open" then Field(detail, "netBid") else Null,
      if status == "open" then Field(detail, "netAsk") else Null,
      if status == "open" then Field(detail, "netPrice") else Null);
    if instrument.product.Some? {
      var product := instrument.product.value;
      row := row.(securityType := Field(product, "securityType"), symbol := Field(product, "symbol"));
    }
    if status == "individual_fills" && Truthy(Field(instrument.fields, "filledQuantity")) {
      row := row.(quantity := Field(instrument.fields, "filledQuantity"));
    }
  }

  /** Rows of consecutive lines are the consecutive rows. */
  lemma RowsForConcat(ra: seq<OrderRow>, a: seq<Line>, rb: seq<OrderRow>, b: seq<Line>, status: string)
    requires RowsFor(ra, a, status) && RowsFor(rb, b, status)
    ensures RowsFor(ra + rb, a + b, status)
  {
    forall k | 0 <= k < |ra| + |rb|
      ensures (ra + rb)[k] == RowOf((a + b)[k], status)
    {
      if k >= |ra| {
        assert (ra + rb)[k] == rb[k - |ra|] && (a + b)[k] == b[k - |a|];
      }
    }
  }

  /** The innermost loop of `extract_orders_data`: the rows of one detail's instruments. */
  method DetailRows(order: Fields, detail: Option<Detail>, status: string) returns (rows: seq<OrderRow>)
    ensures RowsFor(rows, DetailLinesOf(order, detail), status)
  {
    rows := [];
    if detail.Some? && detail.value.instruments.Some? {
      var instruments := detail.value.instruments.value;
      var detailFields := detail.value.fields;
      for l := 0 to |instruments|
        invariant RowsFor(rows, InstrumentLines(order, detailFields, instruments, l), status)
      {
        var row := BuildRow(order, detailFields, instruments[l], status);
        RowsForAppend(rows, InstrumentLines(order, detailFields, instruments, l), status, Line(order, detailFields, instruments[l]));
        rows := rows + [row];
      }
    }
  }

  /** The middle loop of `extract_orders_data`: the rows of one order's details. */
  method OrderRows(order: Option<OrderEntry>, status: string) returns (rows: seq<OrderRow>)
    ensures RowsFor(rows, OrderLinesOf(order), status)
  {
    rows := [];
    if order.Some? && order.value.details.Some? {
      var details := order.value.details.value;
      var orderFields := order.value.fields;
      for j := 0 to |details|
        invariant RowsFor(rows, DetailLines(orderFields, details, j), status)
      {
        var detailRows := DetailRows(orderFields, details[j], status);
        RowsForConcat(rows, DetailLines(orderFields, details, j), detailRows, DetailLinesOf(orderFields, details[j]), status);
        rows := rows + detailRows;
      }
    }
  }

  /** `extract_orders_data`: one row per instrument in reply order, built field by
      field as the source builds `order_obj`. */
  method ExtractOrdersData(response: Option<Reply>, status: string) returns (rows: seq<OrderRow>)
    ensures RowsFor(rows, Lines(response), status)
    ensures OrderList(response).None? ==> rows == []
    ensures |rows| == InstrumentCount(response)
    ensures status != "open" ==> forall k :: 0 <= k < |rows| ==> rows[k].bid == Null && rows[k].ask == Null && rows[k].netPrice == Null
  {
    LinesCount(response);
    rows := [];
    if OrderList(response).None? {
      return;
    }
    var orders := OrderList(response).value;
    for i := 0 to |orders|
      invariant RowsFor(rows, OrderLines(orders, i), status)
    {
      var orderRows := OrderRows(orders[i], status);
      RowsForConcat(rows, OrderLines(orders, i), orderRows, OrderLinesOf(orders[i]), status);
      rows := rows + orderRows;
    }
  }

  /** For "individual_fills", a truthy filled quantity replaces the ordered one;
      for every other status the row keeps the ordered quantity. */
  lemma RowQuantity(line: Line, status: string)
    ensures var filled := Field(line.instrument.fields, "filledQuantity");
      RowOf(line, status).quantity ==
        if status == "individual_fills" && Truthy(filled) then filled
        else Field(line.instrument.fields, "orderedQuantity")
  {
  }
}
