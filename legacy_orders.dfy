/** The older, top-level order client: the checks its preview and cancel requests
    make before anything is sent, and `parse_orders`, which flattens an order-list
    reply into one dict per instrument whose extra keys depend on the status. */
module LegacyOrders {
  import opened Basics
  import opened Dicts
  import opened Values
  import opened OrderReplies

  /** A parsed row: a dict whose key set depends on the status. */
  type Row = Dict<Value>

  /** `preview_order` up to the request: falsy (empty or missing) parameters give
      None straight away; otherwise the parameters go into the request as given. */
  function PreviewOrder(params: Option<Dict<Value>>): (r: Option<Dict<Value>>)
    ensures r.None? <==> params.None? || params.value == []
    ensures r.Some? ==> r == params
  {
    if params.None? || params.value == [] then None else params
  }

  /** The statuses for which no execution price is added. */
  const NoExecutionPrice: seq<string> := ["open", "expired", "rejected"]

  /** `instrument.get("Product", {}).get(key)` */
  function ProductField(instrument: Instrument, key: string): Value
  {
    if instrument.product.Some? then Field(instrument.product.value, key) else Null
  }

  /** The ten keys every row has, in the order the dict literal lists them. */
  const BaseKeys: seq<string> := ["order_id", "price_type", "order_term", "order_type", "security_type",
                                  "symbol", "order_action", "quantity", "limit_price", "status"]

  /** The dict literal `order_obj` before the status-specific keys. */
  function BaseRow(line: Line): Row
  {
    var ins := line.instrument;
    [("order_id", Field(line.order, "orderId")),
     ("price_type", Field(line.detail, "priceType")),
     ("order_term", Field(line.detail, "orderTerm")),
     ("order_type", Field(line.order, "orderType")),
     ("security_type", ProductField(ins, "securityType")),
     ("symbol", ProductField(ins, "symbol")),
     ("order_action", Field(ins.fields, "orderAction")),
     ("quantity", Field(ins.fields, "orderedQuantity")),
     ("limit_price", Field(line.detail, "limitPrice")),
     ("status", Field(line.detail, "status"))]
  }

  lemma BaseRowKeys(line: Line)
    ensures Keys(BaseRow(line)) == BaseKeys
  {
  }

  /** A dict has a key exactly when its key list names it. */
  lemma {:induction false} HasIffListed<V>(d: Dict<V>, key: string)
    ensures Has(d, key) <==> key in Keys(d)
  {
    if d != [] {
      HasIffListed(d[1..], key);
      assert Keys(d) == [d[0].0] + Keys(d[1..]);
    }
  }

  lemma BaseRowDistinct(line: Line)
    ensures DistinctKeys(BaseRow(line))
  {
    var row := BaseRow(line);
    BaseRowKeys(line);
    forall i, j | 0 <= i < j < |row| ensures row[i].0 != row[j].0 {
      assert row[i].0 == BaseKeys[i] && row[j].0 == BaseKeys[j];
    }
  }

  /** The base dict copies the order's, the detail's and the instrument's fields;
      security_type and symbol come from the Product object, and are None when the
      instrument has none. */
  lemma BaseRowValues(line: Line)
    ensures Get(BaseRow(line), "order_id") == Some(Field(line.order, "orderId"))
    ensures Get(BaseRow(line), "quantity") == Some(Field(line.instrument.fields, "orderedQuantity"))
    ensures Get(BaseRow(line), "status") == Some(Field(line.detail, "status"))
    ensures Get(BaseRow(line), "security_type") == Some(ProductField(line.instrument, "securityType"))
    ensures Get(BaseRow(line), "symbol") == Some(ProductField(line.instrument, "symbol"))
    ensures line.instrument.product.None? ==>
      Get(BaseRow(line), "security_type") == Some(Null) && Get(BaseRow(line), "symbol") == Some(Null)
  {
    var row := BaseRow(line);
    BaseRowDistinct(line);
    GetAt(row, 0);
    GetAt(row, 4);
    GetAt(row, 5);
    GetAt(row, 7);
    GetAt(row, 9);
  }

  /** The row of one instrument: the base dict, then the keys that depend on the
      status. Only the exact string "Open" adds the quotes. */
  function LegacyRow(line: Line, status: string): (row: Row)
    ensures forall k :: k in BaseKeys ==> Get(row, k) == Get(BaseRow(line), k)
  {
    BaseKeyLengths();
    var base := BaseRow(line);
    if status == "Open" then
      Put(Put(Put(base, "bid", Field(line.detail, "netBid")),
              "ask", Field(line.detail, "netAsk")),
          "net_price", Field(line.detail, "netPrice"))
    else if status == "indiv_fills" then
      Put(base, "filled_quantity", Field(line.instrument.fields, "filledQuantity"))
    else if status !in NoExecutionPrice then
      Put(base, "average_execution_price", Field(line.instrument.fields, "averageExecutionPrice"))
    else base
  }

  /** The keys of a row, in order: the ten base keys always; then bid, ask and
      net_price exactly for "Open"; filled_quantity exactly for "indiv_fills";
      average_execution_price exactly for the other statuses outside
      open/expired/rejected; and nothing else. */
  lemma LegacyRowKeys(line: Line, status: string)
    ensures Keys(LegacyRow(line, status)) ==
      if status == "Open" then BaseKeys + ["bid"] + ["ask"] + ["net_price"]
      else if status == "indiv_fills" then BaseKeys + ["filled_quantity"]
      else if status !in NoExecutionPrice then BaseKeys + ["average_execution_price"]
      else BaseKeys
  {
    var base := BaseRow(line);
    BaseRowKeys(line);
    if status == "Open" {
      QuoteKeys(line);
    } else if status == "indiv_fills" {
      BaseKeyLengths();
      PutFreshKey(base, "filled_quantity", Field(line.instrument.fields, "filledQuantity"));
    } else if status !in NoExecutionPrice {
      BaseKeyLengths();
      PutFreshKey(base, "average_execution_price", Field(line.instrument.fields, "averageExecutionPrice"));
    }
  }

  /** The three quote keys are appended in turn. */
  lemma QuoteKeys(line: Line)
    ensures Keys(LegacyRow(line, "Open")) == BaseKeys + ["bid"] + ["ask"] + ["net_price"]
  {
    var base := BaseRow(line);
    BaseRowKeys(line);
    var d1 := Put(base, "bid", Field(line.detail, "netBid"));
    var d2 := Put(d1, "ask", Field(line.detail, "netAsk"));
    BaseKeyLengths();
    PutFreshKey(base, "bid", Field(line.detail, "netBid"));
    assert "ask"[0] != "bid"[0];
    PutFreshKey(d1, "ask", Field(line.detail, "netAsk"));
    PutFreshKey(d2, "net_price", Field(line.detail, "netPrice"));
  }

  /** None of the base keys is as long as a status-specific key, so none of those
      is a base key. */
  lemma BaseKeyLengths()
    ensures forall k :: k in BaseKeys ==> |k| != 3 && |k| != 9 && |k| != 15 && |k| != 23
  {
  }

  /** Assigning a key the dict does not list appends it to the key list. */
  lemma PutFreshKey<V>(d: Dict<V>, k: string, v: V)
    requires k !in Keys(d)
    ensures Keys(Put(d, k, v)) == Keys(d) + [k]
  {
    HasIffListed(d, k);
    PutKeys(d, k, v);
  }

  /** Which keys a row has, as `key in order_obj` sees it. */
  lemma LegacyRowHas(line: Line, status: string, key: string)
    ensures Has(LegacyRow(line, status), key) <==>
      || key in BaseKeys
      || (status == "Open" && key in ["bid", "ask", "net_price"])
      || (status == "indiv_fills" && key == "filled_quantity")
      || (status != "Open" && status != "indiv_fills" && status !in NoExecutionPrice
          && key == "average_execution_price")
  {
    LegacyRowKeys(line, status);
    HasIffListed(LegacyRow(line, status), key);
  }

  /** `view_orders` asks for the open orders with status "open", so their rows never
      get bid, ask or net_price. */
  lemma OpenQuotesNeverAdded(line: Line)
    ensures !Has(LegacyRow(line, "open"), "bid")
    ensures !Has(LegacyRow(line, "open"), "ask")
    ensures !Has(LegacyRow(line, "open"), "net_price")
  {
    var base := BaseRow(line);
    assert LegacyRow(line, "open") == base by {
      assert "open" in NoExecutionPrice;
    }
    BaseRowKeys(line);
    BaseKeyLengths();
    HasIffListed(base, "bid");
    HasIffListed(base, "ask");
    HasIffListed(base, "net_price");
  }

  /** Only the capitalised status "Open" adds the quotes: it adds all three, and
      any other status adds none of them. */
  lemma CapitalisedOpenAddsQuotes(line: Line, status: string)
    ensures Has(LegacyRow(line, "Open"), "bid")
    ensures Has(LegacyRow(line, "Open"), "ask")
    ensures Has(LegacyRow(line, "Open"), "net_price")
    ensures status != "Open" ==> !Has(LegacyRow(line, status), "bid")
    ensures status != "Open" ==> !Has(LegacyRow(line, status), "ask")
    ensures status != "Open" ==> !Has(LegacyRow(line, status), "net_price")
  {
    BaseKeyLengths();
    LegacyRowHas(line, "Open", "bid");
    LegacyRowHas(line, "Open", "ask");
    LegacyRowHas(line, "Open", "net_price");
    LegacyRowHas(line, status, "bid");
    LegacyRowHas(line, status, "ask");
    LegacyRowHas(line, status, "net_price");
  }

  /** The status-specific keys carry the detail's quotes and the instrument's
      fill and execution values. */
  lemma LegacyRowValues(line: Line, status: string)
    ensures status == "Open" ==> Get(LegacyRow(line, status), "bid") == Some(Field(line.detail, "netBid"))
    ensures status == "Open" ==> Get(LegacyRow(line, status), "ask") == Some(Field(line.detail, "netAsk"))
    ensures status == "Open" ==> Get(LegacyRow(line, status), "net_price") == Some(Field(line.detail, "netPrice"))
    ensures status == "indiv_fills" ==>
      Get(LegacyRow(line, status), "filled_quantity") == Some(Field(line.instrument.fields, "filledQuantity"))
    ensures status != "Open" && status != "indiv_fills" && status !in NoExecutionPrice ==>
      Get(LegacyRow(line, status), "average_execution_price")
        == Some(Field(line.instrument.fields, "averageExecutionPrice"))
  {
    assert "ask"[0] != "bid"[0] && "net_price"[0] != "bid"[0] && "net_price"[0] != "ask"[0];
  }

  /** The rows of `parse_orders` for a list of lines, appended one by one. */
  function RowsOf(lines: seq<Line>, status: string): (rows: seq<Row>)
    ensures |rows| == |lines|
  {
    if lines == [] then []
    else RowsOf(lines[..|lines| - 1], status) + [LegacyRow(lines[|lines| - 1], status)]
  }

  lemma RowsOfAppend(lines: seq<Line>, line: Line, status: string)
    ensures RowsOf(lines + [line], status) == RowsOf(lines, status) + [LegacyRow(line, status)]
  {
    assert (lines + [line])[..|lines|] == lines;
  }

  /** Row k is the row of line k. */
  lemma {:induction false} RowsOfAt(lines: seq<Line>, status: string, k: nat)
    requires k < |lines|
    ensures RowsOf(lines, status)[k] == LegacyRow(lines[k], status)
  {
    if k < |lines| - 1 {
      RowsOfAt(lines[..|lines| - 1], status, k);
    }
  }

  /** `order_obj` for one instrument: the literal, then the status-specific keys. */
  method BuildRow(order: Fields, detail: Fields, instrument: Instrument, status: string) returns (row: Row)
    ensures row == LegacyRow(Line(order, detail, instrument), status)
  {
    row := BaseRow(Line(order, detail, instrument));
    if status == "Open" {
      row := Put(row, "bid", Field(detail, "netBid"));
      row := Put(row, "ask", Field(detail, "netAsk"));
      row := Put(row, "net_price", Field(detail, "netPrice"));
    } else if status == "indiv_fills" {
      row := Put(row, "filled_quantity", Field(instrument.fields, "filledQuantity"));
    } else if status !in NoExecutionPrice {
      row := Put(row, "average_execution_price", Field(instrument.fields, "averageExecutionPrice"));
    }
  }

  /** Rows of consecutive lines are the consecutive rows. */
  lemma {:induction false} RowsOfConcat(a: seq<Line>, b: seq<Line>, status: string)
    ensures RowsOf(a + b, status) == RowsOf(a, status) + RowsOf(b, status)
  {
    if b != [] {
      var last := b[|b| - 1];
      var front := b[..|b| - 1];
      assert b == front + [last];
      RowsOfConcat(a, front, status);
      assert a + b == (a + front) + [last];
      RowsOfAppend(a + front, last, status);
      RowsOfAppend(front, last, status);
    } else {
      assert a + b == a;
    }
  }

  /** The innermost loop of `parse_orders`: the rows of one detail's instruments. */
  method DetailRows(order: Fields, detail: Option<Detail>, status: string) returns (rows: seq<Row>)
    ensures rows == RowsOf(DetailLinesOf(order, detail), status)
  {
    rows := [];
    if detail.Some? && detail.value.instruments.Some? {
      var instruments := detail.value.instruments.value;
      var detailFields := detail.value.fields;
      for l := 0 to |instruments|
        invariant rows == RowsOf(InstrumentLines(order, detailFields, instruments, l), status)
      {
        var row := BuildRow(order, detailFields, instruments[l], status);
        var line := Line(order, detailFields, instruments[l]);
        RowsOfAppend(InstrumentLines(order, detailFields, instruments, l), line, status);
        rows := rows + [row];
      }
    }
  }

  /** The middle loop of `parse_orders`: the rows of one order's details. */
  method OrderRows(order: Option<OrderEntry>, status: string) returns (rows: seq<Row>)
    ensures rows == RowsOf(OrderLinesOf(order), status)
  {
    rows := [];
    if order.Some? && order.value.details.Some? {
      var details := order.value.details.value;
      var orderFields := order.value.fields;
      for j := 0 to |details|
        invariant rows == RowsOf(DetailLines(orderFields, details, j), status)
      {
        var detailRows := DetailRows(orderFields, details[j], status);
        RowsOfConcat(DetailLines(orderFields, details, j), DetailLinesOf(orderFields, details[j]), status);
        rows := rows + detailRows;
      }
    }
  }

  /** `parse_orders`: one row per instrument, in reply order. */
  method ParseOrders(response: Option<Reply>, status: string) returns (rows: seq<Row>)
    ensures rows == RowsOf(Lines(response), status)
    ensures OrderList(response).None? ==> rows == []
    ensures |rows| == InstrumentCount(response)
  {
    LinesCount(response);
    rows := [];
    if OrderList(response).None? {
      return;
    }
    var orders := OrderList(response).value;
    for i := 0 to |orders|
      invariant rows == RowsOf(OrderLines(orders, i), status)
    {
      var orderRows := OrderRows(orders[i], status);
      RowsOfConcat(OrderLines(orders, i), OrderLinesOf(orders[i]), status);
      rows := rows + orderRows;
    }
  }
}
