/** The page request (`TransferQuery`) and the JSON object its struct tags
    lay out. */
module Requests {
  import opened Wrappers
  import opened Json

  /** The request parameters. Pointer fields are optional filters: None is
      Go's nil pointer. */
  datatype TransferQuery = TransferQuery(
    row: int,
    page: int,
    address: Option<string>,
    extrinsicIndex: string,
    fromBlock: int,
    toBlock: int,
    direction: Option<string>,
    includeTotal: Option<bool>,
    assetSymbol: Option<string>)

  /** Go's zero value of `TransferQuery`: no rows, page zero, no filter set. */
  const ZeroQuery: TransferQuery := TransferQuery(0, 0, None, "", 0, 0, None, None, None)

  /** The nine keys of the request object, one per struct tag. */
  const QueryKeys: set<string> :=
    {"row", "page", "address", "extrinsic_index", "from_block", "to_block",
     "direction", "include_total", "asset_symbol"}

  /** The query sent for one page: the requested page size and page index,
      every filter left at its zero value. */
  function NewQuery(rows: int, page: int): (q: TransferQuery)
    ensures q.row == rows && q.page == page
    ensures q.(row := 0, page := 0) == ZeroQuery
  {
    TransferQuery(row := rows, page := page, address := None, extrinsicIndex := "",
                  fromBlock := 0, toBlock := 0, direction := None,
                  includeTotal := None, assetSymbol := None)
  }

  function OptionalString(o: Option<string>): JValue {
    match o
    case None => JNull
    case Some(s) => JString(s)
  }

  function OptionalBool(o: Option<bool>): JValue {
    match o
    case None => JNull
    case Some(b) => JBool(b)
  }

  /** The value tree of the request body: each field under its tag, with no
      field omitted and a nil pointer written as null. */
  function QueryJson(q: TransferQuery): (v: JValue)
    ensures v.JObject? && v.fields.Keys == QueryKeys
    ensures ParseQuery(v) == Some(q)
  {
    JObject(map[
      "row" := JNum(q.row),
      "page" := JNum(q.page),
      "address" := OptionalString(q.address),
      "extrinsic_index" := JString(q.extrinsicIndex),
      "from_block" := JNum(q.fromBlock),
      "to_block" := JNum(q.toBlock),
      "direction" := OptionalString(q.direction),
      "include_total" := OptionalBool(q.includeTotal),
      "asset_symbol" := OptionalString(q.assetSymbol)])
  }

  function ParseOptionalString(v: JValue): Option<Option<string>> {
    match v
    case JNull => Some(None)
    case JString(s) => Some(Some(s))
    case _ => None
  }

  function ParseOptionalBool(v: JValue): Option<Option<bool>> {
    match v
    case JNull => Some(None)
    case JBool(b) => Some(Some(b))
    case _ => None
  }

  /** Reads a request object back: exactly the nine tagged keys, each with a
      value of its field's type. */
  function ParseQuery(v: JValue): Option<TransferQuery> {
    var o :- AsObject(v);
    if o.Keys != QueryKeys then None
    else
      var row :- AsNumber(o["row"]);
      var page :- AsNumber(o["page"]);
      var address :- ParseOptionalString(o["address"]);
      var extrinsicIndex :- AsString(o["extrinsic_index"]);
      var fromBlock :- AsNumber(o["from_block"]);
      var toBlock :- AsNumber(o["to_block"]);
      var direction :- ParseOptionalString(o["direction"]);
      var includeTotal :- ParseOptionalBool(o["include_total"]);
      var assetSymbol :- ParseOptionalString(o["asset_symbol"]);
      Some(TransferQuery(row, page, address, extrinsicIndex, fromBlock, toBlock,
                         direction, includeTotal, assetSymbol))
  }

  /** Every object `ParseQuery` accepts is the body of the query it reads, so
      the request body determines the query and the query determines the body. */
  lemma ParseThenQueryJson(v: JValue, q: TransferQuery)
    requires ParseQuery(v) == Some(q)
    ensures QueryJson(q) == v
  {
  }

  /** The body sent for page `page` of size `rows`: those two numbers, the
      nil filters as null and the plain filters at zero. */
  lemma NewQueryBody(rows: int, page: int)
    ensures var o := QueryJson(NewQuery(rows, page)).fields;
      && o["row"] == JNum(rows) && o["page"] == JNum(page)
      && o["address"] == JNull && o["direction"] == JNull
      && o["include_total"] == JNull && o["asset_symbol"] == JNull
      && o["extrinsic_index"] == JString("")
      && o["from_block"] == JNum(0) && o["to_block"] == JNum(0)
  {
  }
}
