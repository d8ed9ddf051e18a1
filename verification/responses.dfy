/** Decoding a page response of the transfers API into transfer records: the
    walk over `data.transfers` that `doNodlRequest` performs with type
    assertions, each panic made an explicit failure. */
module Responses {
  import opened Wrappers
  import opened Json
  import opened Transfers

  /** The Go type a record field is asserted to have. */
  datatype Kind = Text | Number | Flag

  /** The seven keys of a record, in the order their types are asserted:
      the two numbers first, then the composite literal's fields. */
  const DecodeOrder: seq<string> :=
    ["block_num", "block_timestamp", "extrinsic_index", "from", "to", "amount", "success"]

  /** The keys the decoder reads are exactly the column names `Save` writes. */
  lemma DecodeKeysAreColumns()
    ensures Columns == set k | k in DecodeOrder
  {
    var keys := set k | k in DecodeOrder;
    assert DecodeOrder[0] in keys && DecodeOrder[1] in keys && DecodeOrder[2] in keys;
    assert DecodeOrder[3] in keys && DecodeOrder[4] in keys && DecodeOrder[5] in keys;
    assert DecodeOrder[6] in keys;
  }

  function KindOf(key: string): Kind {
    if key == "block_num" || key == "block_timestamp" then Number
    else if key == "success" then Flag
    else Text
  }

  predicate HasKind(v: JValue, k: Kind) {
    match k
    case Text => v.JString?
    case Number => v.JNum?
    case Flag => v.JBool?
  }

  /** The value under `key` passes the type assertion applied to it. */
  predicate FieldOk(fields: map<string, JValue>, key: string) {
    HasKind(Get(fields, key), KindOf(key))
  }

  /** An array element that every type assertion accepts. */
  predicate WellShaped(e: JValue) {
    && e.JObject?
    && FieldOk(e.fields, "block_num")
    && FieldOk(e.fields, "block_timestamp")
    && FieldOk(e.fields, "extrinsic_index")
    && FieldOk(e.fields, "from")
    && FieldOk(e.fields, "to")
    && FieldOk(e.fields, "amount")
    && FieldOk(e.fields, "success")
  }

  /** `e` is an object holding every attribute of `t` under its key; the
      strings, the amount among them, appear verbatim. */
  predicate Represents(e: JValue, t: Transfer) {
    && e.JObject?
    && Get(e.fields, "extrinsic_index") == JString(t.extrinsicIndex)
    && Get(e.fields, "block_num") == JNum(t.blockNum)
    && Get(e.fields, "block_timestamp") == JNum(t.blockTimestamp)
    && Get(e.fields, "from") == JString(t.from)
    && Get(e.fields, "to") == JString(t.to)
    && Get(e.fields, "amount") == JString(t.amount)
    && Get(e.fields, "success") == JBool(t.success)
  }

  /** Why one array element could not be decoded. */
  datatype ElementFault = NotObject | WrongKind(key: string)

  /** Where decoding a page stopped: the type assertion that would panic. */
  datatype DecodeError =
    | TopLevelNotObject
    | DataNotObject
    | TransfersNotArray
    | BadElement(index: nat, fault: ElementFault)

  /** A decoded page: the end-of-stream signal (no `transfers` value) or the
      records of the `transfers` array. */
  datatype Page = EndOfStream | Records(records: seq<Transfer>)

  /** Decodes one element of the `transfers` array into a record. */
  function DecodeTransfer(e: JValue): (r: Result<Transfer, ElementFault>)
    ensures r.Success? <==> WellShaped(e)
    ensures r.Success? ==> Represents(e, r.value)
    ensures r == Failure(NotObject) <==> !e.JObject?
  {
    var a :- AsObject(e).ToResult(NotObject);
    var blockNum :- AsNumber(Get(a, "block_num")).ToResult(WrongKind("block_num"));
    var blockTimestamp :- AsNumber(Get(a, "block_timestamp")).ToResult(WrongKind("block_timestamp"));
    var extrinsicIndex :- AsString(Get(a, "extrinsic_index")).ToResult(WrongKind("extrinsic_index"));
    var from :- AsString(Get(a, "from")).ToResult(WrongKind("from"));
    var to :- AsString(Get(a, "to")).ToResult(WrongKind("to"));
    var amount :- AsString(Get(a, "amount")).ToResult(WrongKind("amount"));
    var success :- AsBool(Get(a, "success")).ToResult(WrongKind("success"));
    Success(Transfer(extrinsicIndex, blockNum, blockTimestamp, from, to, amount, success))
  }

  /** Decodes the elements in order, appending one record per element; the
      first element that does not decode fails the whole array. */
  function DecodeElements(items: seq<JValue>): (r: Result<seq<Transfer>, DecodeError>)
    ensures r.Success? <==> forall k :: 0 <= k < |items| ==> WellShaped(items[k])
    ensures r.Success? ==>
      && |r.value| == |items|
      && forall k :: 0 <= k < |items| ==> Represents(items[k], r.value[k])
    ensures r.Failure? ==>
      && r.error.BadElement?
      && r.error.index < |items|
      && DecodeTransfer(items[r.error.index]) == Failure(r.error.fault)
      && forall k :: 0 <= k < r.error.index ==> WellShaped(items[k])
  {
    if |items| == 0 then Success([])
    else
      var last := |items| - 1;
      var init :- DecodeElements(items[..last]);
      match DecodeTransfer(items[last])
      case Failure(fault) => Failure(BadElement(last, fault))
      case Success(t) => Success(init + [t])
  }

  /** The value at `data.transfers`, when the response and its `data` are
      both objects. */
  function TransfersValue(f: JValue): Option<JValue> {
    if f.JObject? && Get(f.fields, "data").JObject? then
      Some(Get(Get(f.fields, "data").fields, "transfers"))
    else
      None
  }

  /** A response that decodes: `data.transfers` is absent, null, or an array
      of well-shaped elements. */
  predicate ResponseOk(f: JValue) {
    && TransfersValue(f).Some?
    && var v := TransfersValue(f).value;
       || v.JNull?
       || (v.JArray? && forall k :: 0 <= k < |v.items| ==> WellShaped(v.items[k]))
  }

  /** Decodes a parsed response into a page of records. */
  function DecodePage(f: JValue): (r: Result<Page, DecodeError>)
    ensures r.Success? <==> ResponseOk(f)
    ensures r == Success(EndOfStream) <==> TransfersValue(f) == Some(JNull)
    ensures r == Failure(TopLevelNotObject) <==> !f.JObject?
    ensures r == Failure(DataNotObject) <==> f.JObject? && !Get(f.fields, "data").JObject?
    ensures r == Failure(TransfersNotArray) <==>
      TransfersValue(f).Some? && !TransfersValue(f).value.JNull? && !TransfersValue(f).value.JArray?
    ensures r.Success? && r.value.Records? ==>
      && TransfersValue(f).Some? && TransfersValue(f).value.JArray?
      && var items := TransfersValue(f).value.items;
         && |r.value.records| == |items|
         && forall k :: 0 <= k < |items| ==> Represents(items[k], r.value.records[k])
    ensures r.Failure? && r.error.BadElement? ==>
      && TransfersValue(f).Some? && TransfersValue(f).value.JArray?
      && var items := TransfersValue(f).value.items;
         && r.error.index < |items|
         && DecodeTransfer(items[r.error.index]) == Failure(r.error.fault)
         && forall k :: 0 <= k < r.error.index ==> WellShaped(items[k])
  {
    var m :- AsObject(f).ToResult(TopLevelNotObject);
    var v :- AsObject(Get(m, "data")).ToResult(DataNotObject);
    var inter := Get(v, "transfers");
    if inter.JNull? then
      Success(EndOfStream)
    else
      var sli :- AsArray(inter).ToResult(TransfersNotArray);
      var transfers :- DecodeElements(sli);
      Success(Records(transfers))
  }

  /** Decodes a response body: None is a body that is not valid JSON. Its
      parse error is ignored, the target stays nil, and the first type
      assertion fails. */
  function DecodeBody(parsed: Option<JValue>): (r: Result<Page, DecodeError>)
    ensures parsed.None? ==> r == Failure(TopLevelNotObject)
    ensures parsed.Some? ==> r == DecodePage(parsed.value)
  {
    var f := if parsed.Some? then parsed.value else JNull;
    DecodePage(f)
  }

  /** The records a caller receives: the Go function returns a nil slice both
      at end of stream and for an empty array. */
  function Returned(p: Page): (s: seq<Transfer>)
    ensures |s| == 0 <==> p.EndOfStream? || p.records == []
    ensures p.Records? ==> s == p.records
  {
    match p
    case EndOfStream => []
    case Records(rs) => rs
  }
}
