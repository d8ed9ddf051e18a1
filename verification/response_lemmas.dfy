/** Properties of response decoding: what a decoded record is, how records
    follow the array, and how the decoded record reaches the saved row. */
module ResponseLemmas {
  import opened Wrappers
  import opened Json
  import opened Transfers
  import opened Responses

  /** The object a well-formed API response carries for one transfer. */
  function TransferJson(t: Transfer): (e: JValue)
    ensures Represents(e, t)
    ensures e.fields.Keys == Columns
  {
    JObject(map[
      "extrinsic_index" := JString(t.extrinsicIndex),
      "block_num" := JNum(t.blockNum),
      "block_timestamp" := JNum(t.blockTimestamp),
      "from" := JString(t.from),
      "to" := JString(t.to),
      "amount" := JString(t.amount),
      "success" := JBool(t.success)])
  }

  /** A response `{"data": {"transfers": [...]}}` listing the given records. */
  function ResponseJson(ts: seq<Transfer>): (f: JValue)
    ensures TransfersValue(f).Some? && TransfersValue(f).value.JArray?
    ensures |TransfersValue(f).value.items| == |ts|
  {
    var items := seq(|ts|, k requires 0 <= k < |ts| => TransferJson(ts[k]));
    JObject(map["data" := JObject(map["transfers" := JArray(items)])])
  }

  /** An element represents at most one record. */
  lemma RepresentsUnique(e: JValue, t1: Transfer, t2: Transfer)
    requires Represents(e, t1) && Represents(e, t2)
    ensures t1 == t2
  {
  }

  /** An element decodes to a record exactly when it represents that record. */
  lemma DecodeTransferExactly(e: JValue, t: Transfer)
    ensures DecodeTransfer(e) == Success(t) <==> Represents(e, t)
  {
  }

  /** A record object decodes to the record it was written from. */
  lemma TransferRoundTrip(t: Transfer)
    ensures DecodeTransfer(TransferJson(t)) == Success(t)
  {
  }

  /** A wrong-kind fault names the first key, in assertion order, whose value
      has the wrong kind; every key before it was accepted. */
  lemma FaultIsFirstMismatch(e: JValue)
    requires DecodeTransfer(e).Failure? && DecodeTransfer(e).error.WrongKind?
    ensures e.JObject?
    ensures exists p :: (
      && 0 <= p < |DecodeOrder|
      && DecodeOrder[p] == DecodeTransfer(e).error.key
      && !FieldOk(e.fields, DecodeOrder[p])
      && forall i :: 0 <= i < p ==> FieldOk(e.fields, DecodeOrder[i]))
  {
    var o := e.fields;
    var key := DecodeTransfer(e).error.key;
    var p :=
      if !FieldOk(o, "block_num") then 0
      else if !FieldOk(o, "block_timestamp") then 1
      else if !FieldOk(o, "extrinsic_index") then 2
      else if !FieldOk(o, "from") then 3
      else if !FieldOk(o, "to") then 4
      else if !FieldOk(o, "amount") then 5
      else 6;
    assert DecodeOrder[p] == key;
    assert forall i :: 0 <= i < p ==> FieldOk(o, DecodeOrder[i]);
  }

  /** Only the seven record keys matter: keys the decoder never reads do not
      change the outcome. */
  lemma ExtraKeysIgnored(o1: map<string, JValue>, o2: map<string, JValue>)
    requires forall k :: k in Columns ==> Get(o1, k) == Get(o2, k)
    ensures DecodeTransfer(JObject(o1)) == DecodeTransfer(JObject(o2))
  {
  }

  /** The amount is carried as text: any string, numeric-looking or not, is
      copied unchanged, and an amount given as a JSON number is rejected. */
  lemma AmountIsNeverParsed(e: JValue)
    requires e.JObject?
    ensures Get(e.fields, "amount").JNum? ==> DecodeTransfer(e).Failure?
    ensures DecodeTransfer(e).Success? ==>
      Get(e.fields, "amount") == JString(DecodeTransfer(e).value.amount)
  {
  }

  /** Absent or null `transfers` inside an object `data` is end of stream,
      and not a failure. */
  lemma MissingTransfersEndsStream(f: JValue)
    requires f.JObject? && "data" in f.fields && f.fields["data"].JObject?
    requires "transfers" !in f.fields["data"].fields || f.fields["data"].fields["transfers"] == JNull
    ensures DecodePage(f) == Success(EndOfStream)
  {
  }

  /** An empty `transfers` array is a page of no records, and not a failure. */
  lemma EmptyArrayIsEmptyPage(f: JValue)
    requires TransfersValue(f) == Some(JArray([]))
    ensures DecodePage(f) == Success(Records([]))
  {
  }

  /** Decoding distributes over concatenation: the records of `a + b` are the
      records of `a` followed by those of `b`. */
  lemma DecodeElementsAppend(a: seq<JValue>, b: seq<JValue>)
    requires DecodeElements(a).Success? && DecodeElements(b).Success?
    ensures DecodeElements(a + b) == Success(DecodeElements(a).value + DecodeElements(b).value)
  {
    var ab := a + b;
    var ra, rb := DecodeElements(a).value, DecodeElements(b).value;
    var expected := ra + rb;
    forall k | 0 <= k < |ab|
      ensures WellShaped(ab[k]) && Represents(ab[k], expected[k])
    {
      if k < |a| {
        assert ab[k] == a[k];
      } else {
        assert ab[k] == b[k - |a|];
      }
    }
    var r := DecodeElements(ab).value;
    forall k | 0 <= k < |ab|
      ensures r[k] == expected[k]
    {
      RepresentsUnique(ab[k], r[k], expected[k]);
    }
    assert r == expected;
  }

  /** A response built from records decodes back to exactly those records,
      in order; with no records it is an empty page, not end of stream. */
  lemma PageRoundTrip(ts: seq<Transfer>)
    ensures DecodePage(ResponseJson(ts)) == Success(Records(ts))
  {
    var f := ResponseJson(ts);
    var items := TransfersValue(f).value.items;
    forall k | 0 <= k < |items|
      ensures WellShaped(items[k])
    {
      TransferRoundTrip(ts[k]);
    }
    var rs := DecodePage(f).value.records;
    assert |rs| == |ts|;
    forall k | 0 <= k < |ts|
      ensures rs[k] == ts[k]
    {
      RepresentsUnique(items[k], rs[k], ts[k]);
    }
    assert rs == ts;
  }

  /** What the caller receives for a response that decodes: nothing when
      `transfers` is absent or null, otherwise one record per array element,
      in order. */
  lemma ReturnedRecordsFollowArray(f: JValue)
    requires DecodePage(f).Success?
    ensures TransfersValue(f).Some?
    ensures var s, v := Returned(DecodePage(f).value), TransfersValue(f).value;
      && (v.JNull? ==> s == [])
      && (v.JArray? ==> |s| == |v.items| && forall k :: 0 <= k < |s| ==> Represents(v.items[k], s[k]))
  {
  }

  /** The JSON value of a saved cell. */
  function CellJson(v: Value): JValue {
    match v
    case VString(s) => JString(s)
    case VInt(i) => JNum(i)
    case VBool(b) => JBool(b)
  }

  /** End to end: every column of the row saved for a decoded record holds
      the value the response element had under the same key. */
  lemma SavedRowMirrorsElement(e: JValue)
    requires DecodeTransfer(e).Success?
    ensures var row := Save(DecodeTransfer(e).value).row;
      forall c :: c in row ==> c in e.fields && CellJson(row[c]) == e.fields[c]
  {
  }
}
