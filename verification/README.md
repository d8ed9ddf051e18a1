# Transfer history ingestion: response decoding and row mapping

This project models the core of the `history` program of nodle-subscan. The
program asks the Subscan transfers API for one page of Nodle transfers and
decodes the JSON response into `TransferBody` records. `TransferBody.Save` is
the row mapping the BigQuery inserter would use; the live program never calls
it, because its only insert is commented out.

The model starts from an already-parsed JSON value tree. It covers three things:

- building the page query (`TransferQuery`), and the JSON object its struct
  tags lay out;
- decoding the response's `data.transfers` array into records, with every Go
  type-assertion panic made an explicit `Failure` that names the failing
  assertion;
- mapping a record to its seven-column row, which never deduplicates and
  never fails.

Modules:

- `Wrappers`: the `Option` and `Result` types.
- `Json`: the value tree that `encoding/json` decodes into an `interface{}`,
  Go's map indexing (a missing key reads as nil, like JSON null) and the type
  assertions.
- `Transfers`: `TransferBody` as `Transfer`, `Save`, and its inverse `Load`.
- `Requests`: `TransferQuery`, `NewQuery`, and the request object with its
  inverse `ParseQuery`.
- `Responses`: `DecodeTransfer`, `DecodeElements`, `DecodePage` and
  `DecodeBody`, with the independent predicates `WellShaped` and `Represents`
  that their contracts are stated against.
- `ResponseLemmas`: record and response encoders (the partners of the
  decoder), round trips, order and concatenation, and the path from a
  response element to its saved row.

Decoding outcomes:

- `data.transfers` absent or null gives `Success(EndOfStream)`.
- `data.transfers` an array gives `Success(Records(rs))`, with one record per
  element, in order.
- Anything else is a `Failure` naming the assertion that would panic:
  `TopLevelNotObject`, `DataNotObject`, `TransfersNotArray`, or
  `BadElement(index, fault)` for the first element that does not decode.

A failure carries no records.

Behaviour of the code worth noting:

- A response with no `data` object, or with `data` null, is a failure, not
  end of stream. The code asserts `data` is an object before it looks at
  `transfers`.
- An empty `transfers` array is `Records([])` in the model. The Go function
  returns a nil slice both for it and at end of stream. `Responses.Returned`
  models what the caller sees, and it cannot tell the two apart.
- The extrinsic index is not checked to be non-empty. The code copies
  whatever string it finds.
- A body that is not valid JSON fails at the first type assertion. The
  decoder's error is ignored and the target stays nil, so there is no
  separate decode-error path.

## Model

| member | source | states |
|---|---|---|
| `Transfers.Save` | history/main.go:50-60 | The row has exactly the seven columns and reads back (`Load`) as the very record saved. The insert id is the no-dedupe id and the error is nil, for every record. |
| `Transfers.LoadThenSave` | history/main.go:50-60 | Every well-typed seven-column row is the row `Save` writes for the record it reads, so `Save` is a bijection between records and such rows. |
| `Transfers.SaveInjective` | history/main.go:50-60 | Distinct records give distinct rows: no attribute is lost or merged by the mapping. |
| `Requests.NewQuery` | history/main.go:62-68 | The query carries the requested page size and page index unchanged, and otherwise equals Go's zero `TransferQuery`, with every filter at its default. |
| `Requests.QueryJson` | history/main.go:28-38 | The request object has exactly the nine tagged keys, and `ParseQuery` reads the same query back from it. |
| `Requests.ParseThenQueryJson` | history/main.go:28-38 | Any object read as a query is exactly that query's request object, so body and query determine each other. |
| `Requests.NewQueryBody` | history/main.go:62-70 | The body for a page holds `row` and `page` as requested. The nil pointer filters are null, and the plain filters are `""` and `0`. |
| `Responses.DecodeKeysAreColumns` | history/main.go:50-60 | The seven keys read from a response element, in their assertion order, are exactly the seven column names of the saved row. |
| `Responses.DecodeTransfer` | history/main.go:113-125 | An element decodes exactly when it is an object whose seven keys have the asserted kinds. The record holds every value verbatim. It fails with `NotObject` exactly when the element is not an object. |
| `Responses.DecodeElements` | history/main.go:111-127 | It succeeds exactly when every element is well shaped, and then gives one record per element, in order, each represented by its element. Otherwise it fails at an element whose own decode fails, and every element before that one is well shaped. |
| `Responses.DecodePage` | history/main.go:100-128 | It succeeds exactly on responses whose `data.transfers` is absent, null, or an array of well-shaped elements. It gives end of stream exactly for absent or null. Each failure kind matches its shape violation. Records match the array element by element, and a failing element is the first bad one. |
| `Responses.DecodeBody` | history/main.go:96-100 | An unparsable body fails at the top-level object assertion. A parsed body decodes like its value tree. |
| `Responses.Returned` | history/main.go:104-128 | The caller gets an empty slice exactly at end of stream or for an empty array, and otherwise the page's records unchanged and in order. |
| `ResponseLemmas.TransferJson` | history/main.go:113-125 | The object built for a record has exactly the seven keys and represents that record. |
| `ResponseLemmas.ResponseJson` | history/main.go:100-111 | The response built for a list of records has a `data.transfers` array with one element per record. |
| `ResponseLemmas.RepresentsUnique` | history/main.go:117-125 | An element represents at most one record, so a decoded record is determined by its element. |
| `ResponseLemmas.DecodeTransferExactly` | history/main.go:113-125 | An element decodes to a record if and only if it represents that record. |
| `ResponseLemmas.TransferRoundTrip` | history/main.go:113-125 | Decoding the object written for a record gives back that record. |
| `ResponseLemmas.FaultIsFirstMismatch` | history/main.go:113-124 | A wrong-kind fault names the first key, in assertion order, whose value has the wrong kind. Every earlier key passed its assertion. |
| `ResponseLemmas.ExtraKeysIgnored` | history/main.go:113-124 | Two elements that agree on the seven record keys decode alike, whatever other keys they carry. |
| `ResponseLemmas.AmountIsNeverParsed` | history/main.go:123 | An amount given as a JSON number is rejected. A decoded amount is the element's string, unchanged. |
| `ResponseLemmas.MissingTransfersEndsStream` | history/main.go:102-107 | With `data` an object and `transfers` absent or null, decoding gives end of stream and does not fail. |
| `ResponseLemmas.EmptyArrayIsEmptyPage` | history/main.go:109-128 | An empty `transfers` array gives a page of zero records, not a failure. |
| `ResponseLemmas.DecodeElementsAppend` | history/main.go:111-127 | The records of two concatenated arrays are the records of the first followed by those of the second. |
| `ResponseLemmas.PageRoundTrip` | history/main.go:100-128 | A response built from any list of records decodes to exactly that list, in order. An empty list gives an empty page, not end of stream. |
| `ResponseLemmas.ReturnedRecordsFollowArray` | history/main.go:104-128 | For a response that decodes, the caller receives nothing when `transfers` is absent or null, and otherwise exactly one record per array element, in order, each represented by its element. |
| `ResponseLemmas.SavedRowMirrorsElement` | history/main.go:50-60 | For a decoded element, every column of the saved row holds the value the element had under the same key. |

## Left out

- Building and sending the HTTP request, setting its headers and reading the
  body (history/main.go:75-94). This is network I/O.
- The path where sending fails and the function returns nil
  (history/main.go:86-89). The caller sees the same empty result as at end of
  stream, but the path needs the network.
- The byte-level work of `json.Marshal` and `json.Unmarshal`
  (history/main.go:70, 97). These are library calls. The model works on value
  trees, and `DecodeBody` takes `None` for a body that does not parse.
- Printing the raw body (history/main.go:99), and the `log.Fatal` and
  `os.Exit` paths (71-73, 76-79, 92-94). These are I/O and process exit.
- `Responses.DecodeTransfer`: the conversion of `block_num` and
  `block_timestamp` from float64 to int, and Go's 64-bit `int` width
  (history/main.go:114-115). JSON numbers are modelled as unbounded
  integers, so fractions and rounding are not modelled.
- `ResponseLemmas.FaultIsFirstMismatch`: the language does not fix the order
  of the type assertions inside one composite literal
  (history/main.go:117-125). The model takes their lexical order, the order
  the standard compiler evaluates them in. A Go panic carries no key name, so
  only the named key depends on this choice.
- The BigQuery client, the inserter and `bigquery.Value`
  (history/main.go:133-137, and the commented-out insert at 156-160).
  These are a foreign library and remote writes.
  A cell is modelled as a string, int or bool, and `NoDedupeID` as the
  library's constant string.
- Timing and logging in `main` (history/main.go:144, 164-165), and the
  benchmark notes (17-24).
- The page loop and size cap (history/main.go:139-162). They exist only as
  commented-out code, so there is no behaviour to model.
