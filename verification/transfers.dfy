/** The transfer record (`TransferBody`) and its conversion into a warehouse
    row (`TransferBody.Save`, the row-saver interface of the BigQuery
    inserter). */
module Transfers {
  import opened Wrappers

  /** One ledger transfer. The amount is a decimal kept as text. */
  datatype Transfer = Transfer(
    extrinsicIndex: string,
    blockNum: int,
    blockTimestamp: int,
    from: string,
    to: string,
    amount: string,
    success: bool)

  /** The dynamic value a row cell holds: the Go string, int or bool stored
      under `bigquery.Value`. */
  datatype Value = VString(s: string) | VInt(i: int) | VBool(b: bool)

  /** The insert id by which a row opts out of best-effort deduplication
      (the library constant `bigquery.NoDedupeID`). */
  const NoDedupeId: string := "NoDedupeID"

  /** The seven column names of a saved row. */
  const Columns: set<string> :=
    {"extrinsic_index", "block_num", "block_timestamp", "from", "to", "amount", "success"}

  /** What `Save` returns: the row, its insert id and its error (None for nil). */
  datatype SaveResult = SaveResult(row: map<string, Value>, insertId: string, err: Option<string>)

  /** Maps every attribute to the column of the same name, never deduplicates
      and never fails. */
  function Save(t: Transfer): (r: SaveResult)
    ensures r.row.Keys == Columns
    ensures Load(r.row) == Some(t)
    ensures r.insertId == NoDedupeId
    ensures r.err == None
  {
    var row := map[
      "extrinsic_index" := VString(t.extrinsicIndex),
      "block_num" := VInt(t.blockNum),
      "block_timestamp" := VInt(t.blockTimestamp),
      "from" := VString(t.from),
      "to" := VString(t.to),
      "amount" := VString(t.amount),
      "success" := VBool(t.success)];
    SaveResult(row, NoDedupeId, None)
  }

  /** Reads a row back into a transfer: the row must have exactly the seven
      columns, each holding a value of its attribute's type. */
  function Load(row: map<string, Value>): Option<Transfer> {
    if row.Keys == Columns
       && row["extrinsic_index"].VString? && row["block_num"].VInt?
       && row["block_timestamp"].VInt? && row["from"].VString?
       && row["to"].VString? && row["amount"].VString? && row["success"].VBool?
    then
      Some(Transfer(row["extrinsic_index"].s, row["block_num"].i, row["block_timestamp"].i,
                    row["from"].s, row["to"].s, row["amount"].s, row["success"].b))
    else
      None
  }

  /** Every row `Load` accepts is the row `Save` writes for the transfer it
      reads: the two are inverse bijections between transfers and rows. */
  lemma LoadThenSave(row: map<string, Value>, t: Transfer)
    requires Load(row) == Some(t)
    ensures Save(t).row == row
  {
  }

  /** Distinct transfers are saved as distinct rows: no attribute is dropped.
      A corollary of the `Load` round trip in `Save`'s contract. */
  lemma SaveInjective(t1: Transfer, t2: Transfer)
    requires Save(t1).row == Save(t2).row
    ensures t1 == t2
  {
  }
}
