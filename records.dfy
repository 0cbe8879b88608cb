/**
 * The raw data as pandas hands it to the checks: one mapping from column name
 * to cell per CSV row, plus the list of column names of the frame.
 */
module Records {

  /** A cell: text, an integer, a float, or a missing value (pandas' NaN). */
  datatype Value = Str(s: string) | Int(i: int) | Real(r: real) | Null

  /** One row, as `row.to_dict()` gives it: column name to cell. */
  type RawRecord = map<string, Value>

  /** The loaded data frame: its column names and its rows, in file order. */
  datatype Batch = Batch(columns: seq<string>, rows: seq<RawRecord>)

  /** A data frame: every row has exactly the frame's columns. */
  predicate WellFormed(b: Batch) {
    forall i :: 0 <= i < |b.rows| ==> b.rows[i].Keys == set c | c in b.columns
  }

  /** `row.get(key, default)`: the cell under `key`, or `default` when the column is absent. */
  function Get(row: RawRecord, key: string, default: Value): Value
  {
    if key in row then row[key] else default
  }
}
