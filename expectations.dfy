/**
 * The dataset-level layer: which whole-column expectations are declared for a
 * frame, and what each one demands of its column. Great Expectations, like
 * pandas, skips missing cells in every expectation except not-null.
 */
module Expectations {
  import opened Records

  datatype Expectation =
    | NotNull(column: string)
    | Unique(column: string)
    | AtLeast(column: string, min: int)
    | InSet(column: string, allowed: seq<string>)

  const AllowedStatuses: seq<string> := ["Delivered", "Shipped", "Processing", "Cancelled"]

  /** The columns whose presence decides an expectation. */
  const CheckedColumns: seq<string> := ["Order ID", "Qty", "Amount", "Status"]

  /** The expectations declared for a frame with the given columns. */
  function Declared(columns: seq<string>): seq<Expectation> {
    (if "Order ID" in columns then [NotNull("Order ID"), Unique("Order ID")] else []) +
    (if "Qty" in columns then [AtLeast("Qty", 0)] else []) +
    (if "Amount" in columns then [AtLeast("Amount", 0)] else []) +
    (if "Status" in columns then [InSet("Status", AllowedStatuses)] else [])
  }

  /** The cell of `column` in `row`; in a well-formed batch every row has every column. */
  function CellOf(row: RawRecord, column: string): Value {
    Get(row, column, Null)
  }

  predicate NumberAtLeast(v: Value, min: int) {
    match v
    case Int(i) => i >= min
    case Real(r) => r >= min as real
    case Null => true
    case Str(_) => false
  }

  predicate TextIn(v: Value, allowed: seq<string>) {
    match v
    case Str(s) => s in allowed
    case Null => true
    case _ => false
  }

  /** What an expectation demands of the rows of a frame. */
  predicate Holds(e: Expectation, rows: seq<RawRecord>) {
    match e
    case NotNull(c) => forall i :: 0 <= i < |rows| ==> !CellOf(rows[i], c).Null?
    case Unique(c) =>
      forall i, j :: 0 <= i < j < |rows| && !CellOf(rows[i], c).Null? ==> CellOf(rows[i], c) != CellOf(rows[j], c)
    case AtLeast(c, min) => forall i :: 0 <= i < |rows| ==> NumberAtLeast(CellOf(rows[i], c), min)
    case InSet(c, allowed) => forall i :: 0 <= i < |rows| ==> TextIn(CellOf(rows[i], c), allowed)
  }

  /** What `validator.validate()` reports: one outcome per declared expectation, and their conjunction. */
  datatype SuiteResult = SuiteResult(success: bool, results: seq<bool>)

  function Evaluate(b: Batch): (r: SuiteResult)
    ensures |r.results| == |Declared(b.columns)|
    ensures forall k :: 0 <= k < |r.results| ==> r.results[k] == Holds(Declared(b.columns)[k], b.rows)
    ensures r.success <==> forall e :: e in Declared(b.columns) ==> Holds(e, b.rows)
  {
    var es := Declared(b.columns);
    var results := seq(|es|, k requires 0 <= k < |es| => Holds(es[k], b.rows));
    SuiteResult(forall k :: 0 <= k < |results| ==> results[k], results)
  }

  /** The dataset layer passes exactly when each present checked column meets its own constraints. */
  lemma SuitePassesPerColumn(b: Batch)
    ensures Evaluate(b).success <==>
      ("Order ID" in b.columns ==>
        (forall i :: 0 <= i < |b.rows| ==> !CellOf(b.rows[i], "Order ID").Null?) &&
        (forall i, j :: 0 <= i < j < |b.rows| && !CellOf(b.rows[i], "Order ID").Null? ==>
          CellOf(b.rows[i], "Order ID") != CellOf(b.rows[j], "Order ID"))) &&
      ("Qty" in b.columns ==> forall i :: 0 <= i < |b.rows| ==> NumberAtLeast(CellOf(b.rows[i], "Qty"), 0)) &&
      ("Amount" in b.columns ==> forall i :: 0 <= i < |b.rows| ==> NumberAtLeast(CellOf(b.rows[i], "Amount"), 0)) &&
      ("Status" in b.columns ==> forall i :: 0 <= i < |b.rows| ==> TextIn(CellOf(b.rows[i], "Status"), AllowedStatuses))
  {
    var es := Declared(b.columns);
    if "Order ID" in b.columns {
      assert NotNull("Order ID") in es && Unique("Order ID") in es;
    }
    if "Qty" in b.columns {
      assert AtLeast("Qty", 0) in es;
    }
    if "Amount" in b.columns {
      assert AtLeast("Amount", 0) in es;
    }
    if "Status" in b.columns {
      assert InSet("Status", AllowedStatuses) in es;
    }
  }

  /** Every declared expectation is about a column the frame has. */
  lemma DeclaredColumnsPresent(columns: seq<string>)
    ensures forall e :: e in Declared(columns) ==> e.column in columns
  {
  }

  /** Which expectations are declared depends only on which checked columns are present. */
  lemma DeclaredByPresenceOnly(c1: seq<string>, c2: seq<string>)
    requires forall c :: c in CheckedColumns ==> (c in c1 <==> c in c2)
    ensures Declared(c1) == Declared(c2)
  {
    assert "Order ID" in CheckedColumns && "Qty" in CheckedColumns;
    assert "Amount" in CheckedColumns && "Status" in CheckedColumns;
  }

  /** Each column's expectations are declared exactly when the column is present; an absent column adds none. */
  lemma DeclaredPerColumn(columns: seq<string>)
    ensures NotNull("Order ID") in Declared(columns) <==> "Order ID" in columns
    ensures Unique("Order ID") in Declared(columns) <==> "Order ID" in columns
    ensures AtLeast("Qty", 0) in Declared(columns) <==> "Qty" in columns
    ensures AtLeast("Amount", 0) in Declared(columns) <==> "Amount" in columns
    ensures InSet("Status", AllowedStatuses) in Declared(columns) <==> "Status" in columns
    ensures |Declared(columns)| <= 5
  {
  }

  /** A frame with none of the checked columns declares nothing, and so passes. */
  lemma NoCheckedColumnsPasses(b: Batch)
    requires forall c :: c in CheckedColumns ==> c !in b.columns
    ensures Declared(b.columns) == []
    ensures Evaluate(b).success
  {
    assert "Order ID" in CheckedColumns && "Qty" in CheckedColumns;
    assert "Amount" in CheckedColumns && "Status" in CheckedColumns;
  }

  /** Two rows with the same order id break uniqueness, whatever else they hold. */
  lemma DuplicateOrderIdFails(rows: seq<RawRecord>, i: nat, j: nat)
    requires i < j < |rows|
    requires "Order ID" in rows[i] && "Order ID" in rows[j]
    requires rows[i]["Order ID"] == rows[j]["Order ID"] && !rows[i]["Order ID"].Null?
    ensures !Holds(Unique("Order ID"), rows)
  {
    assert CellOf(rows[i], "Order ID") == CellOf(rows[j], "Order ID");
  }
}
