/**
 * The row-level pass: every row of the batch is mapped, validated, and
 * appended either to the valid rows (unchanged) or to the invalid rows (with
 * its position and the error text added).
 */
module RowValidation {
  import opened Wrappers
  import opened Records
  import opened OrderRules

  const ValidationErrorKey: string := "validation_error"
  const RowIndexKey: string := "row_index"

  /** What the row-level pass returns. */
  datatype RowReport = RowReport(
    validRows: seq<RawRecord>,
    invalidRows: seq<RawRecord>,
    totalRows: nat,
    validCount: nat,
    invalidCount: nat)

  /** A row builds an order. */
  ghost predicate RowAccepted(row: RawRecord) {
    OrderErrors(MapRow(row)) == []
  }

  /** The row with its error text and its position written into it. */
  function Annotate(row: RawRecord, index: nat, errors: seq<FieldError>): RawRecord {
    row[ValidationErrorKey := Str(ErrorText(errors))][RowIndexKey := Int(index)]
  }

  /** An invalid row keeps every original column and gains exactly the two annotation keys. */
  lemma AnnotateAddsTwoKeys(row: RawRecord, index: nat, errors: seq<FieldError>)
    ensures Annotate(row, index, errors).Keys == row.Keys + {ValidationErrorKey, RowIndexKey}
    ensures Annotate(row, index, errors)[RowIndexKey] == Int(index)
    ensures Annotate(row, index, errors)[ValidationErrorKey] == Str(ErrorText(errors))
    ensures forall k :: k in row && k != ValidationErrorKey && k != RowIndexKey ==> Annotate(row, index, errors)[k] == row[k]
  {
  }

  /** The valid rows of `rows`, in input order. */
  ghost function Kept(rows: seq<RawRecord>): seq<RawRecord>
    decreases |rows|
  {
    if rows == [] then []
    else
      var n := |rows| - 1;
      Kept(rows[..n]) + (if RowAccepted(rows[n]) then [rows[n]] else [])
  }

  /** The invalid rows of `rows`, annotated, in input order. */
  ghost function Rejected(rows: seq<RawRecord>): seq<RawRecord>
    decreases |rows|
  {
    if rows == [] then []
    else
      var n := |rows| - 1;
      Rejected(rows[..n]) + (if RowAccepted(rows[n]) then [] else [Annotate(rows[n], n, OrderErrors(MapRow(rows[n])))])
  }

  /** The loop of `validate_with_pydantic`. */
  method ValidateRows(rows: seq<RawRecord>) returns (report: RowReport)
    ensures report.validRows == Kept(rows)
    ensures report.invalidRows == Rejected(rows)
    ensures report.totalRows == |rows|
    ensures report.validCount == |report.validRows| && report.invalidCount == |report.invalidRows|
    ensures report.validCount + report.invalidCount == report.totalRows
  {
    var valid: seq<RawRecord> := [];
    var invalid: seq<RawRecord> := [];
    for index := 0 to |rows|
      invariant valid == Kept(rows[..index])
      invariant invalid == Rejected(rows[..index])
    {
      var row := rows[index];
      var order := ValidateOrder(MapRow(row));
      assert rows[..index + 1][..index] == rows[..index];
      if order.Ok? {
        valid := valid + [row];
      } else {
        invalid := invalid + [Annotate(row, index, order.error)];
      }
    }
    assert rows[..|rows|] == rows;
    CountIdentity(rows);
    report := RowReport(valid, invalid, |rows|, |valid|, |invalid|);
  }

  // ---------------------------------------------------------------- properties of the partition

  /** Every row lands in exactly one of the two lists, so the counts add up. */
  lemma {:induction false} CountIdentity(rows: seq<RawRecord>)
    ensures |Kept(rows)| + |Rejected(rows)| == |rows|
    decreases |rows|
  {
    if rows != [] {
      CountIdentity(rows[..|rows| - 1]);
    }
  }

  /** The positions of the rows that are (or are not) accepted, in increasing order. */
  ghost function Positions(rows: seq<RawRecord>, accepted: bool): (p: seq<nat>)
    ensures forall k :: 0 <= k < |p| ==> p[k] < |rows|
    decreases |rows|
  {
    if rows == [] then []
    else
      var n := |rows| - 1;
      Positions(rows[..n], accepted) + (if RowAccepted(rows[n]) == accepted then [n] else [])
  }

  /** Positions are listed in increasing order. */
  lemma {:induction false} PositionsIncrease(rows: seq<RawRecord>, accepted: bool)
    ensures forall k, l :: 0 <= k < l < |Positions(rows, accepted)| ==> Positions(rows, accepted)[k] < Positions(rows, accepted)[l]
    decreases |rows|
  {
    if rows != [] {
      PositionsIncrease(rows[..|rows| - 1], accepted);
    }
  }

  /** Positions lists exactly the rows with the given outcome. */
  lemma {:induction false} PositionsExact(rows: seq<RawRecord>, accepted: bool)
    ensures forall i :: 0 <= i < |rows| ==> (i in Positions(rows, accepted) <==> RowAccepted(rows[i]) == accepted)
    decreases |rows|
  {
    if rows != [] {
      var n := |rows| - 1;
      var prefix := rows[..n];
      PositionsExact(prefix, accepted);
      var p := Positions(rows, accepted);
      assert p == Positions(prefix, accepted) + (if RowAccepted(rows[n]) == accepted then [n] else []);
      forall i | 0 <= i < |rows|
        ensures i in p <==> RowAccepted(rows[i]) == accepted
      {
        if i < n {
          assert prefix[i] == rows[i];
          assert n !in Positions(prefix, accepted);
        } else {
          assert n !in Positions(prefix, accepted);
        }
      }
    }
  }

  /**
   * Each input position is in exactly one of the two position lists; with
   * KeptInOrder and RejectedInOrder this puts each row in exactly one output list.
   */
  lemma ExactlyOneList(rows: seq<RawRecord>, i: nat)
    requires i < |rows|
    ensures (i in Positions(rows, true)) != (i in Positions(rows, false))
    ensures i in Positions(rows, true) <==> RowAccepted(rows[i])
  {
    PositionsExact(rows, true);
    PositionsExact(rows, false);
  }

  /** The valid list holds the accepted rows, unchanged, in input order. */
  lemma {:induction false} KeptInOrder(rows: seq<RawRecord>)
    ensures |Kept(rows)| == |Positions(rows, true)|
    ensures forall k :: 0 <= k < |Kept(rows)| ==> Positions(rows, true)[k] < |rows| && Kept(rows)[k] == rows[Positions(rows, true)[k]]
    decreases |rows|
  {
    if rows != [] {
      KeptInOrder(rows[..|rows| - 1]);
    }
  }

  /** The invalid list holds the refused rows, each annotated with its own position and errors, in input order. */
  lemma {:induction false} RejectedInOrder(rows: seq<RawRecord>)
    ensures |Rejected(rows)| == |Positions(rows, false)|
    ensures forall k :: 0 <= k < |Rejected(rows)| ==>
      var i := Positions(rows, false)[k];
      i < |rows| && Rejected(rows)[k] == Annotate(rows[i], i, OrderErrors(MapRow(rows[i])))
    decreases |rows|
  {
    if rows != [] {
      var n := |rows| - 1;
      var prefix := rows[..n];
      RejectedInOrder(prefix);
      var p := Positions(rows, false);
      assert p == Positions(prefix, false) + (if RowAccepted(rows[n]) then [] else [n]);
      var r := Rejected(rows);
      assert r == Rejected(prefix) + (if RowAccepted(rows[n]) then [] else [Annotate(rows[n], n, OrderErrors(MapRow(rows[n])))]);
      forall k | 0 <= k < |r|
        ensures p[k] < |rows| && r[k] == Annotate(rows[p[k]], p[k], OrderErrors(MapRow(rows[p[k]])))
      {
        if k < |Rejected(prefix)| {
          assert r[k] == Rejected(prefix)[k] && p[k] == Positions(prefix, false)[k];
          assert prefix[p[k]] == rows[p[k]];
        }
      }
    }
  }

  /** No row is invalid exactly when every row is accepted. */
  lemma NoRejectsIffAllAccepted(rows: seq<RawRecord>)
    ensures Rejected(rows) == [] <==> forall i :: 0 <= i < |rows| ==> RowAccepted(rows[i])
  {
    RejectedInOrder(rows);
    PositionsExact(rows, false);
    if Rejected(rows) != [] {
      assert Positions(rows, false)[0] in Positions(rows, false);
    } else {
      forall i | 0 <= i < |rows| ensures RowAccepted(rows[i]) {
        assert i !in Positions(rows, false);
      }
    }
  }
}
