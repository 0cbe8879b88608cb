/**
 * The pipeline's decision: the summary counters filled in from each layer,
 * the overall verdict, and the process exit code.
 */
module Verdict {
  import opened Wrappers
  import opened Records
  import opened OrderRules
  import opened RowValidation
  import opened Expectations

  /** `len([r for r in results if not r.success])`. */
  function FailedCount(results: seq<bool>): (n: nat)
    ensures n <= |results|
    ensures n == 0 <==> forall k :: 0 <= k < |results| ==> results[k]
  {
    if results == [] then 0
    else (if results[0] then 0 else 1) + FailedCount(results[1..])
  }

  /** The `validation_results` dictionary of the pipeline's entry point. */
  class ValidationResults {
    var geSuccess: bool
    var pydanticSuccess: bool
    var failedExpectations: nat
    var invalidRows: nat

    /** Both layers start as failed, with no counts. */
    constructor ()
      ensures !geSuccess && !pydanticSuccess && failedExpectations == 0 && invalidRows == 0
    {
      geSuccess, pydanticSuccess := false, false;
      failedExpectations, invalidRows := 0, 0;
    }

    /** Takes over the dataset layer's outcome; a crashed layer (None) leaves everything as it was. */
    method RecordExpectations(ge: Option<SuiteResult>)
      modifies this
      ensures ge.Some? ==> geSuccess == ge.value.success && failedExpectations == FailedCount(ge.value.results)
      ensures ge.None? ==> geSuccess == old(geSuccess) && failedExpectations == old(failedExpectations)
      ensures pydanticSuccess == old(pydanticSuccess) && invalidRows == old(invalidRows)
    {
      if ge.Some? {
        geSuccess := ge.value.success;
        failedExpectations := FailedCount(ge.value.results);
      }
    }

    /** Takes over the row layer's outcome; a crashed layer (None) leaves everything as it was. */
    method RecordRowCheck(rows: Option<RowReport>)
      modifies this
      ensures rows.Some? ==> pydanticSuccess == (rows.value.invalidCount == 0) && invalidRows == rows.value.invalidCount
      ensures rows.None? ==> pydanticSuccess == old(pydanticSuccess) && invalidRows == old(invalidRows)
      ensures geSuccess == old(geSuccess) && failedExpectations == old(failedExpectations)
    {
      if rows.Some? {
        pydanticSuccess := rows.value.invalidCount == 0;
        invalidRows := rows.value.invalidCount;
      }
    }
  }

  /**
   * Fills in the counters from both layers and decides: the run passes only
   * when both layers ran and passed, and the exit code is 0 exactly then.
   */
  method Decide(ge: Option<SuiteResult>, rows: Option<RowReport>)
    returns (overall: bool, exitCode: int, failedExpectations: nat, invalidRows: nat)
    ensures overall <==> ge.Some? && ge.value.success && rows.Some? && rows.value.invalidCount == 0
    ensures exitCode == 0 <==> overall
    ensures exitCode == 0 || exitCode == 1
    ensures failedExpectations == (if ge.Some? then FailedCount(ge.value.results) else 0)
    ensures invalidRows == (if rows.Some? then rows.value.invalidCount else 0)
  {
    var summary := new ValidationResults();
    summary.RecordExpectations(ge);
    summary.RecordRowCheck(rows);
    overall := summary.geSuccess && summary.pydanticSuccess;
    if overall {
      exitCode := 0;
    } else {
      exitCode := 1;
    }
    failedExpectations, invalidRows := summary.failedExpectations, summary.invalidRows;
  }

  /**
   * Both layers over one batch: the run passes exactly when every declared
   * expectation holds and every row is accepted.
   */
  method RunPipeline(b: Batch) returns (overall: bool, exitCode: int, report: RowReport)
    requires WellFormed(b)
    ensures overall <==>
      (forall e :: e in Declared(b.columns) ==> Holds(e, b.rows)) &&
      (forall i :: 0 <= i < |b.rows| ==> RowAccepted(b.rows[i]))
    ensures exitCode == 0 <==> overall
    ensures report.validRows == Kept(b.rows) && report.invalidRows == Rejected(b.rows)
  {
    var ge := Evaluate(b);
    report := ValidateRows(b.rows);
    NoRejectsIffAllAccepted(b.rows);
    var failed, invalid;
    overall, exitCode, failed, invalid := Decide(Some(ge), Some(report));
  }

  /** The suite passes exactly when no declared expectation failed. */
  lemma SuiteSuccessIffNoFailures(b: Batch)
    ensures Evaluate(b).success <==> FailedCount(Evaluate(b).results) == 0
    ensures FailedCount(Evaluate(b).results) <= |Declared(b.columns)|
  {
  }

  /**
   * Two rows sharing an order id fail the dataset layer, whatever the row layer
   * says; `RunPipeline`'s `ensures` then make the overall verdict false.
   */
  lemma DuplicateIdFailsOverall(b: Batch, i: nat, j: nat)
    requires WellFormed(b)
    requires "Order ID" in b.columns
    requires i < j < |b.rows|
    requires "Order ID" in b.rows[i] && "Order ID" in b.rows[j]
    requires b.rows[i]["Order ID"] == b.rows[j]["Order ID"] && !b.rows[i]["Order ID"].Null?
    ensures !Evaluate(b).success
    ensures FailedCount(Evaluate(b).results) >= 1
  {
    DuplicateOrderIdFails(b.rows, i, j);
    assert Unique("Order ID") in Declared(b.columns);
  }
}
