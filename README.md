# Data-quality gate for order CSVs, in Dafny

This project models the core of `scripts/dq_pipeline.py`, a data-quality check
run on a batch of Amazon-style order rows. The check has two layers:

- **Row layer.** Each row's columns are mapped onto six fields (`order_id`,
  `qty`, `amount`, `currency`, `ship_country`, `date`). The six values are
  coerced the way pydantic coerces them and checked by one rule per field.
  Each row is then appended to the valid rows unchanged, or to the invalid rows
  with `validation_error` and `row_index` added.
- **Dataset layer.** Which whole-column expectations get declared depends on
  which columns the frame has: `Order ID` not null and unique, `Qty` ≥ 0,
  `Amount` ≥ 0, and `Status` in a fixed vocabulary. Each expectation is given
  its meaning as a predicate over the column.

The two results feed a summary. The run passes only when both layers ran and
passed. The exit code is 0 exactly then.

Modules, one per component:

- `wrappers.dfy`: `Option` and `Result`.
- `records.dfy`: cells, rows and the batch. In a well-formed batch every row has exactly the frame's columns, so a column absent from a row is absent from the frame.
- `dates.dfy`: the four `strptime` patterns.
- `order_rules.dfy`: column mapping, coercion and field rules.
- `row_validation.dfy`: the partition loop and its specification.
- `expectations.dfy`: the declared dataset constraints.
- `verdict.dfy`: the summary dictionary, the verdict and the exit code.

Cells are `Str`, `Int`, `Real` or `Null` (pandas' NaN). The coercion follows
pydantic's lax mode for the shapes pandas produces:

- a `str` field takes text only;
- an `int` field takes an integer, or a float with no fractional part;
- a `float` field takes any number, and also NaN.

Because `NaN < 0` is false, a missing `Amount` cell passes the amount rule.

Behaviour worth noting:

- **Every failure is reported.** Pydantic reports every failing field, in field
  order.
- **The date text is kept as written.** The date validator returns the original
  string.
- **Years must have four digits.** `05-25-22` is refused by every pattern
  (`DateFormats.TwoDigitYearRejected`).
- **Currency and country are compared exactly.** Currency must equal `INR`
  exactly, and ship country must equal `IN` exactly.
- **Defaults apply only to absent columns.** A default is used only when the
  column is missing from the frame. An empty cell is NaN, so it fails the
  `order_id`, `qty`, `currency`, `ship_country` and `date` fields for having
  the wrong type.
- **A column missing from the frame is skipped.** It adds no expectation, and
  so no failed one.
- **A blank id is only whitespace.** The id check tests "empty after
  stripping", so it accepts texts such as "nan", "null" and "none". In the
  program, `read_csv`'s default list of missing-value markers turns most of
  these into NaN first. Such a row is then refused for a wrong type.

## Model

| member | source | states |
|---|---|---|
| `DateFormats.ParseMeansSpells` | scripts/dq_pipeline.py:149-155 | `strptime` under one of the four patterns succeeds with date d exactly when the string is the pattern with its directives replaced by text each directive's regular expression matches (`%Y` four digits, `%m` 1–12, `%d` 1–31 including space-padded), read as d, and d is a real calendar date |
| `DateFormats.RenderThenParse` | scripts/dq_pipeline.py:149-152 | every calendar date printed zero-padded with a pattern is read back as that date by the same pattern |
| `DateFormats.EmptyDateRejected` | scripts/dq_pipeline.py:149-155 | the empty string matches none of the four patterns |
| `DateFormats.TwoDigitYearRejected` | scripts/dq_pipeline.py:149 | a date with a two-digit year (`05-25-22`) is refused by every pattern |
| `DateFormats.FourDigitYearAccepted` | scripts/dq_pipeline.py:149-152 | `05-25-2022` is read as 25 May 2022 by `%m-%d-%Y` and so is accepted |
| `DateFormats.OutOfRangeRejected` | scripts/dq_pipeline.py:149-155 | `2022/13/45` (month 13, day 45) is refused by every pattern |
| `OrderRules.MapRowFollowsSynonyms` | scripts/dq_pipeline.py:166-173 | each mapped field takes the first present of its column names (`Order ID` before `order_id`, `Qty` before `qty`, `Amount` before `amount`, `ship-country` before `ship_country`, `Date` before `date`, only `currency` for currency), else its default `''`, `0`, `0.0`, `'INR'`, `'IN'`, `''` |
| `OrderRules.AbsentColumnsGiveDefaults` | scripts/dq_pipeline.py:166-173 | a row with none of the mapped columns maps to the six defaults |
| `OrderRules.ValidateDateFormat` | scripts/dq_pipeline.py:145-157 | the date validator succeeds exactly when some pattern accepts the string, returns the string unchanged, and otherwise fails naming the string |
| `OrderRules.ValidateOrder` | scripts/dq_pipeline.py:106-157 | building the order succeeds exactly when no field fails; on failure it reports every field error in field order; on success the order holds the coerced input values, with the date text unchanged |
| `OrderRules.OrderValidIff` | scripts/dq_pipeline.py:115-157 | an order is built iff: the id is text that is not blank after stripping; qty coerces to an integer ≥ 0; amount coerces to a float that is ≥ 0 or NaN; currency is `INR`; ship country is `IN`; and the date is text some pattern accepts |
| `OrderRules.ErrorNamesFailingField` | scripts/dq_pipeline.py:106-157 | the reported errors name a field exactly when that field breaks its rule: every failure is reported, not only the first |
| `OrderRules.MissingCurrencyIsHarmless` | scripts/dq_pipeline.py:170 | a row without a `currency` column is never refused for its currency |
| `OrderRules.MissingCountryIsHarmless` | scripts/dq_pipeline.py:171 | a row with neither `ship-country` nor `ship_country` is never refused for its country |
| `OrderRules.MissingDateRejects` | scripts/dq_pipeline.py:172 | a row with neither `Date` nor `date` maps its date to `''` and is refused with an invalid-date error for `''` |
| `OrderRules.WellFormedRowAccepted` | scripts/dq_pipeline.py:166-176 | a row with id `X1`, qty 5, amount 100.0 and date `05-25-2022`, and no currency or country column, is accepted |
| `OrderRules.BlankIdRefused` | scripts/dq_pipeline.py:115-119 | the same row with id `" "` is refused, with the empty-id error as its only error |
| `RowValidation.AnnotateAddsTwoKeys` | scripts/dq_pipeline.py:179-181 | an invalid row keeps every original column and value, and gains exactly `validation_error` (the error text) and `row_index` (its position) |
| `RowValidation.ValidateRows` | scripts/dq_pipeline.py:159-193 | the loop's valid list is the accepted rows and its invalid list the annotated refused rows; the total is the row count, the counts are the list lengths, and valid + invalid = total |
| `RowValidation.CountIdentity` | scripts/dq_pipeline.py:163-192 | the numbers of valid and invalid rows add up to the number of input rows |
| `RowValidation.ExactlyOneList` | scripts/dq_pipeline.py:163-182 | each input position is in exactly one of the two position lists (valid, invalid), and in the valid one exactly when its row is accepted; `KeptInOrder` and `RejectedInOrder` carry this to the output lists |
| `RowValidation.KeptInOrder` | scripts/dq_pipeline.py:174-176 | the valid list is the accepted rows, unchanged, in input order |
| `RowValidation.RejectedInOrder` | scripts/dq_pipeline.py:178-182 | the invalid list is the refused rows in input order, each annotated with its own position and its own errors |
| `RowValidation.NoRejectsIffAllAccepted` | scripts/dq_pipeline.py:178-192 | the invalid list is empty exactly when every row is accepted |
| `Expectations.SuitePassesPerColumn` | scripts/dq_pipeline.py:66-87 | the dataset layer passes exactly when: if `Order ID` is present, no id cell is missing and no two non-missing ids are equal; if `Qty` is present, every cell is missing or a number ≥ 0; the same for `Amount`; and if `Status` is present, every cell is missing or one of Delivered, Shipped, Processing, Cancelled |
| `Expectations.DeclaredColumnsPresent` | scripts/dq_pipeline.py:66-83 | every declared expectation is about a column the frame has |
| `Expectations.DeclaredByPresenceOnly` | scripts/dq_pipeline.py:66-83 | two frames with the same checked columns present get the same expectations |
| `Expectations.DeclaredPerColumn` | scripts/dq_pipeline.py:68-83 | not-null and unique on `Order ID`, ≥ 0 on `Qty` and on `Amount`, and membership of `Status` in {Delivered, Shipped, Processing, Cancelled} are each declared exactly when their column is present |
| `Expectations.NoCheckedColumnsPasses` | scripts/dq_pipeline.py:66-87 | a frame with none of the checked columns declares nothing and passes |
| `Expectations.DuplicateOrderIdFails` | scripts/dq_pipeline.py:69-70 | two rows with the same non-missing `Order ID` break the uniqueness expectation |
| `Verdict.FailedCount` | scripts/dq_pipeline.py:291-293 | the number of failed results is at most the number of results, and zero exactly when every result succeeded |
| `Verdict.ValidationResults.constructor` | scripts/dq_pipeline.py:280-285 | the summary starts with both layers failed and both counters zero |
| `Verdict.ValidationResults.RecordExpectations` | scripts/dq_pipeline.py:288-293 | a dataset result sets the success flag and the failed-expectation count; a crashed layer leaves them as they were; the row fields are unchanged |
| `Verdict.ValidationResults.RecordRowCheck` | scripts/dq_pipeline.py:296-299 | a row result sets the row flag to "no invalid rows" and the invalid count; a crashed layer leaves them as they were; the dataset fields are unchanged |
| `Verdict.Decide` | scripts/dq_pipeline.py:280-333 | the run passes exactly when both layers returned a result, the dataset suite succeeded and no row was invalid; a crashed layer means failure; the exit code is 0 exactly when the run passes, else 1 |
| `Verdict.RunPipeline` | scripts/dq_pipeline.py:286-333 | over one well-formed batch (every row has exactly the frame's columns), the run passes exactly when every declared expectation holds and every row is accepted, and the exit code is 0 exactly then |
| `Verdict.SuiteSuccessIffNoFailures` | scripts/dq_pipeline.py:289-293 | the dataset layer succeeds exactly when its failed-expectation count is zero |
| `Verdict.DuplicateIdFailsOverall` | scripts/dq_pipeline.py:68-70 | a frame with an `Order ID` column and two rows sharing an id fails the dataset layer with at least one failed expectation, whatever the row layer says |

## Left out

- The Great Expectations context, datasource and batch-request setup are not modelled. Each expectation is given its meaning as a predicate instead of the library's engine. Result formats and samples of unexpected values are also left out.
- Uniqueness compares cells as values of the model: `Int(5)` and `Real(5.0)` count as different, while pandas compares them numerically.
- Numeric strings in `qty` or `amount` are treated as a type error. Pydantic would parse them; this only matters when pandas reads such a column as text.
- Booleans and bytes are left out of the coercion rules. Numpy scalars are taken as the Python int or float they hold.
- Floats are exact reals: binary rounding and infinities are not modelled.
- `%Y` and `%d` accept only ASCII digits. Python's `\d` also matches other Unicode decimal digits.
- The text of pydantic's `ValidationError`: `OrderRules.ErrorText` is a stand-in that lists each failing field with the validator's own message. Type errors get a generic message.
- A row is a map, so the column order of the written CSV is not modelled.
- `row_index` is the row's position. This equals the pandas index label for a frame read by `read_csv` with its default index.
- A layer crashing (returning `None`) is an input to `Verdict.Decide`. `Verdict.RunPipeline` always runs both layers, since the model's layers cannot crash.
- `if ge_results:` is read as "not `None`".
- File I/O is left out: reading the CSV, writing `valid_rows.csv` and `invalid_rows.csv`, and the empty-file fallback after an error.
- Process plumbing is left out: the Slack alert, the environment-variable lookup, debug and summary printing, `sys.exit` and tracebacks.
