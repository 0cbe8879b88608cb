/**
 * The row-level schema: how a row's columns are mapped onto the six fields of
 * an order, how each field value is coerced, and the rule each field obeys.
 * Pydantic checks every field and reports every failing one, in declaration
 * order (order_id, qty, amount, currency, ship_country, date).
 */
module OrderRules {
  import opened Wrappers
  import opened Records
  import opened DateFormats

  datatype Field = OrderIdField | QtyField | AmountField | CurrencyField | ShipCountryField | DateField

  /** Why a field was refused: its value had the wrong type, or its rule failed. */
  datatype Problem = WrongType | Blank | Negative | NotAccepted(got: string) | Unparsed(got: string)

  datatype FieldError = FieldError(field: Field, problem: Problem)

  /** A Python float after coercion: a finite number or NaN. */
  datatype Float = Finite(r: real) | NaN

  /** The six values handed to the order model, before coercion. */
  datatype MappedRow = MappedRow(orderId: Value, qty: Value, amount: Value, currency: Value, shipCountry: Value, date: Value)

  /** A validated order: the coerced values of the six fields. */
  datatype AmazonOrder = AmazonOrder(orderId: string, qty: int, amount: Float, currency: string, shipCountry: string, date: string)

  const AcceptedCurrency: string := "INR"
  const AcceptedCountry: string := "IN"

  // ---------------------------------------------------------------- column mapping

  /** A synonym table: the first of `names` present in the row gives the value, else `default`. */
  function FirstPresent(row: RawRecord, names: seq<string>, default: Value): Value {
    if names == [] then default
    else if names[0] in row then row[names[0]]
    else FirstPresent(row, names[1..], default)
  }

  /** The flexible column mapping: nested `row.get` lookups, primary name first. */
  function MapRow(row: RawRecord): MappedRow {
    MappedRow(
      Get(row, "Order ID", Get(row, "order_id", Str(""))),
      Get(row, "Qty", Get(row, "qty", Int(0))),
      Get(row, "Amount", Get(row, "amount", Real(0.0))),
      Get(row, "currency", Str("INR")),
      Get(row, "ship-country", Get(row, "ship_country", Str("IN"))),
      Get(row, "Date", Get(row, "date", Str(""))))
  }

  lemma FirstPresentOfTwo(row: RawRecord, primary: string, fallback: string, default: Value)
    ensures FirstPresent(row, [primary, fallback], default) == Get(row, primary, Get(row, fallback, default))
  {
    assert FirstPresent(row, [fallback], default) == Get(row, fallback, default) by {
      assert [fallback][1..] == [];
    }
    assert [primary, fallback][1..] == [fallback];
  }

  /**
   * The nested lookups agree with a synonym table: for each field, the first
   * of its column names present in the row wins, else the field's default.
   */
  lemma MapRowFollowsSynonyms(row: RawRecord)
    ensures MapRow(row).orderId == FirstPresent(row, ["Order ID", "order_id"], Str(""))
    ensures MapRow(row).qty == FirstPresent(row, ["Qty", "qty"], Int(0))
    ensures MapRow(row).amount == FirstPresent(row, ["Amount", "amount"], Real(0.0))
    ensures MapRow(row).currency == FirstPresent(row, ["currency"], Str(AcceptedCurrency))
    ensures MapRow(row).shipCountry == FirstPresent(row, ["ship-country", "ship_country"], Str(AcceptedCountry))
    ensures MapRow(row).date == FirstPresent(row, ["Date", "date"], Str(""))
  {
    FirstPresentOfTwo(row, "Order ID", "order_id", Str(""));
    FirstPresentOfTwo(row, "Qty", "qty", Int(0));
    FirstPresentOfTwo(row, "Amount", "amount", Real(0.0));
    assert ["currency"][1..] == [];
    FirstPresentOfTwo(row, "ship-country", "ship_country", Str(AcceptedCountry));
    FirstPresentOfTwo(row, "Date", "date", Str(""));
  }

  // ---------------------------------------------------------------- coercion

  /** A `str` field takes text only. */
  function AsString(v: Value): Option<string> {
    match v
    case Str(s) => Some(s)
    case _ => None
  }

  /** An `int` field takes an integer or a float without fractional part; NaN is refused. */
  function AsInt(v: Value): Option<int> {
    match v
    case Int(i) => Some(i)
    case Real(r) => if r.Floor as real == r then Some(r.Floor) else None
    case _ => None
  }

  /** A `float` field takes any number, and NaN. */
  function AsFloat(v: Value): Option<Float> {
    match v
    case Int(i) => Some(Finite(i as real))
    case Real(r) => Some(Finite(r))
    case Null => Some(NaN)
    case Str(_) => None
  }

  /** The characters for which Python's `str.isspace` holds. */
  predicate IsSpace(c: char) {
    ('\t' <= c <= '\r') || ('\U{1C}' <= c <= ' ') || c == '\U{85}' || c == '\U{A0}' ||
    c == '\U{1680}' || ('\U{2000}' <= c <= '\U{200A}') || c == '\U{2028}' || c == '\U{2029}' ||
    c == '\U{202F}' || c == '\U{205F}' || c == '\U{3000}'
  }

  /** `str(v).strip() == ""`: nothing is left once whitespace is stripped. */
  predicate IsBlank(s: string) {
    forall i :: 0 <= i < |s| ==> IsSpace(s[i])
  }

  // ---------------------------------------------------------------- field validators

  function CheckOrderId(v: Value): Result<string, FieldError> {
    match AsString(v)
    case None => Err(FieldError(OrderIdField, WrongType))
    case Some(s) => if IsBlank(s) then Err(FieldError(OrderIdField, Blank)) else Ok(s)
  }

  function CheckQty(v: Value): Result<int, FieldError> {
    match AsInt(v)
    case None => Err(FieldError(QtyField, WrongType))
    case Some(q) => if q < 0 then Err(FieldError(QtyField, Negative)) else Ok(q)
  }

  /** `v < 0` is false for NaN, so NaN passes. */
  function CheckAmount(v: Value): Result<Float, FieldError> {
    match AsFloat(v)
    case None => Err(FieldError(AmountField, WrongType))
    case Some(a) => if a.Finite? && a.r < 0.0 then Err(FieldError(AmountField, Negative)) else Ok(a)
  }

  function CheckCurrency(v: Value): Result<string, FieldError> {
    match AsString(v)
    case None => Err(FieldError(CurrencyField, WrongType))
    case Some(s) => if s != AcceptedCurrency then Err(FieldError(CurrencyField, NotAccepted(s))) else Ok(s)
  }

  function CheckShipCountry(v: Value): Result<string, FieldError> {
    match AsString(v)
    case None => Err(FieldError(ShipCountryField, WrongType))
    case Some(s) => if s != AcceptedCountry then Err(FieldError(ShipCountryField, NotAccepted(s))) else Ok(s)
  }

  /** What the date validator decides: the text itself when a pattern accepts it. */
  ghost function DateOutcome(v: Value): Result<string, FieldError> {
    match AsString(v)
    case None => Err(FieldError(DateField, WrongType))
    case Some(s) => if DateAccepted(s) then Ok(s) else Err(FieldError(DateField, Unparsed(s)))
  }

  /**
   * The date validator: tries the patterns in order and returns the string
   * unchanged (not a normalised date) as soon as one accepts it.
   */
  method ValidateDateFormat(v: string) returns (r: Result<string, FieldError>)
    ensures r.Ok? <==> DateAccepted(v)
    ensures r.Ok? ==> r.value == v
    ensures r.Err? ==> r.error == FieldError(DateField, Unparsed(v))
  {
    var i := 0;
    while i < |Formats|
      invariant 0 <= i <= |Formats|
      invariant forall k :: 0 <= k < i ==> Parse(Formats[k], v).None?
    {
      if Parse(Formats[i], v).Some? {
        return Ok(v);
      }
      i := i + 1;
    }
    return Err(FieldError(DateField, Unparsed(v)));
  }

  function ErrorOf<T>(r: Result<T, FieldError>): seq<FieldError> {
    if r.Err? then [r.error] else []
  }

  /** Every field error of a mapped row, in field order. */
  ghost function OrderErrors(m: MappedRow): seq<FieldError> {
    ErrorOf(CheckOrderId(m.orderId)) + ErrorOf(CheckQty(m.qty)) + ErrorOf(CheckAmount(m.amount)) +
    ErrorOf(CheckCurrency(m.currency)) + ErrorOf(CheckShipCountry(m.shipCountry)) + ErrorOf(DateOutcome(m.date))
  }

  /** `AmazonOrder(**row_data)`: the order, or every field error found. */
  method ValidateOrder(m: MappedRow) returns (r: Result<AmazonOrder, seq<FieldError>>)
    ensures r.Ok? <==> OrderErrors(m) == []
    ensures r.Err? ==> r.error == OrderErrors(m)
    ensures r.Ok? ==>
      m.orderId == Str(r.value.orderId) && AsInt(m.qty) == Some(r.value.qty) &&
      AsFloat(m.amount) == Some(r.value.amount) && m.currency == Str(r.value.currency) &&
      m.shipCountry == Str(r.value.shipCountry) && m.date == Str(r.value.date)
  {
    var id := CheckOrderId(m.orderId);
    var qty := CheckQty(m.qty);
    var amount := CheckAmount(m.amount);
    var currency := CheckCurrency(m.currency);
    var country := CheckShipCountry(m.shipCountry);
    var date: Result<string, FieldError>;
    match AsString(m.date) {
      case None => date := Err(FieldError(DateField, WrongType));
      case Some(s) => date := ValidateDateFormat(s);
    }
    var errors := ErrorOf(id) + ErrorOf(qty) + ErrorOf(amount) + ErrorOf(currency) + ErrorOf(country) + ErrorOf(date);
    if errors == [] {
      r := Ok(AmazonOrder(id.value, qty.value, amount.value, currency.value, country.value, date.value));
    } else {
      r := Err(errors);
    }
  }

  // ---------------------------------------------------------------- the rules, stated directly

  /** The rule each field must satisfy, stated on the mapped values. */
  ghost predicate Satisfies(m: MappedRow, f: Field) {
    match f
    case OrderIdField => m.orderId.Str? && !IsBlank(m.orderId.s)
    case QtyField => AsInt(m.qty).Some? && AsInt(m.qty).value >= 0
    case AmountField => AsFloat(m.amount).Some? && (AsFloat(m.amount).value.Finite? ==> AsFloat(m.amount).value.r >= 0.0)
    case CurrencyField => m.currency == Str(AcceptedCurrency)
    case ShipCountryField => m.shipCountry == Str(AcceptedCountry)
    case DateField => m.date.Str? && DateAccepted(m.date.s)
  }

  /** An order is built exactly when every field satisfies its rule. */
  lemma OrderValidIff(m: MappedRow)
    ensures OrderErrors(m) == [] <==> forall f :: Satisfies(m, f)
  {
    if OrderErrors(m) == [] {
      forall f ensures Satisfies(m, f) {
        ErrorNamesFailingField(m, f);
      }
    } else {
      var f := OrderErrors(m)[0].field;
      ErrorNamesFailingField(m, f);
    }
  }

  /** The errors name a field exactly when that field breaks its rule: all failures are reported. */
  lemma ErrorNamesFailingField(m: MappedRow, f: Field)
    ensures (exists e :: e in OrderErrors(m) && e.field == f) <==> !Satisfies(m, f)
  {
    var errs := OrderErrors(m);
    var parts := [ErrorOf(CheckOrderId(m.orderId)), ErrorOf(CheckQty(m.qty)), ErrorOf(CheckAmount(m.amount)),
                  ErrorOf(CheckCurrency(m.currency)), ErrorOf(CheckShipCountry(m.shipCountry)), ErrorOf(DateOutcome(m.date))];
    assert errs == parts[0] + parts[1] + parts[2] + parts[3] + parts[4] + parts[5];
    assert forall e :: e in errs <==> e in parts[0] || e in parts[1] || e in parts[2] || e in parts[3] || e in parts[4] || e in parts[5];
    if !Satisfies(m, f) {
      match f
      case OrderIdField => assert parts[0][0] in errs;
      case QtyField => assert parts[1][0] in errs;
      case AmountField => assert parts[2][0] in errs;
      case CurrencyField => assert parts[3][0] in errs;
      case ShipCountryField => assert parts[4][0] in errs;
      case DateField => assert parts[5][0] in errs;
    }
  }

  // ---------------------------------------------------------------- consequences of the mapping

  /** A row without a currency column is never refused for its currency. */
  lemma MissingCurrencyIsHarmless(row: RawRecord)
    requires "currency" !in row
    ensures Satisfies(MapRow(row), CurrencyField)
    ensures forall e :: e in OrderErrors(MapRow(row)) ==> e.field != CurrencyField
  {
    ErrorNamesFailingField(MapRow(row), CurrencyField);
  }

  /** A row with neither ship-country column is never refused for its country. */
  lemma MissingCountryIsHarmless(row: RawRecord)
    requires "ship-country" !in row && "ship_country" !in row
    ensures Satisfies(MapRow(row), ShipCountryField)
    ensures forall e :: e in OrderErrors(MapRow(row)) ==> e.field != ShipCountryField
  {
    ErrorNamesFailingField(MapRow(row), ShipCountryField);
  }

  /** A row with neither date column maps its date to "" and is refused for it. */
  lemma MissingDateRejects(row: RawRecord)
    requires "Date" !in row && "date" !in row
    ensures FieldError(DateField, Unparsed("")) in OrderErrors(MapRow(row))
  {
    EmptyDateRejected();
    assert DateOutcome(MapRow(row).date) == Err(FieldError(DateField, Unparsed("")));
  }

  /** With none of the mapped columns present, the mapped row is all defaults. */
  lemma AbsentColumnsGiveDefaults(row: RawRecord)
    requires forall k :: k in row ==> k !in ["Order ID", "order_id", "Qty", "qty", "Amount", "amount", "currency", "ship-country", "ship_country", "Date", "date"]
    ensures MapRow(row) == MappedRow(Str(""), Int(0), Real(0.0), Str("INR"), Str("IN"), Str(""))
  {
  }

  /** The mapped values of a well-formed order row with the given id. */
  lemma MapSampleRow(id: string)
    ensures MapRow(map["Order ID" := Str(id), "Qty" := Int(5), "Amount" := Real(100.0), "Date" := Str("05-25-2022")])
      == MappedRow(Str(id), Int(5), Real(100.0), Str("INR"), Str("IN"), Str("05-25-2022"))
  {
  }

  /** Only the id of the sample row can fail. */
  lemma SampleRowErrors(id: string)
    ensures OrderErrors(MappedRow(Str(id), Int(5), Real(100.0), Str("INR"), Str("IN"), Str("05-25-2022")))
      == ErrorOf(CheckOrderId(Str(id)))
  {
    SampleFieldsPass();
    SampleDatePasses();
    var m := MappedRow(Str(id), Int(5), Real(100.0), Str("INR"), Str("IN"), Str("05-25-2022"));
    assert OrderErrors(m) == ErrorOf(CheckOrderId(m.orderId)) + [] + [] + [] + [] + [];
  }

  lemma SampleFieldsPass()
    ensures ErrorOf(CheckQty(Int(5))) == [] && ErrorOf(CheckAmount(Real(100.0))) == []
    ensures ErrorOf(CheckCurrency(Str("INR"))) == [] && ErrorOf(CheckShipCountry(Str("IN"))) == []
  {
  }

  lemma SampleDatePasses()
    ensures ErrorOf(DateOutcome(Str("05-25-2022"))) == []
  {
    FourDigitYearAccepted();
  }

  /** A well-formed order row, without currency or country columns, is accepted. */
  lemma WellFormedRowAccepted()
    ensures OrderErrors(MapRow(map["Order ID" := Str("X1"), "Qty" := Int(5), "Amount" := Real(100.0), "Date" := Str("05-25-2022")])) == []
  {
    MapSampleRow("X1");
    SampleRowErrors("X1");
    assert !IsBlank("X1") by { assert !IsSpace("X1"[0]); }
  }

  /** The same row with a blank id is refused for the id alone. */
  lemma BlankIdRefused()
    ensures OrderErrors(MapRow(map["Order ID" := Str(" "), "Qty" := Int(5), "Amount" := Real(100.0), "Date" := Str("05-25-2022")]))
      == [FieldError(OrderIdField, Blank)]
  {
    MapSampleRow(" ");
    SampleRowErrors(" ");
    assert IsBlank(" ");
  }

  // ---------------------------------------------------------------- error text

  function FieldName(f: Field): string {
    match f
    case OrderIdField => "order_id"
    case QtyField => "qty"
    case AmountField => "amount"
    case CurrencyField => "currency"
    case ShipCountryField => "ship_country"
    case DateField => "date"
  }

  /** The message each validator raises; type errors get a stand-in text. */
  function Message(e: FieldError): string {
    match e.problem
    case WrongType => "Input has the wrong type"
    case Blank => "Value error, Order ID cannot be empty"
    case Negative =>
      if e.field == QtyField then "Value error, Quantity must be \U{2265} 0"
      else "Value error, Amount must be \U{2265} 0"
    case NotAccepted(got) =>
      if e.field == CurrencyField then "Value error, Currency must be INR, got " + got
      else "Value error, Ship country must be IN, got " + got
    case Unparsed(got) => "Value error, Date validation error: Invalid date format: " + got
  }

  /** A stand-in for `str(e)` of the validation error: each failing field's name and message. */
  function ErrorText(errors: seq<FieldError>): string {
    if errors == [] then ""
    else FieldName(errors[0].field) + "\n  " + Message(errors[0]) + (if |errors| > 1 then "\n" else "") + ErrorText(errors[1..])
  }
}
