/**
 * The four `strptime` patterns the date validator tries, and what it means for
 * a string to match one of them.
 *
 * `strptime` turns each directive into a regular expression and demands that
 * the whole string match: `%Y` is exactly four digits, `%m` is `1[0-2]`,
 * `0[1-9]` or `[1-9]`, and `%d` is `3[01]`, `[12]` and a digit, `0[1-9]`,
 * `[1-9]` or a space and `[1-9]`. The numbers read must then form a real
 * calendar date (year 1 to 9999, a day that exists in that month).
 */
module DateFormats {
  import opened Wrappers

  datatype Date = Date(year: int, month: int, day: int)

  predicate IsLeapYear(y: int) {
    y % 4 == 0 && (y % 100 != 0 || y % 400 == 0)
  }

  function DaysInMonth(y: int, m: int): int
    requires 1 <= m <= 12
  {
    if m == 2 then (if IsLeapYear(y) then 29 else 28)
    else if m == 4 || m == 6 || m == 9 || m == 11 then 30
    else 31
  }

  /** A date the proleptic Gregorian calendar of Python's `datetime` accepts. */
  predicate IsCalendarDate(d: Date) {
    1 <= d.year <= 9999 && 1 <= d.month <= 12 && 1 <= d.day <= DaysInMonth(d.year, d.month)
  }

  /** The order of the three directives in a pattern. */
  datatype FieldOrder = MonthDayYear | YearMonthDay | DayMonthYear

  /** A pattern: three directives in some order, separated by one character. */
  datatype Format = Format(order: FieldOrder, sep: char)

  /** `%m-%d-%Y`, `%Y-%m-%d`, `%d-%m-%Y`, `%m/%d/%Y`, in the order they are tried. */
  const Formats: seq<Format> := [
    Format(MonthDayYear, '-'),
    Format(YearMonthDay, '-'),
    Format(DayMonthYear, '-'),
    Format(MonthDayYear, '/')
  ]

  predicate IsDigit(c: char) {
    '0' <= c <= '9'
  }

  function DigitValue(c: char): nat
    requires IsDigit(c)
  {
    c as int - '0' as int
  }

  /** Text `%Y` matches: exactly four digits. */
  predicate IsYearToken(t: string) {
    |t| == 4 && IsDigit(t[0]) && IsDigit(t[1]) && IsDigit(t[2]) && IsDigit(t[3])
  }

  /** Text `%m` matches. */
  predicate IsMonthToken(t: string) {
    (|t| == 1 && '1' <= t[0] <= '9') ||
    (|t| == 2 && ((t[0] == '1' && '0' <= t[1] <= '2') || (t[0] == '0' && '1' <= t[1] <= '9')))
  }

  /** Text `%d` matches, including a space-padded single digit. */
  predicate IsDayToken(t: string) {
    (|t| == 1 && '1' <= t[0] <= '9') ||
    (|t| == 2 &&
      ((t[0] == '3' && (t[1] == '0' || t[1] == '1')) ||
       ((t[0] == '1' || t[0] == '2') && IsDigit(t[1])) ||
       ((t[0] == '0' || t[0] == ' ') && '1' <= t[1] <= '9')))
  }

  function YearValue(t: string): nat
    requires IsYearToken(t)
  {
    1000 * DigitValue(t[0]) + 100 * DigitValue(t[1]) + 10 * DigitValue(t[2]) + DigitValue(t[3])
  }

  /** The number a month or day token stands for; a leading space counts as nothing. */
  function SmallValue(t: string): nat
    requires IsMonthToken(t) || IsDayToken(t)
  {
    if |t| == 1 then DigitValue(t[0])
    else (if t[0] == ' ' then 0 else 10 * DigitValue(t[0])) + DigitValue(t[1])
  }

  /** The string a pattern describes once its directives are replaced by the given texts. */
  function Layout(f: Format, year: string, month: string, day: string): string {
    match f.order
    case MonthDayYear => month + [f.sep] + day + [f.sep] + year
    case YearMonthDay => year + [f.sep] + month + [f.sep] + day
    case DayMonthYear => day + [f.sep] + month + [f.sep] + year
  }

  /** Which of three consecutive pieces is the year, the month and the day. */
  function Arrange(order: FieldOrder, a: string, b: string, c: string): (string, string, string) {
    match order
    case MonthDayYear => (c, a, b)
    case YearMonthDay => (a, b, c)
    case DayMonthYear => (c, b, a)
  }

  /** Position of the first `c` in `s`, or `|s|` when there is none. */
  function IndexOf(s: string, c: char): (k: nat)
    ensures k <= |s|
    ensures k < |s| ==> s[k] == c
    ensures forall j :: 0 <= j < k ==> s[j] != c
  {
    if s == [] || s[0] == c then 0 else 1 + IndexOf(s[1..], c)
  }

  /** Cuts `s` at its first two occurrences of `sep`. */
  function SplitThree(s: string, sep: char): Option<(string, string, string)> {
    var i := IndexOf(s, sep);
    if i == |s| then None
    else
      var rest := s[i + 1..];
      var j := IndexOf(rest, sep);
      if j == |rest| then None
      else Some((s[..i], rest[..j], rest[j + 1..]))
  }

  /** The pieces SplitThree returns put `s` back together and hold no separator in front. */
  lemma SplitThreeJoins(s: string, sep: char)
    requires SplitThree(s, sep).Some?
    ensures var (a, b, c) := SplitThree(s, sep).value;
      s == a + [sep] + b + [sep] + c && sep !in a && sep !in b
  {
    var i := IndexOf(s, sep);
    var rest := s[i + 1..];
    var j := IndexOf(rest, sep);
    assert s == s[..i] + [sep] + rest;
    assert rest == rest[..j] + [sep] + rest[j + 1..];
  }

  /** `datetime.strptime(s, f)`: the date read, or None where it raises ValueError. */
  function Parse(f: Format, s: string): Option<Date> {
    match SplitThree(s, f.sep)
    case None => None
    case Some(parts) =>
      var (year, month, day) := Arrange(f.order, parts.0, parts.1, parts.2);
      if IsYearToken(year) && IsMonthToken(month) && IsDayToken(day) then
        var d := Date(YearValue(year), SmallValue(month), SmallValue(day));
        if IsCalendarDate(d) then Some(d) else None
      else None
  }

  /** `s` is the pattern `f` with each directive replaced by text it matches, read as `d`. */
  ghost predicate Spells(f: Format, s: string, d: Date) {
    exists year, month, day ::
      s == Layout(f, year, month, day) &&
      IsYearToken(year) && IsMonthToken(month) && IsDayToken(day) &&
      d == Date(YearValue(year), SmallValue(month), SmallValue(day))
  }

  /** Some pattern of the list accepts `s`. */
  ghost predicate DateAccepted(s: string) {
    exists k :: 0 <= k < |Formats| && Parse(Formats[k], s).Some?
  }

  lemma IndexOfJoin(a: string, sep: char, rest: string)
    requires sep !in a
    ensures IndexOf(a + [sep] + rest, sep) == |a|
  {
    var s := a + [sep] + rest;
    assert s[|a|] == sep;
    assert forall j :: 0 <= j < |a| ==> s[j] == a[j];
  }

  lemma {:induction false} SplitThreeOfJoin(a: string, b: string, c: string, sep: char)
    requires sep !in a && sep !in b
    ensures SplitThree(a + [sep] + b + [sep] + c, sep) == Some((a, b, c))
  {
    var s := a + [sep] + b + [sep] + c;
    IndexOfJoin(a, sep, b + [sep] + c);
    assert s == a + [sep] + (b + [sep] + c);
    var rest := s[|a| + 1..];
    assert rest == b + [sep] + c;
    IndexOfJoin(b, sep, c);
    assert s[..|a|] == a;
    assert rest[..|b|] == b;
    assert rest[|b| + 1..] == c;
  }

  /** Tokens consist of digits and spaces, so they never hold a separator of the list. */
  lemma TokensAvoidSeparators(f: Format, t: string)
    requires f in Formats
    requires IsYearToken(t) || IsMonthToken(t) || IsDayToken(t)
    ensures f.sep !in t
  {
  }

  /**
   * A pattern of the list accepts exactly the strings that spell a calendar date
   * in it: the parser agrees with the whole-string regular-expression reading.
   */
  lemma {:induction false} ParseMeansSpells(f: Format, s: string, d: Date)
    requires f in Formats
    ensures Parse(f, s) == Some(d) <==> Spells(f, s, d) && IsCalendarDate(d)
  {
    if Parse(f, s) == Some(d) {
      SplitThreeJoins(s, f.sep);
      var parts := SplitThree(s, f.sep).value;
      var (year, month, day) := Arrange(f.order, parts.0, parts.1, parts.2);
      assert s == Layout(f, year, month, day);
    }
    if Spells(f, s, d) && IsCalendarDate(d) {
      var year, month, day :|
        s == Layout(f, year, month, day) &&
        IsYearToken(year) && IsMonthToken(month) && IsDayToken(day) &&
        d == Date(YearValue(year), SmallValue(month), SmallValue(day));
      TokensAvoidSeparators(f, year);
      TokensAvoidSeparators(f, month);
      TokensAvoidSeparators(f, day);
      match f.order
      case MonthDayYear => SplitThreeOfJoin(month, day, year, f.sep);
      case YearMonthDay => SplitThreeOfJoin(year, month, day, f.sep);
      case DayMonthYear => SplitThreeOfJoin(day, month, year, f.sep);
    }
  }

  function DigitChar(n: nat): char
    requires n < 10
  {
    ('0' as int + n) as char
  }

  /** `n` written as two digits, zero-padded. */
  function Pad2(n: nat): string
    requires n < 100
  {
    [DigitChar(n / 10), DigitChar(n % 10)]
  }

  /** `n` written as four digits, zero-padded. */
  function Pad4(n: nat): string
    requires n < 10000
  {
    [DigitChar(n / 1000), DigitChar(n / 100 % 10), DigitChar(n / 10 % 10), DigitChar(n % 10)]
  }

  /** The date written zero-padded in pattern `f`. */
  function Render(f: Format, d: Date): string
    requires IsCalendarDate(d)
  {
    Layout(f, Pad4(d.year), Pad2(d.month), Pad2(d.day))
  }

  lemma DigitCharValue(n: nat)
    requires n < 10
    ensures IsDigit(DigitChar(n)) && DigitValue(DigitChar(n)) == n
  {
  }

  lemma Pad2Digits(n: nat)
    requires n < 100
    ensures var t := Pad2(n);
      |t| == 2 && IsDigit(t[0]) && IsDigit(t[1]) &&
      DigitValue(t[0]) == n / 10 && DigitValue(t[1]) == n % 10
  {
    DigitCharValue(n / 10);
    DigitCharValue(n % 10);
  }

  lemma Pad2Month(n: nat)
    requires 1 <= n <= 12
    ensures IsMonthToken(Pad2(n)) && SmallValue(Pad2(n)) == n
  {
    Pad2Digits(n);
  }

  lemma Pad2Day(n: nat)
    requires 1 <= n <= 31
    ensures IsDayToken(Pad2(n)) && SmallValue(Pad2(n)) == n
  {
    Pad2Digits(n);
  }

  lemma Pad4Year(n: nat)
    requires n < 10000
    ensures IsYearToken(Pad4(n)) && YearValue(Pad4(n)) == n
  {
    var a, b, c, d := n / 1000, n / 100 % 10, n / 10 % 10, n % 10;
    DigitCharValue(a);
    DigitCharValue(b);
    DigitCharValue(c);
    DigitCharValue(d);
    assert n / 10 / 10 == n / 100;
    assert n / 100 / 10 == n / 1000;
    assert n == 10 * (n / 10) + d;
    assert n / 10 == 10 * (n / 100) + c;
    assert n / 100 == 10 * a + b;
  }

  /** Every calendar date, printed with a pattern of the list, is read back by it. */
  lemma RenderThenParse(f: Format, d: Date)
    requires f in Formats
    requires IsCalendarDate(d)
    ensures Parse(f, Render(f, d)) == Some(d)
  {
    Pad4Year(d.year);
    Pad2Month(d.month);
    Pad2Day(d.day);
    var year, month, day := Pad4(d.year), Pad2(d.month), Pad2(d.day);
    assert Render(f, d) == Layout(f, year, month, day);
    assert Spells(f, Render(f, d), d);
    ParseMeansSpells(f, Render(f, d), d);
  }

  lemma IndexOfAbsent(s: string, c: char)
    requires c !in s
    ensures IndexOf(s, c) == |s|
  {
  }

  /** A string every pattern of the list refuses is not accepted. */
  lemma RefusedByEach(s: string)
    requires Parse(Formats[0], s).None? && Parse(Formats[1], s).None?
    requires Parse(Formats[2], s).None? && Parse(Formats[3], s).None?
    ensures !DateAccepted(s)
  {
  }

  /** A missing date column maps to the empty string, which no pattern accepts. */
  lemma EmptyDateRejected()
    ensures !DateAccepted("")
  {
    RefusedByEach("");
  }

  lemma SplitsOf0525Short()
    ensures SplitThree("05-25-22", '-') == Some(("05", "25", "22"))
    ensures SplitThree("05-25-22", '/') == None
  {
    assert "05-25-22" == "05" + ['-'] + "25" + ['-'] + "22";
    SplitThreeOfJoin("05", "25", "22", '-');
    IndexOfAbsent("05-25-22", '/');
  }

  lemma SplitOf0525Long()
    ensures SplitThree("05-25-2022", '-') == Some(("05", "25", "2022"))
  {
    assert "05-25-2022" == "05" + ['-'] + "25" + ['-'] + "2022";
    SplitThreeOfJoin("05", "25", "2022", '-');
  }

  /** Only four-digit years are read: a two-digit year is refused by every pattern. */
  lemma TwoDigitYearRejected()
    ensures !DateAccepted("05-25-22")
  {
    SplitsOf0525Short();
    RefusedByEach("05-25-22");
  }

  /** The same date with its year written out is accepted under `%m-%d-%Y`. */
  lemma FourDigitYearAccepted()
    ensures Parse(Formats[0], "05-25-2022") == Some(Date(2022, 5, 25))
    ensures DateAccepted("05-25-2022")
  {
    SplitOf0525Long();
    assert Parse(Formats[0], "05-25-2022") == Some(Date(2022, 5, 25));
  }

  lemma SplitsOfOutOfRange()
    ensures SplitThree("2022/13/45", '/') == Some(("2022", "13", "45"))
    ensures SplitThree("2022/13/45", '-') == None
  {
    assert "2022/13/45" == "2022" + ['/'] + "13" + ['/'] + "45";
    SplitThreeOfJoin("2022", "13", "45", '/');
    IndexOfAbsent("2022/13/45", '-');
  }

  /** A string with a month above twelve and a day above 31 matches no pattern. */
  lemma OutOfRangeRejected()
    ensures !DateAccepted("2022/13/45")
  {
    SplitsOfOutOfRange();
    RefusedByEach("2022/13/45");
  }
}
