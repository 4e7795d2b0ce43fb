/**
  Calendar dates in the `YYYY-MM-DD` layout that Go's `time.Parse` reads with
  the reference layout "2006-01-02": a four-digit year, a two-digit month in
  1..12 and a two-digit day that exists in that month of that (proleptic
  Gregorian) year, separated by `-`, with nothing before or after.
  Both the schedule date parser (models/scheduler.go) and the validator's
  `parseDate` (models/validator.go) go through this one definition.
 */
module Dates {
  import opened Wrappers
  import opened Decimal

  datatype Date = Date(year: int, month: int, day: int)

  /** Go's `isLeap`. */
  predicate IsLeap(year: int) {
    year % 4 == 0 && (year % 100 != 0 || year % 400 == 0)
  }

  /** Go's `daysIn`: the number of days of `month` in `year`. */
  function DaysIn(month: int, year: int): (n: int)
    requires 1 <= month <= 12
    ensures 28 <= n <= 31
  {
    if month == 2 then (if IsLeap(year) then 29 else 28)
    else if month == 4 || month == 6 || month == 9 || month == 11 then 30
    else 31
  }

  /** A date the layout can spell: year 0000..9999 and a day that exists. */
  predicate ValidDate(d: Date) {
    0 <= d.year <= 9999 && 1 <= d.month <= 12 && 1 <= d.day <= DaysIn(d.month, d.year)
  }

  /** Chronological order of calendar dates (what `Before` on two midnights of one zone compares). */
  predicate Before(a: Date, b: Date) {
    a.year < b.year
    || (a.year == b.year && a.month < b.month)
    || (a.year == b.year && a.month == b.month && a.day < b.day)
  }

  predicate WellFormed(s: string) {
    |s| == 10 && AllDigits(s[..4]) && s[4] == '-' && AllDigits(s[5..7]) && s[7] == '-' && AllDigits(s[8..])
  }

  /** `time.Parse("2006-01-02", s)`, returning the calendar date it names. */
  function ParseDate(s: string): (r: Option<Date>)
    ensures r.Some? ==> ValidDate(r.value)
  {
    if WellFormed(s) then
      var d := Date(DecimalValue(s[..4]), DecimalValue(s[5..7]), DecimalValue(s[8..]));
      if 1 <= d.month <= 12 && 1 <= d.day <= DaysIn(d.month, d.year) && d.year <= 9999 then Some(d) else None
    else None
  }

  function Pad2(n: nat): (s: string)
    requires n < 100
    ensures |s| == 2 && AllDigits(s)
  {
    [DigitChar(n / 10), DigitChar(n % 10)]
  }

  function Pad4(n: nat): (s: string)
    requires n < 10000
    ensures |s| == 4 && AllDigits(s)
  {
    Pad2(n / 100) + Pad2(n % 100)
  }

  /** The `YYYY-MM-DD` spelling of a date (Go's `Format("2006-01-02")`). */
  function FormatDate(d: Date): (s: string)
    requires ValidDate(d)
    ensures |s| == 10
  {
    Pad4(d.year) + "-" + Pad2(d.month) + "-" + Pad2(d.day)
  }

  lemma Value2(s: string)
    requires |s| == 2 && AllDigits(s)
    ensures DecimalValue(s) == 10 * DigitValue(s[0]) + DigitValue(s[1])
  {
    var t := s[..1];
    assert s[..|s| - 1] == t;
    assert DecimalValue(s) == DecimalValue(t) * 10 + DigitValue(s[1]);
    assert t[..|t| - 1] == [];
    assert DecimalValue(t) == DigitValue(s[0]);
  }

  lemma Value4(s: string)
    requires |s| == 4 && AllDigits(s)
    ensures DecimalValue(s) == 100 * DecimalValue(s[..2]) + DecimalValue(s[2..])
  {
    assert s[..3][..2] == s[..2];
    Value2(s[..2]);
    Value2(s[2..]);
  }

  lemma Pad2RoundTrip(n: nat)
    requires n < 100
    ensures DecimalValue(Pad2(n)) == n
  {
    Value2(Pad2(n));
  }

  lemma Pad4RoundTrip(n: nat)
    requires n < 10000
    ensures DecimalValue(Pad4(n)) == n
  {
    var s := Pad4(n);
    Value4(s);
    assert s[..2] == Pad2(n / 100) && s[2..] == Pad2(n % 100);
    Pad2RoundTrip(n / 100);
    Pad2RoundTrip(n % 100);
  }

  lemma Pad2OfValue(s: string)
    requires |s| == 2 && AllDigits(s)
    ensures DecimalValue(s) < 100 && Pad2(DecimalValue(s)) == s
  {
    Value2(s);
    var a, b := DigitValue(s[0]), DigitValue(s[1]);
    assert (10 * a + b) / 10 == a && (10 * a + b) % 10 == b;
    assert DigitChar(a) == s[0] && DigitChar(b) == s[1];
  }

  lemma Pad4OfValue(s: string)
    requires |s| == 4 && AllDigits(s)
    ensures DecimalValue(s) < 10000 && Pad4(DecimalValue(s)) == s
  {
    Value4(s);
    Pad2OfValue(s[..2]);
    Pad2OfValue(s[2..]);
    var hi, lo := DecimalValue(s[..2]), DecimalValue(s[2..]);
    assert (100 * hi + lo) / 100 == hi && (100 * hi + lo) % 100 == lo;
    assert s == s[..2] + s[2..];
  }

  /** Every date the layout can spell is read back as itself. */
  lemma {:induction false} ParseFormat(d: Date)
    requires ValidDate(d)
    ensures ParseDate(FormatDate(d)) == Some(d)
  {
    var s := FormatDate(d);
    assert s[..4] == Pad4(d.year) && s[5..7] == Pad2(d.month) && s[8..] == Pad2(d.day);
    Pad4RoundTrip(d.year);
    Pad2RoundTrip(d.month);
    Pad2RoundTrip(d.day);
  }

  /** Whatever the parser accepts is the canonical spelling of the date it returns. */
  lemma {:induction false} FormatParse(s: string)
    requires ParseDate(s).Some?
    ensures FormatDate(ParseDate(s).value) == s
  {
    Pad4OfValue(s[..4]);
    Pad2OfValue(s[5..7]);
    Pad2OfValue(s[8..]);
    assert s == s[..4] + "-" + s[5..7] + "-" + s[8..];
  }

  /** Both directions together: the parser accepts exactly the spellings of valid dates. */
  lemma ParseDateIff(s: string, d: Date)
    ensures ParseDate(s) == Some(d) <==> ValidDate(d) && s == FormatDate(d)
  {
    if ParseDate(s) == Some(d) {
      FormatParse(s);
    }
    if ValidDate(d) && s == FormatDate(d) {
      ParseFormat(d);
    }
  }

  /** The accepted and rejected spellings exercised by models/scheduler_test.go. */
  lemma ParseDateAcceptsExamples()
    ensures ParseDate("2026-02-01") == Some(Date(2026, 2, 1))
    ensures ParseDate("2026-12-31") == Some(Date(2026, 12, 31))
  {
    ParseFormat(Date(2026, 2, 1));
    assert FormatDate(Date(2026, 2, 1)) == "2026-02-01";
    ParseFormat(Date(2026, 12, 31));
    assert FormatDate(Date(2026, 12, 31)) == "2026-12-31";
  }

  lemma ParseDateRejectsLayouts()
    ensures ParseDate("") == None
    ensures ParseDate("01-02-2026") == None
    ensures ParseDate("2026/02/01") == None
    ensures ParseDate("2026-2-01") == None
  {
    assert "01-02-2026"[..4][2] == '-';
    assert "2026-2-01"[7] == '0';
  }

  /** A well-formed spelling of a day the month does not have is rejected. */
  lemma ParseDateRejectsFebruary30()
    ensures ParseDate("2026-02-30") == None
  {
    var s := "2026-02-30";
    assert s[5..7] == ['0', '2'] && s[8..] == ['3', '0'];
    Value2(s[5..7]);
    Value2(s[8..]);
    assert DecimalValue(s[5..7]) == 2 && DecimalValue(s[8..]) == 30;
  }
}
