/**
 * The date handling of the cases screen: a record's date string is cut to
 * its first ten characters, parsed with the pattern `yyyy-MM-dd` and either
 * printed with the pattern `dd/MM/yyyy` (text mode) or turned into the
 * chart's x coordinate (graph mode).
 */
module Dates {
  import opened Wrappers
  import opened Decimal

  datatype Date = Date(year: int, month: int, day: int)

  /** Why reading a date throws: `substring(0, 10)` on a shorter string, or a prefix that is not a date. */
  datatype DateError = TooShort | NotIsoDate

  /** The default calendar is Julian before October 1582; dates from here on are Gregorian. */
  const FirstGregorianYear := 1583

  predicate IsLeapYear(y: int) {
    y % 4 == 0 && (y % 100 != 0 || y % 400 == 0)
  }

  function DaysInMonth(y: int, m: int): (n: int)
    requires 1 <= m <= 12
    ensures 28 <= n <= 31
  {
    if m == 2 then (if IsLeapYear(y) then 29 else 28)
    else if m == 4 || m == 6 || m == 9 || m == 11 then 30
    else 31
  }

  /** A calendar day that a four-digit `yyyy` field can name. */
  predicate Valid(d: Date) {
    FirstGregorianYear <= d.year <= 9999 && 1 <= d.month <= 12 && 1 <= d.day <= DaysInMonth(d.year, d.month)
  }

  /** Ten characters of the shape `yyyy-MM-dd`. */
  predicate IsIsoShape(p: string) {
    && |p| == 10
    && IsDigit(p[0]) && IsDigit(p[1]) && IsDigit(p[2]) && IsDigit(p[3])
    && p[4] == '-'
    && IsDigit(p[5]) && IsDigit(p[6])
    && p[7] == '-'
    && IsDigit(p[8]) && IsDigit(p[9])
  }

  /** The year, month and day fields of a `yyyy-MM-dd` text. */
  function FieldsOf(p: string): Date
    requires IsIsoShape(p)
  {
    Date(DigitValue(p[0]) * 1000 + DigitValue(p[1]) * 100 + DigitValue(p[2]) * 10 + DigitValue(p[3]),
         DigitValue(p[5]) * 10 + DigitValue(p[6]),
         DigitValue(p[8]) * 10 + DigitValue(p[9]))
  }

  /** The fields are the values of the digit groups. */
  lemma FieldValues(p: string)
    requires IsIsoShape(p)
    ensures AllDigits(p[0..4]) && AllDigits(p[5..7]) && AllDigits(p[8..10])
    ensures FieldsOf(p) == Date(ValueOf(p[0..4]), ValueOf(p[5..7]), ValueOf(p[8..10]))
  {
    var y, m, d := p[0..4], p[5..7], p[8..10];
    assert y[..3] == [p[0], p[1], p[2]] && y[..3][..2] == [p[0], p[1]] && y[..3][..2][..1] == [p[0]];
    assert ValueOf([p[0]]) == DigitValue(p[0]) by { assert [p[0]][..0] == []; }
    assert ValueOf([p[0], p[1]]) == DigitValue(p[0]) * 10 + DigitValue(p[1]);
    assert ValueOf([p[0], p[1], p[2]]) == (DigitValue(p[0]) * 10 + DigitValue(p[1])) * 10 + DigitValue(p[2]);
    assert ValueOf(y) == ((DigitValue(p[0]) * 10 + DigitValue(p[1])) * 10 + DigitValue(p[2])) * 10 + DigitValue(p[3]);
    assert m[..1] == [p[5]] && d[..1] == [p[8]];
    assert ValueOf([p[5]]) == DigitValue(p[5]) by { assert [p[5]][..0] == []; }
    assert ValueOf([p[8]]) == DigitValue(p[8]) by { assert [p[8]][..0] == []; }
  }

  /**
   * `SimpleDateFormat("yyyy-MM-dd").parse(date.substring(0, 10))`, for
   * canonical dates; a string shorter than ten characters throws before
   * anything is parsed.
   */
  function ParseIsoPrefix(s: string): (r: Result<Date, DateError>)
    ensures r.Success? ==> Valid(r.value)
    ensures r == Failure(TooShort) <==> |s| < 10
  {
    if |s| < 10 then Failure(TooShort)
    else
      var p := s[..10];
      if IsIsoShape(p) && Valid(FieldsOf(p)) then Success(FieldsOf(p)) else Failure(NotIsoDate)
  }

  /** `d` in the pattern `yyyy-MM-dd`, the way the service writes it. */
  function IsoText(d: Date): (r: string)
    requires Valid(d)
    ensures |r| == 10
  {
    Pad(d.year, 4) + "-" + Pad(d.month, 2) + "-" + Pad(d.day, 2)
  }

  /** `d` in the pattern `dd/MM/yyyy`. */
  function DayFirstText(d: Date): (r: string)
    requires Valid(d)
    ensures |r| == 10
  {
    Pad(d.day, 2) + "/" + Pad(d.month, 2) + "/" + Pad(d.year, 4)
  }

  /** The `formattedDate` of the text mode: parse the prefix, print it day first. */
  function ReformatDate(s: string): (r: Result<string, DateError>)
    ensures r.Failure? <==> ParseIsoPrefix(s).Failure?
    ensures r.Success? ==> |r.value| == 10
  {
    match ParseIsoPrefix(s)
    case Success(d) => Success(DayFirstText(d))
    case Failure(e) => Failure(e)
  }

  /** Reformatting only moves the characters of the prefix: `yyyy-MM-dd` becomes `dd/MM/yyyy`. */
  lemma ReformatRearranges(s: string)
    requires ReformatDate(s).Success?
    ensures ReformatDate(s).value == s[8..10] + "/" + s[5..7] + "/" + s[0..4]
  {
    var p := s[..10];
    assert p[0..4] == s[0..4] && p[5..7] == s[5..7] && p[8..10] == s[8..10];
    FieldValues(p);
    PadValueOf(s[0..4]);
    PadValueOf(s[5..7]);
    PadValueOf(s[8..10]);
  }

  /** Only the first ten characters matter: a time of day or zone after them is ignored. */
  lemma ReformatPrefixOnly(s: string, t: string)
    requires |s| >= 10 && |t| >= 10 && s[..10] == t[..10]
    ensures ReformatDate(s) == ReformatDate(t)
  {
  }

  /** `d` written as `yyyy-MM-dd` has that shape, and its digit groups are the padded fields. */
  lemma IsoTextSlices(d: Date)
    requires Valid(d)
    ensures var p := IsoText(d);
            && IsIsoShape(p)
            && p[0..4] == Pad(d.year, 4) && p[5..7] == Pad(d.month, 2) && p[8..10] == Pad(d.day, 2)
  {
    var y, m, dd := Pad(d.year, 4), Pad(d.month, 2), Pad(d.day, 2);
    var p := IsoText(d);
    assert p == y + "-" + m + "-" + dd;
    assert p[0..4] == y && p[5..7] == m && p[8..10] == dd;
    assert p[0] == y[0] && p[1] == y[1] && p[2] == y[2] && p[3] == y[3];
    assert p[5] == m[0] && p[6] == m[1] && p[8] == dd[0] && p[9] == dd[1];
  }

  /** Each field of a calendar day fits its width and reads back from its padded digits. */
  lemma PaddedFieldsReadBack(d: Date)
    requires Valid(d)
    ensures ValueOf(Pad(d.year, 4)) == d.year
    ensures ValueOf(Pad(d.month, 2)) == d.month
    ensures ValueOf(Pad(d.day, 2)) == d.day
  {
    assert Pow10(2) == 100;
    assert Pow10(4) == 10000;
    ValueOfPad(d.year, 4);
    ValueOfPad(d.month, 2);
    ValueOfPad(d.day, 2);
  }

  /** The ten characters of `d` in the pattern `yyyy-MM-dd` have that shape and name `d` again. */
  lemma IsoTextFields(d: Date)
    requires Valid(d)
    ensures IsIsoShape(IsoText(d)) && FieldsOf(IsoText(d)) == d
  {
    IsoTextSlices(d);
    PaddedFieldsReadBack(d);
    FieldValues(IsoText(d));
  }

  /** Every calendar day the service writes as `yyyy-MM-dd...` is read back as that day and printed day first. */
  lemma IsoRoundTrip(d: Date, rest: string)
    requires Valid(d)
    ensures ParseIsoPrefix(IsoText(d) + rest) == Success(d)
    ensures ReformatDate(IsoText(d) + rest) == Success(DayFirstText(d))
  {
    assert (IsoText(d) + rest)[..10] == IsoText(d);
    IsoTextFields(d);
  }

  /** Chronological order of days. */
  predicate Before(a: Date, b: Date) {
    a.year < b.year || (a.year == b.year && (a.month < b.month || (a.month == b.month && a.day < b.day)))
  }

  /**
   * The chart's x coordinate of a day. The screen uses the parsed instant in
   * milliseconds; this key stands for it and keeps its order.
   */
  function DateKey(d: Date): int
    requires Valid(d)
  {
    d.year * 372 + (d.month - 1) * 31 + (d.day - 1)
  }

  /** Keys are ordered exactly as the days they stand for. */
  lemma DateKeyOrder(a: Date, b: Date)
    requires Valid(a) && Valid(b)
    ensures Before(a, b) <==> DateKey(a) < DateKey(b)
  {
    if a.year < b.year {
      assert DateKey(a) < (a.year + 1) * 372 <= DateKey(b);
    } else if b.year < a.year {
      assert DateKey(b) < (b.year + 1) * 372 <= DateKey(a);
    }
  }

  /** Different days have different keys. */
  lemma DateKeyInjective(a: Date, b: Date)
    requires Valid(a) && Valid(b) && DateKey(a) == DateKey(b)
    ensures a == b
  {
    DateKeyOrder(a, b);
    DateKeyOrder(b, a);
  }
}
