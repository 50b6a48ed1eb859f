/**
 * The text mode of the cases screen (`casesListToString`): each record of a
 * response becomes a few labelled lines, concatenated in the order the
 * service returned them.
 */
module CasesText {
  import opened Wrappers
  import opened Decimal
  import opened Dates

  /** A record of the "day one" service: a count of cases on a date. */
  datatype DayOneItem = DayOneItem(cases: int, date: string)

  /** A record of the "by country" service; province and city may be `null`. */
  datatype ByCountryItem = ByCountryItem(province: Option<string>, city: Option<string>, cases: int, date: string)

  /** A response is a list of records of one shape or the other, never mixed. */
  datatype CasesList = DayOne(dayOne: seq<DayOneItem>) | ByCountry(byCountry: seq<ByCountryItem>)

  const ProvinceLabel := "Estado/Província: "
  const CityLabel := "Cidade: "
  const CasesLabel := "Casos: "
  const DateLabel := "Data: "

  function Count(list: CasesList): nat {
    match list
    case DayOne(items) => |items|
    case ByCountry(items) => |items|
  }

  function DateOf(list: CasesList, i: nat): string
    requires i < Count(list)
  {
    match list
    case DayOne(items) => items[i].date
    case ByCountry(items) => items[i].date
  }

  /** `!value.isNullOrEmpty()` */
  predicate HasText(value: Option<string>) {
    value.Some? && value.value != ""
  }

  /** What one `append` of a labelled value writes: the caption, the value and a line break. */
  function Line(caption: string, value: string): string {
    caption + value + "\n"
  }

  /** A labelled line that is written only for a non-null, non-empty value. */
  function OptionalLine(caption: string, value: Option<string>): (r: string)
    ensures r == "" <==> !HasText(value)
  {
    if HasText(value) then Line(caption, value.value) else ""
  }

  /** `"Casos: ${cases}\n"` */
  function CasesLine(cases: int): string {
    Line(CasesLabel, IntToString(cases))
  }

  /** `"Data: ${formattedDate}\n\n"`: the date line and the blank line that closes a record. */
  function DateLines(date: string): string {
    Line(DateLabel, date) + "\n"
  }

  /** The lines of a day-one record whose date reads `date`. */
  function DayOneLines(item: DayOneItem, date: string): (r: string)
    ensures CasesLabel <= r && r[|r| - 2..] == "\n\n"
  {
    CasesLine(item.cases) + DateLines(date)
  }

  /** The lines of a by-country record whose date reads `date`. */
  function ByCountryLines(item: ByCountryItem, date: string): (r: string)
    ensures |r| >= 2 && r[|r| - 2..] == "\n\n"
  {
    OptionalLine(ProvinceLabel, item.province) + OptionalLine(CityLabel, item.city) +
    CasesLine(item.cases) + DateLines(date)
  }

  /** The lines of record `i`, chosen by the shape of the response, or what reading its date throws. */
  function Block(list: CasesList, i: nat): (r: Result<string, DateError>)
    requires i < Count(list)
    ensures r.Failure? <==> ReformatDate(DateOf(list, i)).Failure?
  {
    match ReformatDate(DateOf(list, i))
    case Failure(e) => Failure(e)
    case Success(d) =>
      match list
      case DayOne(items) => Success(DayOneLines(items[i], d))
      case ByCountry(items) => Success(ByCountryLines(items[i], d))
  }

  /** The outcome of every record, in input order. */
  function Blocks(list: CasesList): (bs: seq<Result<string, DateError>>)
    ensures |bs| == Count(list)
  {
    seq(Count(list), i requires 0 <= i < Count(list) => Block(list, i))
  }

  /**
   * What a `StringBuffer` holds after appending the records' lines one by
   * one, or the first exception thrown on the way.
   */
  function Join(rs: seq<Result<string, DateError>>): (r: Result<string, DateError>)
    ensures rs == [] ==> r == Success("")
    ensures r.Failure? ==> r in rs
  {
    if rs == [] then Success("")
    else
      var prefix := Join(rs[..|rs| - 1]);
      if prefix.Failure? then prefix
      else if rs[|rs| - 1].Failure? then rs[|rs| - 1]
      else Success(prefix.value + rs[|rs| - 1].value)
  }

  /** The text shown for a response, or what it throws. */
  function Text(list: CasesList): (r: Result<string, DateError>)
    ensures Count(list) == 0 ==> r == Success("")
  {
    Join(Blocks(list))
  }

  /** After a record has thrown, the records after it do not matter. */
  lemma {:induction false} JoinStaysFailed(rs: seq<Result<string, DateError>>, ts: seq<Result<string, DateError>>)
    requires Join(rs).Failure?
    ensures Join(rs + ts) == Join(rs)
  {
    if ts != [] {
      assert (rs + ts)[..|rs + ts| - 1] == rs + ts[..|ts| - 1];
      JoinStaysFailed(rs, ts[..|ts| - 1]);
    } else {
      assert rs + ts == rs;
    }
  }

  /** The text is produced exactly when no record throws. */
  lemma {:induction false} JoinSucceedsIff(rs: seq<Result<string, DateError>>)
    ensures Join(rs).Success? <==> forall i :: 0 <= i < |rs| ==> rs[i].Success?
  {
    if rs != [] {
      var init := rs[..|rs| - 1];
      JoinSucceedsIff(init);
      assert forall i :: 0 <= i < |init| ==> init[i] == rs[i];
    }
  }

  /** When the text is not produced, what is thrown is what the first failing record throws. */
  lemma {:induction false} JoinFailsAtFirst(rs: seq<Result<string, DateError>>)
    requires Join(rs).Failure?
    ensures exists i :: 0 <= i < |rs| && rs[i] == Join(rs) && forall j :: 0 <= j < i ==> rs[j].Success?
  {
    var init := rs[..|rs| - 1];
    if Join(init).Failure? {
      JoinFailsAtFirst(init);
      var i :| 0 <= i < |init| && init[i] == Join(init) && forall j :: 0 <= j < i ==> init[j].Success?;
      assert rs[i] == init[i];
    } else {
      JoinSucceedsIff(init);
      assert forall j :: 0 <= j < |init| ==> rs[j] == init[j];
    }
  }

  /** The records' lines appear in input order: the text of a prefix of the records is a prefix of the text. */
  lemma {:induction false} JoinPrefix(rs: seq<Result<string, DateError>>, m: nat)
    requires m <= |rs| && Join(rs).Success?
    ensures Join(rs[..m]).Success? && Join(rs[..m]).value <= Join(rs).value
  {
    if m < |rs| {
      var init := rs[..|rs| - 1];
      assert init[..m] == rs[..m];
      JoinPrefix(init, m);
    } else {
      assert rs[..m] == rs;
    }
  }

  /** The strings of `ss` one after another, first to last. */
  function Concat(ss: seq<string>): string {
    if ss == [] then "" else ss[0] + Concat(ss[1..])
  }

  /** The lines each record contributes when it succeeds. */
  function Lines(rs: seq<Result<string, DateError>>): (ls: seq<string>)
    ensures |ls| == |rs|
  {
    seq(|rs|, i requires 0 <= i < |rs| => if rs[i].Success? then rs[i].value else "")
  }

  lemma {:induction false} ConcatAppend(ss: seq<string>, t: string)
    ensures Concat(ss + [t]) == Concat(ss) + t
  {
    if ss != [] {
      assert (ss + [t])[1..] == ss[1..] + [t];
      ConcatAppend(ss[1..], t);
      AppendAssociative(ss[0], Concat(ss[1..]), t);
    }
  }

  /** A text that is produced is the records' lines concatenated in input order. */
  lemma {:induction false} JoinIsConcat(rs: seq<Result<string, DateError>>)
    requires Join(rs).Success?
    ensures Join(rs).value == Concat(Lines(rs))
  {
    if rs != [] {
      var init := rs[..|rs| - 1];
      JoinIsConcat(init);
      assert Lines(rs) == Lines(init) + [rs[|rs| - 1].value];
      ConcatAppend(Lines(init), rs[|rs| - 1].value);
    }
  }

  /** The text with one more record is the text so far followed by that record's lines. */
  lemma JoinStep(rs: seq<Result<string, DateError>>, r: Result<string, DateError>)
    requires Join(rs).Success? && r.Success?
    ensures Join(rs + [r]) == Success(Join(rs).value + r.value)
  {
    assert (rs + [r])[..|rs|] == rs;
  }

  /** The `DayOneResponseListItem` branch: appends the record's lines to `sb`, or throws on its date. */
  method AppendDayOne(sb: string, item: DayOneItem) returns (r: Result<string, DateError>)
    ensures r.Failure? <==> ReformatDate(item.date).Failure?
    ensures r.Failure? ==> r.error == ReformatDate(item.date).error
    ensures r.Success? ==> r.value == sb + DayOneLines(item, ReformatDate(item.date).value)
  {
    var buffer := sb + CasesLine(item.cases);
    var date := ReformatDate(item.date);
    if date.Failure? {
      return Failure(date.error);
    }
    buffer := buffer + DateLines(date.value);
    AppendAssociative(sb, CasesLine(item.cases), DateLines(date.value));
    r := Success(buffer);
  }

  /**
   * The `ByCountryResponseListItem` branch: appends the province and city
   * lines when they have text, then the record's count and date, or throws
   * on its date.
   */
  method AppendByCountry(sb: string, item: ByCountryItem) returns (r: Result<string, DateError>)
    ensures r.Failure? <==> ReformatDate(item.date).Failure?
    ensures r.Failure? ==> r.error == ReformatDate(item.date).error
    ensures r.Success? ==> r.value == sb + ByCountryLines(item, ReformatDate(item.date).value)
  {
    var buffer := sb;
    ghost var province, city := OptionalLine(ProvinceLabel, item.province), OptionalLine(CityLabel, item.city);
    if item.province.Some? && item.province.value != "" {
      buffer := buffer + Line(ProvinceLabel, item.province.value);
    } else {
      assert buffer == sb + province;
    }
    if item.city.Some? && item.city.value != "" {
      buffer := buffer + Line(CityLabel, item.city.value);
    } else {
      assert buffer == (sb + province) + city;
    }
    AppendAssociative(sb, province, city);
    var date := ReformatDate(item.date);
    if date.Failure? {
      return Failure(date.error);
    }
    buffer := buffer + CasesLine(item.cases);
    AppendAssociative(sb, province + city, CasesLine(item.cases));
    buffer := buffer + DateLines(date.value);
    AppendAssociative(sb, province + city + CasesLine(item.cases), DateLines(date.value));
    r := Success(buffer);
  }

  /** One pass of the `forEach`: the branch for the response's shape, applied to record `i`. */
  method AppendRecord(sb: string, list: CasesList, i: nat) returns (next: Result<string, DateError>)
    requires i < Count(list)
    ensures next.Failure? ==> next == Block(list, i)
    ensures next.Success? ==> Block(list, i).Success? && next.value == sb + Block(list, i).value
  {
    match list {
      case DayOne(items) =>
        next := AppendDayOne(sb, items[i]);
      case ByCountry(items) =>
        next := AppendByCountry(sb, items[i]);
    }
  }

  /** A record that throws after successful ones decides the outcome of the whole list. */
  lemma JoinFailsAt(rs: seq<Result<string, DateError>>, i: nat)
    requires i < |rs| && Join(rs[..i]).Success? && rs[i].Failure?
    ensures Join(rs) == rs[i]
  {
    assert rs[..i + 1][..i] == rs[..i];
    assert Join(rs[..i + 1]) == rs[i];
    JoinStaysFailed(rs[..i + 1], rs[i + 1..]);
    assert rs[..i + 1] + rs[i + 1..] == rs;
  }

  /**
   * `casesListToString`: raises the "no results" notice exactly for an empty
   * response and returns the text of all its records, or what the first
   * unreadable date throws.
   */
  method CasesListToString(list: CasesList) returns (text: Result<string, DateError>, notice: bool)
    ensures notice <==> Count(list) == 0
    ensures text == Text(list)
  {
    notice := Count(list) == 0;
    ghost var blocks := Blocks(list);
    var sb := "";
    var i := 0;
    while i < Count(list)
      invariant i <= Count(list)
      invariant Join(blocks[..i]) == Success(sb)
      decreases Count(list) - i
    {
      var next := AppendRecord(sb, list, i);
      assert blocks[i] == Block(list, i);
      if next.Failure? {
        JoinFailsAt(blocks, i);
        return next, notice;
      }
      JoinStep(blocks[..i], blocks[i]);
      assert blocks[..i + 1] == blocks[..i] + [blocks[i]];
      sb := next.value;
      i := i + 1;
    }
    assert blocks[..i] == blocks;
    text := Success(sb);
  }

  lemma AppendAssociative(a: string, b: string, c: string)
    ensures (a + b) + c == a + (b + c)
  {
  }

  /** A response's text is produced exactly when every record's date can be read. */
  lemma TextSucceedsIff(list: CasesList)
    ensures Text(list).Success? <==> forall i :: 0 <= i < Count(list) ==> ReformatDate(DateOf(list, i)).Success?
  {
    var blocks := Blocks(list);
    JoinSucceedsIff(blocks);
    forall i | 0 <= i < Count(list)
      ensures blocks[i].Success? <==> ReformatDate(DateOf(list, i)).Success?
    {
      assert blocks[i] == Block(list, i);
    }
  }

  /** When a response cannot be shown, the exception is the one the first unreadable date throws. */
  lemma TextFailsAtFirstBadDate(list: CasesList)
    requires Text(list).Failure?
    ensures exists i :: 0 <= i < Count(list) && ReformatDate(DateOf(list, i)) == Text(list) &&
                        forall j :: 0 <= j < i ==> ReformatDate(DateOf(list, j)).Success?
  {
    var blocks := Blocks(list);
    JoinFailsAtFirst(blocks);
    var i :| 0 <= i < |blocks| && blocks[i] == Join(blocks) && forall j :: 0 <= j < i ==> blocks[j].Success?;
    assert blocks[i] == Block(list, i);
    forall j | 0 <= j < i
      ensures ReformatDate(DateOf(list, j)).Success?
    {
      assert blocks[j] == Block(list, j);
    }
  }

  /** A day-one record reads `Casos: <cases>` and `Data: dd/MM/yyyy`, taken from its `yyyy-MM-dd` prefix. */
  lemma DayOneBlockText(items: seq<DayOneItem>, i: nat)
    requires i < |items| && ReformatDate(items[i].date).Success?
    ensures var s := items[i].date;
      Block(DayOne(items), i) == Success("Casos: " + IntToString(items[i].cases) + "\n" +
                                         "Data: " + (s[8..10] + "/" + s[5..7] + "/" + s[0..4]) + "\n\n")
  {
    var s := items[i].date;
    ReformatRearranges(s);
    var d := s[8..10] + "/" + s[5..7] + "/" + s[0..4];
    var count := IntToString(items[i].cases);
    calc {
      DayOneLines(items[i], d);
      (CasesLabel + count + "\n") + (DateLabel + d + "\n" + "\n");
      { assert DateLabel + d + "\n" + "\n" == DateLabel + d + "\n\n"; }
      "Casos: " + count + "\n" + "Data: " + d + "\n\n";
    }
  }

  /** A day-one record as the text shows it: its count, then its date's fields moved to `dd/MM/yyyy`. */
  function DayOneRecordText(item: DayOneItem): string {
    var s := item.date;
    if |s| < 10 then ""
    else "Casos: " + IntToString(item.cases) + "\n" + "Data: " + (s[8..10] + "/" + s[5..7] + "/" + s[0..4]) + "\n\n"
  }

  /** A day-one text is its records, each as `Casos:`, `Data:` and a blank line, in input order. */
  lemma DayOneText(items: seq<DayOneItem>)
    requires Text(DayOne(items)).Success?
    ensures Text(DayOne(items)).value ==
            Concat(seq(|items|, i requires 0 <= i < |items| => DayOneRecordText(items[i])))
  {
    var blocks := Blocks(DayOne(items));
    JoinIsConcat(blocks);
    TextSucceedsIff(DayOne(items));
    var records := seq(|items|, i requires 0 <= i < |items| => DayOneRecordText(items[i]));
    forall i | 0 <= i < |items|
      ensures Lines(blocks)[i] == records[i]
    {
      assert DateOf(DayOne(items), i) == items[i].date;
      DayOneBlockText(items, i);
    }
    assert Lines(blocks) == records;
  }

  /** The number of line breaks in `s`. */
  function Newlines(s: string): nat {
    if s == [] then 0 else Newlines(s[..|s| - 1]) + (if s[|s| - 1] == '\n' then 1 else 0)
  }

  lemma {:induction false} NewlinesAppend(a: string, b: string)
    ensures Newlines(a + b) == Newlines(a) + Newlines(b)
  {
    if b != [] {
      assert (a + b)[..|a + b| - 1] == a + b[..|b| - 1];
      NewlinesAppend(a, b[..|b| - 1]);
    } else {
      assert a + b == a;
    }
  }

  /** A string without line breaks counts none. */
  lemma {:induction false} NewlinesNone(s: string)
    requires '\n' !in s
    ensures Newlines(s) == 0
  {
    if s != [] {
      assert s[|s| - 1] in s;
      NewlinesNone(s[..|s| - 1]);
    }
  }

  /** A printed count holds no line break. */
  lemma NoNewlineInCount(i: int)
    ensures '\n' !in IntToString(i)
  {
    var digits := NatToString(if i < 0 then -i else i);
    assert '\n' !in digits;
    assert IntToString(i) == digits || IntToString(i) == "-" + digits;
  }

  /** A date printed day first holds no line break. */
  lemma NoNewlineInDate(d: Date)
    requires Valid(d)
    ensures '\n' !in DayFirstText(d)
  {
    var day, month, year := Pad(d.day, 2), Pad(d.month, 2), Pad(d.year, 4);
    assert '\n' !in day && '\n' !in month && '\n' !in year;
    assert DayFirstText(d) == day + "/" + month + "/" + year;
  }

  lemma LabelsAreOneLine()
    ensures '\n' !in ProvinceLabel && '\n' !in CityLabel && '\n' !in CasesLabel && '\n' !in DateLabel
  {
  }

  /** A labelled line of a value without line breaks is one line. */
  lemma LineNewlines(caption: string, value: string)
    requires '\n' !in caption
    ensures Newlines(Line(caption, value)) == Newlines(value) + 1
  {
    NewlinesNone(caption);
    NewlinesAppend(caption, value);
    NewlinesAppend(caption + value, "\n");
    assert "\n"[..0] == [];
  }

  /** Whatever its count and date, a day-one record takes three lines: `Casos:`, `Data:` and a blank one. */
  lemma DayOneLinesCount(item: DayOneItem, date: string)
    requires '\n' !in date
    ensures Newlines(DayOneLines(item, date)) == 3
  {
    NoNewlineInCount(item.cases);
    LabelsAreOneLine();
    LineNewlines(CasesLabel, IntToString(item.cases));
    LineNewlines(DateLabel, date);
    NewlinesNone(IntToString(item.cases));
    NewlinesNone(date);
    NewlinesAppend(Line(DateLabel, date), "\n");
    NewlinesAppend(CasesLine(item.cases), DateLines(date));
    assert "\n"[..0] == [];
  }

  lemma DayOneBlockLineCount(items: seq<DayOneItem>, i: nat)
    requires i < |items| && Block(DayOne(items), i).Success?
    ensures Newlines(Block(DayOne(items), i).value) == 3
  {
    var d := ParseIsoPrefix(items[i].date).value;
    NoNewlineInDate(d);
    DayOneLinesCount(items[i], DayFirstText(d));
  }

  /** When every record that succeeds takes `k` lines, the whole text takes `k` lines per record. */
  lemma {:induction false} JoinNewlines(rs: seq<Result<string, DateError>>, k: nat)
    requires Join(rs).Success?
    requires forall i :: 0 <= i < |rs| && rs[i].Success? ==> Newlines(rs[i].value) == k
    ensures Newlines(Join(rs).value) == k * |rs|
  {
    if rs != [] {
      var init := rs[..|rs| - 1];
      assert forall i :: 0 <= i < |init| ==> init[i] == rs[i];
      JoinNewlines(init, k);
      NewlinesAppend(Join(init).value, rs[|rs| - 1].value);
    }
  }

  /** A day-one response is shown as exactly three lines per record. */
  lemma DayOneLineCount(items: seq<DayOneItem>)
    requires Text(DayOne(items)).Success?
    ensures Newlines(Text(DayOne(items)).value) == 3 * |items|
  {
    var blocks := Blocks(DayOne(items));
    forall i | 0 <= i < |blocks| && blocks[i].Success?
      ensures Newlines(blocks[i].value) == 3
    {
      DayOneBlockLineCount(items, i);
    }
    JoinNewlines(blocks, 3);
  }

  lemma OptionalLineNewlines(caption: string, value: Option<string>)
    requires '\n' !in caption
    ensures Newlines(OptionalLine(caption, value)) == if HasText(value) then Newlines(value.value) + 1 else 0
  {
    if HasText(value) {
      LineNewlines(caption, value.value);
    }
  }

  /**
   * A by-country record takes three lines, plus, for a province and for a
   * city that are present and non-empty, one line and the line breaks the
   * value itself holds: one line each when the values hold none.
   */
  lemma ByCountryLinesCount(item: ByCountryItem, date: string)
    requires '\n' !in date
    ensures Newlines(ByCountryLines(item, date)) ==
            3 + (if HasText(item.province) then 1 + Newlines(item.province.value) else 0)
              + (if HasText(item.city) then 1 + Newlines(item.city.value) else 0)
    ensures (item.province.Some? ==> '\n' !in item.province.value) &&
            (item.city.Some? ==> '\n' !in item.city.value) ==>
            Newlines(ByCountryLines(item, date)) ==
            3 + (if HasText(item.province) then 1 else 0) + (if HasText(item.city) then 1 else 0)
  {
    var province, city := OptionalLine(ProvinceLabel, item.province), OptionalLine(CityLabel, item.city);
    var record := DayOneItem(item.cases, date);
    LabelsAreOneLine();
    OptionalLineNewlines(ProvinceLabel, item.province);
    OptionalLineNewlines(CityLabel, item.city);
    DayOneLinesCount(record, date);
    AppendAssociative(province + city, CasesLine(item.cases), DateLines(date));
    NewlinesAppend(province, city);
    NewlinesAppend(province + city, DayOneLines(record, date));
    if item.province.Some? && '\n' !in item.province.value {
      NewlinesNone(item.province.value);
    }
    if item.city.Some? && '\n' !in item.city.value {
      NewlinesNone(item.city.value);
    }
  }

  predicate StartsWith(s: string, prefix: string) {
    prefix <= s
  }

  /** The record's lines open with the province line exactly when the province is present and non-empty. */
  lemma ByCountryProvinceLine(item: ByCountryItem, date: string)
    ensures StartsWith(ByCountryLines(item, date), ProvinceLabel) <==> HasText(item.province)
    ensures HasText(item.province) ==>
              StartsWith(ByCountryLines(item, date), "Estado/Província: " + item.province.value + "\n")
  {
    var b := ByCountryLines(item, date);
    if !HasText(item.province) {
      assert b[0] == 'C';
    } else {
      var line := Line(ProvinceLabel, item.province.value);
      AppendAssociative(line + OptionalLine(CityLabel, item.city), CasesLine(item.cases), DateLines(date));
      AppendAssociative(line, OptionalLine(CityLabel, item.city), CasesLine(item.cases) + DateLines(date));
      assert b == line + (OptionalLine(CityLabel, item.city) + (CasesLine(item.cases) + DateLines(date)));
      assert line == "Estado/Província: " + item.province.value + "\n";
    }
  }

  /** What follows the province line opens with the city label exactly when the city has text. */
  lemma CityLineLeads(item: ByCountryItem, date: string)
    ensures StartsWith(OptionalLine(CityLabel, item.city) + (CasesLine(item.cases) + DateLines(date)), CityLabel)
            <==> HasText(item.city)
  {
    var tail := CasesLine(item.cases) + DateLines(date);
    if !HasText(item.city) {
      assert OptionalLine(CityLabel, item.city) + tail == tail;
      assert tail[1] == 'a';
    }
  }

  /**
   * After the optional province line, the record's lines go on with the city
   * line exactly when the city is present and non-empty, whatever the province.
   */
  lemma ByCountryCityLine(item: ByCountryItem, date: string)
    ensures var b, p := ByCountryLines(item, date), OptionalLine(ProvinceLabel, item.province);
            p <= b && (StartsWith(b[|p|..], CityLabel) <==> HasText(item.city))
    ensures var b, p := ByCountryLines(item, date), OptionalLine(ProvinceLabel, item.province);
            HasText(item.city) ==> p <= b && StartsWith(b[|p|..], "Cidade: " + item.city.value + "\n")
  {
    var p, c := OptionalLine(ProvinceLabel, item.province), OptionalLine(CityLabel, item.city);
    var tail := CasesLine(item.cases) + DateLines(date);
    AppendAssociative(p + c, CasesLine(item.cases), DateLines(date));
    AppendAssociative(p, c, tail);
    var b := p + (c + tail);
    assert ByCountryLines(item, date) == b;
    assert b[|p|..] == c + tail;
    CityLineLeads(item, date);
    if HasText(item.city) {
      assert c == "Cidade: " + item.city.value + "\n";
      assert c <= c + tail;
    }
  }

  /**
   * A readable by-country record reads: its optional province and city
   * lines, `Casos: <cases>`, then `Data: ` followed by characters 8-9, 5-6
   * and 0-3 of its date joined by `/`, then a blank line.
   */
  lemma ByCountryBlockText(items: seq<ByCountryItem>, i: nat)
    requires i < |items| && ReformatDate(items[i].date).Success?
    ensures var it, s := items[i], items[i].date;
      Block(ByCountry(items), i) ==
        Success(OptionalLine(ProvinceLabel, it.province) + OptionalLine(CityLabel, it.city) +
                ("Casos: " + IntToString(it.cases) + "\n" + "Data: " + (s[8..10] + "/" + s[5..7] + "/" + s[0..4]) + "\n\n"))
  {
    var it, s := items[i], items[i].date;
    ReformatRearranges(s);
    var d := s[8..10] + "/" + s[5..7] + "/" + s[0..4];
    var count := IntToString(it.cases);
    var place := OptionalLine(ProvinceLabel, it.province) + OptionalLine(CityLabel, it.city);
    AppendAssociative(place, CasesLine(it.cases), DateLines(d));
    calc {
      CasesLine(it.cases) + DateLines(d);
      (CasesLabel + count + "\n") + (DateLabel + d + "\n" + "\n");
      { assert DateLabel + d + "\n" + "\n" == DateLabel + d + "\n\n"; }
      "Casos: " + count + "\n" + "Data: " + d + "\n\n";
    }
  }

  /** The year of every scenario, as `yyyy` prints it. */
  lemma YearOfScenarios()
    ensures Pad(2020, 4) == "2020"
  {
    assert Pad(2, 1) == "2" && Pad(20, 2) == "20" && Pad(202, 3) == "202";
  }

  lemma FirstOfMarchParses()
    ensures ParseIsoPrefix("2020-03-01T00:00:00Z") == Success(Date(2020, 3, 1))
  {
    var s := "2020-03-01T00:00:00Z";
    assert s[..10] == "2020-03-01";
    assert IsIsoShape(s[..10]) && FieldsOf(s[..10]) == Date(2020, 3, 1);
    assert Valid(Date(2020, 3, 1));
  }

  lemma FirstOfMarchPrints()
    ensures DayFirstText(Date(2020, 3, 1)) == "01/03/2020"
  {
    assert Pad(1, 2) == "01" && Pad(3, 2) == "03";
    YearOfScenarios();
  }

  /** A date the service writes with a time of day: only its `yyyy-MM-dd` prefix is read. */
  lemma FirstOfMarch()
    ensures ReformatDate("2020-03-01T00:00:00Z") == Success("01/03/2020")
  {
    FirstOfMarchParses();
    FirstOfMarchPrints();
  }

  lemma SecondOfMarchParses()
    ensures ParseIsoPrefix("2020-03-02T00:00:00Z") == Success(Date(2020, 3, 2))
  {
    var s := "2020-03-02T00:00:00Z";
    assert s[..10] == "2020-03-02";
    assert IsIsoShape(s[..10]) && FieldsOf(s[..10]) == Date(2020, 3, 2);
    assert Valid(Date(2020, 3, 2));
  }

  lemma SecondOfMarchPrints()
    ensures DayFirstText(Date(2020, 3, 2)) == "02/03/2020"
  {
    assert Pad(2, 2) == "02" && Pad(3, 2) == "03";
    YearOfScenarios();
  }

  lemma SecondOfMarch()
    ensures ReformatDate("2020-03-02T00:00:00Z") == Success("02/03/2020")
  {
    SecondOfMarchParses();
    SecondOfMarchPrints();
  }

  lemma TenthOfAprilParses()
    ensures ParseIsoPrefix("2020-04-10T00:00:00Z") == Success(Date(2020, 4, 10))
  {
    var s := "2020-04-10T00:00:00Z";
    assert s[..10] == "2020-04-10";
    assert IsIsoShape(s[..10]) && FieldsOf(s[..10]) == Date(2020, 4, 10);
    assert Valid(Date(2020, 4, 10));
  }

  lemma TenthOfAprilPrints()
    ensures DayFirstText(Date(2020, 4, 10)) == "10/04/2020"
  {
    assert Pad(10, 2) == "10" && Pad(4, 2) == "04";
    YearOfScenarios();
  }

  /** The date of the by-country scenario. */
  lemma TenthOfApril()
    ensures ReformatDate("2020-04-10T00:00:00Z") == Success("10/04/2020")
  {
    TenthOfAprilParses();
    TenthOfAprilPrints();
  }

  /** A by-country record without a province or city text reads exactly like a day-one record. */
  lemma ByCountryWithoutPlace(item: ByCountryItem, date: string)
    requires !HasText(item.province) && !HasText(item.city)
    ensures ByCountryLines(item, date) == DayOneLines(DayOneItem(item.cases, item.date), date)
  {
    assert OptionalLine(ProvinceLabel, item.province) + OptionalLine(CityLabel, item.city) == "";
  }

  /** A record whose date reads `d` contributes its lines with `d` in them. */
  lemma BlockWithDate(list: CasesList, i: nat, d: string)
    requires i < Count(list) && ReformatDate(DateOf(list, i)) == Success(d)
    ensures list.DayOne? ==> Block(list, i) == Success(DayOneLines(list.dayOne[i], d))
    ensures list.ByCountry? ==> Block(list, i) == Success(ByCountryLines(list.byCountry[i], d))
  {
  }

  /** The two day-one records of the scenario below. */
  function ScenarioDayOne(): CasesList {
    DayOne([DayOneItem(5, "2020-03-01T00:00:00Z"), DayOneItem(9, "2020-03-02T00:00:00Z")])
  }

  lemma ScenarioLines()
    ensures DayOneLines(ScenarioDayOne().dayOne[0], "01/03/2020") == "Casos: 5\nData: 01/03/2020\n\n"
    ensures DayOneLines(ScenarioDayOne().dayOne[1], "02/03/2020") == "Casos: 9\nData: 02/03/2020\n\n"
  {
    assert IntToString(5) == "5" && IntToString(9) == "9";
    assert CasesLine(5) == "Casos: 5\n" && DateLines("01/03/2020") == "Data: 01/03/2020\n\n";
    assert CasesLine(9) == "Casos: 9\n" && DateLines("02/03/2020") == "Data: 02/03/2020\n\n";
  }

  lemma ScenarioFirstBlock()
    ensures Block(ScenarioDayOne(), 0) == Success("Casos: 5\nData: 01/03/2020\n\n")
  {
    FirstOfMarch();
    BlockWithDate(ScenarioDayOne(), 0, "01/03/2020");
    ScenarioLines();
  }

  lemma ScenarioSecondBlock()
    ensures Block(ScenarioDayOne(), 1) == Success("Casos: 9\nData: 02/03/2020\n\n")
  {
    SecondOfMarch();
    BlockWithDate(ScenarioDayOne(), 1, "02/03/2020");
    ScenarioLines();
  }

  /** Two day-one records, the first on 1 March 2020 with 5 cases, the second a day later with 9. */
  lemma DayOneScenario()
    ensures Text(ScenarioDayOne()) ==
            Success("Casos: 5\nData: 01/03/2020\n\n" + "Casos: 9\nData: 02/03/2020\n\n")
  {
    var blocks := Blocks(ScenarioDayOne());
    ScenarioFirstBlock();
    ScenarioSecondBlock();
    JoinPair(blocks, "Casos: 5\nData: 01/03/2020\n\n", "Casos: 9\nData: 02/03/2020\n\n");
  }

  /** Two records that both succeed give their lines one after the other. */
  lemma JoinPair(rs: seq<Result<string, DateError>>, a: string, b: string)
    requires |rs| == 2 && rs[0] == Success(a) && rs[1] == Success(b)
    ensures Join(rs) == Success(a + b)
  {
    assert rs[..1][..0] == [];
    assert Join(rs[..1]) == Success("" + a);
    assert "" + a == a;
  }

  /** The by-country record of the scenario below: an empty province and a city. */
  function ScenarioByCountry(): CasesList {
    ByCountry([ByCountryItem(Some(""), Some("São Paulo"), 12, "2020-04-10T00:00:00Z")])
  }

  lemma ScenarioByCountryLines()
    ensures ByCountryLines(ScenarioByCountry().byCountry[0], "10/04/2020") ==
            "Cidade: São Paulo\n" + "Casos: 12\n" + "Data: 10/04/2020\n\n"
  {
    var item := ScenarioByCountry().byCountry[0];
    TwelveCases();
    ScenarioPlaceLines();
    assert DateLines("10/04/2020") == "Data: 10/04/2020\n\n";
    assert "" + "Cidade: São Paulo\n" == "Cidade: São Paulo\n";
  }

  lemma ScenarioPlaceLines()
    ensures OptionalLine(ProvinceLabel, ScenarioByCountry().byCountry[0].province) == ""
    ensures OptionalLine(CityLabel, ScenarioByCountry().byCountry[0].city) == "Cidade: São Paulo\n"
  {
  }

  lemma TwelveCases()
    ensures CasesLine(12) == "Casos: 12\n"
  {
    assert NatToString(1) == "1";
    assert NatToString(12) == "12";
  }

  /** An empty province gives no province line; the city, count and date lines follow. */
  lemma ByCountryScenario()
    ensures Text(ScenarioByCountry()) == Success("Cidade: São Paulo\n" + "Casos: 12\n" + "Data: 10/04/2020\n\n")
  {
    TenthOfApril();
    BlockWithDate(ScenarioByCountry(), 0, "10/04/2020");
    ScenarioByCountryLines();
    var blocks := Blocks(ScenarioByCountry());
    assert blocks[0] == Block(ScenarioByCountry(), 0);
    JoinSingle(blocks, "Cidade: São Paulo\n" + "Casos: 12\n" + "Data: 10/04/2020\n\n");
  }

  lemma JoinSingle(rs: seq<Result<string, DateError>>, a: string)
    requires |rs| == 1 && rs[0] == Success(a)
    ensures Join(rs) == Success(a)
  {
    assert rs[..0] == [];
    assert "" + a == a;
  }
}
