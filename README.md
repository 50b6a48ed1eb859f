# Covid19InfoSdm: the presentation logic of the main screen

The app's only screen (`MainActivity`) lets the user pick a country, a
service ("Por dia" for the day-one series of a country, "Por país" for its
per-province/per-city records) and a case status. It then queries a COVID-19
statistics service and shows the answer, either as text or, for the day-one
service, as a line chart. This project models the deterministic part of that
screen and proves what it does:

- **Labels** (`labels.dfy`): the `Information` and `Status` enums, the lookup
  `getTypeByDesc` from a Portuguese status label to the service key (with the
  `"Status Inválido"` sentinel), and the info spinner's positions.
- **Countries** (`countries.dfy`): what the country-list observer builds. The
  list is sorted by name (a stable sort under Kotlin's string order) and empty
  names are dropped. Every other name is appended to the spinner's entries and
  bound to its slug in a map, so the last entry of a name wins.
- **Dates** (`dates.dfy`, `decimal.dfy`): reading the first ten characters of a
  record's date as `yyyy-MM-dd` and printing it as `dd/MM/yyyy`. A day also
  becomes an integer key for the chart's x axis, in the same order as the
  day's timestamp. Integers are printed in decimal as string templates do.
- **Text mode** (`cases_text.dfy`): `casesListToString`, proved as a loop over
  the records against a specification `Text`. Each record's lines are appended
  in input order. For a by-country record, the province and city lines appear
  only for non-null, non-empty values. The first date that cannot be read
  throws.
- **Graph mode** (`chart.dfy`): one point per day-one record, in input order.
  The viewport bounds come from the first and the last point.
- **The screen** (`screen.dfy`): a class `MainActivity` whose fields stand for
  the widgets' state: the country adapter and map, the visibility of the text
  pane, the graph, the view-mode controls and the progress bar, the text
  shown, the number of "no results" toasts, the graph's series and bounds, the
  queries sent, and whether a callback has thrown. Its methods are the
  handlers:
  - `onRetrieveClick`, with `fetchDayOne` and `fetchByCountry` up to the query;
  - the info spinner's `onItemSelected`;
  - `modoGrafico`;
  - the three observers, whose callbacks receive the already-fetched list.

Two facts about the code are worth stating up front:

- The text labels are Portuguese: `Casos:`, `Data:`, `Estado/Província:` and
  `Cidade:`.
- In graph mode, an empty answer removes all series and adds one empty series
  (`MainActivity.kt` lines 129 and 139-140). Only the bounds from the previous
  answer remain.

## Model

All source cells refer to one file, `MainActivity.kt`.

| member | source | states |
|---|---|---|
| Labels.TypeByDesc | app/src/main/java/br/edu/ifsp/scl/sdm/covid19infosdm/MainActivity.kt:106-112 | the label of a status maps to that status's service key; the result is the sentinel exactly when the text is no status's label |
| Labels.StatusDescInjective | app/src/main/java/br/edu/ifsp/scl/sdm/covid19infosdm/MainActivity.kt:31-35 | the three status labels are distinct, so the lookup is well defined |
| Labels.InvalidIsNoStatus | app/src/main/java/br/edu/ifsp/scl/sdm/covid19infosdm/MainActivity.kt:111 | the sentinel is never a real service key |
| Labels.InformationAt | app/src/main/java/br/edu/ifsp/scl/sdm/covid19infosdm/MainActivity.kt:85-94 | a spinner position names a service exactly for positions 0 and 1, and the service's ordinal is that position |
| Countries.NameLe | app/src/main/java/br/edu/ifsp/scl/sdm/covid19infosdm/MainActivity.kt:65 | the order of `String.compareTo`: the first differing character decides, and a proper prefix comes first |
| Countries.NameLeTotal | app/src/main/java/br/edu/ifsp/scl/sdm/covid19infosdm/MainActivity.kt:65 | any two names are comparable in the sort's order |
| Countries.NameLeTransitive | app/src/main/java/br/edu/ifsp/scl/sdm/covid19infosdm/MainActivity.kt:65 | the sort's order is transitive |
| Countries.InsertByName | app/src/main/java/br/edu/ifsp/scl/sdm/covid19infosdm/MainActivity.kt:65 | inserting an entry adds exactly that entry |
| Countries.SortByName | app/src/main/java/br/edu/ifsp/scl/sdm/covid19infosdm/MainActivity.kt:65 | sorting is a permutation of the fetched list |
| Countries.InsertSorted | app/src/main/java/br/edu/ifsp/scl/sdm/covid19infosdm/MainActivity.kt:65 | inserting into a sorted list keeps it sorted |
| Countries.InsertMembers | app/src/main/java/br/edu/ifsp/scl/sdm/covid19infosdm/MainActivity.kt:65 | the entries after insertion are the new one and the old ones |
| Countries.SortByNameSorted | app/src/main/java/br/edu/ifsp/scl/sdm/covid19infosdm/MainActivity.kt:65 | the sorted list is ordered by name |
| Countries.NameLeReflexive | app/src/main/java/br/edu/ifsp/scl/sdm/covid19infosdm/MainActivity.kt:65 | every name is ordered before or equal to itself |
| Countries.NamedAppend | app/src/main/java/br/edu/ifsp/scl/sdm/covid19infosdm/MainActivity.kt:65 | the entries of one name in a concatenation are those of each part, in order |
| Countries.NamedNone | app/src/main/java/br/edu/ifsp/scl/sdm/covid19infosdm/MainActivity.kt:65 | a list without a name has no entries of that name |
| Countries.InsertNamed | app/src/main/java/br/edu/ifsp/scl/sdm/covid19infosdm/MainActivity.kt:65 | an inserted entry goes ahead of every entry of its own name, which stay in order behind it |
| Countries.InsertOtherName | app/src/main/java/br/edu/ifsp/scl/sdm/covid19infosdm/MainActivity.kt:65 | inserting an entry leaves the entries of every other name in order |
| Countries.SortStable | app/src/main/java/br/edu/ifsp/scl/sdm/covid19infosdm/MainActivity.kt:65 | the sort is stable: for every name, the entries of that name keep their input order |
| Countries.SortedCons | app/src/main/java/br/edu/ifsp/scl/sdm/covid19infosdm/MainActivity.kt:65 | proof helper for `InsertSorted`: an entry no greater than every element of a sorted list can be put in front of it |
| Countries.AdapterNames | app/src/main/java/br/edu/ifsp/scl/sdm/covid19infosdm/MainActivity.kt:66-67 | every spinner entry is non-empty, and a name is an entry exactly when it is the non-empty name of a fetched entry |
| Countries.AdapterNamesSorted | app/src/main/java/br/edu/ifsp/scl/sdm/covid19infosdm/MainActivity.kt:65-67 | walking a sorted list gives sorted spinner entries |
| Countries.AdapterNamesAppend | app/src/main/java/br/edu/ifsp/scl/sdm/covid19infosdm/MainActivity.kt:65-67 | the entries of a concatenation are the entries of each part, in order |
| Countries.Put | app/src/main/java/br/edu/ifsp/scl/sdm/covid19infosdm/MainActivity.kt:68 | one step of the loop on the map: a non-empty name becomes a key, bound to its slug; the keys are otherwise unchanged |
| Countries.Bind | app/src/main/java/br/edu/ifsp/scl/sdm/covid19infosdm/MainActivity.kt:66-68 | the map after the loop has put every entry of a list, in order, starting from a given map |
| Countries.BindKeys | app/src/main/java/br/edu/ifsp/scl/sdm/covid19infosdm/MainActivity.kt:66-68 | the map's keys are its old keys plus the non-empty names walked |
| Countries.BindLastWins | app/src/main/java/br/edu/ifsp/scl/sdm/covid19infosdm/MainActivity.kt:68 | a name is bound to the slug of its last entry |
| Countries.NamedLastOfName | app/src/main/java/br/edu/ifsp/scl/sdm/covid19infosdm/MainActivity.kt:68 | the last entry of a name is the last in the list of entries of that name |
| Countries.BindNamed | app/src/main/java/br/edu/ifsp/scl/sdm/covid19infosdm/MainActivity.kt:68 | a non-empty name the list carries is bound to the slug of the last of its entries |
| Countries.BindKeepsOthers | app/src/main/java/br/edu/ifsp/scl/sdm/covid19infosdm/MainActivity.kt:66-68 | names not walked keep their slug |
| Countries.BindAppend | app/src/main/java/br/edu/ifsp/scl/sdm/covid19infosdm/MainActivity.kt:65-69 | binding a concatenation is binding one part after the other |
| Countries.EmptyNameIgnored | app/src/main/java/br/edu/ifsp/scl/sdm/covid19infosdm/MainActivity.kt:66 | an entry with an empty name changes neither the spinner entries nor the map |
| Countries.WalkStep | app/src/main/java/br/edu/ifsp/scl/sdm/covid19infosdm/MainActivity.kt:65-69 | proof helper for the loop of `OnCountriesFetched`: one more step appends the entry's name and binds it, or skips an empty name |
| Countries.WalkKeepsConsistent | app/src/main/java/br/edu/ifsp/scl/sdm/covid19infosdm/MainActivity.kt:65-69 | walking any list keeps the spinner entries non-empty and the map's keys equal to the entries |
| Countries.AfterCallback | app/src/main/java/br/edu/ifsp/scl/sdm/covid19infosdm/MainActivity.kt:64-71 | after a callback the tables are consistent, and sorted when the spinner started out empty |
| Countries.CountryTables | app/src/main/java/br/edu/ifsp/scl/sdm/covid19infosdm/MainActivity.kt:65-69 | from empty tables: the entries are sorted and non-empty and are exactly the fetched non-empty names; the map's keys are exactly the entries; each name maps to the slug of its last entry in the fetched list, since the sort is stable |
| Decimal.DigitChar | app/src/main/java/br/edu/ifsp/scl/sdm/covid19infosdm/MainActivity.kt:201 | a digit is printed as the character that reads back as it |
| Decimal.Pad | app/src/main/java/br/edu/ifsp/scl/sdm/covid19infosdm/MainActivity.kt:203 | a fixed-width field has exactly its width, all digits |
| Decimal.NatToString | app/src/main/java/br/edu/ifsp/scl/sdm/covid19infosdm/MainActivity.kt:201 | a count is printed as non-empty digits without a leading zero |
| Decimal.IntToString | app/src/main/java/br/edu/ifsp/scl/sdm/covid19infosdm/MainActivity.kt:201 | a count is printed in decimal as a string template does, with a leading `-` exactly when it is negative |
| Decimal.ValueOfBound | app/src/main/java/br/edu/ifsp/scl/sdm/covid19infosdm/MainActivity.kt:202 | a field of w digits reads as less than 10^w |
| Decimal.ValueOfPad | app/src/main/java/br/edu/ifsp/scl/sdm/covid19infosdm/MainActivity.kt:203 | a value written at a width it fits in reads back as that value |
| Decimal.PadValueOf | app/src/main/java/br/edu/ifsp/scl/sdm/covid19infosdm/MainActivity.kt:202-203 | a field read and written back at its width is unchanged |
| Decimal.ValueOfNatToString | app/src/main/java/br/edu/ifsp/scl/sdm/covid19infosdm/MainActivity.kt:201 | a printed natural number reads back as itself |
| Decimal.IntToStringRoundTrip | app/src/main/java/br/edu/ifsp/scl/sdm/covid19infosdm/MainActivity.kt:201 | the count printed after `Casos: ` reads back as the same integer, sign included |
| Decimal.IntToStringInjective | app/src/main/java/br/edu/ifsp/scl/sdm/covid19infosdm/MainActivity.kt:218 | different counts are printed differently |
| Dates.DaysInMonth | app/src/main/java/br/edu/ifsp/scl/sdm/covid19infosdm/MainActivity.kt:202 | every month has 28 to 31 days |
| Dates.FieldValues | app/src/main/java/br/edu/ifsp/scl/sdm/covid19infosdm/MainActivity.kt:202 | the year, month and day are the values of the digit groups of `yyyy-MM-dd` |
| Dates.IsoTextSlices | app/src/main/java/br/edu/ifsp/scl/sdm/covid19infosdm/MainActivity.kt:202 | a day written as `yyyy-MM-dd` has that shape, and its digit groups are the padded year, month and day |
| Dates.PaddedFieldsReadBack | app/src/main/java/br/edu/ifsp/scl/sdm/covid19infosdm/MainActivity.kt:202 | the padded year, month and day of a calendar day read back as themselves |
| Dates.IsoTextFields | app/src/main/java/br/edu/ifsp/scl/sdm/covid19infosdm/MainActivity.kt:202 | a day written as `yyyy-MM-dd` has that shape, and its fields name the day again |
| Dates.ParseIsoPrefix | app/src/main/java/br/edu/ifsp/scl/sdm/covid19infosdm/MainActivity.kt:202 | a parsed date is a calendar day; the string is too short exactly when it has fewer than ten characters |
| Dates.ReformatDate | app/src/main/java/br/edu/ifsp/scl/sdm/covid19infosdm/MainActivity.kt:202-203 | the date parsed from the first ten characters, printed day first: it throws exactly when parsing throws, and otherwise has ten characters |
| Dates.IsoText | app/src/main/java/br/edu/ifsp/scl/sdm/covid19infosdm/MainActivity.kt:202 | a day written as `yyyy-MM-dd` has ten characters |
| Dates.DayFirstText | app/src/main/java/br/edu/ifsp/scl/sdm/covid19infosdm/MainActivity.kt:203 | a day printed as `dd/MM/yyyy` has ten characters |
| Dates.ReformatRearranges | app/src/main/java/br/edu/ifsp/scl/sdm/covid19infosdm/MainActivity.kt:202-203 | a readable date is printed with its day, month and year fields moved, unchanged, to `dd/MM/yyyy` |
| Dates.ReformatPrefixOnly | app/src/main/java/br/edu/ifsp/scl/sdm/covid19infosdm/MainActivity.kt:202 | only the first ten characters matter |
| Dates.IsoRoundTrip | app/src/main/java/br/edu/ifsp/scl/sdm/covid19infosdm/MainActivity.kt:202-203 | every calendar day written as `yyyy-MM-dd`, whatever follows, is read back as that day and printed day first |
| Dates.DateKey | app/src/main/java/br/edu/ifsp/scl/sdm/covid19infosdm/MainActivity.kt:135-136 | the x coordinate of a day, standing for its instant; `DateKeyOrder` shows it orders days as time does |
| Dates.DateKeyOrder | app/src/main/java/br/edu/ifsp/scl/sdm/covid19infosdm/MainActivity.kt:135-136 | the x keys of two days are ordered exactly as the days |
| Dates.DateKeyInjective | app/src/main/java/br/edu/ifsp/scl/sdm/covid19infosdm/MainActivity.kt:135-136 | different days have different x keys |
| CasesText.HasText | app/src/main/java/br/edu/ifsp/scl/sdm/covid19infosdm/MainActivity.kt:209-214 | `!isNullOrEmpty()`: a value is present and non-empty |
| CasesText.OptionalLine | app/src/main/java/br/edu/ifsp/scl/sdm/covid19infosdm/MainActivity.kt:209-214 | a labelled line written only for a present, non-empty value: it is empty exactly when the value has no text |
| CasesText.DayOneLines | app/src/main/java/br/edu/ifsp/scl/sdm/covid19infosdm/MainActivity.kt:201-204 | a day-one record's lines open with `Casos: ` and end with the blank line that closes it |
| CasesText.ByCountryLines | app/src/main/java/br/edu/ifsp/scl/sdm/covid19infosdm/MainActivity.kt:209-219 | a by-country record's lines end with the blank line that closes it; `ByCountryBlockText` gives them in full |
| CasesText.Block | app/src/main/java/br/edu/ifsp/scl/sdm/covid19infosdm/MainActivity.kt:198-221 | the lines of record i by the response's shape, or a throw exactly when its date cannot be read |
| CasesText.Join | app/src/main/java/br/edu/ifsp/scl/sdm/covid19infosdm/MainActivity.kt:197-225 | the buffer after appending each outcome in turn: empty for no records, and a failure is one of the records' failures |
| CasesText.Text | app/src/main/java/br/edu/ifsp/scl/sdm/covid19infosdm/MainActivity.kt:197-225 | the text shown for a response, or what it throws: empty for an empty response |
| CasesText.Blocks | app/src/main/java/br/edu/ifsp/scl/sdm/covid19infosdm/MainActivity.kt:197 | there is one outcome per record |
| CasesText.Lines | app/src/main/java/br/edu/ifsp/scl/sdm/covid19infosdm/MainActivity.kt:197 | there is one string of lines per record |
| CasesText.CasesListToString | app/src/main/java/br/edu/ifsp/scl/sdm/covid19infosdm/MainActivity.kt:190-226 | the notice is raised exactly for an empty list; the buffer loop returns the text `Text` specifies, or the first exception |
| CasesText.AppendRecord | app/src/main/java/br/edu/ifsp/scl/sdm/covid19infosdm/MainActivity.kt:197-222 | one pass of the loop appends exactly the record's lines, or throws exactly what the record's date throws |
| CasesText.AppendDayOne | app/src/main/java/br/edu/ifsp/scl/sdm/covid19infosdm/MainActivity.kt:200-205 | a day-one record appends its `Casos:` and `Data:` lines, or throws exactly when its date cannot be read |
| CasesText.AppendByCountry | app/src/main/java/br/edu/ifsp/scl/sdm/covid19infosdm/MainActivity.kt:208-220 | a by-country record appends its optional place lines, `Casos:` and `Data:`, or throws exactly when its date cannot be read |
| CasesText.JoinStaysFailed | app/src/main/java/br/edu/ifsp/scl/sdm/covid19infosdm/MainActivity.kt:197-223 | once a record throws, later records change nothing |
| CasesText.JoinSucceedsIff | app/src/main/java/br/edu/ifsp/scl/sdm/covid19infosdm/MainActivity.kt:197-225 | the text is produced exactly when every record succeeds |
| CasesText.JoinFailsAt | app/src/main/java/br/edu/ifsp/scl/sdm/covid19infosdm/MainActivity.kt:197-223 | a record that throws after successful ones is the outcome of the whole list |
| CasesText.JoinFailsAtFirst | app/src/main/java/br/edu/ifsp/scl/sdm/covid19infosdm/MainActivity.kt:197-223 | a failure is the failure of the first failing record, and all records before it succeed |
| CasesText.JoinPrefix | app/src/main/java/br/edu/ifsp/scl/sdm/covid19infosdm/MainActivity.kt:197-225 | the text of the first m records is a prefix of the whole text |
| CasesText.JoinStep | app/src/main/java/br/edu/ifsp/scl/sdm/covid19infosdm/MainActivity.kt:197-225 | proof helper for the loop of `CasesListToString`: one more record appends exactly its lines |
| CasesText.ConcatAppend | app/src/main/java/br/edu/ifsp/scl/sdm/covid19infosdm/MainActivity.kt:225 | concatenating one more string appends it at the end |
| CasesText.JoinIsConcat | app/src/main/java/br/edu/ifsp/scl/sdm/covid19infosdm/MainActivity.kt:197-225 | a produced text is the records' lines concatenated in input order |
| CasesText.JoinSingle | app/src/main/java/br/edu/ifsp/scl/sdm/covid19infosdm/MainActivity.kt:197-225 | the text of one successful record is its lines |
| CasesText.JoinPair | app/src/main/java/br/edu/ifsp/scl/sdm/covid19infosdm/MainActivity.kt:197-225 | the text of two successful records is their lines, first then second |
| CasesText.TextSucceedsIff | app/src/main/java/br/edu/ifsp/scl/sdm/covid19infosdm/MainActivity.kt:202-216 | a response is shown exactly when every record's date can be read |
| CasesText.TextFailsAtFirstBadDate | app/src/main/java/br/edu/ifsp/scl/sdm/covid19infosdm/MainActivity.kt:197-223 | a response that cannot be shown throws what the first unreadable date throws |
| CasesText.DayOneBlockText | app/src/main/java/br/edu/ifsp/scl/sdm/covid19infosdm/MainActivity.kt:200-205 | a day-one record reads `Casos: <cases>`, then `Data: ` followed by characters 8-9, 5-6 and 0-3 of its date joined by `/`, then a blank line |
| CasesText.DayOneText | app/src/main/java/br/edu/ifsp/scl/sdm/covid19infosdm/MainActivity.kt:197-225 | a day-one text is, record by record in input order, `Casos: <cases>`, a line break, `Data: ` and the date's characters 8-9, 5-6 and 0-3 joined by `/`, then a blank line |
| CasesText.ByCountryBlockText | app/src/main/java/br/edu/ifsp/scl/sdm/covid19infosdm/MainActivity.kt:208-220 | a readable by-country record reads: its optional province and city lines, `Casos: <cases>`, then `Data: ` and the date's characters 8-9, 5-6 and 0-3 joined by `/`, then a blank line |
| CasesText.BlockWithDate | app/src/main/java/br/edu/ifsp/scl/sdm/covid19infosdm/MainActivity.kt:198-221 | proof helper for the scenario lemmas: unfolds a record's lines for a readable date |
| CasesText.NewlinesAppend | app/src/main/java/br/edu/ifsp/scl/sdm/covid19infosdm/MainActivity.kt:225 | the line breaks of a concatenation add up |
| CasesText.NewlinesNone | app/src/main/java/br/edu/ifsp/scl/sdm/covid19infosdm/MainActivity.kt:225 | a string without `\n` has no line breaks |
| CasesText.NoNewlineInCount | app/src/main/java/br/edu/ifsp/scl/sdm/covid19infosdm/MainActivity.kt:201 | a printed count holds no line break |
| CasesText.NoNewlineInDate | app/src/main/java/br/edu/ifsp/scl/sdm/covid19infosdm/MainActivity.kt:202-203 | a date printed as `dd/MM/yyyy` holds no line break |
| CasesText.LabelsAreOneLine | app/src/main/java/br/edu/ifsp/scl/sdm/covid19infosdm/MainActivity.kt:201-219 | no label holds a line break |
| CasesText.LineNewlines | app/src/main/java/br/edu/ifsp/scl/sdm/covid19infosdm/MainActivity.kt:201 | a labelled value takes one line plus the line breaks the value itself holds (one line for a value without line breaks) |
| CasesText.DayOneLinesCount | app/src/main/java/br/edu/ifsp/scl/sdm/covid19infosdm/MainActivity.kt:201-204 | a day-one record takes three lines |
| CasesText.DayOneBlockLineCount | app/src/main/java/br/edu/ifsp/scl/sdm/covid19infosdm/MainActivity.kt:200-205 | each readable day-one record takes three lines |
| CasesText.JoinNewlines | app/src/main/java/br/edu/ifsp/scl/sdm/covid19infosdm/MainActivity.kt:197-225 | k lines per record give k times as many lines as records |
| CasesText.DayOneLineCount | app/src/main/java/br/edu/ifsp/scl/sdm/covid19infosdm/MainActivity.kt:197-205 | a day-one text has exactly three line breaks per record |
| CasesText.OptionalLineNewlines | app/src/main/java/br/edu/ifsp/scl/sdm/covid19infosdm/MainActivity.kt:209-214 | an optional line takes none when the value has no text, otherwise one line plus the line breaks inside the value |
| CasesText.ByCountryLinesCount | app/src/main/java/br/edu/ifsp/scl/sdm/covid19infosdm/MainActivity.kt:208-220 | a by-country record takes three lines, plus, for each present, non-empty province or city, one line and the line breaks inside that value; for values without line breaks, one line each |
| CasesText.ByCountryProvinceLine | app/src/main/java/br/edu/ifsp/scl/sdm/covid19infosdm/MainActivity.kt:209-211 | the record opens with `Estado/Província: ` exactly when the province is non-null and non-empty, and then its first line is `Estado/Província: <province>` |
| CasesText.CityLineLeads | app/src/main/java/br/edu/ifsp/scl/sdm/covid19infosdm/MainActivity.kt:212-214 | what follows the province line opens with `Cidade: ` exactly when the city is non-null and non-empty |
| CasesText.ByCountryCityLine | app/src/main/java/br/edu/ifsp/scl/sdm/covid19infosdm/MainActivity.kt:212-214 | after the optional province line, the lines go on with `Cidade: ` exactly when the city is non-null and non-empty, whatever the province, and then that line is `Cidade: <city>` |
| CasesText.ByCountryWithoutPlace | app/src/main/java/br/edu/ifsp/scl/sdm/covid19infosdm/MainActivity.kt:208-220 | a by-country record without place text reads exactly like a day-one record |
| CasesText.YearOfScenarios | app/src/main/java/br/edu/ifsp/scl/sdm/covid19infosdm/MainActivity.kt:203 | the year 2020 prints as `2020` |
| CasesText.FirstOfMarchParses | app/src/main/java/br/edu/ifsp/scl/sdm/covid19infosdm/MainActivity.kt:202 | `2020-03-01T00:00:00Z` is read as 1 March 2020 |
| CasesText.FirstOfMarchPrints | app/src/main/java/br/edu/ifsp/scl/sdm/covid19infosdm/MainActivity.kt:203 | 1 March 2020 prints as `01/03/2020` |
| CasesText.SecondOfMarchParses | app/src/main/java/br/edu/ifsp/scl/sdm/covid19infosdm/MainActivity.kt:202 | `2020-03-02T00:00:00Z` is read as 2 March 2020 |
| CasesText.SecondOfMarchPrints | app/src/main/java/br/edu/ifsp/scl/sdm/covid19infosdm/MainActivity.kt:203 | 2 March 2020 prints as `02/03/2020` |
| CasesText.TenthOfAprilParses | app/src/main/java/br/edu/ifsp/scl/sdm/covid19infosdm/MainActivity.kt:216 | `2020-04-10T00:00:00Z` is read as 10 April 2020 |
| CasesText.TenthOfAprilPrints | app/src/main/java/br/edu/ifsp/scl/sdm/covid19infosdm/MainActivity.kt:217 | 10 April 2020 prints as `10/04/2020` |
| CasesText.FirstOfMarch | app/src/main/java/br/edu/ifsp/scl/sdm/covid19infosdm/MainActivity.kt:202-203 | `2020-03-01T00:00:00Z` prints as `01/03/2020` |
| CasesText.SecondOfMarch | app/src/main/java/br/edu/ifsp/scl/sdm/covid19infosdm/MainActivity.kt:202-203 | `2020-03-02T00:00:00Z` prints as `02/03/2020` |
| CasesText.TenthOfApril | app/src/main/java/br/edu/ifsp/scl/sdm/covid19infosdm/MainActivity.kt:216-217 | `2020-04-10T00:00:00Z` prints as `10/04/2020` |
| CasesText.ScenarioLines | app/src/main/java/br/edu/ifsp/scl/sdm/covid19infosdm/MainActivity.kt:201-204 | the scenario's records read `Casos: 5`/`Data: 01/03/2020` and `Casos: 9`/`Data: 02/03/2020` |
| CasesText.ScenarioFirstBlock | app/src/main/java/br/edu/ifsp/scl/sdm/covid19infosdm/MainActivity.kt:200-205 | the scenario's first record's lines |
| CasesText.ScenarioSecondBlock | app/src/main/java/br/edu/ifsp/scl/sdm/covid19infosdm/MainActivity.kt:200-205 | the scenario's second record's lines |
| CasesText.DayOneScenario | app/src/main/java/br/edu/ifsp/scl/sdm/covid19infosdm/MainActivity.kt:197-225 | two day-one records give `Casos: 5\nData: 01/03/2020\n\nCasos: 9\nData: 02/03/2020\n\n` |
| CasesText.TwelveCases | app/src/main/java/br/edu/ifsp/scl/sdm/covid19infosdm/MainActivity.kt:218 | a count of 12 gives the line `Casos: 12` |
| CasesText.ScenarioByCountryLines | app/src/main/java/br/edu/ifsp/scl/sdm/covid19infosdm/MainActivity.kt:208-220 | an empty province and the city São Paulo give a city line and no province line |
| CasesText.ScenarioPlaceLines | app/src/main/java/br/edu/ifsp/scl/sdm/covid19infosdm/MainActivity.kt:209-214 | an empty province gives no line; the city São Paulo gives `Cidade: São Paulo` |
| CasesText.ByCountryScenario | app/src/main/java/br/edu/ifsp/scl/sdm/covid19infosdm/MainActivity.kt:197-225 | that record's text is `Cidade: São Paulo\n`, `Casos: 12\n` and `Data: 10/04/2020\n\n`, with no province line |
| Chart.PointOf | app/src/main/java/br/edu/ifsp/scl/sdm/covid19infosdm/MainActivity.kt:134-137 | a record's point: it exists exactly when the date can be read, and its y is the record's count |
| Chart.Points | app/src/main/java/br/edu/ifsp/scl/sdm/covid19infosdm/MainActivity.kt:133-138 | the points of all records in input order, one per record, or what the first unreadable date throws |
| Chart.PointsSpec | app/src/main/java/br/edu/ifsp/scl/sdm/covid19infosdm/MainActivity.kt:133-138 | the series is built exactly when every date can be read; it then has one point per record, and point i is record i's day key and count |
| Chart.PointsFailAtFirst | app/src/main/java/br/edu/ifsp/scl/sdm/covid19infosdm/MainActivity.kt:134-135 | a failing series throws what the first unreadable date throws |
| Chart.PointsStayFailed | app/src/main/java/br/edu/ifsp/scl/sdm/covid19infosdm/MainActivity.kt:134-135 | records after an unreadable date are never reached |
| Chart.PreparePoints | app/src/main/java/br/edu/ifsp/scl/sdm/covid19infosdm/MainActivity.kt:133-138 | the loop that fills the points list returns the series `Points` specifies |
| Chart.ChronologicalSeries | app/src/main/java/br/edu/ifsp/scl/sdm/covid19infosdm/MainActivity.kt:133-138 | records in strictly chronological order give points with strictly increasing x |
| Chart.Bounds | app/src/main/java/br/edu/ifsp/scl/sdm/covid19infosdm/MainActivity.kt:147-157 | bounds are set exactly for a non-empty series |
| Chart.Xs | app/src/main/java/br/edu/ifsp/scl/sdm/covid19infosdm/MainActivity.kt:148-151 | there is one x per point |
| Chart.Ys | app/src/main/java/br/edu/ifsp/scl/sdm/covid19infosdm/MainActivity.kt:155-156 | there is one y per point |
| Chart.FirstIsLeast | app/src/main/java/br/edu/ifsp/scl/sdm/covid19infosdm/MainActivity.kt:150 | in a non-decreasing sequence the first element is the least |
| Chart.EndpointsAreExtrema | app/src/main/java/br/edu/ifsp/scl/sdm/covid19infosdm/MainActivity.kt:150-156 | in a non-decreasing sequence the endpoints are the extrema |
| Chart.BoundsEncloseMonotoneSeries | app/src/main/java/br/edu/ifsp/scl/sdm/covid19infosdm/MainActivity.kt:147-157 | when days and counts never decrease, the bounds enclose every point |
| Chart.EndpointsAreNotExtrema | app/src/main/java/br/edu/ifsp/scl/sdm/covid19infosdm/MainActivity.kt:155-156 | the bounds are the endpoints, not the extrema: a falling count gives a minimum y above the maximum, and a peak in between lies outside them |
| Chart.ChartScenario | app/src/main/java/br/edu/ifsp/scl/sdm/covid19infosdm/MainActivity.kt:133-157 | the two March records give points (1 March, 5) and (2 March, 9) in that order; x runs from the first day to the second and y from 5 to 9 |
| Screen.MainActivity.constructor | app/src/main/java/br/edu/ifsp/scl/sdm/covid19infosdm/MainActivity.kt:57-61 | the country adapter and map start out empty; nothing has been queried or shown |
| Screen.MainActivity.SelectedCountryResolves | app/src/main/java/br/edu/ifsp/scl/sdm/covid19infosdm/MainActivity.kt:115 | while the tables are consistent, any entry of the country spinner is a key of the map, so the `!!` lookup of a selection succeeds |
| Screen.MainActivity.OnCountriesFetched | app/src/main/java/br/edu/ifsp/scl/sdm/covid19infosdm/MainActivity.kt:64-71 | the loop appends the sorted non-empty names to the adapter and binds them in the map; entries stay non-empty, the map's keys stay the entries, and from empty tables the adapter is sorted |
| Screen.MainActivity.ModoGrafico | app/src/main/java/br/edu/ifsp/scl/sdm/covid19infosdm/MainActivity.kt:179-188 | exactly one of text pane and graph is visible, the graph exactly when `ligado` |
| Screen.MainActivity.OnInfoItemSelected | app/src/main/java/br/edu/ifsp/scl/sdm/covid19infosdm/MainActivity.kt:84-95 | the view-mode controls are shown for "Por dia", hidden for "Por país", untouched otherwise |
| Screen.MainActivity.OnRetrieveClick | app/src/main/java/br/edu/ifsp/scl/sdm/covid19infosdm/MainActivity.kt:52-55 | the progress bar shows; "Por dia" sends a day-one query, anything else a by-country query and switches to text |
| Screen.MainActivity.FetchDayOne | app/src/main/java/br/edu/ifsp/scl/sdm/covid19infosdm/MainActivity.kt:114-117 | the query carries the selected country's slug and the selected status's key |
| Screen.MainActivity.FetchByCountry | app/src/main/java/br/edu/ifsp/scl/sdm/covid19infosdm/MainActivity.kt:166-170 | text mode is forced, then the query carries the slug and the status key |
| Screen.MainActivity.OnDayOneFetched | app/src/main/java/br/edu/ifsp/scl/sdm/covid19infosdm/MainActivity.kt:119-162 | text mode shows `Text` and raises the notice for an empty list. Graph mode replaces the series with the records' points and sets the bounds for a non-empty series; for an empty one it raises the notice and keeps the bounds. An unreadable date ends the activity |
| Screen.MainActivity.OnByCountryFetched | app/src/main/java/br/edu/ifsp/scl/sdm/covid19infosdm/MainActivity.kt:172-175 | the text pane shows `Text`, the notice is raised exactly for an empty list, an unreadable date ends the activity |

## Left out

- Android lifecycle and widgets are not modelled. The adapters, spinners, radio group, progress bar and toasts become the fields of `Screen.MainActivity`. A toast is counted, not rendered. `onNothingSelected` does nothing and is omitted.
- `informationAdapterInit` and `statusAdapterInit` are not modelled as operations. They list the enums' labels in declaration order, which `Labels.InformationAt` reflects for the info spinner.
- The view model and its LiveData are not modelled. Queries are recorded in `requests`, and each observer is a method that takes the already-fetched list. Network failures happen outside this code and are not modelled either.
- The response data classes are not part of this model. Records are modelled with an integer `cases`, a string `date`, and a nullable province and city.
- GraphView is reduced to its series and manual bounds. Rendering, `resetStyles`, `setHumanRounding`, the label formatter and the label counts are not modelled.
- `Double` conversions are not modelled. Counts and x coordinates are integers.
- Dates.ParseIsoPrefix: `SimpleDateFormat` is lenient and rolls over out-of-range fields, as in `2020-02-30`. It also accepts other digit counts and depends on the locale and time zone. The model reads only canonical `yyyy-MM-dd` calendar days of years 1583 to 9999. Any other prefix is a `NotIsoDate` failure. A prefix the lenient parser also rejects, such as `abcd-ef-gh` or `2020/03/01`, throws in the app as well; a prefix it accepts, such as `2020-02-30` or `2020-3-1T0`, ends the activity in the model but not in the app.
- Dates.DateKey: it stands for the instant in milliseconds that `Date.time` gives. It keeps the order of days but not their spacing, and it does not depend on the time zone.
- Countries.NameLe: it compares characters, whereas Kotlin's `compareTo` compares UTF-16 code units. The two orders differ only for characters outside the Basic Multilingual Plane.
- Screen.MainActivity.FetchDayOne: the `!!` lookup of the selected country is a precondition that the name is in the map. The `NullPointerException` it throws otherwise is not modelled. The same holds for Screen.MainActivity.FetchByCountry and Screen.MainActivity.OnRetrieveClick.
- Screen.MainActivity.OnDayOneFetched: GraphView's series constructor (line 139) throws when x values decrease; GraphView is not part of this model, so an answer whose days are out of order crashes the app but draws a series in the model. `Chart.ChronologicalSeries` shows that records in strictly chronological order give strictly increasing x. In text mode the buffer already holds a record's `Casos:` line when its date throws. That partial text is discarded with the exception, so it is not modelled.
- Screen.MainActivity.OnCountriesFetched: the sort is modelled as an insertion sort rather than Kotlin's library algorithm. Both are stable (`Countries.SortStable`), so entries with the same name come out in the same order.
