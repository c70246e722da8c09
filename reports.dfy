/** The Reports page: the search and month filters, the CSV export, the
    summary figures and the printable report's table. */
module Reports {
  import opened Wrappers
  import opened Sequences
  import opened Strings
  import opened Records

  // ---------------------------------------------------------------- filter

  /** The company name, or the industry when there is one, contains the
      search text, ignoring case. */
  predicate MatchesSearch(e: EmissionRecord, search: string): (b: bool)
    ensures search == "" ==> b
  {
    ContainsEmpty(ToLower(e.companyName));
    assert ToLower("") == "";
    || Contains(ToLower(e.companyName), ToLower(search))
    || (e.industryType.Some? && Contains(ToLower(e.industryType.value), ToLower(search)))
  }

  /** No month is chosen, or the record's date starts with the chosen one. */
  predicate MatchesDate(e: EmissionRecord, dateFilter: string): (b: bool)
    ensures dateFilter == "" ==> b
    ensures |dateFilter| > |e.recordDate| ==> !b
  {
    dateFilter == "" || StartsWith(e.recordDate, dateFilter)
  }

  predicate Matches(e: EmissionRecord, search: string, dateFilter: string)
  {
    MatchesSearch(e, search) && MatchesDate(e, dateFilter)
  }

  /** `filteredEmissions`: the loaded records that match both filters, in their order. */
  function FilterRecords(rs: seq<EmissionRecord>, search: string, dateFilter: string): (r: seq<EmissionRecord>)
    ensures forall e :: e in r <==> e in rs && Matches(e, search, dateFilter)
    ensures IsSubsequence(r, rs)
    ensures |r| <= |rs|
  {
    if rs == [] then []
    else
      var rest := FilterRecords(rs[1..], search, dateFilter);
      assert forall e :: e in rs <==> e == rs[0] || e in rs[1..];
      SubsequenceLength(rest, rs[1..]);
      if Matches(rs[0], search, dateFilter) then
        assert ([rs[0]] + rest)[1..] == rest;
        [rs[0]] + rest
      else rest
  }

  /** With an empty search and no month, every record is shown. */
  lemma {:induction false} EmptyFiltersKeepAll(rs: seq<EmissionRecord>)
    ensures FilterRecords(rs, "", "") == rs
  {
    if rs != [] {
      EmptyFiltersKeepAll(rs[1..]);
    }
  }

  /** Searches that differ only in letter case show the same records. */
  lemma {:induction false} SearchIgnoresCase(rs: seq<EmissionRecord>, s1: string, s2: string, dateFilter: string)
    requires ToLower(s1) == ToLower(s2)
    ensures FilterRecords(rs, s1, dateFilter) == FilterRecords(rs, s2, dateFilter)
  {
    if rs != [] {
      SearchIgnoresCase(rs[1..], s1, s2, dateFilter);
    }
  }

  /** With non-negative predictions, the filtered total never exceeds the total of all records. */
  lemma FilteredCo2AtMostTotal(rs: seq<EmissionRecord>, search: string, dateFilter: string)
    requires NonNegativePredictions(rs)
    ensures TotalCo2(FilterRecords(rs, search, dateFilter)) <= TotalCo2(rs)
  {
    TotalOfSubsequence(FilterRecords(rs, search, dateFilter), rs, Co2Amount);
  }

  // ------------------------------------------------------------ CSV export

  const CsvHeaders: seq<string> :=
    ["Date", "Company", "Industry", "Energy (kWh)", "Fuel (L)", "Predicted CO2 (tons)", "Source"]

  /** `e.industry_type || ''`. */
  function IndustryCell(industry: Option<string>): (cell: string)
    ensures industry.None? ==> cell == ""
    ensures industry.Some? ==> cell == industry.value
  {
    industry.GetOr("")
  }

  /** `e.predicted_co2 || ''`: a missing prediction and a prediction of 0 are both left blank. */
  function Co2Cell(co2: Option<real>, numberText: real -> string): (cell: string)
    ensures co2.None? || co2 == Some(0.0) ==> cell == ""
    ensures co2.Some? && co2.value != 0.0 ==> cell == numberText(co2.value)
  {
    if co2.Some? && co2.value != 0.0 then numberText(co2.value) else ""
  }

  /** One record's seven cells, in the header's order; `numberText` is the
      conversion JavaScript applies to a number inside `join`. */
  function CsvFields(e: EmissionRecord, numberText: real -> string): (fields: seq<string>)
    ensures |fields| == |CsvHeaders|
  {
    [e.recordDate, e.companyName, IndustryCell(e.industryType), numberText(e.energyConsumption),
     numberText(e.fuelUsage), Co2Cell(e.predictedCo2, numberText), e.dataSource]
  }

  function CsvRow(e: EmissionRecord, numberText: real -> string): string
  {
    Join(CsvFields(e, numberText), ",")
  }

  /** The header line, then one line per record in order. */
  function CsvLines(filtered: seq<EmissionRecord>, numberText: real -> string): (lines: seq<string>)
    ensures |lines| == |filtered| + 1
    ensures lines[0] == Join(CsvHeaders, ",")
    ensures forall k :: 0 <= k < |filtered| ==> lines[k + 1] == CsvRow(filtered[k], numberText)
  {
    var rows := seq(|filtered|, k requires 0 <= k < |filtered| => CsvRow(filtered[k], numberText));
    [Join(CsvHeaders, ",")] + rows
  }

  /** `generateCSV`'s content: the lines joined by newlines, nothing quoted or escaped. */
  function GenerateCsv(filtered: seq<EmissionRecord>, numberText: real -> string): (r: string)
    ensures StartsWith(r, Join(CsvHeaders, ","))
    ensures filtered == [] ==> r == Join(CsvHeaders, ",")
  {
    var lines := CsvLines(filtered, numberText);
    assert |lines| > 1 ==> Join(lines, "\n") == lines[0] + ("\n" + Join(lines[1..], "\n"));
    Join(lines, "\n")
  }

  /** No cell of the export contains `c`. */
  predicate CellsFree(filtered: seq<EmissionRecord>, numberText: real -> string, c: char)
  {
    forall k, j :: 0 <= k < |filtered| && 0 <= j < |CsvHeaders| ==> c !in CsvFields(filtered[k], numberText)[j]
  }

  /** When no cell holds a line break, the file reads back as the header line
      and exactly one line per record. */
  lemma CsvHasOneLinePerRecord(filtered: seq<EmissionRecord>, numberText: real -> string)
    requires CellsFree(filtered, numberText, '\n')
    ensures Split(GenerateCsv(filtered, numberText), '\n') == CsvLines(filtered, numberText)
    ensures |Split(GenerateCsv(filtered, numberText), '\n')| == |filtered| + 1
  {
    var lines := CsvLines(filtered, numberText);
    HeaderLineHasNoBreak();
    forall i | 1 <= i < |lines| ensures '\n' !in lines[i] {
      RowExcludes(filtered[i - 1], numberText, '\n');
    }
    SplitJoin(lines, '\n');
  }

  lemma HeaderLineHasNoBreak()
    ensures '\n' !in Join(CsvHeaders, ",")
  {
    JoinExcludes(CsvHeaders, ",", '\n');
  }

  /** A character that is in no cell of a record and is not the comma is not in its line. */
  lemma RowExcludes(e: EmissionRecord, numberText: real -> string, c: char)
    requires c != ','
    requires forall j :: 0 <= j < |CsvHeaders| ==> c !in CsvFields(e, numberText)[j]
    ensures c !in CsvRow(e, numberText)
  {
    JoinExcludes(CsvFields(e, numberText), ",", c);
  }

  /** When no cell holds a comma, each record's line splits back into its seven cells. */
  lemma CsvRowHasSevenCells(filtered: seq<EmissionRecord>, numberText: real -> string, k: nat)
    requires k < |filtered| && CellsFree(filtered, numberText, ',')
    ensures Split(CsvLines(filtered, numberText)[k + 1], ',') == CsvFields(filtered[k], numberText)
  {
    SplitJoin(CsvFields(filtered[k], numberText), ',');
  }

  /** Without escaping, a cell that holds a comma (a company called "Acme, Inc", say)
      does not read back as that record's cells. */
  lemma CommaInCellShiftsColumns(e: EmissionRecord, numberText: real -> string, j: nat)
    requires j < |CsvHeaders| && ',' in CsvFields(e, numberText)[j]
    ensures Split(CsvRow(e, numberText), ',') != CsvFields(e, numberText)
  {
    SplitPieces(CsvRow(e, numberText), ',');
  }

  // ----------------------------------------------------- summary and print

  datatype Summary = Summary(records: nat, companies: nat, totalCo2: real, totalEnergy: real, totalFuel: real)

  /** The figures the page's cards and the printable report show for the filtered records. */
  function Summarize(filtered: seq<EmissionRecord>): (s: Summary)
    ensures s.records == |filtered|
    ensures s.companies <= s.records
    ensures filtered != [] ==> s.companies >= 1
    ensures NonNegativePredictions(filtered) ==> s.totalCo2 >= 0.0
  {
    Summary(|filtered|, DistinctCompanies(filtered), TotalCo2(filtered), TotalEnergy(filtered), TotalFuel(filtered))
  }

  const PrintedRowLimit: nat := 50

  /** The rows of the printable table: the first 50 filtered records. */
  function PrintableRows(filtered: seq<EmissionRecord>): (rows: seq<EmissionRecord>)
    ensures |rows| == Min(PrintedRowLimit, |filtered|)
    ensures forall k :: 0 <= k < |rows| ==> rows[k] == filtered[k]
  {
    Take(filtered, PrintedRowLimit)
  }

  /** The printed table may be cut at 50 rows, but the "Records" figure counts them all. */
  lemma PrintedTableAndRecordCount(filtered: seq<EmissionRecord>)
    ensures Summarize(filtered).records == |filtered|
    ensures |PrintableRows(filtered)| <= Summarize(filtered).records
    ensures |filtered| > PrintedRowLimit ==> |PrintableRows(filtered)| < Summarize(filtered).records
  {
  }

  /** `e.predicted_co2?.toLocaleString() || 'N/A'`; `localeText` is the
      locale rendering, which never yields an empty string. */
  function PrintedCo2Cell(co2: Option<real>, localeText: real -> string): (cell: string)
    ensures co2.None? ==> cell == "N/A"
    ensures co2.Some? && localeText(co2.value) != "" ==> cell == localeText(co2.value)
  {
    if co2.Some? && localeText(co2.value) != "" then localeText(co2.value) else "N/A"
  }
}
