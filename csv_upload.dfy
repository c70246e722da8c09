/** The CSV upload form's parser (`parseCSV`) and its file-name check.

    The parser is deliberately simpler than RFC 4180: every comma separates
    cells, quote characters are deleted rather than interpreted, and a line
    break always ends a row. */
module CsvUpload {
  import opened Wrappers
  import opened Sequences
  import opened Strings

  /** A JavaScript number as `parseFloat` returns it. */
  datatype Number = Num(value: real) | NaN

  /** One accepted row. An optional number that is present may still be
      `NaN`: the source parses it without checking. */
  datatype ParsedRow = ParsedRow(
    companyName: string,
    industryType: Option<string>,
    energyConsumption: real,
    fuelUsage: real,
    productionVolume: Option<Number>,
    wasteGenerated: Option<Number>,
    waterUsage: Option<Number>,
    recordDate: string)

  /** What one data line contributes: a row, or the error naming its row number. */
  datatype LineOutcome = Row(row: ParsedRow) | Error(message: string)

  datatype ParseResult = ParseResult(data: seq<ParsedRow>, errors: seq<string>)

  const RequiredColumns: seq<string> := ["company_name", "energy_consumption", "fuel_usage"]

  // ------------------------------------------------------------- splitting

  /** `content.trim().split('\n')`. */
  function Lines(content: string): (lines: seq<string>)
    ensures |lines| >= 1
  {
    Split(Trim(content), '\n')
  }

  /** `.trim().replace(/['"]/g, '')` applied to one cell. */
  function CleanCell(s: string): (r: string)
    ensures forall j :: 0 <= j < |r| ==> !IsQuote(r[j])
  {
    RemoveQuotes(Trim(s))
  }

  /** Cleaning a cell only deletes characters. */
  lemma CleanCellChars(s: string)
    ensures forall j :: 0 <= j < |CleanCell(s)| ==> CleanCell(s)[j] in s
  {
    TrimChars(s);
  }

  /** The cleaned cells of a data line. */
  function CellsOf(line: string): (cells: seq<string>)
    ensures |cells| == |Split(line, ',')| >= 1
  {
    var raw := Split(line, ',');
    seq(|raw|, k requires 0 <= k < |raw| => CleanCell(raw[k]))
  }

  /** The header names: the first line lower-cased, then split and cleaned like a data line. */
  function HeaderNames(firstLine: string): (headers: seq<string>)
    ensures |headers| >= 1
  {
    CellsOf(ToLower(firstLine))
  }

  /** No header name holds an upper-case letter or a quote character. */
  lemma HeaderNamesNormalised(firstLine: string)
    ensures forall k, j :: 0 <= k < |HeaderNames(firstLine)| && 0 <= j < |HeaderNames(firstLine)[k]| ==>
      !IsUpper(HeaderNames(firstLine)[k][j]) && !IsQuote(HeaderNames(firstLine)[k][j])
  {
    var lower := ToLower(firstLine);
    var raw := Split(lower, ',');
    var headers := HeaderNames(firstLine);
    SplitPieces(lower, ',');
    forall k, j | 0 <= k < |headers| && 0 <= j < |headers[k]|
      ensures !IsUpper(headers[k][j]) && !IsQuote(headers[k][j])
    {
      var c := headers[k][j];
      assert headers[k] == CleanCell(raw[k]);
      CleanCellChars(raw[k]);
      assert c in raw[k];
      var i :| 0 <= i < |raw[k]| && raw[k][i] == c;
      assert c in lower;
    }
  }

  // ------------------------------------------------------- required columns

  /** `required.filter(col => !headers.includes(col))`. */
  function MissingFrom(required: seq<string>, headers: seq<string>): (missing: seq<string>)
    ensures forall c :: c in missing <==> c in required && c !in headers
    ensures IsSubsequence(missing, required)
  {
    if required == [] then []
    else
      var rest := MissingFrom(required[1..], headers);
      assert forall c :: c in required <==> c == required[0] || c in required[1..];
      if required[0] in headers then rest
      else
        assert ([required[0]] + rest)[1..] == rest;
        [required[0]] + rest
  }

  /** The required columns the header lacks, in the order company name, energy, fuel. */
  function MissingColumns(headers: seq<string>): (missing: seq<string>)
    ensures forall c :: c in missing <==> c in RequiredColumns && c !in headers
    ensures IsSubsequence(missing, RequiredColumns)
  {
    MissingFrom(RequiredColumns, headers)
  }

  function MissingColumnsMessage(missing: seq<string>): string
  {
    "Missing required columns: " + Join(missing, ", ")
  }

  /** A header that has every required column has at least three columns. */
  lemma RequiredColumnsNeedThreeHeaders(headers: seq<string>)
    requires MissingColumns(headers) == []
    ensures |headers| >= 3
  {
    assert "company_name" in headers && "energy_consumption" in headers && "fuel_usage" in headers;
  }

  // ------------------------------------------------------------- one row

  /** The record `row` that `headers.forEach((h, i) => row[h] = values[i])` builds. */
  function BuildRow(headers: seq<string>, values: seq<string>): (row: map<string, string>)
    requires |headers| <= |values|
    ensures forall h :: h in row <==> h in headers
  {
    if headers == [] then map[]
    else
      var init := headers[..|headers| - 1];
      assert forall h :: h in headers <==> h in init || h == headers[|headers| - 1];
      BuildRow(init, values)[headers[|headers| - 1] := values[|headers| - 1]]
  }

  /** A repeated header takes the value of its last column. */
  lemma {:induction false} BuildRowLastColumnWins(headers: seq<string>, values: seq<string>, j: nat)
    requires j < |headers| <= |values|
    requires forall m :: j < m < |headers| ==> headers[m] != headers[j]
    ensures BuildRow(headers, values)[headers[j]] == values[j]
  {
    if j < |headers| - 1 {
      BuildRowLastColumnWins(headers[..|headers| - 1], values, j);
    }
  }

  /** Cells beyond the header's width are ignored. */
  lemma {:induction false} BuildRowIgnoresExtraCells(headers: seq<string>, values: seq<string>)
    requires |headers| <= |values|
    ensures BuildRow(headers, values) == BuildRow(headers, values[..|headers|])
  {
    if headers != [] {
      BuildRowIgnoresExtraCells(headers[..|headers| - 1], values);
      BuildRowIgnoresExtraCells(headers[..|headers| - 1], values[..|headers|]);
      assert values[..|headers|][..|headers| - 1] == values[..|headers| - 1];
    }
  }

  /** `row[key]`: an absent key reads as `undefined`, which every use in the
      parser treats exactly like the empty string. */
  function Field(row: map<string, string>, key: string): string
  {
    if key in row then row[key] else ""
  }

  /** `cell ? parseFloat(cell) : undefined`. */
  function OptionalNumber(cell: string, parseFloat: string -> Number): Option<Number>
  {
    if cell == "" then None else Some(parseFloat(cell))
  }

  /** `cell || undefined`. */
  function OptionalText(cell: string): Option<string>
  {
    if cell == "" then None else Some(cell)
  }

  function RowError(rowNumber: nat, problem: string): string
  {
    "Row " + NatToString(rowNumber) + ": " + problem
  }

  /** The parsed row built from a row record whose required cells are present and numeric. */
  function RowFrom(row: map<string, string>, energy: real, fuel: real, parseFloat: string -> Number, today: string): ParsedRow
  {
    ParsedRow(
      Field(row, "company_name"),
      OptionalText(Field(row, "industry_type")),
      energy,
      fuel,
      OptionalNumber(Field(row, "production_volume"), parseFloat),
      OptionalNumber(Field(row, "waste_generated"), parseFloat),
      OptionalNumber(Field(row, "water_usage"), parseFloat),
      if Field(row, "record_date") == "" then today else Field(row, "record_date"))
  }

  /** The checks on a complete row record: required cells present, then
      energy and fuel numeric. */
  function ClassifyRecord(row: map<string, string>, rowNumber: nat, parseFloat: string -> Number, today: string): (o: LineOutcome)
    ensures o.Row? ==> o.row.companyName == Field(row, "company_name") != ""
    ensures o.Error? ==> o.message in {RowError(rowNumber, "Missing required values"), RowError(rowNumber, "Invalid numeric values")}
  {
    if Field(row, "company_name") == "" || Field(row, "energy_consumption") == "" || Field(row, "fuel_usage") == "" then
      Error(RowError(rowNumber, "Missing required values"))
    else
      var energy := parseFloat(Field(row, "energy_consumption"));
      var fuel := parseFloat(Field(row, "fuel_usage"));
      if energy.NaN? || fuel.NaN? then Error(RowError(rowNumber, "Invalid numeric values"))
      else Row(RowFrom(row, energy.value, fuel.value, parseFloat, today))
  }

  /** The body of the parser's loop for the data line numbered `rowNumber`
      (the header is row 1). */
  function ClassifyLine(headers: seq<string>, line: string, rowNumber: nat,
                        parseFloat: string -> Number, today: string): (o: LineOutcome)
    ensures o.Row? ==> |CellsOf(line)| >= |headers| && o.row.companyName != ""
  {
    var values := CellsOf(line);
    if |values| < |headers| then Error(RowError(rowNumber, "Incomplete data"))
    else ClassifyRecord(BuildRow(headers, values), rowNumber, parseFloat, today)
  }

  // ------------------------------------------------------ the whole parse

  /** The outcome of every data line, in order. */
  function Outcomes(lines: seq<string>, headers: seq<string>, parseFloat: string -> Number, today: string): (os: seq<LineOutcome>)
    requires |lines| >= 1
    ensures |os| == |lines| - 1
    ensures forall k :: 0 <= k < |os| ==> os[k] == ClassifyLine(headers, lines[k + 1], k + 2, parseFloat, today)
  {
    seq(|lines| - 1, k requires 0 <= k < |lines| - 1 => ClassifyLine(headers, lines[k + 1], k + 2, parseFloat, today))
  }

  /** The rows among the outcomes, in order. */
  function RowsOf(os: seq<LineOutcome>): seq<ParsedRow>
  {
    if os == [] then []
    else RowsOf(os[..|os| - 1]) + (if os[|os| - 1].Row? then [os[|os| - 1].row] else [])
  }

  /** The error messages among the outcomes, in order. */
  function ErrorsOf(os: seq<LineOutcome>): seq<string>
  {
    if os == [] then []
    else ErrorsOf(os[..|os| - 1]) + (if os[|os| - 1].Error? then [os[|os| - 1].message] else [])
  }

  /** What `parseCSV` returns. */
  function ParseResultOf(content: string, parseFloat: string -> Number, today: string): (r: ParseResult)
    ensures MissingColumns(HeaderNames(Lines(content)[0])) != [] ==> r.data == [] && |r.errors| == 1
    ensures MissingColumns(HeaderNames(Lines(content)[0])) == [] ==> |r.data| + |r.errors| == |Lines(content)| - 1
  {
    var lines := Lines(content);
    var headers := HeaderNames(lines[0]);
    var missing := MissingColumns(headers);
    if missing != [] then ParseResult([], [MissingColumnsMessage(missing)])
    else
      var os := Outcomes(lines, headers, parseFloat, today);
      RowsErrorsPartition(os);
      ParseResult(RowsOf(os), ErrorsOf(os))
  }

  /** `parseCSV`. */
  method ParseCsv(content: string, parseFloat: string -> Number, today: string)
    returns (data: seq<ParsedRow>, errors: seq<string>)
    ensures ParseResult(data, errors) == ParseResultOf(content, parseFloat, today)
    ensures MissingColumns(HeaderNames(Lines(content)[0])) == [] ==> |data| + |errors| == |Lines(content)| - 1
  {
    var lines := Lines(content);
    var headers := HeaderNames(lines[0]);
    var missing := MissingColumns(headers);
    if |missing| > 0 {
      return [], [MissingColumnsMessage(missing)];
    }
    data, errors := ParseLines(lines, headers, parseFloat, today);
  }

  /** The parser's loop over the data lines `lines[1..]`: each line's row goes
      to `data` and each line's error to `errors`, in line order. */
  method ParseLines(lines: seq<string>, headers: seq<string>, parseFloat: string -> Number, today: string)
    returns (data: seq<ParsedRow>, errors: seq<string>)
    requires |lines| >= 1
    ensures data == RowsOf(Outcomes(lines, headers, parseFloat, today))
    ensures errors == ErrorsOf(Outcomes(lines, headers, parseFloat, today))
    ensures |data| + |errors| == |lines| - 1
  {
    ghost var os := Outcomes(lines, headers, parseFloat, today);
    data, errors := [], [];
    for i := 1 to |lines|
      invariant data == RowsOf(os[..i - 1])
      invariant errors == ErrorsOf(os[..i - 1])
    {
      var outcome := ParseLine(headers, lines[i], i + 1, parseFloat, today);
      assert os[i - 1] == outcome;
      OutcomesPrefix(os, i);
      match outcome {
        case Row(r) => data := data + [r];
        case Error(message) => errors := errors + [message];
      }
    }
    assert os[..|lines| - 1] == os;
    RowsErrorsPartition(os);
  }

  /** The body of the parser's loop for one data line: the cell count, then
      the required values, then the two numbers. */
  method ParseLine(headers: seq<string>, line: string, rowNumber: nat, parseFloat: string -> Number, today: string)
    returns (outcome: LineOutcome)
    ensures outcome == ClassifyLine(headers, line, rowNumber, parseFloat, today)
  {
    var values := CellsOf(line);
    if |values| < |headers| {
      return Error(RowError(rowNumber, "Incomplete data"));
    }
    var row := FillRow(headers, values);
    if Field(row, "company_name") == "" || Field(row, "energy_consumption") == "" || Field(row, "fuel_usage") == "" {
      return Error(RowError(rowNumber, "Missing required values"));
    }
    var energy := parseFloat(Field(row, "energy_consumption"));
    var fuel := parseFloat(Field(row, "fuel_usage"));
    if energy.NaN? || fuel.NaN? {
      return Error(RowError(rowNumber, "Invalid numeric values"));
    }
    return Row(RowFrom(row, energy.value, fuel.value, parseFloat, today));
  }

  /** `headers.forEach((header, index) => { row[header] = values[index]; })`. */
  method FillRow(headers: seq<string>, values: seq<string>) returns (row: map<string, string>)
    requires |headers| <= |values|
    ensures row == BuildRow(headers, values)
  {
    row := map[];
    for j := 0 to |headers|
      invariant row == BuildRow(headers[..j], values)
    {
      assert headers[..j + 1][..j] == headers[..j];
      row := row[headers[j] := values[j]];
    }
    assert headers[..|headers|] == headers;
  }

  /** Taking one more outcome adds at most its row or its error at the end. */
  lemma OutcomesPrefix(os: seq<LineOutcome>, i: nat)
    requires 0 < i <= |os|
    ensures RowsOf(os[..i]) == RowsOf(os[..i - 1]) + (if os[i - 1].Row? then [os[i - 1].row] else [])
    ensures ErrorsOf(os[..i]) == ErrorsOf(os[..i - 1]) + (if os[i - 1].Error? then [os[i - 1].message] else [])
  {
    assert os[..i][..i - 1] == os[..i - 1];
  }

  /** Every data line yields exactly one row or one error. */
  lemma {:induction false} RowsErrorsPartition(os: seq<LineOutcome>)
    ensures |RowsOf(os)| + |ErrorsOf(os)| == |os|
  {
    if os != [] {
      RowsErrorsPartition(os[..|os| - 1]);
    }
  }

  /** Rows and errors keep the order of the lines: the outcomes of a longer
      file extend those of its first part. */
  lemma {:induction false} OutcomesConcat(a: seq<LineOutcome>, b: seq<LineOutcome>)
    ensures RowsOf(a + b) == RowsOf(a) + RowsOf(b)
    ensures ErrorsOf(a + b) == ErrorsOf(a) + ErrorsOf(b)
    decreases |b|
  {
    if b == [] {
      assert a + b == a;
    } else {
      assert (a + b)[..|a + b| - 1] == a + b[..|b| - 1];
      OutcomesConcat(a, b[..|b| - 1]);
    }
  }

  /** Every parsed row is the row of some data line. */
  lemma {:induction false} RowsComeFromLines(os: seq<LineOutcome>, r: ParsedRow)
    requires r in RowsOf(os)
    ensures exists k :: 0 <= k < |os| && os[k] == Row(r)
  {
    var init := os[..|os| - 1];
    if r in RowsOf(init) {
      RowsComeFromLines(init, r);
      var k :| 0 <= k < |init| && init[k] == Row(r);
      assert os[k] == Row(r);
    } else {
      assert os[|os| - 1] == Row(r);
    }
  }

  /** A header without every required column yields no data and exactly one error. */
  lemma MissingColumnsStopParsing(content: string, parseFloat: string -> Number, today: string)
    requires MissingColumns(HeaderNames(Lines(content)[0])) != []
    ensures var result := ParseResultOf(content, parseFloat, today);
      && result.data == []
      && result.errors == [MissingColumnsMessage(MissingColumns(HeaderNames(Lines(content)[0])))]
  {
  }

  /** A line with fewer cells than there are headers is an "Incomplete data" error,
      and only such a line is. */
  lemma IncompleteLine(headers: seq<string>, line: string, rowNumber: nat, parseFloat: string -> Number, today: string)
    ensures ClassifyLine(headers, line, rowNumber, parseFloat, today) == Error(RowError(rowNumber, "Incomplete data"))
        <==> |CellsOf(line)| < |headers|
  {
    var values := CellsOf(line);
    if |values| >= |headers| {
      RecordIsNeverIncomplete(BuildRow(headers, values), rowNumber, parseFloat, today);
    }
  }

  /** The checks on a complete record never report it as incomplete. */
  lemma RecordIsNeverIncomplete(row: map<string, string>, rowNumber: nat, parseFloat: string -> Number, today: string)
    ensures ClassifyRecord(row, rowNumber, parseFloat, today) != Error(RowError(rowNumber, "Incomplete data"))
  {
    RowErrorLastChar(rowNumber, "Incomplete data");
    RowErrorLastChar(rowNumber, "Missing required values");
    RowErrorLastChar(rowNumber, "Invalid numeric values");
  }

  lemma RowErrorLastChar(rowNumber: nat, problem: string)
    requires problem != ""
    ensures var m := RowError(rowNumber, problem); m[|m| - 1] == problem[|problem| - 1]
  {
  }

  /** A blank line between data lines is an "Incomplete data" error. */
  lemma BlankLineIsIncomplete(headers: seq<string>, rowNumber: nat, parseFloat: string -> Number, today: string)
    requires MissingColumns(headers) == []
    ensures ClassifyLine(headers, "", rowNumber, parseFloat, today) == Error(RowError(rowNumber, "Incomplete data"))
  {
    RequiredColumnsNeedThreeHeaders(headers);
    assert |CellsOf("")| == 1;
  }

  /** An empty company, energy or fuel cell is reported before any number is parsed:
      the outcome is the same whatever `parseFloat` does. */
  lemma MissingValuesBeforeParsing(row: map<string, string>, rowNumber: nat,
                                   pf1: string -> Number, pf2: string -> Number, today: string)
    requires Field(row, "company_name") == "" || Field(row, "energy_consumption") == "" || Field(row, "fuel_usage") == ""
    ensures ClassifyRecord(row, rowNumber, pf1, today) == Error(RowError(rowNumber, "Missing required values"))
    ensures ClassifyRecord(row, rowNumber, pf1, today) == ClassifyRecord(row, rowNumber, pf2, today)
  {
  }

  /** Present energy and fuel cells of which one is not a number give "Invalid numeric values". */
  lemma NonNumericIsInvalid(row: map<string, string>, rowNumber: nat, parseFloat: string -> Number, today: string)
    requires Field(row, "company_name") != "" && Field(row, "energy_consumption") != "" && Field(row, "fuel_usage") != ""
    requires parseFloat(Field(row, "energy_consumption")).NaN? || parseFloat(Field(row, "fuel_usage")).NaN?
    ensures ClassifyRecord(row, rowNumber, parseFloat, today) == Error(RowError(rowNumber, "Invalid numeric values"))
  {
  }

  /** Cells beyond the header's width do not change a line's outcome. */
  lemma ExtraCellsIgnored(headers: seq<string>, l1: string, l2: string, rowNumber: nat,
                          parseFloat: string -> Number, today: string)
    requires |CellsOf(l1)| >= |headers| && |CellsOf(l2)| >= |headers|
    requires CellsOf(l1)[..|headers|] == CellsOf(l2)[..|headers|]
    ensures ClassifyLine(headers, l1, rowNumber, parseFloat, today) == ClassifyLine(headers, l2, rowNumber, parseFloat, today)
  {
    BuildRowIgnoresExtraCells(headers, CellsOf(l1));
    BuildRowIgnoresExtraCells(headers, CellsOf(l2));
  }

  /** What an accepted row holds: a non-empty company name, the parsed energy and
      fuel, an industry only when its cell is non-empty, optional numbers only for
      non-empty cells, and the cell's date or else today's. */
  lemma AcceptedRowContents(row: map<string, string>, rowNumber: nat,
                            parseFloat: string -> Number, today: string, r: ParsedRow)
    requires ClassifyRecord(row, rowNumber, parseFloat, today) == Row(r)
    ensures r.companyName == Field(row, "company_name") && r.companyName != ""
    ensures parseFloat(Field(row, "energy_consumption")) == Num(r.energyConsumption)
    ensures parseFloat(Field(row, "fuel_usage")) == Num(r.fuelUsage)
    ensures r.industryType.None? <==> Field(row, "industry_type") == ""
    ensures r.industryType.Some? ==> r.industryType.value == Field(row, "industry_type")
    ensures r.productionVolume.None? <==> Field(row, "production_volume") == ""
    ensures r.wasteGenerated.None? <==> Field(row, "waste_generated") == ""
    ensures r.waterUsage.None? <==> Field(row, "water_usage") == ""
    ensures r.recordDate == if Field(row, "record_date") == "" then today else Field(row, "record_date")
  {
  }

  /** `handleFileSelect`: a name not ending in ".csv" is refused before the
      content is read; otherwise the content is parsed. */
  method SelectFile(fileName: string, content: string, parseFloat: string -> Number, today: string)
    returns (accepted: bool, data: seq<ParsedRow>, errors: seq<string>)
    ensures accepted <==> EndsWith(fileName, ".csv")
    ensures !accepted ==> data == [] && errors == []
    ensures accepted ==> ParseResult(data, errors) == ParseResultOf(content, parseFloat, today)
  {
    if !EndsWith(fileName, ".csv") {
      return false, [], [];
    }
    data, errors := ParseCsv(content, parseFloat, today);
    accepted := true;
  }
}
