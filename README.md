# Emission tracking: a Dafny model of its core

The Emission Tracking System records a company's monthly energy use, fuel use
and waste, and estimates its CO2 emissions. This project models five parts of
that system and proves properties about them:

- **The `predict-emissions` edge function.** It answers pre-flight requests
  and validates the two required amounts. It checks for the gateway
  credential, then calls an AI gateway. It maps gateway failures to HTTP
  statuses and strips Markdown code fences from the answer. When the answer
  does not parse, it falls back to an emission-factor estimate rounded to
  hundredths. This is `PredictEmissions.Handle`, a pure function of the
  request and of the gateway's outcome.
- **The upload form's CSV parser (`parseCSV`) and its `.csv` file-name
  check.** `CsvUpload.ParseCsv` keeps the source's loop over data lines and
  its inner loop over header cells. It is proved equal to the
  specification function `CsvUpload.ParseResultOf`, and the lemmas beside
  it state what that function does with each kind of line.
- **The Reports page.** This covers the search and month filter, the CSV
  export, the printable report's totals, the company count and its 50-row
  table cap (module `Reports`). The record type and the totals it shares
  with the Dashboard live in `Records`.
- **The Dashboard page.** This covers the statistics, the 12-point chart
  series, the 6-bar series and the 10 most recent records (module
  `Dashboard`).
- **The `StatCard` component.** This covers the trend icon and colour, the
  absolute percentage, the subtitle fallback and the variant styles (module
  `StatCard`).

`Wrappers`, `Sequences` and `Strings` hold the general definitions the
modules share: `Option`/`Result`, prefixes, suffixes, reversal,
subsequences, ASCII lower-casing, trimming, `split`/`join`, and decimal
numerals.

Several outside operations become parameters or values:

- The environment, the body reader (`req.json()`) and the gateway call are
  parameters of `Handle`. The body is a `Result`, the credential an
  `Option<string>` and the gateway outcome an `Upstream` value.
- `JSON.parse`, `parseFloat`, number-to-text conversion and
  `toLocaleString` are function-typed parameters.
- Today's date is a string parameter.

Amounts are `real`. `Math.round` is `floor(x + 0.5)`.

## Model

| member | source | states |
|---|---|---|
| PredictEmissions.Handle | supabase/functions/predict-emissions/index.ts:17-157 | The status is always 200, 400, 402, 429 or 500. The response has no body exactly for `OPTIONS`, and JSON headers exactly otherwise. A 200 with a parsed or fallback body only follows a successful gateway reply whose content is truthy. The body is the fallback exactly when that content is not a string or its cleaned text does not parse. |
| PredictEmissions.OptionsIsAnsweredFirst | supabase/functions/predict-emissions/index.ts:18-20 | A pre-flight request gets the CORS headers and no body, whatever the body, credential or gateway would be. |
| PredictEmissions.UnreadableBody | supabase/functions/predict-emissions/index.ts:22-23 | A body that cannot be read as JSON gives a 500 carrying the exception's message. |
| PredictEmissions.MissingInputsRejected | supabase/functions/predict-emissions/index.ts:28-33 | A missing or zero energy or fuel amount gives a 400 with the "required" message. This holds even when the credential is missing. |
| PredictEmissions.NegativeAmountsPassValidation | supabase/functions/predict-emissions/index.ts:28-38 | Negative amounts are not rejected by the 400 check. Without a credential they reach the configuration error. |
| PredictEmissions.MissingKeyIsConfigurationError | supabase/functions/predict-emissions/index.ts:35-38 | After validation, a missing or empty credential gives a 500 with "LOVABLE_API_KEY is not configured". |
| PredictEmissions.NoGatewayCallBeforeValidation | supabase/functions/predict-emissions/index.ts:18-38 | On the pre-flight, unreadable-body, missing-input and missing-credential paths, the response does not depend on the gateway or the parser. None of these paths is a 200 except the pre-flight. |
| PredictEmissions.GatewayFailuresSurface | supabase/functions/predict-emissions/index.ts:88-104 | A non-2xx gateway status maps to a response: 429 and 402 keep their status and message, and any other status is a 500 "AI gateway error: <status>". None of them reaches the fallback. |
| PredictEmissions.GatewayErrorMessagesDistinct | supabase/functions/predict-emissions/index.ts:103 | Two different gateway statuses give two different error messages. |
| PredictEmissions.GatewayExceptionSurfaces | supabase/functions/predict-emissions/index.ts:148-155 | An exception raised by the gateway call is a 500 carrying its message. |
| PredictEmissions.MissingContentIsError | supabase/functions/predict-emissions/index.ts:106-113 | A successful reply whose content is missing or falsy (`null`, `false`, `0` or the empty string) gives a 500 "No content in AI response". |
| PredictEmissions.ParsedAnswerReturnedVerbatim | supabase/functions/predict-emissions/index.ts:116-120 | Whatever the cleaned content parses to is returned with 200, unchecked. |
| PredictEmissions.UnparsableAnswerFallsBack | supabase/functions/predict-emissions/index.ts:121-138 | Content that does not parse gives a 200 carrying the fallback estimate for the request's energy, fuel and waste. |
| PredictEmissions.NonStringContentFallsBack | supabase/functions/predict-emissions/index.ts:117-139 | Truthy content that is not a string (a number, `true`, an array or an object) cannot be cleaned. The model gives it the same 200 fallback estimate as unparsable text. |
| PredictEmissions.StripFences | supabase/functions/predict-emissions/index.ts:119 | Removing the fence markers never lengthens the text. Text without backticks is unchanged (`StripFencesNoBacktick`), and a trailing newline-and-fence is removed (`StripClosingFence`). |
| PredictEmissions.Clean | supabase/functions/predict-emissions/index.ts:119 | The cleaned content is no longer than the content and neither starts nor ends with white space. |
| PredictEmissions.FallbackEmission | supabase/functions/predict-emissions/index.ts:125-128 | The unrounded estimate is non-negative for non-negative inputs. Absent waste counts as zero waste. |
| PredictEmissions.FencedPayloadCleansLikeBare | supabase/functions/predict-emissions/index.ts:119 | A payload without backticks, wrapped in a ```json fence, cleans to the same text as the bare payload. |
| PredictEmissions.FencedAnswerHandledLikeBare | supabase/functions/predict-emissions/index.ts:119-120 | A fenced answer and the bare answer give the same response. |
| PredictEmissions.ContextFieldsDoNotAffectResponse | supabase/functions/predict-emissions/index.ts:24-67 | For the same gateway outcome, two requests that agree on energy, fuel and waste get the same response, whatever their production volume, water usage and industry type. |
| PredictEmissions.RoundHundredths | supabase/functions/predict-emissions/index.ts:131 | The result is a whole number of hundredths within (x - 0.005, x + 0.005], and it is non-negative for non-negative x. |
| PredictEmissions.RoundHundredthsUnique | supabase/functions/predict-emissions/index.ts:131 | The rounding is the only multiple of 0.01 in that interval, so it rounds halves upwards. |
| PredictEmissions.FallbackPrediction | supabase/functions/predict-emissions/index.ts:124-138 | Confidence is "Medium" and the three fixed suggestions are given. The estimate is energy x 0.0005 + fuel x 0.00268 + waste (0 when absent) x 0.0005, rounded to hundredths. It is non-negative for non-negative inputs. |
| PredictEmissions.FallbackExample | supabase/functions/predict-emissions/index.ts:125-131 | 15000 kWh and 5000 L with no waste give 20.9 t. |
| CsvUpload.ParseCsv | src/components/forms/CSVUpload.tsx:32-87 | The returned data and errors equal `ParseResultOf` of the content: one "Missing required columns" error when a column is missing, otherwise the rows and errors of the data lines. When no column is missing, every data line yields exactly one row or one error. |
| CsvUpload.ParseLines | src/components/forms/CSVUpload.tsx:47-86 | The loop over lines 1.. collects, in line order, the rows and the errors of the data lines' outcomes, and the two counts add up to the number of data lines. |
| CsvUpload.ParseLine | src/components/forms/CSVUpload.tsx:48-83 | One pass of the loop body gives the outcome `ClassifyLine` specifies for that line: an incomplete, missing-value or invalid-number error with the line's row number, or the accepted row. |
| CsvUpload.FillRow | src/components/forms/CSVUpload.tsx:55-58 | The `forEach` over the headers builds the row record `BuildRow(headers, values)`. |
| CsvUpload.Lines | src/components/forms/CSVUpload.tsx:33 | The content always yields at least one line, so the header line exists even for empty content. |
| CsvUpload.CleanCell | src/components/forms/CSVUpload.tsx:48 | A cleaned cell (trimmed, quotes removed, as for the header cells at line 34) holds no quote character. Its characters all come from the raw cell (`CleanCellChars`). |
| CsvUpload.CellsOf | src/components/forms/CSVUpload.tsx:48 | A line has at least one cell, one per comma-separated piece. Each cell is cleaned by `CleanCell`, so it holds no quote character. |
| CsvUpload.HeaderNames | src/components/forms/CSVUpload.tsx:34 | There is always at least one header name. Header names hold no upper-case letter and no quote (`HeaderNamesNormalised`). |
| CsvUpload.BuildRow | src/components/forms/CSVUpload.tsx:55-58 | The row record's keys are exactly the header names. |
| CsvUpload.ClassifyRecord | src/components/forms/CSVUpload.tsx:60-83 | An accepted row has a non-empty company name taken from the company cell. A rejected record carries one of the two messages, "Missing required values" or "Invalid numeric values", with its row number. |
| CsvUpload.ClassifyLine | src/components/forms/CSVUpload.tsx:48-83 | A line is accepted only when it has at least as many cells as there are headers, and then its company name is non-empty. Which lines are rejected as incomplete is stated by `IncompleteLine`. |
| CsvUpload.ParseResultOf | src/components/forms/CSVUpload.tsx:32-86 | With a missing column the result is no data and one error. Otherwise each data line gives exactly one row or one error. |
| CsvUpload.HeaderNamesNormalised | src/components/forms/CSVUpload.tsx:34 | Header names contain no upper-case letter and no quote character. |
| CsvUpload.MissingColumns | src/components/forms/CSVUpload.tsx:40-41 | A required column is reported missing exactly when no header equals it, in the order of the required list. |
| CsvUpload.RequiredColumnsNeedThreeHeaders | src/components/forms/CSVUpload.tsx:40-45 | A header line that has every required column has at least three cells. |
| CsvUpload.MissingColumnsStopParsing | src/components/forms/CSVUpload.tsx:43-45 | With a missing column, the result is no data and exactly one error. That error is `MissingColumnsMessage`: "Missing required columns: " followed by the missing names joined by ", " (line 44). |
| CsvUpload.IncompleteLine | src/components/forms/CSVUpload.tsx:48-53 | A line is an "Incomplete data" error exactly when it has fewer cells than there are headers. |
| CsvUpload.BlankLineIsIncomplete | src/components/forms/CSVUpload.tsx:47-53 | Once the required columns are present, an empty line is reported as incomplete. |
| CsvUpload.BuildRowLastColumnWins | src/components/forms/CSVUpload.tsx:55-58 | Under a repeated header, the row takes the value of that header's last column. |
| CsvUpload.BuildRowIgnoresExtraCells | src/components/forms/CSVUpload.tsx:55-58 | Cells past the last header do not affect the row record. |
| CsvUpload.ExtraCellsIgnored | src/components/forms/CSVUpload.tsx:48-58 | Two lines whose first header-count cells agree are classified alike. |
| CsvUpload.MissingValuesBeforeParsing | src/components/forms/CSVUpload.tsx:60-64 | An empty company, energy or fuel value is a "Missing required values" error, decided before any number is parsed. |
| CsvUpload.NonNumericIsInvalid | src/components/forms/CSVUpload.tsx:66-72 | With the three values present, an energy or fuel value that parses to NaN is an "Invalid numeric values" error. |
| CsvUpload.AcceptedRowContents | src/components/forms/CSVUpload.tsx:74-83 | An accepted row is built by `RowFrom` and has a non-empty company and the parsed energy and fuel. An optional field is absent exactly when its cell is empty. The date is today when its cell is empty. |
| CsvUpload.RowsErrorsPartition | src/components/forms/CSVUpload.tsx:47-84 | Each line outcome contributes to exactly one of data and errors. |
| CsvUpload.OutcomesConcat | src/components/forms/CSVUpload.tsx:47-84 | Data and errors of consecutive line blocks concatenate in line order. |
| CsvUpload.RowsComeFromLines | src/components/forms/CSVUpload.tsx:74-83 | Every accepted row is the outcome of some data line. |
| CsvUpload.SelectFile | src/components/forms/CSVUpload.tsx:89-103 | A file is parsed exactly when its name ends in ".csv", and then its result is `parseCSV`'s result. A rejected file yields nothing. |
| Records.TotalAppend | src/pages/Dashboard.tsx:46-48 | `Total`, the left-to-right `reduce` from 0 used for every total here and at Reports.tsx lines 104-112, splits over concatenation: a sum over two concatenated lists is the sum of the two sums. |
| Records.TotalNonNegative | src/pages/Dashboard.tsx:46-48 | A sum of non-negative amounts is non-negative. |
| Records.TotalOfSubsequence | src/pages/Reports.tsx:104-112 | The sum over a subsequence is at most the sum over the whole, for non-negative amounts. |
| Records.TotalCo2 | src/pages/Dashboard.tsx:46 | The CO2 total of no records is 0. It is non-negative when every present prediction is. |
| Records.TotalEnergy | src/pages/Dashboard.tsx:47 | The energy total of no records is 0. It is non-negative when every amount is. |
| Records.TotalFuel | src/pages/Dashboard.tsx:48 | The fuel total of no records is 0. It is non-negative when every amount is. |
| Records.TotalCo2IgnoresUnpredicted | src/pages/Dashboard.tsx:46 | Records without a prediction add nothing to the CO2 total. |
| Records.CompanyNames | src/pages/Dashboard.tsx:50 | A name is in the set exactly when some record carries it. |
| Records.CompanyNamesBound | src/pages/Reports.tsx:295 | There are no more distinct companies than records, and at least one when there are records. |
| Records.DistinctCompanies | src/pages/Dashboard.tsx:50 | The company count is at most the record count, and positive for a non-empty list. |
| Reports.MatchesSearch | src/pages/Reports.tsx:60-62 | An empty search matches every record. |
| Reports.MatchesDate | src/pages/Reports.tsx:63 | No month filter matches every record. A filter longer than the record's date matches nothing. |
| Reports.FilterRecords | src/pages/Reports.tsx:59-65 | A record is kept exactly when it matches both filters. The kept records keep their order, and the count never grows. |
| Reports.EmptyFiltersKeepAll | src/pages/Reports.tsx:59-65 | With an empty search and no month, the filter returns every record. |
| Reports.SearchIgnoresCase | src/pages/Reports.tsx:60-62 | Two searches that lower-case alike select the same records. |
| Reports.FilteredCo2AtMostTotal | src/pages/Reports.tsx:104-107 | For non-negative predictions, the filtered CO2 total is at most the unfiltered one. |
| Reports.Co2Cell | src/pages/Reports.tsx:84 | A missing or zero prediction exports as an empty cell. Otherwise the cell is the number's text. |
| Reports.IndustryCell | src/pages/Reports.tsx:81 | A missing industry exports as an empty cell. A present one exports as its text, so an empty one is also empty. |
| Reports.CsvFields | src/pages/Reports.tsx:78-86 | Each exported record has exactly one cell per header. |
| Reports.CsvLines | src/pages/Reports.tsx:88 | The export has the header line first, then one line per filtered record in order. |
| Reports.GenerateCsv | src/pages/Reports.tsx:88 | The export starts with the header line, and with no records it is the header line alone. |
| Reports.CsvHasOneLinePerRecord | src/pages/Reports.tsx:88 | When no cell holds a line break, splitting the export on line breaks gives back the header line and one line per record. |
| Reports.CsvRowHasSevenCells | src/pages/Reports.tsx:78-88 | When no cell holds a comma, splitting an exported line on commas gives back its seven cells. |
| Reports.CommaInCellShiftsColumns | src/pages/Reports.tsx:88 | A cell holding a comma is not recovered by splitting, because the export does not quote cells. |
| Reports.Summarize | src/pages/Reports.tsx:104-152 | The record count is the filtered count, and the company count is at most it and positive when records exist. The CO2 total is non-negative for non-negative predictions. |
| Reports.PrintableRows | src/pages/Reports.tsx:168-169 | The printed table holds the first min(50, n) filtered records, in order. |
| Reports.PrintedTableAndRecordCount | src/pages/Reports.tsx:152-169 | The printed table never has more rows than the "Records" figure, and has fewer when there are more than 50 records. |
| Reports.PrintedCo2Cell | src/pages/Reports.tsx:177 | A missing prediction prints "N/A". A prediction whose locale text is non-empty prints that text. |
| Dashboard.AverageEmission | src/pages/Dashboard.tsx:49 | The average times the record count is the CO2 total. It is 0 with no records, and non-negative for non-negative predictions. |
| Dashboard.ComputeStats | src/pages/Dashboard.tsx:46-50 | The average is the CO2 total divided by the record count, there are no more companies than records, and every figure is zero for an empty list. |
| Dashboard.ToPoint | src/pages/Dashboard.tsx:56-60 | A missing prediction plots as 0. A missing or zero actual value is left out of the point. |
| Dashboard.ChartDataAt | src/pages/Dashboard.tsx:53-60 | The chart has min(12, n) points, and point k is the (min(12, n) - 1 - k)-th record: the first twelve in reverse order. |
| Dashboard.ChartData | src/pages/Dashboard.tsx:53-55 | The chart has at most 12 points and at most one per record, and exactly 12 unless there are fewer records: min(12, n) points. |
| Dashboard.BarData | src/pages/Dashboard.tsx:138 | The bar series is the last min(6, m) chart points, in order. |
| Dashboard.BarDataAt | src/pages/Dashboard.tsx:138 | Bar k is the (min(6, n) - 1 - k)-th record: the first six records in reverse order. |
| Dashboard.RecentRecords | src/pages/Dashboard.tsx:147 | The table shows the first min(10, n) records, in order. |
| StatCard.TrendIconFor | src/components/dashboard/StatCard.tsx:32-37 | There is no icon exactly when there is no trend, and the icon is "up" exactly for a positive value. |
| StatCard.TrendColor | src/components/dashboard/StatCard.tsx:39-45 | The colour is empty exactly when there is no trend, and green exactly for a negative value. |
| StatCard.TrendIconMatchesColor | src/components/dashboard/StatCard.tsx:32-45 | There is no icon and no colour exactly when there is no trend. Up means a positive value and red, down means a negative value and green, flat means zero and grey. |
| StatCard.DisplayedPercent | src/components/dashboard/StatCard.tsx:59 | The shown percentage is the trend value's magnitude: non-negative and equal to plus or minus the value. |
| StatCard.Badge | src/components/dashboard/StatCard.tsx:56-61 | A badge is shown exactly when there is a trend. It carries that trend's icon and colour and a non-negative percentage. |
| StatCard.SubtitleFallback | src/components/dashboard/StatCard.tsx:67-71 | The line is shown exactly when the subtitle or the trend label is non-empty, and it is never empty. A non-empty subtitle takes precedence. |
| StatCard.SubtitleLine | src/components/dashboard/StatCard.tsx:67-71 | A line that is shown is never empty. |
| StatCard.VariantOrDefault | src/components/dashboard/StatCard.tsx:17 | An omitted variant is the default one. |
| StatCard.BackgroundStyle | src/components/dashboard/StatCard.tsx:18-23 | Every variant's background is a gradient class, starting with "from-". |
| StatCard.IconStyle | src/components/dashboard/StatCard.tsx:25-30 | Every variant's icon style starts with a background class, "bg-". |
| StatCard.VariantStylesDistinct | src/components/dashboard/StatCard.tsx:18-30 | Different variants get different background and icon styles. |

## Left out

- Serving HTTP, `console` logging, the reading of `Deno.env`, and the gateway `fetch` itself are I/O. Their outcomes are inputs to `Handle`.
- The prompt text and the gateway request fields (index.ts lines 41-86) are left out. Production volume, water usage and industry type reach the prompt, so they can change the gateway's reply. `ContextFieldsDoNotAffectResponse` states only that they have no effect for the same gateway outcome.
- How the gateway's reply depends on the prompt is not modelled. The reply is an input to `Handle`, chosen freely.
- The error body read by `response.text()` on a gateway failure is only logged, so it is not modelled.
- A thrown value that is not an `Error` would give "Unknown error". Every throw on the modelled paths is an `Error`, so the outcomes carry their message directly.
- The request's amounts are numbers or absent. JSON strings or booleans in those fields, which JavaScript would coerce, are not modelled.
- IEEE-754 arithmetic is not modelled. Amounts are exact reals, so rounding at the last binary digit is not captured.
- `JSON.parse`, `parseFloat`, number-to-text and `toLocaleString` are abstract parameters. Their own behaviour is not modelled.
- Dates are opaque strings. `new Date().toISOString()` becomes a `today` parameter, and the chart's `toLocaleDateString` label is the raw record date.
- Lower-casing, trimming and whitespace are ASCII-only. Unicode case mapping and Unicode white space are not modelled.
- CsvUpload.BuildRow: the row record is a map from header to cell. Header names that collide with JavaScript object prototype keys (such as `__proto__`) are not modelled.
- CsvUpload.SelectFile: the React state updates and toasts are not modelled. A rejected file returns empty results, while the page keeps its previous state.
- The upload's `handleUpload` (database insert), the Supabase queries that load records (including their ordering and the Dashboard's 50-record limit), `EmissionForm`, the Predictions page and all rendering markup are outside this model.
- PredictEmissions.Handle: headers are two tags (CORS only, or CORS with JSON) rather than header maps.
- A predicted CO2 might be expected never to be negative. The code accepts negative amounts (`NegativeAmountsPassValidation`) and returns the gateway's JSON unchecked. Non-negativity is proved only for non-negative inputs.
- PredictEmissions.NonStringContentFallsBack: the `TypeError` that `replace` throws on non-string content is not modelled as an exception. Its only effect, the fallback, is.
