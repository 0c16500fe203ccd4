# Survey formatter: tables, charts and worksheets

This project models the pure part of the career-experience survey formatter
(`src/career_experiences/parses.py`). The tool reads survey exports, one
question at a time, and produces the following:

- a chart table for each charted question, drawn as a pie when the question
  has fewer than three options and as horizontal bars otherwise;
- a spreadsheet table and the worksheet written from it: a `구분 … 합계`
  header, a `응답수` (response count) row and, for charted questions, a
  `응답률` (response rate) row;
- a skipped question's worksheet, which has only the response-count row
  and no chart;
- the legend and bar-label texts `<answer> - <percent> (<value>)` (bar
  labels are cut to 50 characters), the bar chart's pixel size, and the pie
  colours;
- the worksheet name, which is the title with every `?` removed, and the
  output base name, which is the file name up to its first `.`.

Modules:

- `Results` holds `Option` and `Result`.
- `Text` holds character removal, the text before a separator, truncation,
  and decimal rendering with its parser.
- `Ordering` sorts by an integer column and sums a column. The sort is an
  insertion sort, but its contract promises only what the unstable
  `sort_values` of `parses.py` promises: a permutation, ordered by value. The order
  among equal values is left open.
- `Tables` holds rows, cells and worksheets.
- `Charts` holds legends, pie charts and bar charts.
- `Survey` processes one question and runs over one file.
- `SurveyFacts` holds the properties that relate a question's chart to its
  worksheet.

The Python formatter never reads a legend back. `Charts.LegendValue` and
`Charts.RecoveredTotal` are readers the model adds. They state that a
legend keeps its option's count recoverable, and that a pie's legends
agree with the worksheet's total.

Details of `parses.py` that the model keeps exactly as written:

- The chart table is sorted ascending when there are three or more options
  and descending when there are fewer (`ascending=not len(option) < 3`,
  line 164). The spreadsheet table is always sorted descending.
- Chart directories and image files are named after the question title as
  given (lines 106, 137). Only the worksheet name has `?` removed (line 207).
  `Charts.Chart` therefore carries the raw title.
- The response-rate total is a floating-point sum of the numerals before
  each `%`, printed by Python with a `%` suffix (line 180). For example,
  80% and 20% give `100.0%`. It is not a textual concatenation. The model
  keeps it as an opaque cell, `PercentTotal(numerals)`.
- The workbook is opened as a context manager (line 151), so it is closed,
  and so written, even when a question raises. It then holds the sheets of
  the questions before the failing one. `Survey.RunSurvey` returns those
  sheets together with the error.

## Model

| member | source | states |
|---|---|---|
| Survey.BuildRows | src/career_experiences/parses.py:158-162 | one row (answer, value, percent) per option in file order; succeeds iff every option is a nested record, otherwise fails naming the first option that is a plain count |
| Survey.BuildEntries | src/career_experiences/parses.py:196-200 | one (key, value) entry per option of a skipped question, in file order; succeeds iff every option is a plain count, otherwise fails naming an option that is not |
| Survey.ProcessQuestion | src/career_experiences/parses.py:154-210 | succeeds iff the options fit the skip flag; the sheet is named after the title without `?`; a skipped question has no chart; a charted one is a pie iff it has fewer than 3 options; the chart keeps the raw title; a sheet has 2 rows (1 if skipped), all as wide as the header, which has one column per option plus two |
| Survey.ChartedOutcome | src/career_experiences/parses.py:157-194 | a charted question's sheet is written from the descending re-sort of the chart table, and its chart is the pie (fewer than 3 options) or the bar chart drawn from the chart table itself |
| Survey.SkippedOutcome | src/career_experiences/parses.py:195-204 | a skipped question's sheet is the one-row sheet of its descending entry table, and it has no chart |
| Survey.BaseName | src/career_experiences/parses.py:147 | the file name up to its first `.`: a prefix of the file name, holding no `.`, followed by `.` if shorter than the name |
| Survey.ChartOf | src/career_experiences/parses.py:186-194 | a question contributes exactly one chart iff it is charted and succeeds, otherwise none |
| Survey.ChartsOfSnoc | src/career_experiences/parses.py:154 | the charts of a prefix of questions grow by the next question's chart, in question order |
| Survey.ChartOfProcessed | src/career_experiences/parses.py:186-194 | the chart a question contributes is the one its processing produced |
| Survey.ChartsOfCount | src/career_experiences/parses.py:186-194 | when every question succeeds, one chart is exported per charted (non-skipped) question |
| Survey.RunSurvey | src/career_experiences/parses.py:147-210 | output directory and `<base>.xlsx` are named from the base name; the sheets are the questions' sheets in order up to the first failure, each name free of `?`; no failure iff every question fits its skip flag iff all sheets are written; the error is the first failing question's; the charts are those of the processed questions in order |
| SurveyFacts.ChartTableOrder | src/career_experiences/parses.py:163-165 | the chart is drawn from a rearrangement of the question's rows, sorted by value ascending iff there are 3 or more options (descending otherwise) |
| SurveyFacts.ChartNeverFails | src/career_experiences/parses.py:186-189 | a question never fails in the pie chart: only questions with fewer than 3 options reach it, and the two colours always cover their slices |
| SurveyFacts.PieSlices | src/career_experiences/parses.py:74-75 | with fewer than 3 options there is one slice per option, slice i has palette colour i, and no two slices share a colour |
| SurveyFacts.BarGeometry | src/career_experiences/parses.py:117-122 | with 3 or more options the chart is a bar chart with one bar per option, height 300 + 60·(n − 3) ≥ 300 and width 600 + 6·len(title) ≥ 600 |
| SurveyFacts.BarTableGeometry | src/career_experiences/parses.py:117-122 | the bar chart of a question's chart table has one bar per option, height 300 + 60·(n − 3) and width 600 + 6·len(title) |
| SurveyFacts.BarCaptions | src/career_experiences/parses.py:110-116 | every bar label of a question's bar chart is its legend cut as `label[:50]` cuts it: the whole legend when that has 50 characters or fewer, otherwise exactly its first 50 characters |
| SurveyFacts.BarTableCaptions | src/career_experiences/parses.py:110-116 | the same for the bar chart of a question's chart table |
| SurveyFacts.SheetColumns | src/career_experiences/parses.py:166-204 | every worksheet has a label column, one column per option and a total column; each option column shows some option's key or answer, its count and (charted) its rate; every option has a column; counts never increase left to right |
| SurveyFacts.ResponseTableColumns | src/career_experiences/parses.py:166-185 | the charted worksheet built from a question's options has that column layout |
| SurveyFacts.SkippedTableColumns | src/career_experiences/parses.py:195-204 | the skipped-question worksheet built from a question's options has that column layout |
| SurveyFacts.ResponseColumnsShowOptions | src/career_experiences/parses.py:169-184 | each option column of a charted question's sheet shows one option's answer, count and rate together |
| SurveyFacts.ResponseOptionsHaveColumns | src/career_experiences/parses.py:169-184 | every option of a charted question appears in some column of its sheet |
| SurveyFacts.SkippedColumnsShowOptions | src/career_experiences/parses.py:201-204 | each option column of a skipped question's sheet shows one option's key and count |
| SurveyFacts.SkippedOptionsHaveColumns | src/career_experiences/parses.py:201-204 | every option of a skipped question appears in some column of its sheet |
| SurveyFacts.CountsFollowTable | src/career_experiences/parses.py:166-175 | a count row written from a table sorted descending has counts that never increase from left to right |
| SurveyFacts.RowsTotal | src/career_experiences/parses.py:158-175 | the value column of any rearrangement of a question's rows sums to the options' total count |
| SurveyFacts.EntriesTotal | src/career_experiences/parses.py:196-202 | the value column of any rearrangement of a skipped question's entries sums to the options' total count |
| SurveyFacts.ResponseTableTotal | src/career_experiences/parses.py:169-175 | the total cell of the charted worksheet built from some options is those options' total count |
| SurveyFacts.SkippedTableTotal | src/career_experiences/parses.py:200-202 | the total cell of the skipped-question worksheet built from some options is those options' total count |
| SurveyFacts.ChartedSheetTotal | src/career_experiences/parses.py:169-175 | a charted question's response-count total is the sum of its options' counts |
| SurveyFacts.SkippedSheetTotal | src/career_experiences/parses.py:200-202 | a skipped question's response-count total is the sum of its options' counts |
| SurveyFacts.SheetTotal | src/career_experiences/parses.py:169-202 | every question's response-count total is the sum of its options' counts, whatever the order the sheet shows them in |
| SurveyFacts.PieTableTotal | src/career_experiences/parses.py:76-80 | the counts read back from the legends of the pie drawn from some options add up to those options' total count |
| SurveyFacts.PieLegendsMatchSheetTotal | src/career_experiences/parses.py:76-80 | reading the counts back out of a question's pie legends and adding them gives the options' total, and the worksheet's response-count total cell holds that same number |
| Tables.SheetName | src/career_experiences/parses.py:207 | the worksheet name holds no `?`, keeps every other character with its multiplicity, and equals the title when the title has no `?` |
| Tables.ChartTable | src/career_experiences/parses.py:163-165 | a rearrangement of the rows, sorted ascending by value iff there are at least 3 rows and descending otherwise |
| Tables.SheetTable | src/career_experiences/parses.py:166-168 | a rearrangement of the table, sorted descending by value |
| Tables.Header | src/career_experiences/parses.py:184 | `구분`, then the labels in order, then `합계`: two longer than the labels |
| Tables.Answers | src/career_experiences/parses.py:184 | the answer column of a table, in table order |
| Tables.Keys | src/career_experiences/parses.py:202 | the key column of a skipped question's table, in table order |
| Tables.IntCells | src/career_experiences/parses.py:171-173 | one count cell per table row, in table order |
| Tables.CellTotalOfIntCells | src/career_experiences/parses.py:174 | adding up the count cells gives the column total |
| Tables.CountRow | src/career_experiences/parses.py:171-175 | `응답수`, then each count in table order, then the column total: two longer than the table |
| Tables.CountRowTotal | src/career_experiences/parses.py:174 | the total cell of a response-count row is the sum of the count cells before it |
| Tables.RateNumerals | src/career_experiences/parses.py:180 | each numeral is the text of its rate before the first `%`: a `%`-free prefix followed by `%` when shorter than the rate, as `split("%")[0]` gives |
| Tables.RateCells | src/career_experiences/parses.py:178 | one rate cell per table row, holding the row's rate text |
| Tables.RateRow | src/career_experiences/parses.py:176-182 | `응답률`, then each rate text in table order, then the rate total over those numerals |
| Tables.ResponseSheet | src/career_experiences/parses.py:169-185 | two rows as wide as the header; column i+1 holds the i-th row's answer, count and rate; the last column holds the count total and the rate total |
| Tables.SkippedSheet | src/career_experiences/parses.py:201-204 | one row as wide as the header; column i+1 holds the i-th entry's key and count; the last column holds the total |
| Tables.ResponseCountTotal | src/career_experiences/parses.py:174 | in a charted question's sheet the count total is the sum of the count cells beside it |
| Tables.SkippedCountTotal | src/career_experiences/parses.py:202 | in a skipped question's sheet the count total is the sum of the count cells beside it |
| Charts.PieChart | src/career_experiences/parses.py:74-80 | succeeds iff the table has no more rows than the palette has colours, otherwise fails with both lengths; slice i keeps row i, colour i and the row's legend |
| Charts.Slices | src/career_experiences/parses.py:75-80 | one slice per row in order, taking the colours in order |
| Charts.PieColorsDistinct | src/career_experiences/parses.py:74-75 | no two slices of one pie share a colour |
| Charts.Bars | src/career_experiences/parses.py:110-116 | one bar per row in order, labelled with the row's cut legend |
| Charts.BarChart | src/career_experiences/parses.py:109-122 | one bar per row in table order with its label; fixed fill; height 300 + 60·(n − 3), at least 300 for n ≥ 3; width 600 + 6·len(title), at least 600 |
| Charts.BarLabel | src/career_experiences/parses.py:111-113 | at most 50 characters, a prefix of the legend; the whole legend when it has 50 characters or fewer, otherwise exactly its first 50 characters |
| Charts.ShortBarLabelKeepsValue | src/career_experiences/parses.py:111-113 | a label that was not cut still gives back its option's count |
| Charts.ChartRows | src/career_experiences/parses.py:76-80 | the rows a chart is drawn from, slice by slice or bar by bar |
| Charts.ChartRowsOfTable | src/career_experiences/parses.py:109-122 | both kinds of chart are drawn from their table's rows, in table order |
| Charts.Legend | src/career_experiences/parses.py:79 | the text `<answer> - <percent> (<value>)`: it begins with the answer, then ` - ` and the rate, and ends with the value's decimal in parentheses, with nothing else in between |
| Charts.LegendValue | src/career_experiences/parses.py:79 | a legend that gives back a count ends with `)` and holds a `(` |
| Charts.LegendStartsWithAnswer | src/career_experiences/parses.py:79 | a legend begins with its option's answer |
| Charts.LegendRoundTrip | src/career_experiences/parses.py:79 | the count read back out of a legend is the option's value |
| Charts.RecoveredTotal | src/career_experiences/parses.py:76-80 | a list of legends has a recovered total exactly when every legend gives back a count |
| Charts.Legends | src/career_experiences/parses.py:76-80 | one legend per row, in table order |
| Charts.SliceLegends | src/career_experiences/parses.py:76-80 | the legend entries of a pie, slice by slice |
| Charts.RecoveredTotalOfValues | src/career_experiences/parses.py:76-80 | legends that each give back their row's count add up to the table's total |
| Charts.RecoveredTotalOfLegends | src/career_experiences/parses.py:76-80 | the counts read back from a table's legends add up to the table's total |
| Charts.PieLegendsTotal | src/career_experiences/parses.py:76-80 | the counts read back from a pie's legends add up to its table's total |
| Text.RemoveAll | src/career_experiences/parses.py:207 | the result holds no `c` and has the same characters otherwise, with their multiplicities; it is unchanged when `c` is absent |
| Text.RemoveAllAppend | src/career_experiences/parses.py:207 | deletion distributes over concatenation, so the kept characters stay in order |
| Text.PrefixBefore | src/career_experiences/parses.py:147 | a prefix of the input, free of the separator, followed by the separator when shorter than the input |
| Text.PrefixBeforeUnique | src/career_experiences/parses.py:147 | those three properties determine the result |
| Text.Truncate | src/career_experiences/parses.py:113 | a prefix of at most `limit` characters: the whole text when it fits, otherwise exactly `limit` characters |
| Text.IntToDecimal | src/career_experiences/parses.py:79 | Python's `str(value)`: a minus sign exactly when the value is negative, then decimal digits with no leading zero other than the single digit `0` |
| Text.DecimalHasNoParenthesis | src/career_experiences/parses.py:79 | a rendered count holds no parenthesis, so it cannot be confused with the legend's brackets |
| Text.ParseDecimal | src/career_experiences/parses.py:79 | a parsed text is an optional minus sign followed by digits |
| Text.DecimalRoundTrip | src/career_experiences/parses.py:79 | parsing the decimal rendering of an integer gives the integer back |
| Ordering.Sort | src/career_experiences/parses.py:163-168 | a rearrangement of its input, ordered by the key in the requested direction |
| Ordering.Insert | src/career_experiences/parses.py:163-168 | inserting into a sorted table keeps it sorted and adds exactly the new element |
| Ordering.SumByBounds | src/career_experiences/parses.py:174 | `sum(df.value)` over counts that are never negative is not negative and no smaller than any one count |
| Ordering.SumByAppend | src/career_experiences/parses.py:174 | the total of two tables put together is the sum of their totals |
| Ordering.SumByRemove | src/career_experiences/parses.py:174 | taking one row out of a table takes its value out of the total |
| Ordering.PermutationRemove | src/career_experiences/parses.py:163-168 | removing matching elements from two rearrangements of each other leaves rearrangements of each other |
| Ordering.SumByPermutation | src/career_experiences/parses.py:174 | a column total does not depend on the order of the rows |
| Ordering.SumByPointwise | src/career_experiences/parses.py:174 | two columns that agree row by row have the same total |

## Left out

- `write_chart`, `export_png` and `export_svg` (lines 54-69) are left out. So are the headless browser options and the Chrome driver session (lines 19-20, 141-143). These are browser automation and file output. The model keeps only the title the chart would be filed under.
- `read_files`, `parse`, `main`, `pd.read_json` and the `fillna(False)` default for a missing skip flag (lines 23-24, 213-226) are left out as file input. A question's skip flag is a plain boolean in the model.
- `pd.ExcelWriter`, `to_excel` and `os.mkdir` (lines 148-153, 205-210) are left out as library output. The model builds the sheet contents and names, not the file. The spreadsheet library's limits on sheet names are not modelled: at most 31 characters, no duplicates, not empty (a title made only of `?` gives an empty name), and none of the characters `[ ] : * / \`. `Survey.RunSurvey`'s promise that a run fails only on an option of the wrong kind therefore holds only for titles that avoid these cases.
- The response-rate total (line 180) is a floating-point parse, sum and format. It is kept as the opaque cell `PercentTotal(numerals)`. The failure `float()` raises on a numeral that is not a number is not modelled.
- The pie wedge angles (line 73) are floating point and are left out. So are the bokeh figure, wedge and bar glyphs (lines 81-105, 124-134) and the progress print (line 135).
- The commented-out `get_survey_map` (lines 27-51) is dead code.
- `src/index.ts` is a web server bootstrap with no logic of this tool.
- A charted option's nested record is read positionally (`*values.values()`, line 159). The model takes it to be exactly a (value, percent) pair. Records with other field orders or counts are not modelled.
- Counts are unbounded integers. The 64-bit columns the dataframe library stores them in, and their overflow, are not modelled.
- Option keys are a list of (key, value) pairs in file order. The model does not rely on the keys being distinct, which a JSON object guarantees.
- `Ordering.Sort`: the order among options with equal values is not stated, because the `sort_values` call in `parses.py` uses an unstable sort and does not define it.
