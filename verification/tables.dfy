/** The tables a question turns into: the chart table, the spreadsheet
    table, and the sheet written from the latter (a header row plus a
    response-count row and, for charted questions, a response-rate row). */
module Tables {
  import opened Text
  import opened Ordering

  /** One option of a charted question, a row of the `answer/value/percent` table. */
  datatype Row = Row(answer: string, value: int, percent: string)

  /** One option of a skipped question, a row of the `key/value` table. */
  datatype Entry = Entry(key: string, value: int)

  function RowValue(r: Row): int {
    r.value
  }

  function EntryValue(e: Entry): int {
    e.value
  }

  /** A spreadsheet cell below the header. `PercentTotal` stands for the
      response-rate total: the numerals before `%` of each rate, read as
      floating-point numbers, summed and written back with a `%` suffix.
      The floating-point part is not modelled, only which numerals feed it. */
  datatype Cell = Str(text: string) | Int(n: int) | PercentTotal(numerals: seq<string>)

  /** One worksheet: its name, its header row and the rows under it. */
  datatype Sheet = Sheet(name: string, header: seq<string>, rows: seq<seq<Cell>>)

  const CategoryLabel: string := "구분"
  const TotalLabel: string := "합계"
  const CountLabel: string := "응답수"
  const RateLabel: string := "응답률"

  /** The worksheet name for a question title: the title without any `?`. */
  function SheetName(title: string): (r: string)
    ensures '?' !in r
    ensures multiset(r) == multiset(title)['?' := 0]
    ensures '?' !in title ==> r == title
  {
    RemoveAll(title, '?')
  }

  /** The table a chart is drawn from: ascending by value when the question
      has three or more options, descending when it has fewer. */
  function ChartTable(rows: seq<Row>): (t: seq<Row>)
    ensures multiset(t) == multiset(rows)
    ensures SortedBy(t, RowValue, |rows| >= 3)
  {
    Sort(rows, RowValue, !(|rows| < 3))
  }

  /** The table a sheet is written from: always descending by value. */
  function SheetTable<T>(xs: seq<T>, key: T -> int): (t: seq<T>)
    ensures multiset(t) == multiset(xs)
    ensures SortedBy(t, key, false)
  {
    Sort(xs, key, false)
  }

  /** The header row: the category label, one column label per option, the total label. */
  function Header(labels: seq<string>): (h: seq<string>)
    ensures |h| == |labels| + 2
    ensures h[0] == CategoryLabel && h[|h| - 1] == TotalLabel
    ensures forall i :: 0 <= i < |labels| ==> h[i + 1] == labels[i]
  {
    [CategoryLabel] + labels + [TotalLabel]
  }

  function Answers(t: seq<Row>): (r: seq<string>)
    ensures |r| == |t|
    ensures forall i :: 0 <= i < |t| ==> r[i] == t[i].answer
  {
    if |t| == 0 then [] else [t[0].answer] + Answers(t[1..])
  }

  function Keys(t: seq<Entry>): (r: seq<string>)
    ensures |r| == |t|
    ensures forall i :: 0 <= i < |t| ==> r[i] == t[i].key
  {
    if |t| == 0 then [] else [t[0].key] + Keys(t[1..])
  }

  /** One integer cell per element, in order. */
  function IntCells<T>(xs: seq<T>, key: T -> int): (r: seq<Cell>)
    ensures |r| == |xs|
    ensures forall i :: 0 <= i < |xs| ==> r[i] == Int(key(xs[i]))
  {
    if |xs| == 0 then [] else [Int(key(xs[0]))] + IntCells(xs[1..], key)
  }

  /** The sum of the integer cells of a row (other cells count as zero). */
  function CellTotal(cells: seq<Cell>): int {
    if |cells| == 0 then 0
    else (if cells[0].Int? then cells[0].n else 0) + CellTotal(cells[1..])
  }

  lemma {:induction false} CellTotalOfIntCells<T>(xs: seq<T>, key: T -> int)
    ensures CellTotal(IntCells(xs, key)) == SumBy(xs, key)
    decreases |xs|
  {
    if |xs| > 0 {
      assert IntCells(xs, key)[1..] == IntCells(xs[1..], key);
      CellTotalOfIntCells(xs[1..], key);
    }
  }

  /** The response-count row: its label, each option's count, then the total. */
  function CountRow<T>(xs: seq<T>, key: T -> int): (r: seq<Cell>)
    ensures |r| == |xs| + 2
    ensures r[0] == Str(CountLabel)
    ensures forall i :: 0 <= i < |xs| ==> r[i + 1] == Int(key(xs[i]))
    ensures r[|xs| + 1] == Int(SumBy(xs, key))
  {
    [Str(CountLabel)] + IntCells(xs, key) + [Int(SumBy(xs, key))]
  }

  /** The total cell of a response-count row is the sum of the count cells before it. */
  lemma CountRowTotal<T>(xs: seq<T>, key: T -> int)
    ensures var r := CountRow(xs, key); r[|r| - 1] == Int(CellTotal(r[1..|r| - 1]))
  {
    var r := CountRow(xs, key);
    assert r[1..|r| - 1] == IntCells(xs, key);
    CellTotalOfIntCells(xs, key);
  }

  /** The numeral part of each rate: the text before its first `%`. */
  function RateNumerals(t: seq<Row>): (r: seq<string>)
    ensures |r| == |t|
    ensures forall i :: 0 <= i < |t| ==>
      && r[i] <= t[i].percent
      && '%' !in r[i]
      && (|r[i]| < |t[i].percent| ==> t[i].percent[|r[i]|] == '%')
  {
    if |t| == 0 then [] else [PrefixBefore(t[0].percent, '%')] + RateNumerals(t[1..])
  }

  /** One text cell per rate, in order. */
  function RateCells(t: seq<Row>): (r: seq<Cell>)
    ensures |r| == |t|
    ensures forall i :: 0 <= i < |t| ==> r[i] == Str(t[i].percent)
  {
    if |t| == 0 then [] else [Str(t[0].percent)] + RateCells(t[1..])
  }

  /** The response-rate row: its label, each option's rate text, then the rate total. */
  function RateRow(t: seq<Row>): (r: seq<Cell>)
    ensures |r| == |t| + 2
    ensures r[0] == Str(RateLabel)
    ensures forall i :: 0 <= i < |t| ==> r[i + 1] == Str(t[i].percent)
    ensures r[|t| + 1] == PercentTotal(RateNumerals(t))
  {
    [Str(RateLabel)] + RateCells(t) + [PercentTotal(RateNumerals(t))]
  }

  /** Every row of the sheet is as wide as its header. */
  ghost predicate Rectangular(s: Sheet) {
    forall k :: 0 <= k < |s.rows| ==> |s.rows[k]| == |s.header|
  }

  /** The sheet of a charted question, written from its spreadsheet table
      `t`: an option's answer, count and rate share one column. */
  function ResponseSheet(name: string, t: seq<Row>): (s: Sheet)
    ensures s.name == name
    ensures |s.rows| == 2 && Rectangular(s)
    ensures |s.header| == |t| + 2
    ensures s.header[0] == CategoryLabel && s.header[|t| + 1] == TotalLabel
    ensures s.rows[0][0] == Str(CountLabel) && s.rows[1][0] == Str(RateLabel)
    ensures forall i :: 0 <= i < |t| ==>
      s.header[i + 1] == t[i].answer
      && s.rows[0][i + 1] == Int(t[i].value)
      && s.rows[1][i + 1] == Str(t[i].percent)
    ensures s.rows[0][|t| + 1] == Int(SumBy(t, RowValue))
    ensures s.rows[1][|t| + 1] == PercentTotal(RateNumerals(t))
  {
    var header := Header(Answers(t));
    var counts := CountRow(t, RowValue);
    var rates := RateRow(t);
    Sheet(name, header, [counts, rates])
  }

  /** The sheet of a skipped question: a single response-count row. */
  function SkippedSheet(name: string, t: seq<Entry>): (s: Sheet)
    ensures s.name == name
    ensures |s.rows| == 1 && Rectangular(s)
    ensures |s.header| == |t| + 2
    ensures s.header[0] == CategoryLabel && s.header[|t| + 1] == TotalLabel
    ensures s.rows[0][0] == Str(CountLabel)
    ensures forall i :: 0 <= i < |t| ==>
      s.header[i + 1] == t[i].key && s.rows[0][i + 1] == Int(t[i].value)
    ensures s.rows[0][|t| + 1] == Int(SumBy(t, EntryValue))
  {
    Sheet(name, Header(Keys(t)), [CountRow(t, EntryValue)])
  }

  /** The total cell of a charted question's count row is the sum of the
      count cells beside it. */
  lemma ResponseCountTotal(name: string, t: seq<Row>)
    ensures var s := ResponseSheet(name, t);
      s.rows[0][|t| + 1] == Int(CellTotal(s.rows[0][1..|t| + 1]))
  {
    CountRowTotal(t, RowValue);
  }

  /** The total cell of a skipped question's count row is the sum of the
      count cells beside it. */
  lemma SkippedCountTotal(name: string, t: seq<Entry>)
    ensures var s := SkippedSheet(name, t);
      s.rows[0][|t| + 1] == Int(CellTotal(s.rows[0][1..|t| + 1]))
  {
    CountRowTotal(t, EntryValue);
  }
}
