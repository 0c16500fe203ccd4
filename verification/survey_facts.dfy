/** What a processed question promises: how its chart table is ordered,
    what each worksheet column holds, that the totals are the sums of the
    counts, and that the chart's legends and the worksheet agree. */
module SurveyFacts {
  import opened Results
  import opened Ordering
  import opened Tables
  import opened Charts
  import opened Survey

  /** The chart is drawn from a rearrangement of the question's options,
      ascending by value when there are three or more options and
      descending when there are fewer. */
  lemma ChartTableOrder(q: Question)
    requires !q.skip && WellFormed(q)
    ensures ProcessQuestion(q).Success? && ProcessQuestion(q).value.chart.Some?
    ensures var drawn := ChartRows(ProcessQuestion(q).value.chart.value);
      && multiset(drawn) == multiset(BuildRows(q.options).value)
      && SortedBy(drawn, RowValue, |q.options| >= 3)
  {
    ChartedOutcome(q);
    ChartRowsOfTable(q.title, ChartTable(BuildRows(q.options).value));
  }

  /** A pie never runs out of colours: only charted questions with fewer
      than three options reach it, so a question fails only on an option
      of the wrong kind. */
  lemma ChartNeverFails(q: Question)
    ensures ProcessQuestion(q).Failure? ==> !ProcessQuestion(q).error.ChartFailed?
  {
  }

  /** The pie's slices follow the chart table and take the palette's
      colours in order, one distinct colour per slice. */
  lemma PieSlices(q: Question)
    requires !q.skip && WellFormed(q) && |q.options| < 3
    ensures var c := ProcessQuestion(q).value.chart.value;
      && c.Pie?
      && |c.slices| == |q.options|
      && (forall i :: 0 <= i < |c.slices| ==> c.slices[i].color == Palette[i])
      && (forall i, j :: 0 <= i < j < |c.slices| ==> c.slices[i].color != c.slices[j].color)
  {
    ChartedOutcome(q);
    var df := ChartTable(BuildRows(q.options).value);
    forall i: nat, j: nat | i < j < |df|
      ensures PieChart(q.title, df).value.slices[i].color != PieChart(q.title, df).value.slices[j].color
    {
      PieColorsDistinct(q.title, df, i, j);
    }
  }

  /** The bar chart's size: 300 pixels high for three options and 60 more
      per further option, 600 pixels wide plus 6 per title character, one
      bar per option. */
  lemma BarGeometry(q: Question)
    requires !q.skip && WellFormed(q) && |q.options| >= 3
    ensures var c := ProcessQuestion(q).value.chart.value;
      && c.HorizontalBar?
      && c.height == 300 + 60 * (|q.options| - 3) && c.height >= 300
      && c.width == 600 + 6 * |q.title| && c.width >= 600
      && |c.bars| == |q.options|
  {
    ChartedOutcome(q);
    var c := ProcessQuestion(q).value.chart.value;
    assert c == BarChart(q.title, ChartTable(BuildRows(q.options).value));
    BarTableGeometry(q.title, q.options);
  }

  /** Every bar of `c` is labelled with the start of its row's legend, at
      most `LabelLimit` characters long, and with the whole legend when
      that fits. */
  ghost predicate LabelsFit(c: Chart) {
    && c.HorizontalBar?
    && forall i :: 0 <= i < |c.bars| ==> LabelFits(c.bars[i])
  }

  /** One bar's label is its legend cut to `LabelLimit` characters: the
      first `LabelLimit` characters of a longer legend, the whole of a
      shorter one. */
  ghost predicate LabelFits(b: Bar) {
    && |b.caption| <= LabelLimit
    && b.caption <= Legend(b.row)
    && (|Legend(b.row)| <= LabelLimit ==> b.caption == Legend(b.row))
    && (|Legend(b.row)| > LabelLimit ==> |b.caption| == LabelLimit)
  }

  /** Every bar of a charted question's bar chart is labelled with its
      option's legend, cut to at most `LabelLimit` characters. */
  lemma BarCaptions(q: Question)
    requires !q.skip && WellFormed(q) && |q.options| >= 3
    ensures LabelsFit(ProcessQuestion(q).value.chart.value)
  {
    ChartedOutcome(q);
    BarTableCaptions(q.title, q.options);
  }

  /** The labels of the bar chart drawn from the chart table of a
      question's options. */
  lemma {:induction false} BarTableCaptions(title: string, options: seq<(string, OptionValue)>)
    requires BuildRows(options).Success?
    ensures LabelsFit(BarChart(title, ChartTable(BuildRows(options).value)))
  {
    var c := BarChart(title, ChartTable(BuildRows(options).value));
    forall i | 0 <= i < |c.bars| ensures LabelFits(c.bars[i]) {
      assert c.bars[i].caption == BarLabel(c.bars[i].row);
    }
  }

  /** The bar chart drawn from the chart table of a question's options. */
  lemma {:induction false} BarTableGeometry(title: string, options: seq<(string, OptionValue)>)
    requires BuildRows(options).Success?
    ensures var c := BarChart(title, ChartTable(BuildRows(options).value));
      && c.HorizontalBar?
      && c.height == 300 + 60 * (|options| - 3)
      && c.width == 600 + 6 * |title|
      && |c.bars| == |options|
  {
    var df := ChartTable(BuildRows(options).value);
    assert |df| == |multiset(df)|;
  }

  /** Column `col` of sheet `s` shows option `o`: its key or answer in the
      header, its count below, and, when the sheet has a response-rate row,
      its rate text below that. */
  ghost predicate ColumnHolds(s: Sheet, col: int, o: (string, OptionValue)) {
    && 0 <= col < |s.header|
    && 1 <= |s.rows| <= 2
    && Rectangular(s)
    && s.header[col] == o.0
    && s.rows[0][col] == Int(Amount(o))
    && (|s.rows| == 2 ==> o.1.Tally? && s.rows[1][col] == Str(o.1.percent))
  }

  /** Column `col` shows one of the options. */
  ghost predicate ShowsSomeOption(s: Sheet, col: int, options: seq<(string, OptionValue)>) {
    exists k :: 0 <= k < |options| && ColumnHolds(s, col, options[k])
  }

  /** Some option column (between the label column and the total column) shows `o`. */
  ghost predicate HasColumnFor(s: Sheet, o: (string, OptionValue)) {
    exists col :: 1 <= col < |s.header| - 1 && ColumnHolds(s, col, o)
  }

  /** The counts of the option columns never increase from left to right. */
  ghost predicate CountsDescending(s: Sheet) {
    && 1 <= |s.rows|
    && Rectangular(s)
    && forall i, j :: 1 <= i < j < |s.header| - 1 ==>
         s.rows[0][i].Int? && s.rows[0][j].Int? && s.rows[0][i].n >= s.rows[0][j].n
  }

  /** The layout shared by both kinds of worksheet: label column, one column
      per option, total column; every option column shows an option and
      every option has a column; counts descend. */
  ghost predicate OptionColumns(s: Sheet, options: seq<(string, OptionValue)>) {
    && |s.header| == |options| + 2
    && s.header[0] == CategoryLabel && s.header[|options| + 1] == TotalLabel
    && 1 <= |s.rows| && Rectangular(s)
    && s.rows[0][0] == Str(CountLabel)
    && (|s.rows| == 2 ==> s.rows[1][0] == Str(RateLabel))
    && (forall col :: 1 <= col <= |options| ==> ShowsSomeOption(s, col, options))
    && (forall k :: 0 <= k < |options| ==> HasColumnFor(s, options[k]))
    && CountsDescending(s)
  }

  /** The option columns of a charted question's sheet, whose column `i + 1`
      holds row `i` of the rearranged table `t`, each show one option. */
  lemma ResponseColumnsShowOptions(s: Sheet, t: seq<Row>, rows: seq<Row>, options: seq<(string, OptionValue)>)
    requires |s.rows| == 2 && Rectangular(s) && |s.header| == |t| + 2
    requires forall i :: 0 <= i < |t| ==>
      s.header[i + 1] == t[i].answer && s.rows[0][i + 1] == Int(t[i].value) && s.rows[1][i + 1] == Str(t[i].percent)
    requires multiset(t) == multiset(rows)
    requires |rows| == |options|
    requires forall i :: 0 <= i < |options| ==> options[i].1.Tally? && rows[i] == Row(options[i].0, options[i].1.value, options[i].1.percent)
    ensures forall col :: 1 <= col <= |options| ==> ShowsSomeOption(s, col, options)
  {
    assert |t| == |multiset(t)| == |rows|;
    forall col | 1 <= col <= |options|
      ensures ShowsSomeOption(s, col, options)
    {
      var r := t[col - 1];
      assert r in multiset(rows);
      var k :| 0 <= k < |rows| && rows[k] == r;
      assert s.header[col] == r.answer && s.rows[0][col] == Int(r.value) && s.rows[1][col] == Str(r.percent);
      assert Amount(options[k]) == r.value;
      assert ColumnHolds(s, col, options[k]);
    }
  }

  /** Every option of a charted question has a column in its sheet. */
  lemma ResponseOptionsHaveColumns(s: Sheet, t: seq<Row>, rows: seq<Row>, options: seq<(string, OptionValue)>)
    requires |s.rows| == 2 && Rectangular(s) && |s.header| == |t| + 2
    requires forall i :: 0 <= i < |t| ==>
      s.header[i + 1] == t[i].answer && s.rows[0][i + 1] == Int(t[i].value) && s.rows[1][i + 1] == Str(t[i].percent)
    requires multiset(t) == multiset(rows)
    requires |rows| == |options|
    requires forall i :: 0 <= i < |options| ==> options[i].1.Tally? && rows[i] == Row(options[i].0, options[i].1.value, options[i].1.percent)
    ensures forall k :: 0 <= k < |options| ==> HasColumnFor(s, options[k])
  {
    assert |t| == |multiset(t)| == |rows|;
    forall k | 0 <= k < |options|
      ensures HasColumnFor(s, options[k])
    {
      assert rows[k] in multiset(t);
      var i :| 0 <= i < |t| && t[i] == rows[k];
      assert s.header[i + 1] == t[i].answer && s.rows[0][i + 1] == Int(t[i].value) && s.rows[1][i + 1] == Str(t[i].percent);
      assert Amount(options[k]) == t[i].value;
      assert ColumnHolds(s, i + 1, options[k]);
    }
  }

  /** The option columns of a skipped question's sheet, whose column `i + 1`
      holds entry `i` of the rearranged table `t`, each show one option. */
  lemma SkippedColumnsShowOptions(s: Sheet, t: seq<Entry>, entries: seq<Entry>, options: seq<(string, OptionValue)>)
    requires |s.rows| == 1 && Rectangular(s) && |s.header| == |t| + 2
    requires forall i :: 0 <= i < |t| ==> s.header[i + 1] == t[i].key && s.rows[0][i + 1] == Int(t[i].value)
    requires multiset(t) == multiset(entries)
    requires |entries| == |options|
    requires forall i :: 0 <= i < |options| ==> options[i].1.Count? && entries[i] == Entry(options[i].0, options[i].1.n)
    ensures forall col :: 1 <= col <= |options| ==> ShowsSomeOption(s, col, options)
  {
    assert |t| == |multiset(t)| == |entries|;
    forall col | 1 <= col <= |options|
      ensures ShowsSomeOption(s, col, options)
    {
      var e := t[col - 1];
      assert e in multiset(entries);
      var k :| 0 <= k < |entries| && entries[k] == e;
      assert s.header[col] == e.key && s.rows[0][col] == Int(e.value);
      assert Amount(options[k]) == e.value;
      assert ColumnHolds(s, col, options[k]);
    }
  }

  /** Every option of a skipped question has a column in its sheet. */
  lemma SkippedOptionsHaveColumns(s: Sheet, t: seq<Entry>, entries: seq<Entry>, options: seq<(string, OptionValue)>)
    requires |s.rows| == 1 && Rectangular(s) && |s.header| == |t| + 2
    requires forall i :: 0 <= i < |t| ==> s.header[i + 1] == t[i].key && s.rows[0][i + 1] == Int(t[i].value)
    requires multiset(t) == multiset(entries)
    requires |entries| == |options|
    requires forall i :: 0 <= i < |options| ==> options[i].1.Count? && entries[i] == Entry(options[i].0, options[i].1.n)
    ensures forall k :: 0 <= k < |options| ==> HasColumnFor(s, options[k])
  {
    assert |t| == |multiset(t)| == |entries|;
    forall k | 0 <= k < |options|
      ensures HasColumnFor(s, options[k])
    {
      assert entries[k] in multiset(t);
      var i :| 0 <= i < |t| && t[i] == entries[k];
      assert s.header[i + 1] == t[i].key && s.rows[0][i + 1] == Int(t[i].value);
      assert Amount(options[k]) == t[i].value;
      assert ColumnHolds(s, i + 1, options[k]);
    }
  }

  /** A sheet whose count row follows a table sorted descending by `key`
      shows its counts in descending order. */
  lemma CountsFollowTable<T>(s: Sheet, t: seq<T>, key: T -> int)
    requires 1 <= |s.rows| && Rectangular(s) && |s.header| == |t| + 2
    requires forall i :: 0 <= i < |t| ==> s.rows[0][i + 1] == Int(key(t[i]))
    requires SortedBy(t, key, false)
    ensures CountsDescending(s)
  {
    forall i | 1 <= i < |s.header| - 1
      ensures s.rows[0][i] == Int(key(t[i - 1]))
    {
    }
    forall i, j | 1 <= i < j < |s.header| - 1
      ensures s.rows[0][i].Int? && s.rows[0][j].Int? && s.rows[0][i].n >= s.rows[0][j].n
    {
      assert InOrder(key(t[i - 1]), key(t[j - 1]), false);
    }
  }

  /** The sheet written from rows built from a charted question's options
      lays out one column per option. */
  lemma {:induction false} ResponseTableColumns(name: string, options: seq<(string, OptionValue)>)
    requires BuildRows(options).Success?
    ensures OptionColumns(ResponseSheet(name, SheetTable(ChartTable(BuildRows(options).value), RowValue)), options)
  {
    var rows := BuildRows(options).value;
    var t := SheetTable(ChartTable(rows), RowValue);
    var s := ResponseSheet(name, t);
    assert |t| == |multiset(t)| == |rows|;
    ResponseColumnsShowOptions(s, t, rows, options);
    ResponseOptionsHaveColumns(s, t, rows, options);
    CountsFollowTable(s, t, RowValue);
  }

  /** The sheet written from entries built from a skipped question's options
      lays out one column per option. */
  lemma {:induction false} SkippedTableColumns(name: string, options: seq<(string, OptionValue)>)
    requires BuildEntries(options).Success?
    ensures OptionColumns(SkippedSheet(name, SheetTable(BuildEntries(options).value, EntryValue)), options)
  {
    var entries := BuildEntries(options).value;
    var t := SheetTable(entries, EntryValue);
    var s := SkippedSheet(name, t);
    assert |t| == |multiset(t)| == |entries|;
    SkippedColumnsShowOptions(s, t, entries, options);
    SkippedOptionsHaveColumns(s, t, entries, options);
    CountsFollowTable(s, t, EntryValue);
  }

  /** A worksheet has a label column, one column per option and a total
      column; each option column shows exactly one option's key or answer,
      count and (for a charted question) rate, each option has a column,
      and counts never increase from left to right. A charted question has
      a response-count and a response-rate row, a skipped one only the
      former. */
  lemma SheetColumns(q: Question)
    requires WellFormed(q)
    ensures ProcessQuestion(q).Success?
    ensures |ProcessQuestion(q).value.sheet.rows| == (if q.skip then 1 else 2)
    ensures OptionColumns(ProcessQuestion(q).value.sheet, q.options)
  {
    if !q.skip {
      ChartedOutcome(q);
      ResponseTableColumns(SheetName(q.title), q.options);
    } else {
      SkippedOutcome(q);
      SkippedTableColumns(SheetName(q.title), q.options);
    }
  }

  /** A rearrangement of the rows built from a question's options has
      the options' total count. */
  lemma RowsTotal(t: seq<Row>, rows: seq<Row>, options: seq<(string, OptionValue)>)
    requires multiset(t) == multiset(rows)
    requires |rows| == |options|
    requires forall i :: 0 <= i < |options| ==> rows[i].value == Amount(options[i])
    ensures SumBy(t, RowValue) == SumBy(options, Amount)
  {
    SumByPermutation(t, rows, RowValue);
    SumByPointwise(rows, RowValue, options, Amount);
  }

  /** A rearrangement of the entries built from a question's options has
      the options' total count. */
  lemma EntriesTotal(t: seq<Entry>, entries: seq<Entry>, options: seq<(string, OptionValue)>)
    requires multiset(t) == multiset(entries)
    requires |entries| == |options|
    requires forall i :: 0 <= i < |options| ==> entries[i].value == Amount(options[i])
    ensures SumBy(t, EntryValue) == SumBy(options, Amount)
  {
    SumByPermutation(t, entries, EntryValue);
    SumByPointwise(entries, EntryValue, options, Amount);
  }

  /** The count row of the sheet written from rows built from some options
      ends with the options' total count. */
  lemma {:induction false} ResponseTableTotal(name: string, options: seq<(string, OptionValue)>)
    requires BuildRows(options).Success?
    ensures ResponseSheet(name, SheetTable(ChartTable(BuildRows(options).value), RowValue)).rows[0][|options| + 1]
      == Int(SumBy(options, Amount))
  {
    var rows := BuildRows(options).value;
    var t := SheetTable(ChartTable(rows), RowValue);
    assert |t| == |multiset(t)| == |rows|;
    RowsTotal(t, rows, options);
  }

  /** The count row of the sheet written from entries built from some
      options ends with the options' total count. */
  lemma {:induction false} SkippedTableTotal(name: string, options: seq<(string, OptionValue)>)
    requires BuildEntries(options).Success?
    ensures SkippedSheet(name, SheetTable(BuildEntries(options).value, EntryValue)).rows[0][|options| + 1]
      == Int(SumBy(options, Amount))
  {
    var entries := BuildEntries(options).value;
    var t := SheetTable(entries, EntryValue);
    assert |t| == |multiset(t)| == |entries|;
    EntriesTotal(t, entries, options);
  }

  /** A charted question's response-count total is its options' total count. */
  lemma ChartedSheetTotal(q: Question)
    requires !q.skip && WellFormed(q)
    ensures ProcessQuestion(q).value.sheet.rows[0][|q.options| + 1] == Int(SumBy(q.options, Amount))
  {
    ChartedOutcome(q);
    ResponseTableTotal(SheetName(q.title), q.options);
  }

  /** A skipped question's response-count total is its options' total count. */
  lemma SkippedSheetTotal(q: Question)
    requires q.skip && WellFormed(q)
    ensures ProcessQuestion(q).value.sheet.rows[0][|q.options| + 1] == Int(SumBy(q.options, Amount))
  {
    SkippedOutcome(q);
    SkippedTableTotal(SheetName(q.title), q.options);
  }

  /** The total column of the response-count row is the sum of all the
      options' counts, whatever order the sheet shows them in. */
  lemma SheetTotal(q: Question)
    requires WellFormed(q)
    ensures ProcessQuestion(q).value.sheet.rows[0][|q.options| + 1] == Int(SumBy(q.options, Amount))
  {
    if q.skip {
      SkippedSheetTotal(q);
    } else {
      ChartedSheetTotal(q);
    }
  }

  /** The pie drawn from rows built from some options reads back those
      options' total count. */
  lemma {:induction false} PieTableTotal(title: string, options: seq<(string, OptionValue)>)
    requires BuildRows(options).Success? && |options| < 3
    ensures PieChart(title, ChartTable(BuildRows(options).value)).Success?
    ensures RecoveredTotal(SliceLegends(PieChart(title, ChartTable(BuildRows(options).value)).value.slices))
      == Some(SumBy(options, Amount))
  {
    var rows := BuildRows(options).value;
    var df := ChartTable(rows);
    assert |df| == |multiset(df)| == |rows|;
    PieLegendsTotal(title, df);
    RowsTotal(df, rows, options);
  }

  /** Reading the counts back out of a pie's legend entries and adding
      them up gives the options' total count, which is the total the
      worksheet's response-count row shows. */
  lemma PieLegendsMatchSheetTotal(q: Question)
    requires !q.skip && WellFormed(q) && |q.options| < 3
    ensures var p := ProcessQuestion(q).value;
      && p.chart.value.Pie?
      && RecoveredTotal(SliceLegends(p.chart.value.slices)) == Some(SumBy(q.options, Amount))
      && p.sheet.rows[0][|q.options| + 1] == Int(SumBy(q.options, Amount))
  {
    ChartedOutcome(q);
    PieTableTotal(q.title, q.options);
    SheetTotal(q);
  }
}
