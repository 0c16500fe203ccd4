/** One survey file, question by question: build the option tables, choose
    the chart by the number of options, lay out the worksheet, and collect
    the sheets and charts of the whole file. */
module Survey {
  import opened Results
  import opened Text
  import opened Ordering
  import opened Tables
  import opened Charts

  /** An option's tally as read from the file: a nested `value`/`percent`
      record for a charted question, a bare count for a skipped one. */
  datatype OptionValue = Tally(value: int, percent: string) | Count(n: int)

  /** One question: its title, its skip flag and its options in file order. */
  datatype Question = Question(title: string, skip: bool, options: seq<(string, OptionValue)>)

  /** Why a question aborts the run: an option of the wrong kind for the
      question's skip flag, or a chart that cannot be built. */
  datatype Error = NotATally(key: string) | NotACount(key: string) | ChartFailed(cause: ChartError)

  /** What a question leaves behind: its worksheet and, unless skipped, its chart. */
  datatype Processed = Processed(sheet: Sheet, chart: Option<Chart>)

  /** The count an option carries, whichever kind it is. */
  function Amount(o: (string, OptionValue)): int {
    match o.1
    case Tally(v, _) => v
    case Count(n) => n
  }

  /** One table row per option of a charted question, in file order; the
      first option without a nested record aborts. */
  function BuildRows(options: seq<(string, OptionValue)>): (r: Result<seq<Row>, Error>)
    ensures r.Success? <==> forall i :: 0 <= i < |options| ==> options[i].1.Tally?
    ensures r.Success? ==>
      && |r.value| == |options|
      && forall i :: 0 <= i < |options| ==>
           r.value[i] == Row(options[i].0, options[i].1.value, options[i].1.percent)
    ensures r.Failure? ==>
      exists i ::
        && 0 <= i < |options|
        && options[i].1.Count?
        && r.error == NotATally(options[i].0)
        && forall j :: 0 <= j < i ==> options[j].1.Tally?
  {
    if |options| == 0 then Success([])
    else
      var (key, v) := options[0];
      match v
      case Count(_) => Failure(NotATally(key))
      case Tally(value, percent) =>
        match BuildRows(options[1..])
        case Failure(e) =>
          var i :| 0 <= i < |options[1..]| && options[1..][i].1.Count?
            && e == NotATally(options[1..][i].0)
            && forall j :: 0 <= j < i ==> options[1..][j].1.Tally?;
          assert options[i + 1] == options[1..][i];
          Failure(e)
        case Success(rest) => Success([Row(key, value, percent)] + rest)
  }

  /** One table entry per option of a skipped question, in file order; an
      option holding a nested record makes the sort or the total fail. */
  function BuildEntries(options: seq<(string, OptionValue)>): (r: Result<seq<Entry>, Error>)
    ensures r.Success? <==> forall i :: 0 <= i < |options| ==> options[i].1.Count?
    ensures r.Success? ==>
      && |r.value| == |options|
      && forall i :: 0 <= i < |options| ==> r.value[i] == Entry(options[i].0, options[i].1.n)
    ensures r.Failure? ==>
      exists i :: 0 <= i < |options| && options[i].1.Tally? && r.error == NotACount(options[i].0)
  {
    if |options| == 0 then Success([])
    else
      var (key, v) := options[0];
      match v
      case Tally(_, _) => Failure(NotACount(key))
      case Count(n) =>
        match BuildEntries(options[1..])
        case Failure(e) =>
          var i :| 0 <= i < |options[1..]| && options[1..][i].1.Tally?
            && e == NotACount(options[1..][i].0);
          assert options[i + 1] == options[1..][i];
          Failure(e)
        case Success(rest) => Success([Entry(key, n)] + rest)
  }

  /** Every option has the kind the question's skip flag calls for. */
  predicate WellFormed(q: Question) {
    if q.skip then forall i :: 0 <= i < |q.options| ==> q.options[i].1.Count?
    else forall i :: 0 <= i < |q.options| ==> q.options[i].1.Tally?
  }

  /** One question end to end. A charted question is drawn as a pie when it
      has fewer than three options and as horizontal bars otherwise; a
      skipped question gets no chart. The sheet is built before the chart,
      but is kept only when the chart succeeds. */
  function ProcessQuestion(q: Question): (r: Result<Processed, Error>)
    ensures r.Success? <==> WellFormed(q)
    ensures r.Success? ==> r.value.sheet.name == SheetName(q.title)
    ensures r.Success? ==> (r.value.chart.None? <==> q.skip)
    ensures r.Success? && !q.skip ==> r.value.chart.value.title == q.title
    ensures r.Success? && !q.skip ==> (r.value.chart.value.Pie? <==> |q.options| < 3)
    ensures r.Success? ==> |r.value.sheet.rows| == (if q.skip then 1 else 2)
    ensures r.Success? ==> Rectangular(r.value.sheet) && |r.value.sheet.header| == |q.options| + 2
  {
    var name := SheetName(q.title);
    if !q.skip then
      match BuildRows(q.options)
      case Failure(e) => Failure(e)
      case Success(rows) =>
        var df := ChartTable(rows);
        var sheet := ResponseSheet(name, SheetTable(df, RowValue));
        var chart := if |q.options| < 3 then PieChart(q.title, df) else Success(BarChart(q.title, df));
        match chart
        case Failure(e) => Failure(ChartFailed(e))
        case Success(c) => Success(Processed(sheet, Some(c)))
    else
      match BuildEntries(q.options)
      case Failure(e) => Failure(e)
      case Success(entries) =>
        Success(Processed(SkippedSheet(name, SheetTable(entries, EntryValue)), None))
  }

  /** What a charted question with options of the right kind turns into:
      the sheet written from the descending table and the chart drawn from
      the chart table. */
  lemma ChartedOutcome(q: Question)
    requires !q.skip && WellFormed(q)
    ensures BuildRows(q.options).Success? && |BuildRows(q.options).value| == |q.options|
    ensures var df := ChartTable(BuildRows(q.options).value);
      && |df| == |q.options|
      && ProcessQuestion(q).Success?
      && ProcessQuestion(q).value.sheet == ResponseSheet(SheetName(q.title), SheetTable(df, RowValue))
      && (|q.options| < 3 ==>
            && PieChart(q.title, df).Success?
            && ProcessQuestion(q).value.chart == Some(PieChart(q.title, df).value))
      && (|q.options| >= 3 ==> ProcessQuestion(q).value.chart == Some(BarChart(q.title, df)))
  {
    var df := ChartTable(BuildRows(q.options).value);
    assert |df| == |multiset(df)|;
  }

  /** What a skipped question with plain counts turns into: a one-row sheet
      written from the descending table, and no chart. */
  lemma SkippedOutcome(q: Question)
    requires q.skip && WellFormed(q)
    ensures BuildEntries(q.options).Success?
    ensures ProcessQuestion(q) ==
      Success(Processed(SkippedSheet(SheetName(q.title), SheetTable(BuildEntries(q.options).value, EntryValue)), None))
  {
  }

  /** The name a file's outputs are filed under: the file name up to its
      first `.`, or all of it when it has none. */
  function BaseName(filename: string): (r: string)
    ensures '.' !in r
    ensures r <= filename
    ensures |r| < |filename| ==> filename[|r|] == '.'
  {
    PrefixBefore(filename, '.')
  }

  /** What processing one file leaves behind: the output directory and the
      workbook file named after the file, the sheets the workbook receives in
      question order, the charts exported, and the error that stopped the
      run, if any. The workbook is closed, and so written, even when a
      question fails; it then holds the sheets of the questions before it. */
  datatype SurveyRun = SurveyRun(
    outputDir: string,
    workbook: string,
    sheets: seq<Sheet>,
    charts: seq<Chart>,
    failure: Option<Error>)

  /** The chart a question contributes, if any. */
  function ChartOf(q: Question): (r: seq<Chart>)
    ensures |r| <= 1
    ensures |r| == 1 <==> ProcessQuestion(q).Success? && !q.skip
  {
    match ProcessQuestion(q)
    case Success(Processed(_, Some(c))) => [c]
    case _ => []
  }

  /** The charts a run of questions contributes, in question order. */
  function ChartsOf(qs: seq<Question>): seq<Chart> {
    if |qs| == 0 then [] else ChartsOf(qs[..|qs| - 1]) + ChartOf(qs[|qs| - 1])
  }

  lemma ChartsOfSnoc(qs: seq<Question>, i: nat)
    requires i < |qs|
    ensures ChartsOf(qs[..i + 1]) == ChartsOf(qs[..i]) + ChartOf(qs[i])
  {
    assert qs[..i + 1][..i] == qs[..i];
  }

  lemma ChartOfProcessed(q: Question)
    requires WellFormed(q)
    ensures var p := ProcessQuestion(q).value;
      ChartOf(q) == if p.chart.Some? then [p.chart.value] else []
  {
  }

  /** How many of the questions are charted, that is, not skipped. */
  function ChartedCount(qs: seq<Question>): nat {
    if |qs| == 0 then 0 else ChartedCount(qs[..|qs| - 1]) + (if qs[|qs| - 1].skip then 0 else 1)
  }

  /** A run whose questions all succeed exports one chart per charted question. */
  lemma {:induction false} ChartsOfCount(qs: seq<Question>)
    requires forall i :: 0 <= i < |qs| ==> WellFormed(qs[i])
    ensures |ChartsOf(qs)| == ChartedCount(qs)
    decreases |qs|
  {
    if |qs| > 0 {
      ChartsOfCount(qs[..|qs| - 1]);
    }
  }

  /** Processes the questions of one file in order, stopping at the first
      that fails. */
  method RunSurvey(filename: string, questions: seq<Question>) returns (run: SurveyRun)
    ensures run.outputDir == BaseName(filename)
    ensures run.workbook == BaseName(filename) + ".xlsx"
    ensures |run.sheets| <= |questions|
    ensures forall i :: 0 <= i < |run.sheets| ==>
      && ProcessQuestion(questions[i]).Success?
      && run.sheets[i] == ProcessQuestion(questions[i]).value.sheet
      && '?' !in run.sheets[i].name
    ensures run.failure.None? <==> |run.sheets| == |questions|
    ensures run.failure.None? <==> forall i :: 0 <= i < |questions| ==> WellFormed(questions[i])
    ensures run.failure.Some? ==> ProcessQuestion(questions[|run.sheets|]) == Failure(run.failure.value)
    ensures run.charts == ChartsOf(questions[..|run.sheets|])
  {
    var base := BaseName(filename);
    var sheets: seq<Sheet> := [];
    var charts: seq<Chart> := [];
    var i := 0;
    while i < |questions|
      invariant 0 <= i <= |questions|
      invariant |sheets| == i
      invariant forall j :: 0 <= j < i ==>
        ProcessQuestion(questions[j]).Success? && sheets[j] == ProcessQuestion(questions[j]).value.sheet
      invariant charts == ChartsOf(questions[..i])
    {
      var outcome := ProcessQuestion(questions[i]);
      if outcome.Failure? {
        return SurveyRun(base, base + ".xlsx", sheets, charts, Some(outcome.error));
      }
      var p := outcome.value;
      ChartsOfSnoc(questions, i);
      ChartOfProcessed(questions[i]);
      var done := sheets;
      sheets := sheets + [p.sheet];
      forall j | 0 <= j < i + 1
        ensures ProcessQuestion(questions[j]).Success? && sheets[j] == ProcessQuestion(questions[j]).value.sheet
      {
        if j < i {
          assert sheets[j] == done[j];
        }
      }
      if p.chart.Some? {
        charts := charts + [p.chart.value];
      }
      i := i + 1;
    }
    assert questions[..i] == questions;
    return SurveyRun(base, base + ".xlsx", sheets, charts, None);
  }
}
