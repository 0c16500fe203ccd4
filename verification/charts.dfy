/** The chart side of a charted question: the legend text shown for each
    option, the pie chart's colours and the horizontal bar chart's labels
    and size. Drawing and image export are outside the model. */
module Charts {
  import opened Results
  import opened Text
  import opened Ordering
  import opened Tables

  /** The pie chart's colours, one per slice in table order. */
  const Palette: seq<string> := ["#f44336", "#2196f3"]

  /** The single fill colour of every bar. */
  const BarFill: string := "#a7c5eb"

  /** The most characters a bar label keeps. */
  const LabelLimit: nat := 50

  /** One pie slice: its table row, its colour and its legend entry. */
  datatype Slice = Slice(row: Row, color: string, legend: string)

  /** One bar: its table row and its axis label text. */
  datatype Bar = Bar(row: Row, caption: string)

  /** A chart, titled with the question's title as given. Sizes are in pixels. */
  datatype Chart =
    | Pie(title: string, slices: seq<Slice>)
    | HorizontalBar(title: string, bars: seq<Bar>, height: int, width: int, fill: string)

  /** Assigning a colour list to a table of another length fails. */
  datatype ChartError = ColorCountMismatch(rows: nat, colors: nat)

  /** The text shown for an option: `<answer> - <percent> (<value>)`. */
  function Legend(r: Row): (s: string)
    ensures var head := r.answer + " - " + r.percent;
      var tail := " (" + IntToDecimal(r.value) + ")";
      && |s| == |head| + |tail|
      && s[..|head|] == head
      && s[|head|..] == tail
  {
    r.answer + " - " + r.percent + " (" + IntToDecimal(r.value) + ")"
  }

  /** Reads the count back out of a legend: the integer between the last
      `(` and the closing `)`. */
  function LegendValue(s: string): (r: Option<int>)
    ensures r.Some? ==> |s| >= 3 && s[|s| - 1] == ')' && '(' in s
  {
    if |s| == 0 || s[|s| - 1] != ')' then None
    else
      var body := s[..|s| - 1];
      match LastIndexOf(body, '(')
      case None => None
      case Some(k) =>
        assert s[k] == '(';
        ParseDecimal(body[k + 1..])
  }

  /** A legend starts with its option's answer. */
  lemma LegendStartsWithAnswer(r: Row)
    ensures |r.answer| <= |Legend(r)| && Legend(r)[..|r.answer|] == r.answer
  {
  }

  /** The count can be read back out of a legend. */
  lemma LegendRoundTrip(r: Row)
    ensures LegendValue(Legend(r)) == Some(r.value)
  {
    var d := IntToDecimal(r.value);
    var head := r.answer + " - " + r.percent + " ";
    assert Legend(r) == head + "(" + d + ")";
    DecimalHasNoParenthesis(r.value);
    ParenthesizedTail(head, d);
    DecimalRoundTrip(r.value);
  }

  /** The label of a bar: the legend text cut to `LabelLimit` characters. */
  function BarLabel(r: Row): (caption: string)
    ensures |caption| <= LabelLimit
    ensures caption <= Legend(r)
    ensures |Legend(r)| <= LabelLimit ==> caption == Legend(r)
    ensures |Legend(r)| > LabelLimit ==> |caption| == LabelLimit
  {
    Truncate(Legend(r), LabelLimit)
  }

  /** A label that was not cut still gives back its option's count. */
  lemma ShortBarLabelKeepsValue(r: Row)
    requires |Legend(r)| <= LabelLimit
    ensures LegendValue(BarLabel(r)) == Some(r.value)
  {
    LegendRoundTrip(r);
  }

  /** One slice per row, coloured with the colours in order. */
  function Slices(t: seq<Row>, colors: seq<string>): (r: seq<Slice>)
    requires |t| <= |colors|
    ensures |r| == |t|
    ensures forall i :: 0 <= i < |t| ==> r[i] == Slice(t[i], colors[i], Legend(t[i]))
  {
    if |t| == 0 then [] else [Slice(t[0], colors[0], Legend(t[0]))] + Slices(t[1..], colors[1..])
  }

  /** A pie chart over the chart table `t`. Slice `i` takes colour `i` of the
      palette; with more rows than colours the colour list is too short for
      the table and the chart fails. */
  function PieChart(title: string, t: seq<Row>): (r: Result<Chart, ChartError>)
    ensures r.Success? <==> |t| <= |Palette|
    ensures r.Failure? ==> r.error == ColorCountMismatch(|t|, |Palette|)
    ensures r.Success? ==>
      r.value.Pie? && r.value.title == title && |r.value.slices| == |t|
      && forall i :: 0 <= i < |t| ==>
        r.value.slices[i].row == t[i]
        && r.value.slices[i].color == Palette[i]
        && r.value.slices[i].legend == Legend(t[i])
  {
    if |t| > |Palette| then Failure(ColorCountMismatch(|t|, |Palette|))
    else Success(Pie(title, Slices(t, Palette)))
  }

  /** Two slices of one pie never share a colour. */
  lemma PieColorsDistinct(title: string, t: seq<Row>, i: nat, j: nat)
    requires PieChart(title, t).Success?
    requires i < j < |t|
    ensures PieChart(title, t).value.slices[i].color != PieChart(title, t).value.slices[j].color
  {
  }

  /** One labelled bar per row, in order. */
  function Bars(t: seq<Row>): (r: seq<Bar>)
    ensures |r| == |t|
    ensures forall i :: 0 <= i < |t| ==> r[i] == Bar(t[i], BarLabel(t[i]))
  {
    if |t| == 0 then [] else [Bar(t[0], BarLabel(t[0]))] + Bars(t[1..])
  }

  /** A horizontal bar chart over the chart table `t`: 60 pixels taller per
      option beyond three, 6 pixels wider per title character. */
  function BarChart(title: string, t: seq<Row>): (r: Chart)
    ensures r.HorizontalBar? && r.title == title && r.fill == BarFill
    ensures |r.bars| == |t|
    ensures forall i :: 0 <= i < |t| ==> r.bars[i].row == t[i] && r.bars[i].caption == BarLabel(t[i])
    ensures r.height == 300 + 60 * (|t| - 3) && r.width == 600 + 6 * |title|
    ensures |t| >= 3 ==> r.height >= 300
    ensures r.width >= 600
  {
    var offset := (|t| - 3) * 60;
    var widthOffset := |title| * 6;
    HorizontalBar(title, Bars(t), 300 + offset, 600 + widthOffset, BarFill)
  }

  /** The table rows a chart was drawn from, in drawing order. */
  function ChartRows(c: Chart): (rows: seq<Row>)
    ensures c.Pie? ==> |rows| == |c.slices| && forall i :: 0 <= i < |rows| ==> rows[i] == c.slices[i].row
    ensures c.HorizontalBar? ==> |rows| == |c.bars| && forall i :: 0 <= i < |rows| ==> rows[i] == c.bars[i].row
  {
    match c
    case Pie(_, slices) => seq(|slices|, i requires 0 <= i < |slices| => slices[i].row)
    case HorizontalBar(_, bars, _, _, _) => seq(|bars|, i requires 0 <= i < |bars| => bars[i].row)
  }

  /** Both kinds of chart are drawn from their table's rows in table order. */
  lemma ChartRowsOfTable(title: string, t: seq<Row>)
    ensures ChartRows(BarChart(title, t)) == t
    ensures PieChart(title, t).Success? ==> ChartRows(PieChart(title, t).value) == t
  {
  }

  /** The sum of the counts read back from a list of legends, if every one parses. */
  function RecoveredTotal(legends: seq<string>): (r: Option<int>)
    ensures r.Some? <==> forall i :: 0 <= i < |legends| ==> LegendValue(legends[i]).Some?
  {
    if |legends| == 0 then Some(0)
    else
      var first := LegendValue(legends[0]);
      var rest := RecoveredTotal(legends[1..]);
      if first.Some? && rest.Some? then Some(first.value + rest.value) else None
  }

  /** The legend entries of a table, in table order. */
  function Legends(t: seq<Row>): (r: seq<string>)
    ensures |r| == |t|
    ensures forall i :: 0 <= i < |t| ==> r[i] == Legend(t[i])
  {
    if |t| == 0 then [] else [Legend(t[0])] + Legends(t[1..])
  }

  /** Legends that each give back their row's count add up to the table's total. */
  lemma {:induction false} RecoveredTotalOfValues(legends: seq<string>, t: seq<Row>)
    requires |legends| == |t|
    requires forall i :: 0 <= i < |t| ==> LegendValue(legends[i]) == Some(t[i].value)
    ensures RecoveredTotal(legends) == Some(SumBy(t, RowValue))
    decreases |t|
  {
    if |t| > 0 {
      RecoveredTotalOfValues(legends[1..], t[1..]);
    }
  }

  /** Reading the counts back out of a table's legends gives the table's total. */
  lemma RecoveredTotalOfLegends(t: seq<Row>)
    ensures RecoveredTotal(Legends(t)) == Some(SumBy(t, RowValue))
  {
    forall i | 0 <= i < |t| ensures LegendValue(Legends(t)[i]) == Some(t[i].value) {
      LegendRoundTrip(t[i]);
    }
    RecoveredTotalOfValues(Legends(t), t);
  }

  /** The legend entries of a pie, slice by slice. */
  function SliceLegends(slices: seq<Slice>): (r: seq<string>)
    ensures |r| == |slices|
    ensures forall i :: 0 <= i < |slices| ==> r[i] == slices[i].legend
  {
    seq(|slices|, i requires 0 <= i < |slices| => slices[i].legend)
  }

  /** Reading the counts back out of a pie's legend gives its table's total. */
  lemma PieLegendsTotal(title: string, t: seq<Row>)
    requires PieChart(title, t).Success?
    ensures RecoveredTotal(SliceLegends(PieChart(title, t).value.slices)) == Some(SumBy(t, RowValue))
  {
    assert SliceLegends(PieChart(title, t).value.slices) == Legends(t);
    RecoveredTotalOfLegends(t);
  }
}
