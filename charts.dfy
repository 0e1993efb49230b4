/** The charts panel of the dashboard: the empty-charts guard, the dispatch on
    each chart's type, the series-name fallback, and the two number formatters
    handed to the chart library (the y-axis tick formatter and the tooltip
    formatter). Drawing the bars is the library's business and is not modelled. */
module Charts {
  import opened Js
  import opened JsStrings
  import opened Display

  /** One bar: a category name and its value. */
  datatype DataPoint = DataPoint(name: string, value: real)

  datatype Chart = Chart(chartType: string, title: string, variableId: string, data: seq<DataPoint>)

  /** What is rendered for one chart: a bar chart with a title, its data and the
      bar series name, or the "Chart type ... not supported yet." message. */
  datatype ChartBlock =
    | BarChartBlock(title: string, data: seq<DataPoint>, seriesName: string)
    | UnsupportedBlock(chartType: string)

  /** The panel: the "No chart data available." placeholder, or one block per chart. */
  datatype ChartsView = NoChartData | ChartBlocks(blocks: seq<ChartBlock>)

  /** The only chart type that is drawn. */
  const BarChartType: string := "bar_chart"

  function RenderChart(c: Chart, labels: map<string, string>): (b: ChartBlock)
    ensures b.BarChartBlock? <==> c.chartType == BarChartType
    ensures b.BarChartBlock? ==> b == BarChartBlock(c.title, c.data, LabelFor(labels, c.variableId))
    ensures b.UnsupportedBlock? ==> b.chartType == c.chartType
  {
    if c.chartType == BarChartType then BarChartBlock(c.title, c.data, LabelFor(labels, c.variableId))
    else UnsupportedBlock(c.chartType)
  }

  /** `charts` is `None` when the payload has no charts field. */
  function ChartsPanel(charts: Option<seq<Chart>>, labels: map<string, string>): (v: ChartsView)
    ensures v == NoChartData <==> charts.None? || charts.value == []
    ensures v.ChartBlocks? ==>
      && charts.Some? && |v.blocks| == |charts.value|
      && forall i :: 0 <= i < |charts.value| ==> v.blocks[i] == RenderChart(charts.value[i], labels)
  {
    match charts
    case None => NoChartData
    case Some(cs) =>
      if cs == [] then NoChartData
      else ChartBlocks(seq(|cs|, i requires 0 <= i < |cs| => RenderChart(cs[i], labels)))
  }

  /** The y-axis tick label: millions with an "M", thousands with a "K", or the
      value as it is. The mantissa is what `toFixed(1)` receives. */
  datatype Tick = Millions(mantissa: real) | Thousands(mantissa: real) | Plain(value: real)

  function TickFormat(v: real): (t: Tick)
    ensures t.Millions? <==> Abs(v) >= 1000000.0
    ensures t.Thousands? <==> 1000.0 <= Abs(v) < 1000000.0
    ensures t.Plain? <==> Abs(v) < 1000.0
  {
    if Abs(v) >= 1000000.0 then Millions(v / 1000000.0)
    else if Abs(v) >= 1000.0 then Thousands(v / 1000.0)
    else Plain(v)
  }

  /** The number a tick label stands for, reading its suffix as a unit. */
  function TickMeaning(t: Tick): real
  {
    match t
    case Millions(m) => m * 1000000.0
    case Thousands(m) => m * 1000.0
    case Plain(v) => v
  }

  /** Reading a tick label back gives the tick's value (before rounding), and
      the mantissa of a suffixed label is at least 1 in magnitude, below 1000
      for thousands. */
  lemma TickRoundTrip(v: real)
    ensures TickMeaning(TickFormat(v)) == v
    ensures TickFormat(v).Millions? ==> Abs(TickFormat(v).mantissa) >= 1.0
    ensures TickFormat(v).Thousands? ==> 1.0 <= Abs(TickFormat(v).mantissa) < 1000.0
  {
  }

  /** A series name that the tooltip treats as a percentage. */
  predicate IsPercentName(name: string)
    ensures IsPercentName(name) <==>
      name != "" && ((exists i :: OccursAt(name, "%", i)) || (exists i :: OccursAt(name, "Rate", i))
                     || (exists i :: OccursAt(name, "Percentage", i)))
  {
    ContainsIff(name, "%");
    ContainsIff(name, "Rate");
    ContainsIff(name, "Percentage");
    name != "" && (Contains(name, "%") || Contains(name, "Rate") || Contains(name, "Percentage"))
  }

  /** The tooltip formatter: the formatted value and the series name unchanged. */
  function FormatTooltipValue(value: real, name: string): (r: (Formatted, string))
    ensures r.1 == name
    ensures !r.0.NotAvailable? && r.0.value == value
    ensures r.0.Percent1? <==> IsPercentName(name)
    ensures r.0.Grouped? <==> !IsPercentName(name) && Abs(value) >= 1000.0
    ensures r.0.Fixed2? <==> !IsPercentName(name) && Abs(value) < 1000.0
  {
    if IsPercentName(name) then (Percent1(value), name)
    else if Abs(value) >= 1000.0 then (Grouped(value), name)
    else (Fixed2(value), name)
  }

  /** The percentage test is by substring and case-sensitive: a rate spelled
      "Poverty Rate" is a percentage whatever its size. */
  lemma CapitalRateIsPercent()
    ensures FormatTooltipValue(2500.0, "Poverty Rate").0 == Percent1(2500.0)
  {
    ContainsAt("Poverty Rate", "Rate", 8);
  }

  /** ... while a lower-case "poverty rate" is not a percentage name. */
  lemma LowerRateIsNotPercent()
    ensures FormatTooltipValue(2500.0, "poverty rate").0 == Grouped(2500.0)
  {
    var name := "poverty rate";
    assert '%' !in name && 'R' !in name && 'P' !in name;
    MissingFirstChar(name, "%");
    MissingFirstChar(name, "Rate");
    MissingFirstChar(name, "Percentage");
    assert !IsPercentName(name);
  }
}
