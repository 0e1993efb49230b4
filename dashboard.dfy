/** The dashboard view: the selected-variable state, its change handler, the
    props handed to the selector, map, statistics and charts, and the insights
    list. The payload is held as given; changing the variable does not fetch. */
module Dashboard {
  import opened Js
  import opened SummaryStats
  import opened Charts
  import opened Display

  /** An entry of the variable selector's dropdown. */
  datatype Variable = Variable(id: string, name: string)

  datatype Metadata = Metadata(
    geographyLevel: string, displayVariableId: string,
    availableVariables: seq<Variable>, variableLabels: map<string, string>)

  /** One demographic record of the payload, passed through to the map as it is. */
  type Record = map<string, JsValue>

  /** The `dashboard_data` payload from the backend. */
  datatype DashboardData = DashboardData(
    data: seq<Record>, summaryStatistics: map<string, Stats>, charts: Option<seq<Chart>>,
    insights: Option<seq<string>>, summaryText: string, metadata: Metadata)

  datatype SelectorProps = SelectorProps(availableVariables: seq<Variable>, selectedVariableId: string)

  /** The props the dashboard hands its map, under the names it uses; they are
      not the `geojsonData` and `variableId` the map component reads. */
  datatype PassedMapProps = PassedMapProps(data: seq<Record>, displayVariableId: string, variableLabels: map<string, string>, geographyLevel: string)

  /** Everything the dashboard renders, child by child; `insights` is `None`
      when the "Key Insights" section is left out. */
  datatype DashboardView = DashboardView(
    summaryText: string, selector: SelectorProps, mapDisplay: PassedMapProps, stats: StatsView,
    charts: ChartsView, insights: Option<seq<string>>)

  /** The insights section: present only for a non-empty list, one item per
      insight in order. */
  function InsightsOf(insights: Option<seq<string>>): (r: Option<seq<string>>)
    ensures r.Some? <==> insights.Some? && insights.value != []
    ensures r.Some? ==> r.value == insights.value
  {
    if insights.Some? && |insights.value| > 0 then insights else None
  }

  /** The render for a given selection: the same identifier reaches the
      selector, the map and the statistics panel; the charts get the payload's
      charts and labels. */
  function RenderDashboard(d: DashboardData, selected: string): (v: DashboardView)
    ensures v.selector == SelectorProps(d.metadata.availableVariables, selected)
    ensures v.mapDisplay == PassedMapProps(d.data, selected, d.metadata.variableLabels, d.metadata.geographyLevel)
    ensures v.stats == SummaryStatsPanel(d.summaryStatistics, d.metadata.variableLabels, selected)
    ensures v.charts == ChartsPanel(d.charts, d.metadata.variableLabels)
    ensures v.summaryText == d.summaryText && v.insights == InsightsOf(d.insights)
  {
    DashboardView(
      d.summaryText,
      SelectorProps(d.metadata.availableVariables, selected),
      PassedMapProps(d.data, selected, d.metadata.variableLabels, d.metadata.geographyLevel),
      SummaryStatsPanel(d.summaryStatistics, d.metadata.variableLabels, selected),
      ChartsPanel(d.charts, d.metadata.variableLabels),
      InsightsOf(d.insights))
  }

  /** Changing the selection changes only what the selection feeds: the
      summary text, the charts panel, the insights, the map's records and the
      dropdown's entries are the same for every selection, and a selection
      without statistics shows the placeholder. */
  lemma SelectionOnlyFeedsSelectedParts(d: DashboardData, a: string, b: string)
    ensures var va := RenderDashboard(d, a); var vb := RenderDashboard(d, b);
      && va.summaryText == vb.summaryText && va.charts == vb.charts && va.insights == vb.insights
      && va.mapDisplay.data == vb.mapDisplay.data
      && va.selector.availableVariables == vb.selector.availableVariables
      && va.mapDisplay.displayVariableId == a && vb.mapDisplay.displayVariableId == b
      && (va.stats == NoStatistics <==> a !in d.summaryStatistics)
  {
  }

  /** The statistics panel depends on the selection only through its entry,
      its label and whether its identifier reads as a percentage: two selections
      that agree on those three render the same panel, and a selection that
      differs from another only in the percentage test shows the same numbers
      in the other format. */
  lemma StatsFollowEntry(d: DashboardData, a: string, b: string)
    requires a in d.summaryStatistics && b in d.summaryStatistics
    requires d.summaryStatistics[a] == d.summaryStatistics[b]
    requires LabelFor(d.metadata.variableLabels, a) == LabelFor(d.metadata.variableLabels, b)
    ensures IsPercentId(a) == IsPercentId(b) ==> RenderDashboard(d, a).stats == RenderDashboard(d, b).stats
    ensures var sa := RenderDashboard(d, a).stats; var sb := RenderDashboard(d, b).stats;
      && sa.StatsPanel? && sb.StatsPanel? && sa.heading == sb.heading && sa.count == sb.count
      && sa.extremes == sb.extremes
      && (IsPercentId(a) && !IsPercentId(b) && d.summaryStatistics[a].mean.Some? ==>
            sa.mean == Percent1(d.summaryStatistics[a].mean.value) && !sb.mean.Percent1?)
  {
  }

  /** The component, with the one piece of state it keeps. */
  class DashboardState {
    const dashboardData: DashboardData
    var selectedVariableId: string

    function View(): DashboardView
      reads this
    {
      RenderDashboard(dashboardData, selectedVariableId)
    }

    /** The selection starts at the payload's display variable. */
    constructor (dashboardData: DashboardData)
      ensures this.dashboardData == dashboardData
      ensures selectedVariableId == dashboardData.metadata.displayVariableId
      ensures View() == RenderDashboard(dashboardData, dashboardData.metadata.displayVariableId)
    {
      this.dashboardData := dashboardData;
      selectedVariableId := dashboardData.metadata.displayVariableId;
    }

    /** The selector's change callback: the selection becomes exactly the new
        identifier and the payload is left as it was. */
    method HandleVariableChange(newVariableId: string)
      modifies this`selectedVariableId
      ensures selectedVariableId == newVariableId
      ensures View() == RenderDashboard(dashboardData, newVariableId)
    {
      selectedVariableId := newVariableId;
    }
  }
}
