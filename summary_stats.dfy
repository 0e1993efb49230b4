/** The summary-statistics panel: the lookup of the selected variable's
    precomputed statistics, the heading label, the number formatter and the
    condition for the lowest/highest block. */
module SummaryStats {
  import opened Js
  import opened JsStrings
  import opened Display

  /** The statistics the backend precomputes for one variable. A number field is
      `None` when it is `null` or missing; `count` and the entity names are
      shown as they come. */
  datatype Stats = Stats(
    mean: Option<real>, median: Option<real>, min: Option<real>, max: Option<real>,
    count: JsValue, minEntityName: JsValue, maxEntityName: JsValue)

  /** The "Lowest:" and "Highest:" entries. */
  datatype Extremes = Extremes(lowest: JsValue, highest: JsValue)

  /** The panel: the "No statistics available for the selected variable."
      placeholder, or the heading, the five statistics and the optional extremes. */
  datatype StatsView =
    | NoStatistics
    | StatsPanel(heading: string, mean: Formatted, median: Formatted, minimum: Formatted,
                 maximum: Formatted, count: JsValue, extremes: Option<Extremes>)

  /** A variable identifier that the panel treats as a percentage. */
  predicate IsPercentId(variableId: string)
    ensures IsPercentId(variableId) <==>
      (exists i :: OccursAt(variableId, "percentage", i)) || (exists i :: OccursAt(variableId, "rate", i))
  {
    ContainsIff(variableId, "percentage");
    ContainsIff(variableId, "rate");
    Contains(variableId, "percentage") || Contains(variableId, "rate")
  }

  /** `formatNumber`: N/A for a missing number before any other rule, then the
      percentage rule by identifier, then grouping from 1000 in magnitude. */
  function FormatNumber(variableId: string, num: Option<real>): (r: Formatted)
    ensures r == NotAvailable <==> num.None?
    ensures num.Some? ==> r.value == num.value
    ensures r.Percent1? <==> num.Some? && IsPercentId(variableId)
    ensures r.Grouped? <==> num.Some? && !IsPercentId(variableId) && Abs(num.value) >= 1000.0
    ensures r.Fixed2? <==> num.Some? && !IsPercentId(variableId) && Abs(num.value) < 1000.0
  {
    match num
    case None => NotAvailable
    case Some(n) =>
      if IsPercentId(variableId) then Percent1(n)
      else if Abs(n) >= 1000.0 then Grouped(n)
      else Fixed2(n)
  }

  /** The extremes block, shown only when both entity names are truthy. */
  function ExtremesOf(stats: Stats): (e: Option<Extremes>)
    ensures e.Some? <==> Truthy(stats.minEntityName) && Truthy(stats.maxEntityName)
    ensures e.Some? ==> e.value == Extremes(stats.minEntityName, stats.maxEntityName)
  {
    if Truthy(stats.minEntityName) && Truthy(stats.maxEntityName)
    then Some(Extremes(stats.minEntityName, stats.maxEntityName))
    else None
  }

  function SummaryStatsPanel(statistics: map<string, Stats>, labels: map<string, string>, selectedVariableId: string): (v: StatsView)
    ensures v == NoStatistics <==> selectedVariableId !in statistics
    ensures v.StatsPanel? ==>
      var s := statistics[selectedVariableId];
      && v.heading == LabelFor(labels, selectedVariableId)
      && v.mean == FormatNumber(selectedVariableId, s.mean)
      && v.median == FormatNumber(selectedVariableId, s.median)
      && v.minimum == FormatNumber(selectedVariableId, s.min)
      && v.maximum == FormatNumber(selectedVariableId, s.max)
      && v.count == s.count
      && v.extremes == ExtremesOf(s)
  {
    if selectedVariableId !in statistics then NoStatistics
    else
      var s := statistics[selectedVariableId];
      StatsPanel(
        LabelFor(labels, selectedVariableId),
        FormatNumber(selectedVariableId, s.mean),
        FormatNumber(selectedVariableId, s.median),
        FormatNumber(selectedVariableId, s.min),
        FormatNumber(selectedVariableId, s.max),
        s.count,
        ExtremesOf(s))
  }

  /** For a percentage identifier every present statistic is shown as a
      percentage and every missing one as N/A, whatever the magnitudes; the count
      is never formatted. */
  lemma PercentPanel(statistics: map<string, Stats>, labels: map<string, string>, id: string)
    requires id in statistics && IsPercentId(id)
    ensures var v := SummaryStatsPanel(statistics, labels, id);
      && v.StatsPanel?
      && (forall f :: f in [v.mean, v.median, v.minimum, v.maximum] ==> f.Percent1? || f.NotAvailable?)
      && v.count == statistics[id].count
  {
  }

  /** The identifier test is by lower-case substring: "poverty_rate" is a
      percentage, and so is any identifier containing "rate", such as
      "immigrated_total". */
  lemma PercentIdExamples()
    ensures FormatNumber("poverty_rate", Some(12345.0)) == Percent1(12345.0)
    ensures FormatNumber("immigrated_total", Some(5000.0)) == Percent1(5000.0)
  {
    ContainsAt("poverty_rate", "rate", 8);
    ContainsAt("immigrated_total", "rate", 5);
  }

  /** ... while "median_household_income" is grouped from 1000 in magnitude,
      shown to two decimals below, and N/A when missing. */
  lemma PlainIdExamples()
    ensures FormatNumber("median_household_income", Some(-12345.0)) == Grouped(-12345.0)
    ensures FormatNumber("median_household_income", Some(999.5)) == Fixed2(999.5)
    ensures FormatNumber("median_household_income", None) == NotAvailable
  {
    var id := "median_household_income";
    assert 'r' !in id && 'p' !in id;
    MissingFirstChar(id, "rate");
    MissingFirstChar(id, "percentage");
  }
}
