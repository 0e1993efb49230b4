# Census AI front end, modelled in Dafny

This project models the behaviour of the React front end of a conversational
U.S. Census explorer. The user types a question into a chat window and gets a
text answer back. A dashboard view shows a choropleth map, summary statistics,
bar charts and a list of insights for one selected variable.

The model covers five pieces of the front end:

- **Chat transcript** (`Chat`, from `src/App.jsx`). The `input`, `messages` and
  `isLoading` state, the submit handler and the disabled Send button. The
  request to the backend is an `Outcome` supplied by the caller:
  `Success(text)` or `Failure`. The class `Chat.ChatApp` keeps the component's
  state. Each of its methods is tied to a pure transition on `ChatState`
  (`Begin`, `Finish`, `Submit`, `Typed`). Lemmas over event runs prove that the
  transcript only grows. They also prove that, because Send is disabled while
  loading, user and AI messages strictly alternate.
- **Choropleth colouring** (`Choropleth`, from `src/components/MapDisplay.jsx`).
  Feature values are parsed and unparseable ones dropped. The domain is the
  minimum and maximum of what is left. Each feature gets a fill, a constant
  outline style and a tooltip, and the legend is built from the domain. The
  hover and mouse-out handlers restyle a layer in place, modelled by the class
  `Choropleth.FeatureLayer`. The chroma-js scale and `parseFloat` on strings are
  parameters (`Env`).
- **Charts panel** (`Charts`, from `src/components/ChartsPanel.jsx`). The
  empty-charts guard, the dispatch on `chart_type`, the series-name fallback,
  the y-axis tick rule (M/K suffix) and the tooltip formatter.
- **Summary statistics panel** (`SummaryStats`, from
  `src/components/SummaryStatsPanel.jsx`). The stats lookup and placeholder,
  the heading fallback, `formatNumber` and the lowest/highest condition.
- **Dashboard** (`Dashboard`, from `src/components/Dashboard.jsx`). The
  `selectedVariableId` state (the class `Dashboard.DashboardState`), its change
  handler, the props handed to each child, and the insights condition.

Shared helpers: `Js` holds JavaScript values, truthiness, `||` and `Math.abs`.
`JsStrings` holds `trim` and `includes`. `Display` holds the formatter branch
datatype and the `labels[id] || id` fallback.

Number formatting is modelled as the branch chosen (`Formatted`, `Tick`) and
the value handed to `toFixed`/`toLocaleString`, never as output text.

The dashboard hands its map the props `data` and `display_variable_id`
(src/components/Dashboard.jsx:32-33). The map component reads `geojsonData`
and `variableId` instead (src/components/MapDisplay.jsx:6). Inside the
dashboard `geojsonData` is therefore undefined, and reading its `features`
(src/components/MapDisplay.jsx:8) throws a TypeError, so the dashboard never
finishes rendering. The model records the props the dashboard passes
(`Dashboard.PassedMapProps`). It does not connect them to the choropleth, and
`Dashboard.RenderDashboard` describes the view the code builds up to that crash. 
Separately, the dashboard hands the charts panel the selected variable, but
the panel never reads it: it destructures only `charts` and `variableLabels`
(src/components/ChartsPanel.jsx:3). The charts therefore do not depend on the
selection.

A numeric value of `0` is coloured on the scale like any other parsed value.
Its tooltip still reads "No data", because the tooltip tests the raw value for
truthiness (src/components/MapDisplay.jsx:34). `Choropleth.ZeroColouredButNoData`
states this as the code does it.

## Model

| member | source | states |
|---|---|---|
| `JsStrings.TrimStart` | src/App.jsx:14 | the result is the suffix of the input from its first non-whitespace character; everything dropped is ECMAScript whitespace |
| `JsStrings.TrimEnd` | src/App.jsx:14 | the result is the prefix up to the last non-whitespace character; everything dropped is whitespace |
| `JsStrings.Trim` | src/App.jsx:14 | the result is a slice of the input with only whitespace before and after it, and it starts and ends with a non-whitespace character |
| `JsStrings.BlankIffAllWhitespace` | src/App.jsx:14 | `IsBlank`, that is `!input.trim()`, holds exactly when every character of the input is whitespace |
| `JsStrings.ContainsIff` | src/components/ChartsPanel.jsx:15 | the left-to-right scan for `includes` succeeds exactly when the needle occurs at some index |
| `JsStrings.MissingFirstChar` | src/components/SummaryStatsPanel.jsx:18 | a string lacking the needle's first character does not include the needle |
| `Chat.Reply` | src/App.jsx:24-29 | the settled request appends an `ai` message: the response text on success, the fixed apology on failure |
| `Chat.Typed` | src/App.jsx:52 | editing the textarea replaces the input and leaves messages and loading alone |
| `Chat.Begin` | src/App.jsx:14-19 | blank input is a no-op; otherwise one user message with the untrimmed input is appended, the input cleared and loading set |
| `Chat.Finish` | src/App.jsx:24-31 | exactly one AI message is appended to the current messages and loading cleared; the input is untouched |
| `Chat.Submit` | src/App.jsx:12-32 | a completed non-blank submit grows the transcript by exactly 2 (user message, then reply), keeps the old messages as a prefix, clears input and loading; a blank one changes nothing |
| `Chat.MessagesArea` | src/App.jsx:38-47 | one bubble per message in order, and the typing indicator is present exactly while loading |
| `Chat.RunAppendOnly` | src/App.jsx:17-29 | over any sequence of edits, sends and settlements the earlier transcript stays a prefix |
| `Chat.AppendTurn` | src/App.jsx:17-29 | appending the message of whoever's turn it is keeps the user/ai alternation |
| `Chat.SendEnabled` | src/App.jsx:56 | the Send button is enabled exactly when the typing indicator is not shown |
| `Chat.Possible` | src/App.jsx:52-56 | typing is always possible; Send is accepted exactly when no typing indicator shows; a request settles only while it shows |
| `Chat.SendTurn` | src/App.jsx:17-19 | appending a user message while idle, clearing the input and starting loading keeps the alternation and "odd length iff loading" |
| `Chat.BeginKeepsTurns` | src/App.jsx:14-19 | a send while no request is outstanding keeps the alternation and "odd length iff loading" |
| `Chat.FinishKeepsTurns` | src/App.jsx:24-31 | a settlement while a request is outstanding keeps the alternation and "odd length iff loading" |
| `Chat.StepKeepsTurns` | src/App.jsx:56 | one event the page can deliver (Send only when enabled) keeps the alternation and "odd length iff loading" |
| `Chat.RunKeepsTurns` | src/App.jsx:12-56 | with Send disabled while loading, every run keeps user and AI messages alternating, odd length exactly while a request is outstanding |
| `Chat.InitialTurns` | src/App.jsx:6-8 | the mounted component has an empty transcript, Send enabled and nothing shown |
| `Chat.ChatApp.constructor` | src/App.jsx:6-8 | the state starts empty, with no messages and not loading |
| `Chat.ChatApp.OnInputChange` | src/App.jsx:52 | the new state is `Typed` of the old |
| `Chat.ChatApp.BeginSubmit` | src/App.jsx:14-19 | the new state is `Begin` of the old, and a request starts exactly for non-blank input |
| `Chat.ChatApp.CompleteSubmit` | src/App.jsx:23-31 | the new state is `Finish` of the old with the outcome |
| `Chat.ChatApp.HandleSubmit` | src/App.jsx:12-32 | the new state is `Submit` of the old when nothing interleaves |
| `Choropleth.ParseFloat` | src/components/MapDisplay.jsx:9 | `undefined`/`null` do not parse, a number parses to itself, a string goes to the parser |
| `Choropleth.ValueOf` | src/components/MapDisplay.jsx:20 | a missing or `null` property gives NaN, a number gives itself, a string goes to the parser |
| `Choropleth.Values` | src/components/MapDisplay.jsx:8-10 | at most one value per feature |
| `Choropleth.ValuesExactly` | src/components/MapDisplay.jsx:8-10 | a number is in the domain list exactly when some feature's value parses to it |
| `Choropleth.MinOf` | src/components/MapDisplay.jsx:12 | `Math.min` of no values is +Infinity; otherwise a member of the list no greater than any member |
| `Choropleth.MaxOf` | src/components/MapDisplay.jsx:13 | `Math.max` of no values is -Infinity; otherwise a member of the list no smaller than any member |
| `Choropleth.DomainOf` | src/components/MapDisplay.jsx:12-13 | with parsed values the domain ends are the least and greatest of them; with none it is [+Infinity, -Infinity] |
| `Choropleth.DomainBounds` | src/components/MapDisplay.jsx:8-13 | with data, min ≤ every parsed value ≤ max and both ends are feature values; without data the domain is [+Infinity, -Infinity] |
| `Choropleth.Style` | src/components/MapDisplay.jsx:19-28 | fill is `#cccccc` when the value does not parse, else the scale colour at that value; weight 1, opacity 1, colour `#666`, fill opacity 0.7 |
| `Choropleth.ColouredWithinDomain` | src/components/MapDisplay.jsx:12-22 | every feature coloured from the scale is coloured at a point inside the scale's domain |
| `Choropleth.TooltipName` | src/components/MapDisplay.jsx:33 | the name is `NAME`, else `name`, else `'Unknown'`, and always truthy |
| `Choropleth.TooltipFor` | src/components/MapDisplay.jsx:32-43 | the value reads "No data" exactly when the raw value is falsy, else the localized parse |
| `Choropleth.ZeroColouredButNoData` | src/components/MapDisplay.jsx:19-34 | a numeric 0 is coloured at 0 on the scale but its tooltip reads "No data" |
| `Choropleth.ZeroTextShown` | src/components/MapDisplay.jsx:34 | the string "0" is truthy, so its tooltip shows its parse |
| `Choropleth.Whole` | src/components/MapDisplay.jsx:57 | `setStyle` with a full style object yields exactly that style, whatever was there |
| `Choropleth.HoverChangesOnlyOutline` | src/components/MapDisplay.jsx:47-53 | the mouse-over patch sets weight 2, colour `#333` and fill opacity 0.9 and keeps the fill colour and opacity |
| `Choropleth.LegendOf` | src/components/MapDisplay.jsx:83-97 | the labels are the domain's ends, the gradient runs between the scale's colours at those labels, and the description is the variable id |
| `Choropleth.LegendMatchesFeatures` | src/components/MapDisplay.jsx:83-97 | the labels are `minValue` and `maxValue`; with data they are finite, ordered and bound every parsed value, the gradient starts at the fill of a feature whose value is the low label and ends at the fill of a feature whose value is the high label; without data the labels are the infinities |
| `Choropleth.FeatureLayer.constructor` | src/components/MapDisplay.jsx:31-43 | a layer starts with `style(feature)` and its bound tooltip |
| `Choropleth.FeatureLayer.SetStyle` | src/components/MapDisplay.jsx:49 | the fields named by the patch are replaced and the others kept |
| `Choropleth.FeatureLayer.OnMouseOver` | src/components/MapDisplay.jsx:47-54 | only weight, outline colour and fill opacity change |
| `Choropleth.FeatureLayer.OnMouseOut` | src/components/MapDisplay.jsx:55-58 | the layer's style becomes exactly `style(feature)` |
| `Display.LabelFor` | src/components/ChartsPanel.jsx:32 | the label when it is a non-empty string, else the identifier; never blank unless the identifier is |
| `Charts.RenderChart` | src/components/ChartsPanel.jsx:31-82 | only `'bar_chart'` draws a chart, with the labelled series name; any other type yields the unsupported message naming that type |
| `Charts.ChartsPanel` | src/components/ChartsPanel.jsx:4-11 | missing or empty charts give only the placeholder; otherwise one block per chart, in input order |
| `Charts.TickFormat` | src/components/ChartsPanel.jsx:47-54 | M exactly from 1e6 in magnitude, K exactly from 1000 below that, the plain value below 1000 |
| `Charts.TickRoundTrip` | src/components/ChartsPanel.jsx:47-54 | reading a label's suffix as a unit gives back the tick value; M mantissas are ≥ 1, K mantissas in [1, 1000) |
| `Charts.IsPercentName` | src/components/ChartsPanel.jsx:15 | a name counts as a percentage exactly when it is non-empty and `%`, `Rate` or `Percentage` occurs in it at some index |
| `Charts.FormatTooltipValue` | src/components/ChartsPanel.jsx:13-25 | a percentage name gives a percent whatever the magnitude; otherwise grouped exactly from 1000, else two decimals; the value and the name pass through unchanged |
| `Charts.CapitalRateIsPercent` | src/components/ChartsPanel.jsx:15-16 | "Poverty Rate" is formatted as a percent even at 2500 |
| `Charts.LowerRateIsNotPercent` | src/components/ChartsPanel.jsx:15-21 | the name test is case-sensitive: "poverty rate" at 2500 is grouped |
| `SummaryStats.IsPercentId` | src/components/SummaryStatsPanel.jsx:18 | an identifier counts as a percentage exactly when `percentage` or `rate` occurs in it at some index |
| `SummaryStats.FormatNumber` | src/components/SummaryStatsPanel.jsx:14-28 | N/A exactly for null/undefined; otherwise a percent for an id containing `percentage` or `rate`, else grouped from 1000, else two decimals, always of the given value |
| `SummaryStats.ExtremesOf` | src/components/SummaryStatsPanel.jsx:62-73 | the Lowest/Highest block appears exactly when both entity names are truthy |
| `SummaryStats.SummaryStatsPanel` | src/components/SummaryStatsPanel.jsx:1-76 | no stats for the id gives only the placeholder; otherwise the heading falls back to the id, mean/median/min/max go through `formatNumber` and count is shown raw |
| `SummaryStats.PercentPanel` | src/components/SummaryStatsPanel.jsx:18-20 | for a percentage id every statistic is a percent or N/A, and the count stays raw |
| `SummaryStats.PercentIdExamples` | src/components/SummaryStatsPanel.jsx:18 | "poverty_rate", and also "immigrated_total" (which contains "rate"), are treated as percentages |
| `SummaryStats.PlainIdExamples` | src/components/SummaryStatsPanel.jsx:15-27 | "median_household_income" is grouped at -12345, two decimals at 999.5, N/A when missing |
| `Dashboard.InsightsOf` | src/components/Dashboard.jsx:55-63 | the insights list is rendered exactly when present and non-empty, with the insights in order |
| `Dashboard.RenderDashboard` | src/components/Dashboard.jsx:17-67 | the same selected id goes to the selector, the map props and the stats panel; the charts get the payload's charts and labels |
| `Dashboard.SelectionOnlyFeedsSelectedParts` | src/components/Dashboard.jsx:22-53 | two selections render the same summary, charts, insights, map records and dropdown entries; the placeholder shows exactly when there are no stats |
| `Dashboard.StatsFollowEntry` | src/components/Dashboard.jsx:39-43 | two selections with the same statistics entry and label render the same stats panel when both or neither read as percentages; otherwise only the number format differs |
| `Dashboard.DashboardState.constructor` | src/components/Dashboard.jsx:9-11 | the initial selection equals `metadata.display_variable_id` |
| `Dashboard.DashboardState.HandleVariableChange` | src/components/Dashboard.jsx:13-15 | the selection becomes exactly the new id; the payload is a constant field, so nothing else changes and nothing is fetched |

## Left out

- The POST to the backend, the backend URL environment lookup and the error logging (src/App.jsx:10,23,27). These are I/O. The request's result is the `Outcome` parameter.
- `Chat.HandleSubmit` runs both halves of the handler with nothing in between. Interleaving while the request is outstanding is modelled by `BeginSubmit`/`CompleteSubmit` and by the event runs.
- Implicit form submission by a key press is not modelled. A textarea does not submit on Enter, so Send is the only way to submit.
- React rendering, Leaflet, tile layers, the GeoJSON `key` and the chart library's drawing (src/components/MapDisplay.jsx:64-80). These are foreign libraries.
- The chroma-js interpolation and `parseFloat` on strings. Both are uninterpreted `Env` parameters. The model claims nothing about the anchor colours at the domain ends.
- Property values other than numbers, strings and `null` (booleans, arrays, objects) are not modelled. `parseFloat` and truthiness treat them differently, for example `parseFloat([5])` is 5 and `true` is truthy but parses to NaN.
- Floating point: numbers are exact reals with no NaN or infinities in the data. The text `toFixed` and `toLocaleString` produce is not modelled, only the branch and its argument.
- Reading a property of a missing `variableLabels` or `summaryStatistics` object throws a TypeError in the source. The model takes both as present maps, and a `null` statistics entry is treated as absent.
- `Choropleth.FeatureLayer.SetStyle`: the model keeps only the five style fields the component uses. Leaflet's other path options are not modelled.
- `Dashboard.RenderDashboard`: the map component inside the dashboard gets no `geojsonData` (src/components/Dashboard.jsx:31-36), so src/components/MapDisplay.jsx:8 throws a TypeError and the dashboard never finishes rendering. None of the modelled components defines an error boundary. The model records the props passed (`Dashboard.PassedMapProps`) and describes the view as built, not the crash.
- Null feature properties: a GeoJSON feature may carry `"properties": null` (section 3.2 of RFC 7946). The source then throws at src/components/MapDisplay.jsx:9, 20 and 32. The model's properties are always a map, so it does not capture that crash.
- src/components/VariableSelector.jsx is not part of this model. It only forwards the chosen value, which is `HandleVariableChange`'s argument.
- CSS, layout and the redundant `value !== null` tests after `parseFloat`.
