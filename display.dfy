/** Display decisions shared by the chart tooltip and the summary panel: which
    number format is chosen (the text produced by `toFixed` and `toLocaleString`
    is not modelled, only the branch and the value handed to it), and the
    `variableLabels[id] || id` label fallback both panels use. */
module Display {

  /** The branch a number formatter takes: `N/A`, `value.toFixed(1) + '%'`,
      `value.toLocaleString()` (grouped digits) or `value.toFixed(2)`. */
  datatype Formatted = NotAvailable | Percent1(value: real) | Grouped(value: real) | Fixed2(value: real)

  /** The human-readable label of a variable: its entry in `labels` when that
      is a non-empty string, otherwise the identifier itself. */
  function LabelFor(labels: map<string, string>, id: string): (r: string)
    ensures id in labels && labels[id] != "" ==> r == labels[id]
    ensures id !in labels || labels[id] == "" ==> r == id
    ensures r == "" ==> id == ""
  {
    if id in labels && labels[id] != "" then labels[id] else id
  }
}
