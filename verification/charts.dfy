/** The chart data returned by the `display_graph` tool, before it is
    serialized to JSON: fixed dummy series per plot type, or an error record. */
module Charts {
  import opened Wrappers

  datatype ChartData =
    | Chart(labels: seq<string>, values: seq<int>, title: string, xlabel: Option<string>, ylabel: Option<string>)
    | Unsupported(error: string)

  const UnsupportedPrefix := "Unsupported plot type: "

  /** The record for a plot type: a labelled series for "bar", "line" and
      "pie", an error naming the plot type for anything else. */
  function DisplayGraph(plotType: string): (r: ChartData)
    ensures r.Chart? <==> plotType in {"bar", "line", "pie"}
    ensures r.Chart? ==> 0 < |r.labels| == |r.values|
    ensures r.Chart? ==> forall k :: 0 <= k < |r.values| ==> r.values[k] > 0
    ensures r.Unsupported? ==> r.error == UnsupportedPrefix + plotType
  {
    if plotType == "bar" then
      Chart(["Q1", "Q2", "Q3", "Q4"], [120, 150, 180, 200],
            "Quarterly Sales", Some("Quarter"), Some("Sales (thousands)"))
    else if plotType == "line" then
      Chart(["Jan", "Feb", "Mar", "Apr", "May", "Jun"], [45, 52, 48, 61, 55, 67],
            "Monthly Revenue Trend", Some("Month"), Some("Revenue (thousands)"))
    else if plotType == "pie" then
      Chart(["Product A", "Product B", "Product C", "Product D"], [30, 25, 20, 25],
            "Product Sales Distribution", None, None)
    else
      Unsupported(UnsupportedPrefix + plotType)
  }

  function Sum(xs: seq<int>): int {
    if xs == [] then 0 else xs[0] + Sum(xs[1..])
  }

  /** Bar and pie charts have four points, line charts six; the pie's shares
      add up to 100, and only bar and line charts label their axes. */
  lemma ChartShapes()
    ensures |DisplayGraph("bar").labels| == 4
    ensures |DisplayGraph("line").labels| == 6
    ensures |DisplayGraph("pie").labels| == 4
    ensures Sum(DisplayGraph("pie").values) == 100
    ensures DisplayGraph("pie").xlabel.None? && DisplayGraph("pie").ylabel.None?
    ensures DisplayGraph("bar").xlabel.Some? && DisplayGraph("bar").ylabel.Some?
    ensures DisplayGraph("line").xlabel.Some? && DisplayGraph("line").ylabel.Some?
  {
  }

  /** The plot type a record was produced for: recovered from the chart's
      title, or from the error text. */
  function PlotTypeOf(r: ChartData): string {
    match r
    case Chart(_, _, title, _, _) =>
      if title == "Quarterly Sales" then "bar"
      else if title == "Monthly Revenue Trend" then "line"
      else "pie"
    case Unsupported(message) =>
      if |UnsupportedPrefix| <= |message| && message[..|UnsupportedPrefix|] == UnsupportedPrefix
      then message[|UnsupportedPrefix|..]
      else message
  }

  /** Every record, the error records included, determines its plot type. */
  lemma DisplayGraphRoundTrip(plotType: string)
    ensures PlotTypeOf(DisplayGraph(plotType)) == plotType
  {
  }

  /** Distinct plot types never share a record. */
  lemma DisplayGraphInjective(p: string, q: string)
    requires p != q
    ensures DisplayGraph(p) != DisplayGraph(q)
  {
    DisplayGraphRoundTrip(p);
    DisplayGraphRoundTrip(q);
  }
}
