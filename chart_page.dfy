/**
 * The chart page: when a chart request may be sent and what it carries,
 * how the reply is turned into the page's chart data (with the x/y/z
 * fallbacks used by the 3D component), which component renders which
 * chart type, and when a summary may be requested.
 */
module ChartPage {
  import opened Wrappers
  import opened Strings
  import opened Cells
  import AnalysisController
  import ChartCanvas3D

  /** `chartType.includes("3D")`, case-sensitive. */
  predicate Is3D(chartType: string) {
    Contains(chartType, "3D")
  }

  /** The check at the top of `generateChart`: file and both axes chosen, and Z for 3D types. */
  predicate AxesReady(selectedFile: string, xAxis: string, yAxis: string, zAxis: string, chartType: string)
    ensures AxesReady(selectedFile, xAxis, yAxis, zAxis, chartType) && Is3D(chartType) ==> zAxis != ""
    ensures !Is3D(chartType) ==>
      (AxesReady(selectedFile, xAxis, yAxis, zAxis, chartType) <==> selectedFile != "" && xAxis != "" && yAxis != "")
  {
    selectedFile != "" && xAxis != "" && yAxis != "" && (!Is3D(chartType) || zAxis != "")
  }

  /** The body posted to the chart-generation endpoint. */
  datatype Request = Request(fileId: string, xAxis: string, yAxis: string, zAxis: Option<string>,
                             chartTitle: string, chartType: string)

  /** `chartType.includes("3D") ? zAxis : null`. */
  function ZAxisSent(chartType: string, zAxis: string): (z: Option<string>)
    ensures z.Some? <==> Is3D(chartType)
    ensures z.Some? ==> z.value == zAxis
  {
    if Is3D(chartType) then Some(zAxis) else None
  }

  /** The reply as the page reads it: `chartData` and optional top-level axis arrays. */
  datatype RawDataset = RawDataset(legend: string, data: Option<seq<Cell>>, fill: bool)
  datatype Raw = Raw(labels: seq<Cell>, datasets: seq<RawDataset>)
  datatype Reply = Reply(chartData: Raw, xData: Option<seq<Cell>>, yData: Option<seq<Cell>>, zData: Option<seq<Cell>>)

  /** `res.data.xData || raw.labels`; an array, even an empty one, is truthy. */
  function XData(r: Reply): (x: seq<Cell>)
    ensures r.xData.Some? ==> x == r.xData.value
    ensures r.xData.None? ==> x == r.chartData.labels
  {
    r.xData.GetOr(r.chartData.labels)
  }

  /** `res.data.yData || raw.datasets?.[0]?.data || []`. */
  function YData(r: Reply): (y: seq<Cell>)
    ensures r.yData.Some? ==> y == r.yData.value
    ensures r.yData.None? && |r.chartData.datasets| > 0 && r.chartData.datasets[0].data.Some? ==>
      y == r.chartData.datasets[0].data.value
    ensures r.yData.None? && (|r.chartData.datasets| == 0 || r.chartData.datasets[0].data.None?) ==> y == []
  {
    if r.yData.Some? then r.yData.value
    else if |r.chartData.datasets| > 0 && r.chartData.datasets[0].data.Some? then r.chartData.datasets[0].data.value
    else []
  }

  /** Z is empty for 2D types; for 3D types the reply's non-empty `zData`, else the Y data. */
  function ZData(chartType: string, r: Reply): (z: seq<Cell>)
    ensures !Is3D(chartType) ==> z == []
    ensures Is3D(chartType) && r.zData.Some? && |r.zData.value| > 0 ==> z == r.zData.value
    ensures Is3D(chartType) && (r.zData.None? || r.zData.value == []) ==> z == YData(r)
  {
    if !Is3D(chartType) then []
    else if r.zData.Some? && |r.zData.value| > 0 then r.zData.value
    else YData(r)
  }

  /** The page's chart data (`updatedChartData`); colours are random and left out. */
  datatype ClientChart = ClientChart(
    labels: seq<Cell>, dataset: Option<RawDataset>, showLine: bool,
    xData: seq<Cell>, yData: seq<Cell>, zData: seq<Cell>,
    title: string, xTitle: string, yTitle: string)

  /** `updatedChartData`: the reply's labels and first dataset, the three axis arrays, a line
      drawn only for "Line Chart", and the title or "Your Chart". */
  function BuildChart(chartType: string, chartTitle: string, xAxis: string, yAxis: string, r: Reply): (c: ClientChart)
    ensures c.labels == r.chartData.labels
    ensures c.dataset == if |r.chartData.datasets| > 0 then Some(r.chartData.datasets[0]) else None
    ensures c.showLine <==> chartType == "Line Chart"
    ensures c.xData == XData(r) && c.yData == YData(r) && c.zData == ZData(chartType, r)
    ensures c.title == (if chartTitle == "" then "Your Chart" else chartTitle) && c.title != ""
    ensures c.xTitle == xAxis && c.yTitle == yAxis
  {
    ClientChart(
      r.chartData.labels,
      if |r.chartData.datasets| > 0 then Some(r.chartData.datasets[0]) else None,
      chartType == "Line Chart",
      XData(r), YData(r), ZData(chartType, r),
      if chartTitle != "" then chartTitle else "Your Chart", xAxis, yAxis)
  }

  /** The numbers of a dataset as JSON array elements. */
  function Nums(s: seq<real>): (r: seq<Cell>)
    ensures |r| == |s|
    ensures forall i :: 0 <= i < |s| ==> r[i] == Num(s[i])
  {
    if s == [] then [] else [Num(s[0])] + Nums(s[1..])
  }

  /** The JSON reply `{ chartData }` produced by the server's chart generation. */
  function FromServer(c: AnalysisController.ChartData): (r: Reply)
    ensures r.xData.None? && r.yData.None? && r.zData.None?
    ensures r.chartData.labels == c.labels && |r.chartData.datasets| == 1
    ensures r.chartData.datasets[0].data == Some(Nums(c.dataset.data))
    ensures r.chartData.datasets[0].legend == c.dataset.legend && r.chartData.datasets[0].fill == c.dataset.fill
  {
    Reply(Raw(c.labels, [RawDataset(c.dataset.legend, Some(Nums(c.dataset.data)), c.dataset.fill)]), None, None, None)
  }

  /**
   * The server sends no top-level axis arrays, so X is the labels, Y the
   * dataset values, and for every 3D type Z is a copy of Y.
   */
  lemma ServerReplyAxes(c: AnalysisController.ChartData, chartType: string, chartTitle: string, xAxis: string, yAxis: string)
    ensures var ch := BuildChart(chartType, chartTitle, xAxis, yAxis, FromServer(c));
      && ch.xData == c.labels
      && ch.yData == Nums(c.dataset.data)
      && ch.zData == (if Is3D(chartType) then ch.yData else [])
  {
  }

  /** Which component `renderChart` shows. */
  datatype View = NoChart | BarView | LineView | PieView | DoughnutView | Canvas3DView | Unsupported

  function RenderChart(chartType: string, chartData: Option<ClientChart>): (v: View)
    ensures chartData.None? <==> v == NoChart
    ensures chartData.Some? ==>
      && (v == BarView <==> chartType == "Bar Chart")
      && (v == LineView <==> chartType == "Line Chart")
      && (v == PieView <==> chartType == "Pie Chart")
      && (v == DoughnutView <==> chartType == "Doughnut Chart")
      && (v == Canvas3DView <==> chartType == "3D Bar Chart" || chartType == "3D Line Chart")
      && (v == Unsupported <==> chartType !in {"Bar Chart", "Line Chart", "Pie Chart", "Doughnut Chart",
                                               "3D Bar Chart", "3D Line Chart"})
  {
    if chartData.None? then NoChart
    else match chartType
      case "Bar Chart" => BarView
      case "Line Chart" => LineView
      case "Pie Chart" => PieView
      case "Doughnut Chart" => DoughnutView
      case "3D Bar Chart" => Canvas3DView
      case "3D Line Chart" => Canvas3DView
      case _ => Unsupported
  }

  /** Only the two named 3D types reach the 3D component; "3D Pie Chart" is unsupported even
      though it passes the 3D axis check. */
  lemma RenderDispatch(chartType: string, ch: ClientChart)
    ensures RenderChart(chartType, Some(ch)) == Canvas3DView <==>
      chartType == "3D Bar Chart" || chartType == "3D Line Chart"
    ensures RenderChart(chartType, Some(ch)) == Canvas3DView ==> Is3D(chartType)
    ensures RenderChart("3D Pie Chart", Some(ch)) == Unsupported && Is3D("3D Pie Chart")
  {
    assert "3D" <= "3D Bar Chart";
    assert "3D" <= "3D Line Chart";
    assert "3D" <= "3D Pie Chart";
  }

  /**
   * What the 3D component would draw for a server reply if it had a DOM
   * node: the z values of every trace are the Y values.  In line mode the
   * single trace has z equal to y; in bar mode bar i rises to y_i.
   */
  lemma ThreeDHeightsAreY(c: AnalysisController.ChartData, chartType: string, chartTitle: string,
                          xAxis: string, yAxis: string, i: int)
    requires Is3D(chartType)
    requires 0 <= i < |c.labels|
    ensures var ch := BuildChart(chartType, chartTitle, xAxis, yAxis, FromServer(c));
      var ts := ChartCanvas3D.Traces(chartType, ch.xData, ch.yData, ch.zData);
      if ChartCanvas3D.IsLineChart(chartType) then ts[0].z == ts[0].y
      else ts[i].z == [Num(0.0), ts[i].y[0]]
  {
    ServerReplyAxes(c, chartType, chartTitle, xAxis, yAxis);
  }

  /** The check at the top of `generateSummary`. */
  predicate SummaryReady(selectedFile: string, chartTitle: string, chartType: string,
                         xAxis: string, yAxis: string, chartData: Option<ClientChart>)
    ensures SummaryReady(selectedFile, chartTitle, chartType, xAxis, yAxis, chartData) ==> chartData.Some? && chartTitle != ""
    ensures chartData.Some? && chartTitle != "" ==>
      (SummaryReady(selectedFile, chartTitle, chartType, xAxis, yAxis, chartData) <==>
       selectedFile != "" && chartType != "" && xAxis != "" && yAxis != "")
  {
    selectedFile != "" && chartTitle != "" && chartType != "" && xAxis != "" && yAxis != "" && chartData.Some?
  }

  /** Every 3D type name contains the capital letter 'D'. */
  lemma Is3DHasD(chartType: string)
    ensures Is3D(chartType) ==> 'D' in chartType
  {
    ContainsIff(chartType, "3D");
    if Is3D(chartType) {
      var i :| OccursAt(chartType, "3D", i);
      assert chartType[i + 1] == chartType[i..i + 2][1];
    }
  }

  /** The 3D check is case-sensitive: "3d bar chart" needs no Z axis, "3D Bar Chart" does. */
  lemma ThreeDCheckIsCaseSensitive()
    ensures AxesReady("f", "x", "y", "", "3d bar chart")
    ensures !AxesReady("f", "x", "y", "", "3D Bar Chart")
  {
    assert "3D" <= "3D Bar Chart";
    Is3DHasD("3d bar chart");
  }

  /** The page state that chart generation and summaries update. */
  class ChartPageState {
    var selectedFile: string
    var chartTitle: string
    var chartType: string
    var xAxis: string
    var yAxis: string
    var zAxis: string
    var chartData: Option<ClientChart>
    var loading: bool
    var summary: string
    var loadingSummary: bool

    constructor ()
      ensures selectedFile == chartTitle == xAxis == yAxis == zAxis == summary == ""
      ensures chartType == "Bar Chart" && chartData == None && !loading && !loadingSummary
    {
      selectedFile, chartTitle, chartType := "", "", "Bar Chart";
      xAxis, yAxis, zAxis := "", "", "";
      chartData, loading, summary, loadingSummary := None, false, "", false;
    }

    /**
     * `generateChart`: `reply` is the server's reply, `None` when the
     * request fails.  Returns the request sent, if any.
     */
    method GenerateChart(reply: Option<Reply>) returns (sent: Option<Request>)
      modifies this`chartData, this`loading
      ensures sent.Some? <==> AxesReady(selectedFile, xAxis, yAxis, zAxis, chartType)
      ensures sent.Some? ==> sent.value == Request(selectedFile, xAxis, yAxis, ZAxisSent(chartType, zAxis), chartTitle, chartType)
      ensures chartData == if sent.Some? && reply.Some? then Some(BuildChart(chartType, chartTitle, xAxis, yAxis, reply.value))
                           else old(chartData)
      ensures loading == if sent.Some? then false else old(loading)
    {
      if !AxesReady(selectedFile, xAxis, yAxis, zAxis, chartType) {
        return None;
      }
      loading := true;
      sent := Some(Request(selectedFile, xAxis, yAxis, ZAxisSent(chartType, zAxis), chartTitle, chartType));
      if reply.Some? {
        chartData := Some(BuildChart(chartType, chartTitle, xAxis, yAxis, reply.value));
      }
      loading := false;
    }

    /** `generateSummary`: `reply` is the summary text, `None` when the request fails. */
    method GenerateSummary(reply: Option<string>) returns (sent: bool)
      modifies this`summary, this`loadingSummary
      ensures sent <==> SummaryReady(selectedFile, chartTitle, chartType, xAxis, yAxis, chartData)
      ensures summary == if sent && reply.Some? then reply.value else old(summary)
      ensures loadingSummary == if sent then false else old(loadingSummary)
    {
      if !SummaryReady(selectedFile, chartTitle, chartType, xAxis, yAxis, chartData) {
        return false;
      }
      loadingSummary := true;
      sent := true;
      if reply.Some? {
        summary := reply.value;
      }
      loadingSummary := false;
    }
  }
}
