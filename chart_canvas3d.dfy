/**
 * The 3D chart component: from the x/y/z arrays of the chart data it
 * builds the Plotly traces and layout title.  Drawing them (`newPlot`,
 * `purge`) is outside the model; the result is what would be drawn.
 */
module ChartCanvas3D {
  import opened Wrappers
  import opened Strings
  import opened Js
  import opened Cells

  /** The arrays the component reads from `chartData`. */
  datatype AxisData = AxisData(xData: Option<seq<Cell>>, yData: Option<seq<Cell>>, zData: Option<seq<Cell>>)

  /** Marker and line colour: one value per point, or one value for the whole trace. */
  datatype Colour = PerPoint(values: seq<Cell>) | Single(value: Cell)

  /** One `scatter3d` trace in "lines+markers" mode. */
  datatype Trace = Trace(x: seq<Cell>, y: seq<Cell>, z: seq<Cell>, colour: Colour, lineWidth: int, markerSize: int)

  datatype Plot = Plot(traces: seq<Trace>, title: string)

  /** `chartType.toLowerCase().includes("line")`. */
  predicate IsLineChart(chartType: string) {
    Contains(ToLower(chartType), "line")
  }

  /** The trace of bar `i`: a vertical segment from height 0 to z_i at (x_i, y_i). */
  function Bar(x: Cell, yData: seq<Cell>, zData: seq<Cell>, i: nat): Trace {
    Trace([x, x], [At(yData, i), At(yData, i)], [Num(0.0), At(zData, i)], Single(At(zData, i)), 8, 3)
  }

  /** `xData.map((x, i) => ...)`: one bar per element of `xData`, starting at index `from`. */
  function Bars(xData: seq<Cell>, yData: seq<Cell>, zData: seq<Cell>, from: nat): (ts: seq<Trace>)
    ensures |ts| == |xData|
    ensures forall i :: 0 <= i < |xData| ==> ts[i] == Bar(xData[i], yData, zData, from + i)
  {
    if xData == [] then [] else [Bar(xData[0], yData, zData, from)] + Bars(xData[1..], yData, zData, from + 1)
  }

  /** The traces of the effect: one trace for line charts, one bar per point otherwise. */
  function Traces(chartType: string, x: seq<Cell>, y: seq<Cell>, z: seq<Cell>): (ts: seq<Trace>)
    ensures IsLineChart(chartType) ==> ts == [Trace(x, y, z, PerPoint(z), 4, 6)]
    ensures !IsLineChart(chartType) ==> |ts| == |x| && forall i :: 0 <= i < |x| ==> ts[i] == Bar(x[i], y, z, i)
  {
    if IsLineChart(chartType) then [Trace(x, y, z, PerPoint(z), 4, 6)] else Bars(x, y, z, 0)
  }

  /**
   * The effect: nothing is drawn without the DOM node `hasRef` or without
   * any of the three arrays; otherwise the traces and the title, which
   * defaults to "3D Chart".
   */
  function Render(hasRef: bool, chartType: string, data: Option<AxisData>, chartTitle: Option<string>): (p: Option<Plot>)
    ensures p.Some? <==> hasRef && data.Some? && data.value.xData.Some? && data.value.yData.Some? && data.value.zData.Some?
    ensures p.Some? ==> p.value.title == OrElse(chartTitle, "3D Chart")
    ensures p.Some? ==> p.value.traces == Traces(chartType, data.value.xData.value, data.value.yData.value, data.value.zData.value)
  {
    if !hasRef || data.None? || data.value.xData.None? || data.value.yData.None? || data.value.zData.None? then None
    else Some(Plot(Traces(chartType, data.value.xData.value, data.value.yData.value, data.value.zData.value),
                   OrElse(chartTitle, "3D Chart")))
  }

  /** Line mode: exactly one trace, carrying the three arrays unchanged and coloured by z. */
  lemma LineModeOneTrace(chartType: string, x: seq<Cell>, y: seq<Cell>, z: seq<Cell>)
    requires exists i :: OccursAt(ToLower(chartType), "line", i)
    ensures Traces(chartType, x, y, z) == [Trace(x, y, z, PerPoint(z), 4, 6)]
  {
    ContainsIff(ToLower(chartType), "line");
  }

  /** Bar mode: one trace per x value, in order; trace i rises from 0 to z_i at (x_i, y_i) and is
      coloured by z_i (a missing y_i or z_i is `undefined`). */
  lemma BarModeOneTracePerPoint(chartType: string, x: seq<Cell>, y: seq<Cell>, z: seq<Cell>, i: int)
    requires !exists k :: OccursAt(ToLower(chartType), "line", k)
    requires 0 <= i < |x|
    ensures |Traces(chartType, x, y, z)| == |x|
    ensures var t := Traces(chartType, x, y, z)[i];
      && t.x == [x[i], x[i]] && t.y == [At(y, i), At(y, i)] && t.z == [Num(0.0), At(z, i)]
      && t.colour == Single(At(z, i))
  {
    ContainsIff(ToLower(chartType), "line");
  }

  /** The mode depends on the type only through its lower-case form: "3D LINE CHART" gets the
      line mode too. */
  lemma ModeIgnoresCase(chartType: string, x: seq<Cell>, y: seq<Cell>, z: seq<Cell>)
    ensures Traces(chartType, x, y, z) == Traces(ToLower(chartType), x, y, z)
  {
    ToLowerIdempotent(chartType);
  }

  /** Both callers render the component without a ref, so nothing is ever drawn. */
  lemma WithoutRefNothingDrawn(chartType: string, data: Option<AxisData>, chartTitle: Option<string>)
    ensures Render(false, chartType, data, chartTitle) == None
  {
  }
}
