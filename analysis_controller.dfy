/**
 * The analysis controller: turning the rows of an uploaded spreadsheet into
 * chart data, saving a chart as an analysis, and owner-scoped reading and
 * deletion of saved analyses.
 */
module AnalysisController {
  import opened Wrappers
  import opened Strings
  import opened Js
  import opened Cells

  /** A stored upload, as far as chart generation looks at it. */
  datatype FileRecord = FileRecord(owner: string, buffer: Option<seq<bv8>>)

  /** The request body of a chart-generation request. */
  datatype GenerateBody = GenerateBody(
    fileId: Option<string>, xAxis: Option<string>, yAxis: Option<string>,
    chartTitle: Option<string>, chartType: Option<string>)

  /** `datasets[0]` of the returned chart data. */
  datatype Dataset = Dataset(
    legend: string, data: seq<real>, backgroundColor: string, borderColor: string,
    borderWidth: int, fill: bool)

  /** The `chartData` object returned to the client. */
  datatype ChartData = ChartData(labels: seq<Cell>, dataset: Dataset)

  datatype ChartReply = ChartError(status: int, message: string) | ChartOk(chart: ChartData)

  const MissingFields := "Missing required fields: fileId, xAxis, or yAxis."
  const FileNotFound := "File not found for this user."
  const NoFileData := "No file data found in record."
  const NoRows := "Excel file contains no data."
  const ChartServerError := "Server error while generating chart."
  const Background := "rgba(75,192,192,0.6)"
  const Border := "rgba(75,192,192,1)"
  const Placeholder := Str("N/A")

  /** `cell ?? d`: only a missing cell (undefined or null) is replaced. */
  function Nullish(cell: Cell, d: Cell): Cell {
    if cell == Absent then d else cell
  }

  /** `rows.map(row => row[xAxis] ?? "N/A")`. */
  function Labels(rows: seq<Row>, xAxis: string): (labels: seq<Cell>)
    ensures |labels| == |rows|
    ensures forall i :: 0 <= i < |rows| ==>
      labels[i] == if xAxis in rows[i] && rows[i][xAxis] != Absent then rows[i][xAxis] else Placeholder
  {
    if rows == [] then [] else [Nullish(Get(rows[0], xAxis), Placeholder)] + Labels(rows[1..], xAxis)
  }

  /** `parseFloat(cell)`, with `NaN` replaced by 0. */
  function NumberOrZero(cell: Cell, parse: Cell -> Option<real>): real {
    parse(cell).GetOr(0.0)
  }

  /** `rows.map(row => isNaN(parseFloat(row[yAxis])) ? 0 : parseFloat(row[yAxis]))`. */
  function Values(rows: seq<Row>, yAxis: string, parse: Cell -> Option<real>): (data: seq<real>)
    ensures |data| == |rows|
    ensures forall i :: 0 <= i < |rows| ==>
      data[i] == match parse(Get(rows[i], yAxis)) case Some(v) => v case None => 0.0
  {
    if rows == [] then [] else [NumberOrZero(Get(rows[0], yAxis), parse)] + Values(rows[1..], yAxis, parse)
  }

  /** The shaping step once the rows are known and non-empty. */
  function Shape(rows: seq<Row>, xAxis: string, yAxis: string, chartTitle: Option<string>,
                 chartType: string, parse: Cell -> Option<real>): (c: ChartData)
    ensures c.labels == Labels(rows, xAxis) && c.dataset.data == Values(rows, yAxis, parse)
    ensures |c.labels| == |c.dataset.data| == |rows|
    ensures c.dataset.legend == if Truthy(chartTitle) then chartTitle.value else if yAxis != "" then yAxis else "Data"
    ensures c.dataset.fill <==> !Contains(ToLower(chartType), "line")
    ensures c.dataset.backgroundColor == Background && c.dataset.borderColor == Border && c.dataset.borderWidth == 1
  {
    ChartData(
      Labels(rows, xAxis),
      Dataset(OrElse(chartTitle, OrElse(Some(yAxis), "Data")), Values(rows, yAxis, parse),
              Background, Border, 1, !Contains(ToLower(chartType), "line")))
  }

  /**
   * `generateChart`: the guard chain (required fields, the caller's own
   * file, a stored buffer, decodable rows, at least one row), then shaping.
   * `decode` stands for reading the first sheet of the workbook (`None`
   * when the spreadsheet library throws); `parse` for `parseFloat`
   * (`None` for NaN).  A missing `chartType` makes `toLowerCase` throw.
   */
  function GenerateChart(files: map<string, FileRecord>, user: string, body: GenerateBody,
                         decode: seq<bv8> -> Option<seq<Row>>,
                         parse: Cell -> Option<real>): (r: ChartReply)
    ensures !Truthy(body.fileId) || !Truthy(body.xAxis) || !Truthy(body.yAxis) ==>
      r == ChartError(400, MissingFields)
    ensures Truthy(body.fileId) && Truthy(body.xAxis) && Truthy(body.yAxis)
            && (body.fileId.value !in files || files[body.fileId.value].owner != user) ==>
      r == ChartError(404, FileNotFound)
    ensures Truthy(body.fileId) && Truthy(body.xAxis) && Truthy(body.yAxis)
            && body.fileId.value in files && files[body.fileId.value].owner == user ==>
      var f := files[body.fileId.value];
      && (f.buffer.None? ==> r == ChartError(404, NoFileData))
      && (f.buffer.Some? && decode(f.buffer.value).None? ==> r == ChartError(500, ChartServerError))
      && (f.buffer.Some? && decode(f.buffer.value) == Some([]) ==> r == ChartError(400, NoRows))
      && (f.buffer.Some? && decode(f.buffer.value).Some? && |decode(f.buffer.value).value| > 0 ==>
            r == if body.chartType.None? then ChartError(500, ChartServerError)
                 else ChartOk(Shape(decode(f.buffer.value).value, body.xAxis.value, body.yAxis.value,
                                    body.chartTitle, body.chartType.value, parse)))
    ensures r.ChartOk? ==>
      && Truthy(body.fileId) && Truthy(body.xAxis) && Truthy(body.yAxis) && body.chartType.Some?
      && body.fileId.value in files && files[body.fileId.value].owner == user
      && files[body.fileId.value].buffer.Some?
      && var rows := decode(files[body.fileId.value].buffer.value);
         rows.Some? && |rows.value| > 0 &&
         r.chart == Shape(rows.value, body.xAxis.value, body.yAxis.value, body.chartTitle,
                          body.chartType.value, parse)
  {
    if !Truthy(body.fileId) || !Truthy(body.xAxis) || !Truthy(body.yAxis) then
      ChartError(400, MissingFields)
    else if body.fileId.value !in files || files[body.fileId.value].owner != user then
      ChartError(404, FileNotFound)
    else if files[body.fileId.value].buffer.None? then
      ChartError(404, NoFileData)
    else
      match decode(files[body.fileId.value].buffer.value)
      case None => ChartError(500, ChartServerError)
      case Some(rows) =>
        if |rows| == 0 then ChartError(400, NoRows)
        else if body.chartType.None? then ChartError(500, ChartServerError)
        else ChartOk(Shape(rows, body.xAxis.value, body.yAxis.value, body.chartTitle,
                           body.chartType.value, parse))
  }

  /** A request missing a required field is answered 400 without looking at any file:
      the reply is the same whatever the store and the decoder hold. */
  lemma ValidationBeforeLookup(files: map<string, FileRecord>, files': map<string, FileRecord>,
                               user: string, user': string, body: GenerateBody,
                               decode: seq<bv8> -> Option<seq<Row>>, decode': seq<bv8> -> Option<seq<Row>>,
                               parse: Cell -> Option<real>)
    requires !Truthy(body.fileId) || !Truthy(body.xAxis) || !Truthy(body.yAxis)
    ensures GenerateChart(files, user, body, decode, parse) == GenerateChart(files', user', body, decode', parse)
    ensures GenerateChart(files, user, body, decode, parse).status == 400
  {
  }

  /** Someone else's file is reported exactly like a missing one. */
  lemma ForeignFileLooksMissing(files: map<string, FileRecord>, user: string, body: GenerateBody,
                                decode: seq<bv8> -> Option<seq<Row>>, parse: Cell -> Option<real>)
    requires Truthy(body.fileId) && Truthy(body.xAxis) && Truthy(body.yAxis)
    requires body.fileId.value in files && files[body.fileId.value].owner != user
    ensures GenerateChart(files, user, body, decode, parse) ==
            GenerateChart(files - {body.fileId.value}, user, body, decode, parse) ==
            ChartError(404, FileNotFound)
  {
  }

  /** A record without a buffer is also a 404. */
  lemma MissingBufferIs404(files: map<string, FileRecord>, user: string, body: GenerateBody,
                           decode: seq<bv8> -> Option<seq<Row>>, parse: Cell -> Option<real>)
    requires Truthy(body.fileId) && Truthy(body.xAxis) && Truthy(body.yAxis)
    requires body.fileId.value in files && files[body.fileId.value].owner == user
    requires files[body.fileId.value].buffer.None?
    ensures GenerateChart(files, user, body, decode, parse) == ChartError(404, NoFileData)
  {
  }

  /** Zero data rows stop the request with 400 and no chart, whatever the chart type. */
  lemma EmptySheetIs400(files: map<string, FileRecord>, user: string, body: GenerateBody,
                        decode: seq<bv8> -> Option<seq<Row>>, parse: Cell -> Option<real>)
    requires Truthy(body.fileId) && Truthy(body.xAxis) && Truthy(body.yAxis)
    requires body.fileId.value in files && files[body.fileId.value].owner == user
    requires files[body.fileId.value].buffer.Some?
    requires decode(files[body.fileId.value].buffer.value) == Some([])
    ensures GenerateChart(files, user, body, decode, parse) == ChartError(400, NoRows)
  {
  }

  /** `chartType` is never validated: when it is missing a request with data ends in 500. */
  lemma MissingChartTypeIs500(files: map<string, FileRecord>, user: string, body: GenerateBody,
                              decode: seq<bv8> -> Option<seq<Row>>, parse: Cell -> Option<real>)
    requires Truthy(body.fileId) && Truthy(body.xAxis) && Truthy(body.yAxis) && body.chartType.None?
    ensures GenerateChart(files, user, body, decode, parse).ChartError?
    ensures GenerateChart(files, user, body, decode, parse).status in {404, 400, 500}
    ensures body.fileId.value in files && files[body.fileId.value].owner == user
            && files[body.fileId.value].buffer.Some?
            && decode(files[body.fileId.value].buffer.value).Some?
            && |decode(files[body.fileId.value].buffer.value).value| > 0
            ==> GenerateChart(files, user, body, decode, parse) == ChartError(500, ChartServerError)
  {
  }

  /**
   * The shape of a successful chart: one label and one value per row, in
   * row order; a missing X cell becomes "N/A" while every present value
   * (0, "", false included) passes through; an unparsable Y cell becomes 0.
   */
  lemma ChartFollowsRows(rows: seq<Row>, xAxis: string, yAxis: string, chartTitle: Option<string>,
                         chartType: string, parse: Cell -> Option<real>, i: int)
    requires 0 <= i < |rows|
    ensures var c := Shape(rows, xAxis, yAxis, chartTitle, chartType, parse);
      && |c.labels| == |c.dataset.data| == |rows|
      && (Get(rows[i], xAxis) == Absent ==> c.labels[i] == Str("N/A"))
      && (Get(rows[i], xAxis) != Absent ==> c.labels[i] == rows[i][xAxis])
      && (parse(Get(rows[i], yAxis)).None? ==> c.dataset.data[i] == 0.0)
      && (parse(Get(rows[i], yAxis)).Some? ==> c.dataset.data[i] == parse(Get(rows[i], yAxis)).value)
  {
  }

  /** The dataset label is the title when it is non-empty and the Y column otherwise;
      the "Data" fallback is never reached because the Y column was validated. */
  lemma DatasetLabel(files: map<string, FileRecord>, user: string, body: GenerateBody,
                     decode: seq<bv8> -> Option<seq<Row>>, parse: Cell -> Option<real>)
    requires GenerateChart(files, user, body, decode, parse).ChartOk?
    ensures var legend := GenerateChart(files, user, body, decode, parse).chart.dataset.legend;
      legend == (if Truthy(body.chartTitle) then body.chartTitle.value else body.yAxis.value) && legend != ""
  {
  }

  /** `fill` is off exactly for types whose lower-cased name contains "line". */
  lemma FillUnlessLine(files: map<string, FileRecord>, user: string, body: GenerateBody,
                       decode: seq<bv8> -> Option<seq<Row>>, parse: Cell -> Option<real>)
    requires GenerateChart(files, user, body, decode, parse).ChartOk?
    ensures !GenerateChart(files, user, body, decode, parse).chart.dataset.fill <==>
      exists i :: OccursAt(ToLower(body.chartType.value), "line", i)
  {
    var r := GenerateChart(files, user, body, decode, parse);
    assert r.chart.dataset.fill == !Contains(ToLower(body.chartType.value), "line");
    ContainsIff(ToLower(body.chartType.value), "line");
  }

  // ---------------------------------------------------------------------
  // Saved analyses

  /** A saved analysis; `D` is the chart-data object exactly as the client sent it. */
  datatype Analysis<D> = Analysis(
    owner: string, fileId: string, xAxis: string, yAxis: string,
    chartTitle: Option<string>, chartType: string, chartData: D)

  /** The body of a save request. */
  datatype SaveBody<D> = SaveBody(
    fileId: Option<string>, xAxis: Option<string>, yAxis: Option<string>,
    chartTitle: Option<string>, chartType: Option<string>, chartData: Option<D>)

  datatype Reply<D> = Reply(status: int, message: string, analysis: Option<Analysis<D>>)

  const SaveMissing := "Missing required fields."
  const Saved := "Chart saved successfully."
  const SaveServerError := "Server error while saving chart."
  const AnalysisNotFound := "Analysis not found."
  const NoAccess := "Unauthorized to access this analysis."
  const NoDelete := "Unauthorized to delete this analysis."
  const Deleted := "Analysis deleted successfully."

  /** The ownership check shared by reading and deleting: 404, 403 or 200. */
  function AccessStatus<D>(records: map<string, Analysis<D>>, id: string, user: string): (s: int)
    ensures s == 200 <==> id in records && records[id].owner == user
    ensures s == 404 <==> id !in records
    ensures s in {200, 403, 404}
  {
    if id !in records then 404 else if records[id].owner != user then 403 else 200
  }

  /** `getAnalysisById`: 404 when absent, 403 for another owner, otherwise the record. */
  function GetAnalysisById<D>(records: map<string, Analysis<D>>, id: string, user: string): (r: Reply<D>)
    ensures r.status == AccessStatus(records, id, user)
    ensures r.analysis.Some? <==> r.status == 200
    ensures r.status == 200 ==> r.analysis == Some(records[id])
    ensures r.status == 403 ==> r.message == NoAccess
    ensures r.status == 404 ==> r.message == AnalysisNotFound
  {
    match AccessStatus(records, id, user)
    case 404 => Reply(404, AnalysisNotFound, None)
    case 403 => Reply(403, NoAccess, None)
    case _ => Reply(200, "", Some(records[id]))
  }

  /** A stored analysis is returned to its owner and refused with 403 to anyone else. */
  lemma StoredIsReadableByOwnerOnly<D>(records: map<string, Analysis<D>>, id: string, a: Analysis<D>, user: string)
    ensures GetAnalysisById(records[id := a], id, a.owner).analysis == Some(a)
    ensures user != a.owner ==> GetAnalysisById(records[id := a], id, user) == Reply(403, NoAccess, None)
  {
  }

  /** Once removed, an analysis is not found by anyone. */
  lemma RemovedIsNotFound<D>(records: map<string, Analysis<D>>, id: string, user: string)
    ensures GetAnalysisById(records - {id}, id, user) == Reply(404, AnalysisNotFound, None)
  {
  }

  /** The saved analyses, keyed by id. */
  class AnalysisStore<D> {
    var records: map<string, Analysis<D>>

    constructor ()
      ensures records == map[]
    {
      records := map[];
    }

    /**
     * `saveChart`: 400 unless file, both axes, type and chart data are
     * present; otherwise the analysis is stored under the id the database
     * assigns (`newId`), and an id already in use fails the insert (500).
     */
    method SaveChart(user: string, body: SaveBody<D>, newId: string) returns (r: Reply<D>)
      modifies this
      ensures !Truthy(body.fileId) || !Truthy(body.xAxis) || !Truthy(body.yAxis)
              || !Truthy(body.chartType) || body.chartData.None? ==>
                r == Reply(400, SaveMissing, None) && records == old(records)
      ensures r.status == 201 <==>
        Truthy(body.fileId) && Truthy(body.xAxis) && Truthy(body.yAxis) && Truthy(body.chartType)
        && body.chartData.Some? && newId !in old(records)
      ensures r.status == 201 ==>
        r.analysis == Some(Analysis(user, body.fileId.value, body.xAxis.value, body.yAxis.value,
                                     body.chartTitle, body.chartType.value, body.chartData.value))
        && records == old(records)[newId := r.analysis.value]
      ensures r.status != 201 ==> records == old(records)
    {
      if !Truthy(body.fileId) || !Truthy(body.xAxis) || !Truthy(body.yAxis)
         || !Truthy(body.chartType) || body.chartData.None? {
        return Reply(400, SaveMissing, None);
      }
      if newId in records {
        return Reply(500, SaveServerError, None);
      }
      var a := Analysis(user, body.fileId.value, body.xAxis.value, body.yAxis.value,
                        body.chartTitle, body.chartType.value, body.chartData.value);
      records := records[newId := a];
      r := Reply(201, Saved, Some(a));
    }

    /** `deleteAnalysisById`: the same 404/403 checks as reading; on success only that record goes. */
    method DeleteAnalysisById(id: string, user: string) returns (r: Reply<D>)
      modifies this
      ensures r.status == AccessStatus(old(records), id, user)
      ensures r.status == 403 ==> r.message == NoDelete
      ensures r.status == 404 ==> r.message == AnalysisNotFound
      ensures r.status == 200 ==> records == old(records) - {id} && r.message == Deleted
      ensures r.status != 200 ==> records == old(records)
      ensures forall k :: k in old(records) && k != id ==> k in records && records[k] == old(records)[k]
    {
      var s := AccessStatus(records, id, user);
      if s == 404 {
        return Reply(404, AnalysisNotFound, None);
      }
      if s == 403 {
        return Reply(403, NoDelete, None);
      }
      records := records - {id};
      r := Reply(200, Deleted, None);
    }
  }
}
