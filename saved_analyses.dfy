/**
 * The saved-analyses page: mapping a stored chart-type name to a Chart.js
 * type, telling 3D analyses apart, download file names, and the list and
 * selection update after a delete.
 */
module SavedAnalyses {
  import opened Wrappers
  import opened Strings
  import opened Js
  import opened Seqs

  /** The fields of a saved analysis the page uses; `chartData` is passed through untouched. */
  datatype SavedAnalysis = SavedAnalysis(id: string, chartTitle: Option<string>, chartType: string)

  /** `typeMap[t.toLowerCase()] || t.toLowerCase()`. */
  function ChartJsType(chartType: string): (t: string)
    ensures t in {"pie", "bar", "line", "doughnut"} || t == ToLower(chartType)
    ensures ToLower(chartType) !in {"pie chart", "bar chart", "line chart", "doughnut chart"} ==> t == ToLower(chartType)
  {
    var lower := ToLower(chartType);
    if lower == "pie chart" then "pie"
    else if lower == "bar chart" then "bar"
    else if lower == "line chart" then "line"
    else if lower == "doughnut chart" then "doughnut"
    else lower
  }

  /** The four names map to their Chart.js type whatever their case; any other name maps to
      its own lower-case form. */
  lemma ChartJsTypeMapping(chartType: string)
    ensures ToLower(chartType) == "pie chart" ==> ChartJsType(chartType) == "pie"
    ensures ToLower(chartType) == "bar chart" ==> ChartJsType(chartType) == "bar"
    ensures ToLower(chartType) == "line chart" ==> ChartJsType(chartType) == "line"
    ensures ToLower(chartType) == "doughnut chart" ==> ChartJsType(chartType) == "doughnut"
    ensures ToLower(chartType) !in {"pie chart", "bar chart", "line chart", "doughnut chart"} ==>
      ChartJsType(chartType) == ToLower(chartType)
  {
  }

  /** The stored "Pie Chart" is drawn as a Chart.js "pie". */
  lemma ChartJsTypeExample()
    ensures ChartJsType("Pie Chart") == "pie"
  {
    assert ToLower("Pie Chart") == "pie chart";
  }

  /** Normalising twice is normalising once: the result is always lower-case. */
  lemma ChartJsTypeIdempotent(chartType: string)
    ensures ToLower(ChartJsType(chartType)) == ChartJsType(chartType)
    ensures ChartJsType(ChartJsType(chartType)) == ChartJsType(chartType)
  {
    var t := ChartJsType(chartType);
    if t == ToLower(chartType) {
      ToLowerIdempotent(chartType);
    } else if t == "pie" {
      LowerFixed("pie");
    } else if t == "bar" {
      LowerFixed("bar");
    } else if t == "line" {
      LowerFixed("line");
    } else {
      LowerFixed("doughnut");
    }
  }

  /** Text without capital letters is its own lower-case form. */
  lemma LowerFixed(t: string)
    requires forall i :: 0 <= i < |t| ==> !('A' <= t[i] <= 'Z')
    ensures ToLower(t) == t
  {
    assert forall i :: 0 <= i < |t| ==> ToLower(t)[i] == t[i];
  }

  /** `chartType.toLowerCase().includes("3d")`. */
  predicate Is3D(chartType: string) {
    Contains(ToLower(chartType), "3d")
  }

  /** A type is 3D exactly when "3d" occurs somewhere in its lower-cased name. */
  lemma Is3DOccurs(chartType: string)
    ensures Is3D(chartType) <==> exists i :: OccursAt(ToLower(chartType), "3d", i)
  {
    var l := ToLower(chartType);
    ContainsIff(l, "3d");
    if Is3D(chartType) {
      var i :| OccursAt(l, "3d", i);
      assert OccursAt(ToLower(chartType), "3d", i);
    }
  }

  /** What the modal shows: the 3D component, or a Chart.js chart of the mapped type and title. */
  datatype View = Canvas3DView | ChartJsView(kind: string, title: string)

  /** 3D analyses skip the Chart.js set-up; the others are drawn as their mapped type, titled
      by their title or "Analysis Chart". */
  function ViewOf(a: SavedAnalysis): (v: View)
    ensures v == Canvas3DView <==> Is3D(a.chartType)
    ensures v.ChartJsView? ==> v.kind == ChartJsType(a.chartType)
    ensures v.ChartJsView? ==> v.title == if Truthy(a.chartTitle) then a.chartTitle.value else "Analysis Chart"
  {
    if Is3D(a.chartType) then Canvas3DView
    else ChartJsView(ChartJsType(a.chartType), OrElse(a.chartTitle, "Analysis Chart"))
  }

  /** 3D detection is case-insensitive: "3D Bar Chart" and "3d line chart" are both 3D. */
  lemma Is3DIgnoresCase(chartType: string, chartType': string)
    requires ToLower(chartType) == ToLower(chartType')
    ensures Is3D(chartType) <==> Is3D(chartType')
  {
  }

  /** A type whose name starts with "3D" or "3d" is 3D. */
  lemma Is3DWhenLeading(chartType: string)
    requires |chartType| >= 2 && chartType[0] == '3' && (chartType[1] == 'D' || chartType[1] == 'd')
    ensures Is3D(chartType)
  {
    var l := ToLower(chartType);
    assert l[0] == '3' && l[1] == 'd';
    assert l[0..2] == "3d";
    assert OccursAt(l, "3d", 0);
    Is3DOccurs(chartType);
  }

  lemma Is3DExample()
    ensures Is3D("3D Bar Chart")
  {
    Is3DWhenLeading("3D Bar Chart");
  }

  /** `${title || "chart"}.png` and `.pdf`. */
  function DownloadName(chartTitle: Option<string>, ext: string): (name: string)
    ensures name == (if Truthy(chartTitle) then chartTitle.value else "chart") + ext
  {
    OrElse(chartTitle, "chart") + ext
  }

  /** The download name ends with the extension and starts with the title, or "chart". */
  lemma DownloadNameShape(chartTitle: Option<string>, ext: string)
    ensures ext <= DownloadName(chartTitle, ext)[|DownloadName(chartTitle, ext)| - |ext|..]
    ensures Truthy(chartTitle) ==> chartTitle.value <= DownloadName(chartTitle, ext)
    ensures !Truthy(chartTitle) ==> DownloadName(chartTitle, ext) == "chart" + ext
  {
  }

  /** The filter predicate of `handleDelete`. */
  function KeepsOther(id: string): SavedAnalysis -> bool {
    (a: SavedAnalysis) => a.id != id
  }

  /** `prev.filter(a => a._id !== id)`. */
  function Remaining(analyses: seq<SavedAnalysis>, id: string): (r: seq<SavedAnalysis>)
    ensures forall a :: a in r <==> a in analyses && a.id != id
    ensures |r| <= |analyses|
  {
    FilterMembers(analyses, KeepsOther(id));
    Filter(analyses, KeepsOther(id))
  }

  /** After deleting `id`, exactly the entries with that id are gone: every other entry keeps
      all its copies, and the survivors keep their order. */
  lemma RemainingIsExact(analyses: seq<SavedAnalysis>, id: string, a: SavedAnalysis)
    ensures a in Remaining(analyses, id) <==> a in analyses && a.id != id
    ensures multiset(Remaining(analyses, id))[a] == if a.id != id then multiset(analyses)[a] else 0
    ensures IsSubseq(Remaining(analyses, id), analyses)
  {
    FilterMultiset(analyses, KeepsOther(id), a);
    FilterIsSubseq(analyses, KeepsOther(id));
  }

  /** The list, the pending delete and the selection of the page. */
  class SavedAnalysesPage {
    var analyses: seq<SavedAnalysis>
    var deleteId: Option<string>
    var selected: Option<SavedAnalysis>

    constructor ()
      ensures analyses == [] && deleteId == None && selected == None
    {
      analyses, deleteId, selected := [], None, None;
    }

    /** `fetchAnalyses`: `data.history || []`. */
    method Load(history: Option<seq<SavedAnalysis>>)
      modifies this`analyses
      ensures analyses == history.GetOr([])
    {
      analyses := history.GetOr([]);
    }

    /** `confirmDelete(id)`: remember which entry the dialog is about. */
    method ConfirmDelete(id: string)
      modifies this`deleteId
      ensures deleteId == Some(id)
    {
      deleteId := Some(id);
    }

    /**
     * `handleDelete(id)`: `ok` is whether the DELETE request succeeded.
     * On success the entries with that id go, the dialog closes, and the
     * selection is cleared only if it was the deleted entry; otherwise
     * nothing changes.
     */
    method HandleDelete(id: string, ok: bool)
      modifies this
      ensures ok ==> analyses == Remaining(old(analyses), id) && deleteId == None
      ensures ok ==> selected == if old(selected).Some? && old(selected).value.id == id then None else old(selected)
      ensures !ok ==> analyses == old(analyses) && deleteId == old(deleteId) && selected == old(selected)
    {
      if ok {
        analyses := Remaining(analyses, id);
        deleteId := None;
        if selected.Some? && selected.value.id == id {
          selected := None;
        }
      }
    }
  }
}
