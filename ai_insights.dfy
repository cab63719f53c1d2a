/** The AI insights page: pick an uploaded file, ask the server to analyse
    it, then export or share the insights it returns. */
module AIInsights {
  import opened Values
  import opened Text
  import opened Records
  import opened Http
  import Api

  const SelectFirst := "Please select a file to analyze"
  const AnalysisFailed := "Analysis failed"
  const AnalyzeFailed := "Failed to analyze data"
  const Completed := "Analysis completed successfully!"
  const LoadFailed := "Failed to load files"
  const Copied := "Insights copied to clipboard!"
  const ShareFailed := "Failed to share insights"
  const UnknownFile := "Unknown File"
  const JsonFormat := "json"
  const PdfFormat := "pdf"

  /** The extensions the PDF base name loses, in the regular expression's
      order of alternatives. */
  const Extensions: seq<string> := [".xlsx", ".xls", ".csv"]

  /** The reply of `/data/insights/:id`: `success`, `data` (`JNull` when
      absent) and `message`. */
  datatype InsightsBody = InsightsBody(success: bool, data: Json, message: Option<string>)

  /** The reply of the history endpoint: its `files` list, if present. */
  datatype FilesBody = FilesBody(files: Option<seq<FileRecord>>)

  /** A toast with its text. `TypeErrorToast` is the runtime's own message
      when a `null` reply is dereferenced; the model does not fix its text. */
  datatype Toast = Toast(text: string) | TypeErrorToast

  datatype PageState = PageState(selectedFile: string, files: seq<FileRecord>, loading: bool,
                                 loadingFiles: bool, insights: Json)

  /** The download `handleExportReport` starts: a JSON report naming the
      file, a PDF whose name carries the file's base name, or none. */
  datatype Export = NoDownload | JsonReport(file: string, insights: Json) | PdfReport(baseName: string)

  /** The index of the first record with that id, -1 when there is none. */
  function FirstIndex(files: seq<FileRecord>, id: string): (k: int)
    ensures -1 <= k < |files|
    ensures k >= 0 ==> files[k].id == id && forall j :: 0 <= j < k ==> files[j].id != id
    ensures k == -1 ==> forall j :: 0 <= j < |files| ==> files[j].id != id
  {
    if files == [] then -1
    else if files[0].id == id then 0
    else
      var k := FirstIndex(files[1..], id);
      if k == -1 then -1 else k + 1
  }

  /** `files.find(f => f._id === id)`: the first record with that id. */
  function FindFile(files: seq<FileRecord>, id: string): (r: Option<FileRecord>)
    ensures r.None? <==> forall i :: 0 <= i < |files| ==> files[i].id != id
    ensures r.Some? ==> r.value.id == id
    ensures forall i :: 0 <= i < |files| && files[i].id == id && (forall j :: 0 <= j < i ==> files[j].id != id)
                        ==> r == Some(files[i])
  {
    var k := FirstIndex(files, id);
    if k == -1 then None else Some(files[k])
  }

  /** The report's file name: the selected file's `originalName`, or
      "Unknown File" when no file has that id or its name is empty. */
  function ReportFileName(files: seq<FileRecord>, selected: string): (name: string)
    ensures (forall i :: 0 <= i < |files| ==> files[i].id != selected) ==> name == UnknownFile
    ensures name != ""
  {
    var f := FindFile(files, selected);
    if f.Some? && f.value.originalName != "" then f.value.originalName else UnknownFile
  }

  /** The name is the first matching record's, even when later records
      share the id. */
  lemma ReportNamesFirstMatch(files: seq<FileRecord>, selected: string, i: int)
    requires 0 <= i < |files| && files[i].id == selected && files[i].originalName != ""
    requires forall j :: 0 <= j < i ==> files[j].id != selected
    ensures ReportFileName(files, selected) == files[i].originalName
  {
  }

  /** `name.replace(/\.(xlsx|xls|csv)$/, '')`: drops one trailing ".xlsx",
      ".xls" or ".csv". */
  function PdfBaseName(name: string): (r: string)
    ensures EndsWith(name, ".xlsx") ==> r == name[..|name| - 5]
    ensures EndsWith(name, ".xls") ==> r == name[..|name| - 4]
    ensures EndsWith(name, ".csv") ==> r == name[..|name| - 4]
    ensures !EndsWith(name, ".xlsx") && !EndsWith(name, ".xls") && !EndsWith(name, ".csv") ==> r == name
  {
    if EndsWith(name, ".xlsx") then
      // the last letter is 'x', so neither shorter extension matches as well
      assert name[|name| - 1] == 'x';
      name[..|name| - 5]
    else if EndsWith(name, ".xls") || EndsWith(name, ".csv") then name[..|name| - 4]
    else name
  }

  /** The base name is the whole name with at most one extension taken
      off: a name with two extensions keeps the first. */
  lemma PdfBaseNameDropsOne(name: string)
    ensures name == PdfBaseName(name)
            || exists k :: 0 <= k < |Extensions| && PdfBaseName(name) + Extensions[k] == name
  {
    var r := PdfBaseName(name);
    if EndsWith(name, ".xlsx") {
      assert r + Extensions[0] == name;
    } else if EndsWith(name, ".xls") {
      assert r + Extensions[1] == name;
    } else if EndsWith(name, ".csv") {
      assert r + Extensions[2] == name;
    }
  }

  /** The state while the insights request is in flight: `loading` set and
      the previous insights cleared. */
  function Pending(s: PageState): (r: PageState)
    ensures r.loading && r.insights == JNull
    ensures r.selectedFile == s.selectedFile && r.files == s.files && r.loadingFiles == s.loadingFiles
  {
    s.(loading := true, insights := JNull)
  }

  /** `handleAnalyze`: without a selected file nothing changes. Otherwise
      the insights become the reply's `data` only when it reports `success`;
      any other outcome leaves no insights, and `loading` ends false. */
  function Analyzed(s: PageState, reply: Reply<Option<InsightsBody>>): (r: PageState)
    ensures s.selectedFile == "" ==> r == s
    ensures s.selectedFile != "" ==>
              !r.loading && r.selectedFile == s.selectedFile && r.files == s.files
              && r.loadingFiles == s.loadingFiles
    ensures s.selectedFile != "" && reply.Ok? && reply.body.Some? && reply.body.value.success ==>
              r.insights == reply.body.value.data
    ensures s.selectedFile != "" && !(reply.Ok? && reply.body.Some? && reply.body.value.success) ==>
              r.insights == JNull
  {
    if s.selectedFile == "" then s
    else
      var p := Pending(s);
      match reply
      case Ok(Some(b)) => if b.success then p.(insights := b.data, loading := false) else p.(loading := false)
      case Ok(None) => p.(loading := false)
      case Err(_) => p.(loading := false)
  }

  /** The toast `handleAnalyze` ends with: asking to pick a file first; the
      completion message on success; the reply's `message` or "Analysis
      failed" when it reports no success; the request error's message or
      "Failed to analyze data". */
  function AnalyzeToast(selected: string, reply: Reply<Option<InsightsBody>>): (t: Toast)
    ensures selected == "" ==> t == Toast(SelectFirst)
    ensures selected != "" && reply.Ok? && reply.body.Some? && reply.body.value.success ==> t == Toast(Completed)
    ensures selected != "" && reply.Ok? && reply.body.Some? && !reply.body.value.success ==>
              t == Toast(OrElse(reply.body.value.message, AnalysisFailed))
    ensures selected != "" && reply.Err? ==> t == Toast(OrElse(reply.failure.message, AnalyzeFailed))
    ensures selected != "" && reply.Ok? && reply.body.None? ==> t == TypeErrorToast
    ensures t.Toast? ==> t.text != ""
  {
    if selected == "" then Toast(SelectFirst)
    else match reply
      case Ok(Some(b)) =>
        if b.success then Toast(Completed)
        // the thrown Error's message is never blank, so the catch shows it
        else Toast(OrElse(b.message, AnalysisFailed))
      case Ok(None) => TypeErrorToast
      case Err(f) => Toast(OrElse(f.message, AnalyzeFailed))
  }

  /** The four lists the PDF template writes out, in its order. */
  const PdfLists: seq<string> := ["trends", "recommendations", "anomalies", "dataQuality"]

  /** `insights[key]`, with `JNull` for a missing field or a value that is
      not an object. */
  function Field(insights: Json, key: string): (v: Json)
    ensures insights.JObj? && key in insights.fields ==> v == insights.fields[key]
    ensures !(insights.JObj? && key in insights.fields) ==> v == JNull
  {
    if insights.JObj? && key in insights.fields then insights.fields[key] else JNull
  }

  /** `list && list.length > 0 ? list.map(...)` throws when the value is
      truthy with a positive `length` but is not an array: a non-empty
      string, or an object whose own `length` field is a positive number or
      `true`. Arrays map; other values have no `length` and are skipped. */
  predicate ListThrows(list: Json) {
    match list
    case JStr(text) => text != ""
    case JObj(fields) =>
      "length" in fields && (fields["length"] == JBool(true) || (fields["length"].JNum? && fields["length"].n > 0))
    case _ => false
  }

  /** `Object.entries(statistics).map(([key, stats]) => ... stats.count ...)`
      throws when some entry is `null`: a field of an object or an item of
      an array. Strings, numbers and booleans have no `null` entries. */
  predicate StatsThrows(statistics: Json) {
    (statistics.JObj? && exists key :: key in statistics.fields && statistics.fields[key] == JNull)
    || (statistics.JArr? && exists i :: 0 <= i < |statistics.items| && statistics.items[i] == JNull)
  }

  /** Whether `exportAsPDF` throws while building its HTML, before any
      library call: on one of the four lists or on the statistics. Only an
      object has fields to read; any other insights value skips every block. */
  predicate PdfThrows(insights: Json) {
    insights.JObj?
    && ((exists k :: 0 <= k < |PdfLists| && ListThrows(Field(insights, PdfLists[k])))
        || StatsThrows(Field(insights, "statistics")))
  }

  /** `handleExportReport(format)`: nothing without insights; a JSON report
      or a PDF named after the selected file; no download when the PDF
      template throws (the catch only toasts) or for any other format. */
  function Exported(s: PageState, format: string): (e: Export)
    ensures !Truthy(s.insights) ==> e == NoDownload
    ensures Truthy(s.insights) && format == JsonFormat ==>
              e == JsonReport(ReportFileName(s.files, s.selectedFile), s.insights)
    ensures e.PdfReport? <==> Truthy(s.insights) && format == PdfFormat && !PdfThrows(s.insights)
    ensures e.PdfReport? ==> e.baseName == PdfBaseName(ReportFileName(s.files, s.selectedFile))
    ensures format != JsonFormat && format != PdfFormat ==> e == NoDownload
  {
    if !Truthy(s.insights) then NoDownload
    else if format == JsonFormat then JsonReport(ReportFileName(s.files, s.selectedFile), s.insights)
    else if format == PdfFormat && !PdfThrows(s.insights) then PdfReport(PdfBaseName(ReportFileName(s.files, s.selectedFile)))
    else NoDownload
  }

  /** A trends value that is a word rather than a list gets no PDF, though
      it still exports as JSON. */
  lemma StringTrendsGetNoPdf(s: PageState, word: string)
    requires word != ""
    requires s.insights == JObj(map["trends" := JStr(word)])
    ensures Exported(s, PdfFormat) == NoDownload
    ensures Exported(s, JsonFormat).JsonReport?
  {
    assert ListThrows(Field(s.insights, PdfLists[0]));
  }

  /** Insights of the documented shape (each list an array or missing, no
      `null` statistics entry) always download a PDF. */
  lemma WellShapedInsightsGetPdf(s: PageState)
    requires s.insights.JObj?
    requires forall k :: 0 <= k < |PdfLists| ==> Field(s.insights, PdfLists[k]).JArr? || Field(s.insights, PdfLists[k]) == JNull
    requires var stats := Field(s.insights, "statistics");
             stats == JNull || (stats.JObj? && forall key :: key in stats.fields ==> stats.fields[key] != JNull)
    ensures Exported(s, PdfFormat) == PdfReport(PdfBaseName(ReportFileName(s.files, s.selectedFile)))
  {
  }

  /** `handleShareInsights` shares or copies only when there are insights. */
  predicate Shares(s: PageState) {
    Truthy(s.insights)
  }

  /** Building the share text calls `.map` on `insights[key]` through `?.`:
      that throws when the field is there, not `null`, and not an array. */
  predicate MapThrows(insights: Json, key: string) {
    insights.JObj? && key in insights.fields && insights.fields[key] != JNull && !insights.fields[key].JArr?
  }

  /** Whether building the share text throws, on either of its two lists. */
  predicate ShareThrows(insights: Json) {
    MapThrows(insights, "trends") || MapThrows(insights, "recommendations")
  }

  /** Whatever insights a page showed before, an analysis that fails leaves
      nothing to export or share. */
  lemma FailedAnalysisDisablesExport(s: PageState, reply: Reply<Option<InsightsBody>>, format: string)
    requires s.selectedFile != ""
    requires !(reply.Ok? && reply.body.Some? && reply.body.value.success)
    ensures Exported(Analyzed(s, reply), format) == NoDownload
    ensures !Shares(Analyzed(s, reply))
  {
  }

  /** The outcome of an analysis depends only on the selected file, the
      file list and the reply, never on the insights shown before. */
  lemma AnalysisForgetsPrevious(s: PageState, t: PageState, reply: Reply<Option<InsightsBody>>)
    requires s.selectedFile == t.selectedFile && s.files == t.files && s.loadingFiles == t.loadingFiles
    ensures Analyzed(s, reply) == Analyzed(t, reply) || s.selectedFile == ""
  {
  }

  class InsightsPage {
    var selectedFile: string
    var files: seq<FileRecord>
    var loading: bool
    var loadingFiles: bool
    var insights: Json

    function State(): PageState
      reads this
    {
      PageState(selectedFile, files, loading, loadingFiles, insights)
    }

    /** The page as it mounts, with the file the history page passed (if
        any) already selected and the file list about to load. */
    constructor (passed: Option<FileRecord>)
      ensures State() == PageState(if passed.Some? then passed.value.id else "", [], false, true, JNull)
    {
      selectedFile := if passed.Some? then passed.value.id else "";
      files := [];
      loading := false;
      loadingFiles := true;
      insights := JNull;
    }

    /** The file picker's `onChange`. */
    method SelectFile(id: string)
      modifies this
      ensures State() == old(State()).(selectedFile := id)
    {
      selectedFile := id;
    }

    /** `loadFiles`: a missing list counts as empty; a failed request or a
        `null` reply keeps the list and shows the fixed error. */
    method LoadFiles(reply: Reply<Option<FilesBody>>) returns (toast: Option<string>)
      modifies this
      ensures reply.Ok? && reply.body.Some? ==>
                State() == old(State()).(files := reply.body.value.files.GetOr([]), loadingFiles := false)
                && toast.None?
      ensures !(reply.Ok? && reply.body.Some?) ==>
                State() == old(State()).(loadingFiles := false) && toast == Some(LoadFailed)
    {
      loadingFiles := true;
      match reply {
        case Ok(Some(b)) =>
          files := b.files.GetOr([]);
          toast := None;
        case Ok(None) =>
          toast := Some(LoadFailed);
        case Err(_) =>
          toast := Some(LoadFailed);
      }
      loadingFiles := false;
    }

    /** `handleAnalyze`. Returns the request sent, if any, the state while it
        was in flight, and the error toast. */
    method HandleAnalyze(reply: Reply<Option<InsightsBody>>)
      returns (request: Option<Api.Endpoint>, ghost inFlight: PageState, toast: Toast)
      modifies this
      ensures State() == Analyzed(old(State()), reply)
      ensures request.Some? <==> old(selectedFile) != ""
      ensures request.Some? ==> request.value == Api.DataGetInsights(old(selectedFile))
      ensures request.Some? ==> inFlight == Pending(old(State()))
      ensures toast == AnalyzeToast(old(selectedFile), reply)
    {
      inFlight := State();
      if selectedFile == "" {
        return None, inFlight, Toast(SelectFirst);
      }
      loading := true;
      insights := JNull;
      inFlight := State();
      request := Some(Api.DataGetInsights(selectedFile));
      match reply {
        case Ok(Some(b)) =>
          if b.success {
            insights := b.data;
            toast := Toast(Completed);
          } else {
            toast := Toast(OrElse(b.message, AnalysisFailed));
          }
        case Ok(None) =>
          toast := TypeErrorToast;
        case Err(f) =>
          toast := Toast(OrElse(f.message, AnalyzeFailed));
      }
      loading := false;
    }

    /** `handleExportReport`: the download started, if any. */
    method HandleExportReport(format: string) returns (download: Export)
      ensures download == Exported(State(), format)
    {
      download := Exported(State(), format);
    }

    /** `handleShareInsights`: whether anything was shared or copied, and the
        toast. `canShare` says whether the browser has `navigator.share`;
        without it the text is copied to the clipboard, with a toast. */
    method HandleShareInsights(canShare: bool) returns (shared: bool, toast: Option<string>)
      ensures shared <==> Shares(State()) && !ShareThrows(insights)
      ensures !Shares(State()) ==> toast.None?
      ensures Shares(State()) && ShareThrows(insights) ==> toast == Some(ShareFailed)
      ensures Shares(State()) && !ShareThrows(insights) ==> toast == if canShare then None else Some(Copied)
    {
      if !Truthy(insights) {
        return false, None;
      }
      if ShareThrows(insights) {
        return false, Some(ShareFailed);
      }
      shared := true;
      toast := if canShare then None else Some(Copied);
    }
  }
}
