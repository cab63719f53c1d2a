/** The plain upload page: choose one file, upload it, and ask for a chart
    of it. */
module UploadPage {
  import opened Values
  import opened Text
  import opened Records
  import opened Http
  import Api

  const Parsed := "File uploaded and parsed!"
  const UploadFailed := "Upload failed"
  const ChartGenerated := "Chart generated! Go to Charts page to view."
  const ChartFailed := "Chart generation failed"
  const ChartToast := "Chart generated successfully!"

  /** The success toast of an upload, counting the preview rows. */
  function UploadedToast(rows: int): string {
    "File uploaded successfully! " + IntToString(rows) + " rows processed"
  }

  /** The data of a successful upload: `preview` rows and `fileId`. */
  datatype UploadBody = UploadBody(preview: Option<seq<Row>>, fileId: Option<string>)

  datatype PageState = PageState(file: Option<BrowserFile>, preview: seq<Row>, fileId: Option<string>,
                                 uploading: bool, error: string, success: string)

  const Initial := PageState(None, [], None, false, "", "")

  /** Choosing a file forgets everything about the previous one. */
  function FileChanged(s: PageState, selected: Option<BrowserFile>): (r: PageState)
    ensures r.file == selected && r.preview == [] && r.fileId.None? && r.error == "" && r.success == ""
    ensures r.uploading == s.uploading
  {
    PageState(selected, [], None, s.uploading, "", "")
  }

  /** The upload: without a file nothing happens. Data with a preview and
      an id is shown; a failed request, or data that is `null` (reading
      `preview` of it throws), shows the server's message or the fallback.
      Either way `uploading` ends false. */
  function Uploaded(s: PageState, reply: Reply<Option<UploadBody>>): (r: PageState)
    ensures s.file.None? ==> r == s
    ensures s.file.Some? ==> !r.uploading && r.file == s.file
    ensures s.file.Some? && reply.Ok? && reply.body.Some? ==>
              r.preview == reply.body.value.preview.GetOr([]) && r.fileId == reply.body.value.fileId
              && r.success == Parsed && r.error == ""
    ensures s.file.Some? && reply.Err? ==>
              r.error == ServerMessageOr(reply.failure, UploadFailed) && r.success == ""
              && r.preview == s.preview && r.fileId == s.fileId
    ensures s.file.Some? && reply.Ok? && reply.body.None? ==>
              r.error == UploadFailed && r.success == "" && r.preview == s.preview && r.fileId == s.fileId
  {
    if s.file.None? then s
    else
      var cleared := s.(error := "", success := "", uploading := false);
      match reply
      case Ok(Some(b)) => cleared.(preview := b.preview.GetOr([]), fileId := b.fileId, success := Parsed)
      case Ok(None) => cleared.(error := UploadFailed)
      case Err(f) => cleared.(error := ServerMessageOr(f, UploadFailed))
  }

  /** The chart request: only with a non-empty `fileId`; a success message
      or an error, and nothing else changes. */
  function ChartRequested(s: PageState, reply: Reply<Json>): (r: PageState)
    ensures !Filled(s.fileId) ==> r == s
    ensures Filled(s.fileId) && reply.Ok? ==> r == s.(success := ChartGenerated)
    ensures Filled(s.fileId) && reply.Err? ==> r == s.(error := ServerMessageOr(reply.failure, ChartFailed))
  {
    if !Filled(s.fileId) then s
    else match reply
      case Ok(_) => s.(success := ChartGenerated)
      case Err(f) => s.(error := ServerMessageOr(f, ChartFailed))
  }

  /** Right after a file is chosen no chart can be requested: the id of the
      previous upload is gone until the new file is uploaded. */
  lemma NoChartBeforeUpload(s: PageState, selected: Option<BrowserFile>, reply: Reply<Json>)
    ensures ChartRequested(FileChanged(s, selected), reply) == FileChanged(s, selected)
  {
  }

  /** A successful upload whose data names the file makes the chart request
      possible. */
  lemma UploadEnablesChart(s: PageState, b: UploadBody, reply: Reply<Json>)
    requires s.file.Some? && Filled(b.fileId)
    ensures var t := Uploaded(s, Ok(Some(b)));
            reply.Ok? ==> ChartRequested(t, reply).success == ChartGenerated
  {
  }

  class Upload {
    var file: Option<BrowserFile>
    var preview: seq<Row>
    var fileId: Option<string>
    var uploading: bool
    var error: string
    var success: string

    function State(): PageState
      reads this
    {
      PageState(file, preview, fileId, uploading, error, success)
    }

    constructor ()
      ensures State() == Initial
    {
      file := None;
      preview := [];
      fileId := None;
      uploading := false;
      error := "";
      success := "";
    }

    /** Returns the toast naming the chosen file, if one was chosen. */
    method HandleFileChange(selected: Option<BrowserFile>) returns (toast: Option<string>)
      modifies this
      ensures State() == FileChanged(old(State()), selected)
      ensures toast.Some? <==> selected.Some?
      ensures selected.Some? ==> toast.value == "File selected: " + selected.value.name
    {
      file := selected;
      preview := [];
      fileId := None;
      error := "";
      success := "";
      toast := if selected.Some? then Some("File selected: " + selected.value.name) else None;
    }

    /** Returns whether the upload request was sent, and the toast: the row
        count on success, otherwise the same message the page shows as its
        error. */
    method HandleUpload(reply: Reply<Option<UploadBody>>) returns (sent: bool, toast: Option<string>)
      modifies this
      ensures State() == Uploaded(old(State()), reply)
      ensures sent == old(file).Some?
      ensures toast.Some? <==> sent
      ensures sent && reply.Ok? && reply.body.Some? ==> toast == Some(UploadedToast(|preview|))
      ensures sent && !(reply.Ok? && reply.body.Some?) ==> toast == Some(error)
    {
      sent := file.Some?;
      toast := None;
      if !sent {
        return;
      }
      uploading := true;
      error := "";
      success := "";
      match reply {
        case Ok(Some(b)) =>
          preview := b.preview.GetOr([]);
          fileId := b.fileId;
          success := Parsed;
          toast := Some(UploadedToast(|preview|));
        case Ok(None) =>
          error := UploadFailed;
          toast := Some(error);
        case Err(f) =>
          error := ServerMessageOr(f, UploadFailed);
          toast := Some(error);
      }
      uploading := false;
    }

    /** Returns the body posted, if any: the file id with the default chart
        type and no options; and the toast, the fixed success text or the
        same message the page shows as its error. */
    method HandleGenerateChart(reply: Reply<Json>) returns (request: Option<Api.ChartRequest>, toast: Option<string>)
      modifies this
      ensures State() == ChartRequested(old(State()), reply)
      ensures request.Some? <==> Filled(old(fileId))
      ensures request.Some? ==> request.value.fileId == old(fileId).value
                                && request.value.chartType == Api.DefaultChartType
                                && request.value.xColumn.None? && request.value.yColumn.None?
      ensures toast.Some? <==> request.Some?
      ensures request.Some? && reply.Ok? ==> toast == Some(ChartToast)
      ensures request.Some? && reply.Err? ==> toast == Some(error)
    {
      if !Filled(fileId) {
        return None, None;
      }
      request := Some(Api.GenerateChartBody(fileId.value, None, None));
      match reply {
        case Ok(_) =>
          success := ChartGenerated;
          toast := Some(ChartToast);
        case Err(f) =>
          error := ServerMessageOr(f, ChartFailed);
          toast := Some(error);
      }
    }
  }
}
