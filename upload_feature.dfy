/** The feature upload page: the drop-zone filter and the batch upload with
    its success / failure split. */
module UploadFeature {
  import opened Values
  import opened Text
  import opened Records
  import opened Http

  const WrongType := "Please upload only Excel files (.xlsx, .xls) or CSV files (.csv)"
  const WrongTypeToast := "Please upload only Excel or CSV files"
  const BatchFailed := "Failed to upload files. Please try again."
  const UnknownError := "Unknown error"
  const HistoryPage := "/features/history"

  /** The name test the drop handler applies (a case-sensitive suffix). */
  predicate IsSpreadsheetName(name: string) {
    EndsWith(name, ".xlsx") || EndsWith(name, ".xls") || EndsWith(name, ".csv")
  }

  /** `acceptedFiles.filter(...)`: the files whose names pass, in order. */
  function ExcelFiles(files: seq<BrowserFile>): (r: seq<BrowserFile>)
    ensures |r| <= |files|
    ensures forall i :: 0 <= i < |r| ==> IsSpreadsheetName(r[i].name)
    ensures forall i :: 0 <= i < |r| ==> r[i] in files
  {
    Filter(files, (f: BrowserFile) => IsSpreadsheetName(f.name))
  }

  predicate AllSpreadsheets(files: seq<BrowserFile>) {
    forall i :: 0 <= i < |files| ==> IsSpreadsheetName(files[i].name)
  }

  /** The filter keeps the whole drop exactly when every name passes, and
      then it keeps it as it is. */
  lemma {:induction false} ExcelFilesAll(files: seq<BrowserFile>)
    ensures |ExcelFiles(files)| == |files| <==> AllSpreadsheets(files)
    ensures AllSpreadsheets(files) ==> ExcelFiles(files) == files
    decreases |files|
  {
    if files != [] {
      var rest := ExcelFiles(files[1..]);
      ExcelFilesAll(files[1..]);
      if IsSpreadsheetName(files[0].name) {
        assert ExcelFiles(files) == [files[0]] + rest;
        assert AllSpreadsheets(files) <==> AllSpreadsheets(files[1..]) by {
          assert forall i :: 1 <= i < |files| ==> files[i] == files[1..][i - 1];
        }
        if AllSpreadsheets(files) {
          assert files == [files[0]] + files[1..];
        }
      } else {
        assert ExcelFiles(files) == rest;
        assert !AllSpreadsheets(files);
      }
    }
  }

  /** One file's settled upload: the reply's data, or the request's error. */
  datatype Outcome = Uploaded(file: BrowserFile, response: Json) | NotUploaded(file: BrowserFile, failure: Failure)

  /** `files.map(...)` after `Promise.all`: each file with its own reply. */
  function Outcomes(files: seq<BrowserFile>, replies: seq<Reply<Json>>): (r: seq<Outcome>)
    requires |replies| == |files|
    ensures |r| == |files|
    ensures forall i :: 0 <= i < |r| ==> r[i].file == files[i]
    ensures forall i :: 0 <= i < |r| ==> (r[i].Uploaded? <==> replies[i].Ok?)
    ensures forall i :: 0 <= i < |r| ==>
              (replies[i].Ok? ==> r[i] == Uploaded(files[i], replies[i].body))
              && (replies[i].Err? ==> r[i] == NotUploaded(files[i], replies[i].failure))
  {
    if files == [] then []
    else
      [match replies[0] case Ok(b) => Uploaded(files[0], b) case Err(f) => NotUploaded(files[0], f)]
      + Outcomes(files[1..], replies[1..])
  }

  function Successes(rs: seq<Outcome>): (r: seq<Outcome>)
    ensures forall i :: 0 <= i < |r| ==> r[i].Uploaded? && r[i] in rs
  {
    Filter(rs, (o: Outcome) => o.Uploaded?)
  }

  function Failures(rs: seq<Outcome>): (r: seq<Outcome>)
    ensures forall i :: 0 <= i < |r| ==> r[i].NotUploaded? && r[i] in rs
  {
    Filter(rs, (o: Outcome) => o.NotUploaded?)
  }

  /** Successes and failures split the batch: together they have one entry
      per file, and each outcome lands in exactly one of them. */
  lemma {:induction false} Partition(rs: seq<Outcome>)
    ensures |Successes(rs)| + |Failures(rs)| == |rs|
    ensures multiset(Successes(rs)) + multiset(Failures(rs)) == multiset(rs)
    decreases |rs|
  {
    if rs != [] {
      Partition(rs[1..]);
      assert rs == [rs[0]] + rs[1..];
    }
  }

  /** A successful upload whose data is `null` makes `response.preview`
      throw, which aborts the rest of the batch handling. */
  predicate Throws(rs: seq<Outcome>) {
    exists i :: 0 <= i < |rs| && rs[i].Uploaded? && rs[i].response == JNull
  }

  /** The message logged for one failed file. */
  function FailureMessage(f: Failure): (m: string)
    ensures Filled(f.serverMessage) ==> m == f.serverMessage.value
    ensures !Filled(f.serverMessage) && Filled(f.message) ==> m == f.message.value
    ensures !Filled(f.serverMessage) && !Filled(f.message) ==> m == UnknownError
    ensures m != ""
  {
    OrElse(f.serverMessage, OrElse(f.message, UnknownError))
  }

  /** `response.preview?.length || 0` for a response that is not `null`:
      the length of an array or string preview; for an object preview, its
      own `length` field when that is a non-zero number; 0 for anything
      else (a number or boolean preview has no `length`). */
  function RowCount(response: Json): int {
    if response.JObj? && "preview" in response.fields then PreviewLength(response.fields["preview"]) else 0
  }

  /** `preview?.length || 0` for a preview that is there. */
  function PreviewLength(preview: Json): int {
    match preview
    case JArr(xs) => |xs|
    case JStr(t) => |t|
    case JObj(g) => if "length" in g && g["length"].JNum? then g["length"].n else 0
    case _ => 0
  }

  /** A preview object that carries its own `length` is counted by that
      field, not by its entries. */
  lemma ObjectPreviewCountsOwnLength(file: BrowserFile, n: int)
    ensures Detail(Uploaded(file, JObj(map["preview" := JObj(map["length" := JNum(n)])])))
            == file.name + " uploaded! " + IntToString(n) + " rows processed"
  {
  }

  function Detail(o: Outcome): string
    requires o.Uploaded?
  {
    o.file.name + " uploaded! " + IntToString(RowCount(o.response)) + " rows processed"
  }

  /** The toasts naming each uploaded file, in order, up to the first whose
      response is `null`: reading its preview throws and ends the list. */
  function DetailToasts(ss: seq<Outcome>): (ts: seq<string>)
    requires forall i :: 0 <= i < |ss| ==> ss[i].Uploaded?
    ensures |ts| <= |ss|
    ensures forall i :: 0 <= i < |ts| ==> ss[i].response != JNull && ts[i] == Detail(ss[i])
    ensures |ts| < |ss| ==> ss[|ts|].response == JNull
  {
    if ss == [] || ss[0].response == JNull then []
    else
[Detail(ss[0])] + DetailToasts(ss[1..])
  }

  /** The toasts naming each failed file with its message, in order. */
  function FailureToasts(fs: seq<Outcome>): (ts: seq<string>)
    requires forall i :: 0 <= i < |fs| ==> fs[i].NotUploaded?
    ensures |ts| == |fs|
    ensures forall i :: 0 <= i < |ts| ==> ts[i] == "Failed to upload " + fs[i].file.name + ": " + FailureMessage(fs[i].failure)
  {
    if fs == [] then []
    else ["Failed to upload " + fs[0].file.name + ": " + FailureMessage(fs[0].failure)] + FailureToasts(fs[1..])
  }

  /** Every toast of a batch, in order: the success count and one toast per
      uploaded file, then the failure count and one toast per failed file.
      A `null` response among the successes ends the list early with the
      batch error. */
  function BatchToasts(rs: seq<Outcome>): (ts: seq<string>)
    ensures Throws(rs) ==> ts != [] && ts[|ts| - 1] == BatchFailed
  {
    var ss := Successes(rs);
    var fs := Failures(rs);
    (if ss != [] then [IntToString(|ss|) + " file(s) uploaded successfully!"] + DetailToasts(ss) else [])
    + (if Throws(rs) then [BatchFailed]
       else if fs != [] then [IntToString(|fs|) + " file(s) failed to upload"] + FailureToasts(fs)
       else [])
  }

  /** A batch that does not throw toasts once per file, plus one count for
      each of the two groups that is not empty. */
  lemma NoThrowToastCount(rs: seq<Outcome>)
    requires !Throws(rs)
    ensures |BatchToasts(rs)| == |rs| + (if Successes(rs) != [] then 1 else 0) + (if Failures(rs) != [] then 1 else 0)
  {
    Partition(rs);
    var ss := Successes(rs);
    forall i | 0 <= i < |ss|
      ensures ss[i].response != JNull
    {
      assert ss[i] in rs;
    }
  }

  class UploadPage {
    var files: seq<BrowserFile>
    var uploading: bool
    var error: Option<string>
    var uploadedFiles: seq<Outcome>

    constructor ()
      ensures files == [] && !uploading && error.None? && uploadedFiles == []
    {
      files := [];
      uploading := false;
      error := None;
      uploadedFiles := [];
    }

    /** The drop handler is all or nothing: one rejected name rejects the
        drop and keeps the earlier selection. Returns the toast: the number
        of files selected, or the type error. */
    method OnDrop(accepted: seq<BrowserFile>) returns (toast: string)
      modifies this
      ensures AllSpreadsheets(accepted) ==> files == accepted && error.None?
                                            && toast == IntToString(|accepted|) + " file(s) selected"
      ensures !AllSpreadsheets(accepted) ==> files == old(files) && error == Some(WrongType) && toast == WrongTypeToast
      ensures uploading == old(uploading) && uploadedFiles == old(uploadedFiles)
    {
      var excelFiles := ExcelFiles(accepted);
      ExcelFilesAll(accepted);
      if |excelFiles| != |accepted| {
        error := Some(WrongType);
        return WrongTypeToast;
      }
      files := excelFiles;
      error := None;
      toast := IntToString(|excelFiles|) + " file(s) selected";
    }

    /** Uploads every selected file, one reply each. With nothing selected
        nothing happens. Otherwise the successes are appended to
        `uploadedFiles`; then the selection is emptied, unless a success
        without data threw first, in which case the batch error is shown.
        `uploading` ends false. Returns whether the page schedules the move
        to the history page. */
    method HandleUpload(replies: seq<Reply<Json>>) returns (navigates: bool, toasts: seq<string>)
      requires |replies| == |files|
      modifies this
      ensures old(files) == [] ==> files == old(files) && uploading == old(uploading) && error == old(error)
                                   && uploadedFiles == old(uploadedFiles) && !navigates && toasts == []
      ensures old(files) != [] ==>
                var rs := Outcomes(old(files), replies);
                && uploadedFiles == old(uploadedFiles) + Successes(rs)
                && !uploading
                && toasts == BatchToasts(rs)
                && (Throws(rs) ==> files == old(files) && error == Some(BatchFailed) && !navigates)
                && (!Throws(rs) ==> files == [] && error.None? && (navigates <==> Successes(rs) != []))
    {
      navigates, toasts := false, [];
      if |files| == 0 {
        return;
      }
      uploading := true;
      error := None;
      var results := Outcomes(files, replies);
      toasts := BatchToasts(results);
      var successful := Successes(results);
      if |successful| > 0 {
        uploadedFiles := uploadedFiles + successful;
        if Throws(results) {
          SuccessfulNullThrows(results);
          error := Some(BatchFailed);
          uploading := false;
          return;
        }
      } else {
        NoSuccessNoThrow(results);
      }
      files := [];
      navigates := |successful| > 0;
      uploading := false;
    }
  }

  /** A throwing batch has a success, so the append happens before it. */
  lemma {:induction false} SuccessfulNullThrows(rs: seq<Outcome>)
    requires Throws(rs)
    ensures Successes(rs) != []
    decreases |rs|
  {
    if !(rs[0].Uploaded? && rs[0].response == JNull) {
      var i :| 0 <= i < |rs| && rs[i].Uploaded? && rs[i].response == JNull;
      assert rs[1..][i - 1] == rs[i];
      SuccessfulNullThrows(rs[1..]);
    }
  }

  lemma NoSuccessNoThrow(rs: seq<Outcome>)
    requires Successes(rs) == []
    ensures !Throws(rs)
  {
    if Throws(rs) {
      SuccessfulNullThrows(rs);
    }
  }
}
