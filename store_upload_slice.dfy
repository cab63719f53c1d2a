/** The store's `upload` slice: the files being uploaded, progress, flags,
    and the files uploaded so far. */
module StoreUploadSlice {
  import opened Values
  import opened Records

  datatype UploadState = UploadState(files: seq<BrowserFile>, uploadProgress: int, isUploading: bool,
                                     error: Json, uploadedFiles: seq<Json>)

  datatype Action =
    | SetFiles(files: seq<BrowserFile>)
    | SetUploadProgress(progress: int)
    | SetIsUploading(uploading: bool)
    | SetError(error: Json)
    | AddUploadedFile(file: Json)
    | ClearUploadState

  /** Nothing selected, progress 0, idle, no error, nothing uploaded. */
  const Initial := UploadState([], 0, false, JNull, [])

  function Reduce(s: UploadState, a: Action): (r: UploadState)
    ensures a.SetFiles? ==> r == s.(files := a.files)
    ensures a.SetUploadProgress? ==> r == s.(uploadProgress := a.progress)
    ensures a.SetIsUploading? ==> r == s.(isUploading := a.uploading)
    ensures a.SetError? ==> r == s.(error := a.error)
    ensures a.AddUploadedFile? ==> r == s.(uploadedFiles := s.uploadedFiles + [a.file])
    ensures a.ClearUploadState? ==> r == Initial.(uploadedFiles := s.uploadedFiles)
    ensures !a.AddUploadedFile? ==> r.uploadedFiles == s.uploadedFiles
  {
    match a
    case SetFiles(f) => s.(files := f)
    case SetUploadProgress(p) => s.(uploadProgress := p)
    case SetIsUploading(u) => s.(isUploading := u)
    case SetError(e) => s.(error := e)
    case AddUploadedFile(f) => s.(uploadedFiles := s.uploadedFiles + [f])
    case ClearUploadState => s.(files := [], uploadProgress := 0, isUploading := false, error := JNull)
  }

  function Run(s: UploadState, actions: seq<Action>): UploadState
    decreases |actions|
  {
    if actions == [] then s else Run(Reduce(s, actions[0]), actions[1..])
  }

  /** The payloads of the `addUploadedFile` actions, in order. */
  function Added(actions: seq<Action>): seq<Json>
    decreases |actions|
  {
    if actions == [] then []
    else (if actions[0].AddUploadedFile? then [actions[0].file] else []) + Added(actions[1..])
  }

  /** `uploadedFiles` only ever grows, by exactly the files added, in order:
      no other reducer, the clearing one included, touches it. */
  lemma {:induction false} RunUploaded(s: UploadState, actions: seq<Action>)
    ensures Run(s, actions).uploadedFiles == s.uploadedFiles + Added(actions)
    decreases |actions|
  {
    if actions != [] {
      var t := Reduce(s, actions[0]);
      RunUploaded(t, actions[1..]);
      if actions[0].AddUploadedFile? {
        assert s.uploadedFiles + [actions[0].file] + Added(actions[1..]) == s.uploadedFiles + Added(actions);
      } else {
        assert Added(actions) == Added(actions[1..]);
      }
    }
  }

  /** Clearing twice is clearing once. */
  lemma ClearIdempotent(s: UploadState)
    ensures Reduce(Reduce(s, ClearUploadState), ClearUploadState) == Reduce(s, ClearUploadState)
  {
  }

  /** Clearing an initial state gives the initial state. */
  lemma ClearInitial()
    ensures Reduce(Initial, ClearUploadState) == Initial
  {
  }

  class UploadSlice {
    var files: seq<BrowserFile>
    var uploadProgress: int
    var isUploading: bool
    var error: Json
    var uploadedFiles: seq<Json>

    function State(): UploadState
      reads this
    {
      UploadState(files, uploadProgress, isUploading, error, uploadedFiles)
    }

    constructor ()
      ensures State() == Initial
    {
      files := [];
      uploadProgress := 0;
      isUploading := false;
      error := JNull;
      uploadedFiles := [];
    }

    method SetFiles(payload: seq<BrowserFile>)
      modifies this
      ensures State() == Reduce(old(State()), Action.SetFiles(payload))
    {
      files := payload;
    }

    method SetUploadProgress(payload: int)
      modifies this
      ensures State() == Reduce(old(State()), Action.SetUploadProgress(payload))
    {
      uploadProgress := payload;
    }

    method SetIsUploading(payload: bool)
      modifies this
      ensures State() == Reduce(old(State()), Action.SetIsUploading(payload))
    {
      isUploading := payload;
    }

    method SetError(payload: Json)
      modifies this
      ensures State() == Reduce(old(State()), Action.SetError(payload))
    {
      error := payload;
    }

    method AddUploadedFile(payload: Json)
      modifies this
      ensures State() == Reduce(old(State()), Action.AddUploadedFile(payload))
    {
      uploadedFiles := uploadedFiles + [payload];
    }

    method ClearUploadState()
      modifies this
      ensures State() == Reduce(old(State()), Action.ClearUploadState)
    {
      files := [];
      uploadProgress := 0;
      isUploading := false;
      error := JNull;
    }
  }
}
