/** The public features page: its feature cards send signed-in users to a
    feature, and its drop zone forwards one spreadsheet to the upload page. */
module FeaturesPage {
  import opened Values
  import opened Records

  const LoginRoute := "/login"
  const UploadRoute := "/features/upload"
  const XlsxMime := "application/vnd.openxmlformats-officedocument.spreadsheetml.sheet"
  const CsvMime := "text/csv"
  const LoginToUpload := "Please login to upload files"
  const LoginToAccess := "Please login to access this feature"
  const WrongType := "Please upload an Excel (.xlsx) or CSV file"

  /** Where a handler sends the browser: nowhere, or to a path, with the
      dropped file in the navigation state when there is one. */
  datatype Navigation = Stay | Go(path: string, file: Option<BrowserFile>)

  /** A handler's effect: the navigation and the error toast, if any. */
  datatype Outcome = Outcome(nav: Navigation, toast: Option<string>)

  /** The drop zone accepts exactly these two MIME types. */
  predicate Accepted(f: BrowserFile) {
    f.mimeType == XlsxMime || f.mimeType == CsvMime
  }

  /** `handleFeatureClick(path)`: to the login page without a user,
      otherwise to the feature. */
  function FeatureClicked(user: Option<User>, path: string): (o: Outcome)
    ensures user.None? ==> o == Outcome(Go(LoginRoute, None), Some(LoginToAccess))
    ensures user.Some? ==> o == Outcome(Go(path, None), None)
  {
    if user.None? then Outcome(Go(LoginRoute, None), Some(LoginToAccess))
    else Outcome(Go(path, None), None)
  }

  /** `handleDrop`: without a user, to the login page whatever was dropped;
      otherwise only the first file is looked at, an empty drop does
      nothing, an accepted file goes to the upload page and any other
      raises the type error. */
  function Dropped(user: Option<User>, files: seq<BrowserFile>): (o: Outcome)
    ensures user.None? ==> o == Outcome(Go(LoginRoute, None), Some(LoginToUpload))
    ensures user.Some? && files == [] ==> o == Outcome(Stay, None)
    ensures user.Some? && files != [] ==>
              (o.nav == Go(UploadRoute, Some(files[0])) <==> Accepted(files[0]))
    ensures user.Some? && files != [] && !Accepted(files[0]) ==> o == Outcome(Stay, Some(WrongType))
    ensures o.nav.Go? && o.nav.file.Some? ==> o.nav.path == UploadRoute && Accepted(o.nav.file.value)
  {
    if user.None? then Outcome(Go(LoginRoute, None), Some(LoginToUpload))
    else if files == [] then Outcome(Stay, None)
    else if Accepted(files[0]) then Outcome(Go(UploadRoute, Some(files[0])), None)
    else Outcome(Stay, Some(WrongType))
  }

  /** Without a user a click never reaches the feature, whichever it is. */
  lemma ClickNeedsUser(path: string)
    requires path != LoginRoute
    ensures FeatureClicked(None, path).nav != Go(path, None)
  {
  }

  /** Files after the first never change what a drop does. */
  lemma OnlyFirstFileMatters(user: Option<User>, f: BrowserFile, rest1: seq<BrowserFile>, rest2: seq<BrowserFile>)
    ensures Dropped(user, [f] + rest1) == Dropped(user, [f] + rest2)
  {
    assert ([f] + rest1)[0] == f == ([f] + rest2)[0];
  }

  /** Without a user what was dropped is ignored. */
  lemma DropWithoutUserIgnoresFiles(files1: seq<BrowserFile>, files2: seq<BrowserFile>)
    ensures Dropped(None, files1) == Dropped(None, files2)
    ensures Dropped(None, files1).nav.Go? && Dropped(None, files1).nav.file.None?
  {
  }

  class Features {
    var isDragging: bool

    constructor ()
      ensures !isDragging
    {
      isDragging := false;
    }

    method HandleDragOver()
      modifies this
      ensures isDragging
    {
      isDragging := true;
    }

    method HandleDragLeave()
      modifies this
      ensures !isDragging
    {
      isDragging := false;
    }

    /** `handleDrop`: the drag highlight ends, whatever happens next. */
    method HandleDrop(user: Option<User>, files: seq<BrowserFile>) returns (o: Outcome)
      modifies this
      ensures !isDragging
      ensures o == Dropped(user, files)
    {
      isDragging := false;
      o := Dropped(user, files);
    }
  }
}
