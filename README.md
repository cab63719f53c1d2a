# Spreadsheet analytics client — a Dafny model of its session, routing and page logic

The original is a React single-page client for a remote spreadsheet-analytics API.
Users sign in, upload Excel or CSV files, pick columns and ask the server for a chart,
browse their upload and analysis history, and request AI insights on a file. An
administrator manages the user list. This project models the client's own decision
logic in Dafny and proves what it promises:

- the session store (`AuthProvider`): start-up check, register, login, logout,
  profile update, password change, and the two axios hooks that attach the bearer
  token and react to a 401;
- the `api` client's hooks, the request path of every endpoint, and the body of
  the chart request;
- the two route guards (`PublicRoute`, `PrivateRoute`) and the route table;
- the Redux slices under `src/redux/slices` and `src/store/slices`;
- the list, string and gating logic of the pages: the registration form checks,
  the two upload pages, chart column typing and export names, the history merge,
  search and download name, the admin user list and stats cards, the insights
  page, the sidebar breadcrumb and the public features page.

What is modelled, and how:

- Every reply the server can send is an input. `Http.Reply<T>` is either `Ok(body)` or
  `Err(Failure(status, serverMessage, message))`.
- A reply body the code reads without a null check is an `Option`. Its `None` case
  stands for a `null` body and follows the source's exception path.
- Local storage's `'token'` entry is one shared object, `Http.LocalStorage`. The session
  store, the `api` client and the Redux auth slice all hold the same instance, so a
  token one of them writes or removes is the token the others read (`TokenStorage`
  composes them). `window.location` is a plain field of the `api` client.
- JavaScript truthiness (`x || fallback`, `if (x)`) is spelled out in `Values`.
- Objects whose state a handler changes step by step are Dafny classes, one per
  component or store: `AuthContext.AuthProvider`, `Api.ApiClient`, the slice classes
  and one class for each page.
- Each handler's `ensures` ties the new state to a pure function of the old state and
  the reply. The lemmas are proved about those functions: `Reduce`/`Step`, `Run` over
  a sequence of actions, `Analyzed`, `Dropped`, and so on.
- Pure derivations are functions with lemmas beside them: filters, path builders,
  name sanitising and the filename regular expression.
- Module `Api` writes each endpoint's path as a list of segments, in the order the
  client's template string writes them. `PathOf` joins them with '/'. The module
  proves that splitting and decoding a path gives the endpoint back when no id contains
  '/', so two distinct endpoints whose ids contain no '/' never share a verb and a path.
  Ids that do contain '/' can collide (`Api.SlashedIdsCollide`).

Two points where the code's behaviour is easy to misread:

- **401 on session requests.** A failed register, login or profile request whose
  status is 401 clears the session. `AuthContext` registers its 401 hook on the global
  axios instance (src/context/AuthContext.jsx:38-49), and its own requests use that
  same instance (src/context/AuthContext.jsx:88, 107). `AuthContext.SignedIn` and
  `AuthContext.ProfileUpdated` model this.
- **Insights reply shape.** The insights page reads `response.success`,
  `response.data` and `response.message` (src/pages/features/AIInsights.jsx:113-117).
  `AIInsights.InsightsBody` has exactly those three parts.

## Model

| member | source | states |
|---|---|---|
| Values.Filter | src/pages/Admin/AdminPanel.jsx:107-112 | `filter`: no longer than the list, every entry passes and is from the list |
| Values.FilterIsSubsequence | src/pages/features/History.jsx:134-139 | the filter keeps order, keeps every entry that passes, and keeps all when all pass |
| Values.FilterAgree | src/pages/Admin/AdminPanel.jsx:107-112 | two tests that agree on every entry filter alike |
| Values.OrElse | src/pages/features/History.jsx:125 | `o \|\| fallback` on a string: the value when it is non-empty, else the fallback; never blank when the fallback is not |
| Values.NumberOr | src/pages/Admin/AdminPanel.jsx:117 | `n \|\| fallback` on a number: the value unless absent or 0 |
| Values.Row.Keys | src/pages/features/Charts.jsx:173 | `Object.keys(row)` lists the row's field names in order |
| Values.Row.Get | src/pages/features/Charts.jsx:369 | `row[key]` is defined exactly when some field has that key |
| Text.Lower | src/pages/Admin/AdminPanel.jsx:108 | `toLowerCase` keeps the length and lowers each ASCII letter |
| Text.LowerIdempotent | src/pages/Admin/AdminPanel.jsx:108-109 | lowering twice is lowering once |
| Text.ContainsAt | src/pages/features/History.jsx:135-136 | `includes` holds exactly when the needle occurs at some index |
| Text.ContainsEmpty | src/pages/features/History.jsx:135-136 | every string includes the empty query |
| Text.NatToString | src/pages/Admin/AdminPanel.jsx:118 | a number in a template string is a non-empty string of digits with no leading zero |
| Text.NatToStringValue | src/pages/Admin/AdminPanel.jsx:118 | reading those digits back gives the number |
| Text.IntToString | src/pages/Admin/AdminPanel.jsx:139 | negative numbers get a leading '-' |
| Http.ServerMessageOr | src/context/AuthContext.jsx:98 | `error.response?.data?.message \|\| fallback` |
| Http.WithBearer | src/context/AuthContext.jsx:27-32 | "Authorization" becomes "Bearer " + token exactly when a token is stored; other headers are kept |
| AuthContext.Initial | src/context/AuthContext.jsx:16-18 | the store starts loading, with no user and no flag |
| AuthContext.Cleared | src/context/AuthContext.jsx:42-44 | no user, no flag, no token; loading untouched |
| AuthContext.Rejected | src/context/AuthContext.jsx:40-48 | a 401 clears the session; any other failure changes nothing |
| AuthContext.Checked | src/context/AuthContext.jsx:53-80 | `checkAuth` ends with loading false; no token means no user; a profile becomes the user; empty data or an error removes the token |
| AuthContext.StoredForm | src/context/AuthContext.jsx:91 | `setItem` stores a missing token as the text "undefined", a present one as it is |
| AuthContext.SignedIn | src/context/AuthContext.jsx:86-121 | a reply with data stores its token in stored form, sets its user (possibly missing) and the flag; a failure other than 401 changes nothing; a 401 clears; a reply without a user breaks "authenticated implies user" |
| AuthContext.UserlessSignIn | src/context/AuthContext.jsx:86-121 | a register or login whose data has no `user` |
| AuthContext.SignInResult | src/context/AuthContext.jsx:96-100 | success with the data's user exactly when the reply carries data; otherwise the server message or the fallback |
| AuthContext.ProfileUpdated | src/context/AuthContext.jsx:133-144 | the reply's data becomes the user; an empty reply breaks "authenticated implies user" |
| AuthContext.EmptyProfileUpdate | src/context/AuthContext.jsx:136 | a profile update whose data is null |
| AuthContext.RunKeepsConsistent | src/context/AuthContext.jsx:27-157 | every sequence of events without an empty profile update and without a userless sign-in keeps "authenticated implies user and token" |
| AuthContext.RunAppend | src/context/AuthContext.jsx:15-157 | running events one more step is one more `Step` |
| AuthContext.EndsLoggedOut | src/context/AuthContext.jsx:124-130 | whatever came before, a final logout leaves no user, no flag, no token |
| AuthContext.LogoutIdempotent | src/context/AuthContext.jsx:124-130 | logging out twice is logging out once |
| AuthContext.AuthProvider.constructor | src/context/AuthContext.jsx:15-18 | the mounted store uses the given local storage and is `Initial` with its token |
| AuthContext.AuthProvider.AttachToken | src/context/AuthContext.jsx:26-35 | the request hook sets the headers to `WithBearer` of the token in local storage |
| AuthContext.AuthProvider.ResponseRejected | src/context/AuthContext.jsx:38-49 | the response hook steps by the failure and passes the same error on |
| AuthContext.AuthProvider.CheckAuth | src/context/AuthContext.jsx:52-83 | steps by `Checked`; the profile is requested only with a token |
| AuthContext.AuthProvider.SignIn | src/context/AuthContext.jsx:86-121 | steps by `SignedIn` and returns `SignInResult` |
| AuthContext.AuthProvider.Register | src/context/AuthContext.jsx:86-102 | register with its own fallback message |
| AuthContext.AuthProvider.Login | src/context/AuthContext.jsx:105-121 | login with its own fallback message |
| AuthContext.AuthProvider.Logout | src/context/AuthContext.jsx:124-130 | steps by logout and always returns success |
| AuthContext.AuthProvider.UpdateProfile | src/context/AuthContext.jsx:133-144 | steps by `ProfileUpdated`; success with the data, or the message |
| AuthContext.AuthProvider.ChangePassword | src/context/AuthContext.jsx:147-157 | never changes user or token except through a 401; success or the message |
| Api.Join | src/services/api.js:41-107 | a joined path is empty or starts with '/' |
| Api.TakeSegment | src/services/api.js:41-107 | the first segment of a path is a slash-free prefix ending at a '/' or the end |
| Api.TakeSegmentOf | src/services/api.js:41-107 | a slash-free segment followed by '/' or nothing is read back as itself |
| Api.SplitJoin | src/services/api.js:41-107 | splitting a joined path of slash-free segments gives the segments back |
| Api.FromSegmentsInverse | src/services/api.js:40-108 | every endpoint is recognised from its verb and segments |
| Api.DecodeRequest | src/services/api.js:40-108 | with slash-free ids, decoding an endpoint's verb and path gives it back |
| Api.RequestsDistinct | src/services/api.js:40-108 | two different endpoints whose ids contain no '/' never send the same verb and path |
| Api.HistoryPath | src/services/api.js:106-107 | `getByResource` requests '/history/' + type + '/' + id |
| Api.SlashedIdsCollide | src/services/api.js:106-107 | without that condition it fails: the history ids `t/u`, `v` and `t`, `u/v` are different calls that send the same verb and path |
| Api.GenerateChartBody | src/services/api.js:76-82 | chart type defaults to 'bar'; x, y and row limit come from the options, absent without them |
| Api.ApiClient.constructor | src/services/api.js:6-11 | the client reads the given local storage and starts at the current location |
| Api.ApiClient.InterceptRequest | src/services/api.js:14-25 | the bearer header is set exactly when local storage holds a token |
| Api.ApiClient.InterceptError | src/services/api.js:28-37 | a 401 removes the token from local storage and sends the browser to '/login'; otherwise nothing changes; the error is passed on |
| TokenStorage.LoginReachesApi | src/context/AuthContext.jsx:107-112 | a token stored by a successful login is the bearer token the `api` client's request hook attaches (src/services/api.js:14-25 reads the same entry) |
| TokenStorage.ApiExpiryOutlivesSession | src/services/api.js:28-37 | a 401 on the `api` client removes the shared token and goes to '/login', but the session store still says authenticated with its user, so "authenticated implies user and token" no longer holds |
| PublicRoute.Decide | src/components/PublicRoute.jsx:8-20 | loading shows the placeholder; authenticated with a user redirects to '/features/upload'; children exactly otherwise |
| PublicRoute.SignInLeavesPublicPage | src/components/PublicRoute.jsx:16-18 | after a successful login or register the public pages redirect when the data names a user, and render their children when it does not |
| PublicRoute.LoggedOutSeesPublicPage | src/components/PublicRoute.jsx:20 | after a logout or a 401 the public page is shown |
| AppRoutes.Guard | src/routes/index.jsx:11-23 | loading shows "Loading..."; no user goes to '/login'; children exactly with a user once loaded |
| AppRoutes.PageAt | src/routes/index.jsx:29-57 | the table lists exactly six paths |
| AppRoutes.ProtectedShownIff | src/routes/index.jsx:34-57 | a guarded page is shown exactly to a user once loading is over |
| AppRoutes.UnmatchedGoesHome | src/routes/index.jsx:60 | every unlisted path goes to '/' |
| AppRoutes.OneHopToPage | src/routes/index.jsx:18-60 | following one redirect always reaches a page shown outright: no redirect loop |
| AppRoutes.UnauthorizedLosesProtectedPages | src/routes/index.jsx:18-20 | after a 401 or logout every guarded page goes to '/login' |
| AppRoutes.CheckedNeverWaits | src/routes/index.jsx:14-16 | after the start-up check no guarded page is left waiting |
| ReduxAuthSlice.Initial | src/redux/slices/authSlice.js:3-7 | no user; the token and the flag come from storage |
| ReduxAuthSlice.Reduce | src/redux/slices/authSlice.js:13-31 | each reducer sets its field, the flag follows the payload's truthiness, storage follows `setToken`, logout clears all |
| ReduxAuthSlice.ReduceSyncs | src/redux/slices/authSlice.js:17-31 | storage stays equal to the token whenever it was |
| ReduxAuthSlice.InitialSynced | src/redux/slices/authSlice.js:5-6 | the initial state is in sync unless storage holds the empty string |
| ReduxAuthSlice.RunSynced | src/redux/slices/authSlice.js:13-31 | every sequence of actions keeps token and storage in sync |
| ReduxAuthSlice.ReduceIdempotent | src/redux/slices/authSlice.js:13-31 | every reducer applied twice with the same payload is applied once |
| ReduxAuthSlice.AuthSlice.constructor | src/redux/slices/authSlice.js:3-7 | the store uses the given local storage and starts at `Initial` with its token |
| ReduxAuthSlice.AuthSlice.SetUser | src/redux/slices/authSlice.js:13-16 | steps by `setUser` |
| ReduxAuthSlice.AuthSlice.SetToken | src/redux/slices/authSlice.js:17-25 | steps by `setToken` |
| ReduxAuthSlice.AuthSlice.Logout | src/redux/slices/authSlice.js:26-31 | steps by `logout` |
| ReduxChartSlice.Reduce | src/redux/slices/chartSlice.js:12-17 | each setter changes its own field only |
| ReduxChartSlice.ReduceIdempotent | src/redux/slices/chartSlice.js:12-17 | setting twice is setting once |
| ReduxChartSlice.SettersCommute | src/redux/slices/chartSlice.js:12-17 | the two setters commute |
| ReduxChartSlice.ChartSlice.constructor | src/redux/slices/chartSlice.js:3-6 | no data, type '2D' |
| ReduxChartSlice.ChartSlice.SetChartData | src/redux/slices/chartSlice.js:12-14 | steps by `setChartData` |
| ReduxChartSlice.ChartSlice.SetChartType | src/redux/slices/chartSlice.js:15-17 | steps by `setChartType` |
| ReduxUploadSlice.Reduce | src/redux/slices/uploadSlice.js:11-16 | `addUpload` appends at the end keeping the rest; `setUploads` replaces the list |
| ReduxUploadSlice.RunAdds | src/redux/slices/uploadSlice.js:11-13 | a run of additions appends every payload in order |
| ReduxUploadSlice.SetThenAdd | src/redux/slices/uploadSlice.js:11-16 | after `setUploads`, the list is the payload plus what was added since |
| ReduxUploadSlice.UploadSlice.constructor | src/redux/slices/uploadSlice.js:3-5 | the list starts empty |
| ReduxUploadSlice.UploadSlice.AddUpload | src/redux/slices/uploadSlice.js:11-13 | steps by `addUpload` |
| ReduxUploadSlice.UploadSlice.SetUploads | src/redux/slices/uploadSlice.js:14-16 | steps by `setUploads` |
| StoreChartSlice.Merge | src/store/slices/chartSlice.js:33-38 | the merged options hold both key sets; the payload wins; other keys keep their values |
| StoreChartSlice.Reduce | src/store/slices/chartSlice.js:21-51 | each setter changes its own field; reset restores the initial state |
| StoreChartSlice.ReduceIdempotent | src/store/slices/chartSlice.js:21-51 | every reducer applied twice with the same payload is applied once |
| StoreChartSlice.MergeTwice | src/store/slices/chartSlice.js:33-38 | two option updates are one update with the merged payload |
| StoreChartSlice.MergeNothing | src/store/slices/chartSlice.js:33-38 | an empty option update changes nothing |
| StoreChartSlice.ChartSlice.constructor | src/store/slices/chartSlice.js:3-15 | the store starts at the initial state |
| StoreChartSlice.ChartSlice.SetChartData | src/store/slices/chartSlice.js:21-23 | steps by `setChartData` |
| StoreChartSlice.ChartSlice.SetSelectedChart | src/store/slices/chartSlice.js:24-26 | steps by `setSelectedChart` |
| StoreChartSlice.ChartSlice.SetLoading | src/store/slices/chartSlice.js:27-29 | steps by `setLoading` |
| StoreChartSlice.ChartSlice.SetError | src/store/slices/chartSlice.js:30-32 | steps by `setError` |
| StoreChartSlice.ChartSlice.UpdateChartOptions | src/store/slices/chartSlice.js:33-38 | steps by `updateChartOptions` |
| StoreChartSlice.ChartSlice.ResetChartState | src/store/slices/chartSlice.js:39-51 | steps by `resetChartState` |
| StoreUploadSlice.Reduce | src/store/slices/uploadSlice.js:15-35 | each setter changes its own field; clearing resets all but `uploadedFiles`, which only `addUploadedFile` touches |
| StoreUploadSlice.RunUploaded | src/store/slices/uploadSlice.js:27-35 | over any run, `uploadedFiles` grows by exactly the added files, in order |
| StoreUploadSlice.ClearIdempotent | src/store/slices/uploadSlice.js:30-35 | clearing twice is clearing once |
| StoreUploadSlice.ClearInitial | src/store/slices/uploadSlice.js:3-9 | clearing the initial state changes nothing |
| StoreUploadSlice.UploadSlice.constructor | src/store/slices/uploadSlice.js:3-9 | the store starts at the initial state |
| StoreUploadSlice.UploadSlice.SetFiles | src/store/slices/uploadSlice.js:15-17 | steps by `setFiles` |
| StoreUploadSlice.UploadSlice.SetUploadProgress | src/store/slices/uploadSlice.js:18-20 | steps by `setUploadProgress` |
| StoreUploadSlice.UploadSlice.SetIsUploading | src/store/slices/uploadSlice.js:21-23 | steps by `setIsUploading` |
| StoreUploadSlice.UploadSlice.SetError | src/store/slices/uploadSlice.js:24-26 | steps by `setError` |
| StoreUploadSlice.UploadSlice.AddUploadedFile | src/store/slices/uploadSlice.js:27-29 | steps by `addUploadedFile` |
| StoreUploadSlice.UploadSlice.ClearUploadState | src/store/slices/uploadSlice.js:30-35 | steps by `clearUploadState` |
| RegisterForm.WithField | src/components/Register.jsx:18-24 | a change sets exactly the named field |
| RegisterForm.FirstError | src/components/Register.jsx:26-44 | no error exactly for a valid form; each message exactly when its check is the first to fail |
| RegisterForm.MismatchBeforeLength | src/components/Register.jsx:31-38 | a short password that does not match is reported as a mismatch |
| RegisterForm.EmptyFormMissing | src/components/Register.jsx:27-30 | the empty form reports the missing fields |
| RegisterForm.Register.constructor | src/components/Register.jsx:6-14 | empty form, no error, not loading |
| RegisterForm.Register.HandleChange | src/components/Register.jsx:18-24 | sets the field and clears the error |
| RegisterForm.Register.ValidateForm | src/components/Register.jsx:26-44 | true exactly for a valid form; otherwise the first error is shown |
| RegisterForm.Register.HandleSubmit | src/components/Register.jsx:46-65 | sends exactly a valid form; an invalid one shows its error and leaves loading as it was |
| UploadFeature.ExcelFiles | src/pages/features/Upload.jsx:18-20 | the kept files all have spreadsheet names and come from the drop |
| UploadFeature.ExcelFilesAll | src/pages/features/Upload.jsx:18-30 | the filter keeps the whole drop exactly when every name passes, and then unchanged |
| UploadFeature.Outcomes | src/pages/features/Upload.jsx:49-66 | one outcome per file, in order: the file with its reply's data when the reply succeeded, the file with its failure otherwise |
| UploadFeature.Successes | src/pages/features/Upload.jsx:67 | only uploaded outcomes, all from the batch |
| UploadFeature.Failures | src/pages/features/Upload.jsx:68 | only failed outcomes, all from the batch |
| UploadFeature.Partition | src/pages/features/Upload.jsx:67-68 | successes and failures together are the batch, as a multiset |
| UploadFeature.FailureMessage | src/pages/features/Upload.jsx:86 | server message, else the error's message, else "Unknown error"; never blank |
| UploadFeature.SuccessfulNullThrows | src/pages/features/Upload.jsx:75-79 | the throwing path needs at least one success |
| UploadFeature.NoSuccessNoThrow | src/pages/features/Upload.jsx:70-80 | a batch with no success never throws |
| UploadFeature.UploadPage.constructor | src/pages/features/Upload.jsx:10-13 | no files, not uploading, no error, no results |
| UploadFeature.DetailToasts | src/pages/features/Upload.jsx:75-79 | one toast per uploaded file, in order, naming it and its row count (`preview?.length || 0`), stopping exactly at the first null response |
| UploadFeature.ObjectPreviewCountsOwnLength | src/pages/features/Upload.jsx:76 | a preview object with its own numeric `length` is reported with that number of rows, not by its entries |
| UploadFeature.FailureToasts | src/pages/features/Upload.jsx:84-89 | one toast per failed file, in order, naming it and its message |
| UploadFeature.BatchToasts | src/pages/features/Upload.jsx:70-105 | a batch that throws ends its toasts with the batch error |
| UploadFeature.NoThrowToastCount | src/pages/features/Upload.jsx:70-90 | a batch that does not throw toasts once per file plus once per non-empty group |
| UploadFeature.UploadPage.OnDrop | src/pages/features/Upload.jsx:17-31 | an all-spreadsheet drop replaces the files and toasts their count; any other keeps them, shows the type error and toasts it |
| UploadFeature.UploadPage.HandleUpload | src/pages/features/Upload.jsx:42-109 | with no files nothing happens; otherwise the outcomes are recorded, the message follows the split, the toasts are `BatchToasts`, and uploading ends false |
| UploadPage.FileChanged | src/pages/Upload.jsx:16-27 | choosing a file forgets the previous preview, id and messages |
| UploadPage.Uploaded | src/pages/Upload.jsx:29-51 | no file, no change; data shows the preview and id; an error or null data shows the message; uploading ends false |
| UploadPage.ChartRequested | src/pages/Upload.jsx:53-66 | only with a file id; a success or an error message, nothing else changes |
| UploadPage.NoChartBeforeUpload | src/pages/Upload.jsx:16-27 | right after a file is chosen no chart can be requested |
| UploadPage.UploadEnablesChart | src/pages/Upload.jsx:29-66 | a successful upload naming the file enables the chart request |
| UploadPage.Upload.constructor | src/pages/Upload.jsx:9-14 | the page starts at `Initial` |
| UploadPage.Upload.HandleFileChange | src/pages/Upload.jsx:16-27 | steps by `FileChanged`; toasts the file's name exactly when one was chosen |
| UploadPage.Upload.HandleUpload | src/pages/Upload.jsx:29-51 | steps by `Uploaded`; sends exactly with a file; toasts the row count on success and the page's error otherwise |
| UploadPage.Upload.HandleGenerateChart | src/pages/Upload.jsx:53-66 | steps by `ChartRequested`; the body carries the file id and the default type; toasts exactly when sent, the success text or the page's error |
| ChartsFeature.Sample | src/pages/features/Charts.jsx:369 | `slice(0, 10)`: the first ten rows, or all of them |
| ChartsFeature.NumericCount | src/pages/features/Charts.jsx:370 | the count of numeric samples is at most the sample size |
| ChartsFeature.GetColumnType | src/pages/features/Charts.jsx:366-373 | no data is text; otherwise numeric exactly when more than 70% of the sample is numeric |
| ChartsFeature.OnlyFirstTenCount | src/pages/features/Charts.jsx:369 | rows after the tenth never change a column's type |
| ChartsFeature.CountAll | src/pages/features/Charts.jsx:370 | an all-numeric sample counts fully, a non-numeric one counts zero |
| ChartsFeature.AllOrNone | src/pages/features/Charts.jsx:366-373 | an all-numeric sample is numeric, a non-numeric one text |
| ChartsFeature.Columns | src/pages/features/Charts.jsx:173 | the first row's keys, none without rows |
| ChartsFeature.AutoColumns | src/pages/features/Charts.jsx:173-176 | with two or more columns x and y become the first two; otherwise they are kept |
| ChartsFeature.Underscored | src/pages/features/Charts.jsx:253 | every non-alphanumeric character becomes '_' |
| ChartsFeature.ExportStem | src/pages/features/Charts.jsx:253 | lower-case letters, digits and '_' only; '_' exactly where the title had a non-alphanumeric or '_' |
| ChartsFeature.ExportStemIdempotent | src/pages/features/Charts.jsx:253 | sanitising a sanitised name changes nothing |
| ChartsFeature.ExportFileName | src/pages/features/Charts.jsx:240-258 | a name exactly with a chart and format png or jpg: stem + "." + format |
| ChartsFeature.ChartPage.constructor | src/pages/features/Charts.jsx:63-85 | the page's initial state, with the file passed from history preselected |
| ChartsFeature.ChartPage.LoadFileData | src/pages/features/Charts.jsx:167-182 | requests '/data/file/' + the file id; a successful reply sets the data and auto-selects columns; anything else keeps them; the load error is toasted exactly when the request fails, the reply is null, or a successful reply has null data |
| ChartsFeature.ChartPage.HandleFileSelect | src/pages/features/Charts.jsx:184-194 | selecting clears the chart, retitles, resets the columns and loads the selected file's data by its id; toasts the selection, then the load error if any |
| ChartsFeature.ChartPage.HandleGenerateChart | src/pages/features/Charts.jsx:196-238 | a request exactly with a file and both columns, carrying them; the chart and title only from a reply; toasts only when not automatic |
| HistoryFeature.AnalysisItem | src/pages/features/History.jsx:123-131 | an analysis's title and file name fall back to fixed texts and are never blank |
| HistoryFeature.FileItems | src/pages/features/History.jsx:113-122 | one item per file, in order |
| HistoryFeature.AnalysisItems | src/pages/features/History.jsx:123-131 | one item per analysis, in order |
| HistoryFeature.AllItems | src/pages/features/History.jsx:112-132 | the files' items, then the analyses' items |
| HistoryFeature.EmptyQueryKeepsAll | src/pages/features/History.jsx:134-139 | an empty query with filter 'all' keeps every item |
| HistoryFeature.LineLength | src/pages/features/History.jsx:66 | the length of the first line, the scan limit of `.` |
| HistoryFeature.LastQuote | src/pages/features/History.jsx:66 | the last '"' of a string, if any |
| HistoryFeature.Capture | src/pages/features/History.jsx:66 | `(.+)"`: a non-empty one-line capture followed by a quote |
| HistoryFeature.MatchFilename | src/pages/features/History.jsx:66 | the capture of `filename="(.+)"`, never empty |
| HistoryFeature.MatchSkipsPrefix | src/pages/features/History.jsx:66 | text before the first 'f' never changes the match |
| HistoryFeature.TypicalHeader | src/pages/features/History.jsx:62-70 | `attachment; filename="name"` gives back the name |
| HistoryFeature.FallbackName | src/pages/features/History.jsx:72-79 | the base name without '.xlsx' or '.xls', plus "_report.xlsx" |
| HistoryFeature.DownloadName | src/pages/features/History.jsx:62-79 | the header's name when it matches, else the fallback; never blank |
| HistoryFeature.HistoryPage.constructor | src/pages/features/History.jsx:24-28 | empty lists, empty query, filter 'all', loading |
| HistoryFeature.HistoryPage.LoadHistory | src/pages/features/History.jsx:36-48 | a reply's lists (missing as empty); otherwise kept and the load error toasted; loading ends false |
| HistoryFeature.HistoryPage.HandleDelete | src/pages/features/History.jsx:95-109 | sends the delete of that file id exactly when confirmed; a failed delete toasts its error; a successful one toasts, reloads, and toasts the reload's error if any |
| AdminPanel.SearchIgnoresCase | src/pages/Admin/AdminPanel.jsx:107-112 | a lower-cased search term finds exactly the same users |
| AdminPanel.WithoutUser | src/pages/Admin/AdminPanel.jsx:87 | removes exactly the users with that id, keeping order |
| AdminPanel.WithoutAbsent | src/pages/Admin/AdminPanel.jsx:87 | removing an absent id changes nothing |
| AdminPanel.Suspend | src/pages/Admin/AdminPanel.jsx:94-96 | the users with that id become 'suspended'; every other user is unchanged |
| AdminPanel.SuspendIdempotent | src/pages/Admin/AdminPanel.jsx:94-96 | suspending twice is suspending once |
| AdminPanel.DeleteAfterSuspend | src/pages/Admin/AdminPanel.jsx:84-98 | deleting after suspending is deleting |
| AdminPanel.WeeklyChange | src/pages/Admin/AdminPanel.jsx:118 | "+n this week", or "+0 this week" when absent or 0 |
| AdminPanel.StatsCards | src/pages/Admin/AdminPanel.jsx:114-143 | four cards, each value falling back to 0 or '0 GB' |
| AdminPanel.ActiveRatio | src/pages/Admin/AdminPanel.jsx:125 | the active share divides by the total, or by 1 when it is absent or 0 |
| AdminPanel.EmptyStatsCards | src/pages/Admin/AdminPanel.jsx:114-143 | with no stats every card shows its fallback |
| AdminPanel.Panel.constructor | src/pages/Admin/AdminPanel.jsx:25-31 | the panel's initial state |
| AdminPanel.Panel.FetchData | src/pages/Admin/AdminPanel.jsx:34-57 | each list is replaced only when it and every earlier request succeeded; the error is toasted exactly when one failed; loading and refreshing end false |
| AdminPanel.Panel.HandleUserAction | src/pages/Admin/AdminPanel.jsx:75-105 | delete after confirmation or suspend sends a request; on success the list is updated, the success toasted and a refresh follows; a failure toasts the error; view and edit toast the user's id |
| AIInsights.FirstIndex | src/pages/features/AIInsights.jsx:137 | the index of the first file with the id, -1 when there is none |
| AIInsights.FindFile | src/pages/features/AIInsights.jsx:137 | `find`: none exactly when no file has the id, else the first that does |
| AIInsights.ReportFileName | src/pages/features/AIInsights.jsx:137 | "Unknown File" when no file has the id; never blank |
| AIInsights.ReportNamesFirstMatch | src/pages/features/AIInsights.jsx:182 | the name is the first matching file's, when it has one |
| AIInsights.PdfBaseName | src/pages/features/AIInsights.jsx:290 | drops a trailing '.xlsx', '.xls' or '.csv'; other names stay as they are |
| AIInsights.PdfBaseNameDropsOne | src/pages/features/AIInsights.jsx:290 | at most one extension is dropped |
| AIInsights.Pending | src/pages/features/AIInsights.jsx:106-107 | loading set and insights cleared before the request |
| AIInsights.Analyzed | src/pages/features/AIInsights.jsx:100-125 | no file, no change; otherwise insights only from a successful reply, and loading ends false |
| AIInsights.AnalyzeToast | src/pages/features/AIInsights.jsx:100-125 | the toast: select first; the success text on success; the reply's message or 'Analysis failed'; a failed request's message or 'Failed to analyze data'; a null reply gives the TypeError's message; never blank |
| AIInsights.Field | src/pages/features/AIInsights.jsx:202 | `insights[key]`: the field when the insights are an object holding it, null otherwise |
| AIInsights.Exported | src/pages/features/AIInsights.jsx:127-291 | no download without insights; a JSON report naming the file; a PDF named after its base name exactly when the format is 'pdf' and the template does not throw on a list or a null statistics entry |
| AIInsights.StringTrendsGetNoPdf | src/pages/features/AIInsights.jsx:202-203 | trends sent as a non-empty string make the PDF template throw, so nothing downloads, while the JSON report still does |
| AIInsights.WellShapedInsightsGetPdf | src/pages/features/AIInsights.jsx:202-247 | insights whose lists are arrays or missing and whose statistics hold no null entry always download a PDF |
| AIInsights.FailedAnalysisDisablesExport | src/pages/features/AIInsights.jsx:113-128 | after a failed analysis nothing can be exported or shared |
| AIInsights.AnalysisForgetsPrevious | src/pages/features/AIInsights.jsx:106-118 | an analysis's outcome never depends on the insights shown before |
| AIInsights.InsightsPage.constructor | src/pages/features/AIInsights.jsx:25-42 | the file passed from history is preselected; the list is loading |
| AIInsights.InsightsPage.SelectFile | src/pages/features/AIInsights.jsx:360 | only the selection changes |
| AIInsights.InsightsPage.LoadFiles | src/pages/features/AIInsights.jsx:87-98 | a reply's list (missing as empty) or the error toast; loading ends false |
| AIInsights.InsightsPage.HandleAnalyze | src/pages/features/AIInsights.jsx:100-125 | steps by `Analyzed`; requests '/data/insights/' + id exactly with a selection, in the `Pending` state; toast is `AnalyzeToast` |
| AIInsights.InsightsPage.HandleExportReport | src/pages/features/AIInsights.jsx:127-162 | the download is `Exported`, including no download when the PDF template throws |
| AIInsights.ShareThrows | src/pages/features/AIInsights.jsx:305-306 | building the share text throws when trends or recommendations is present but not an array |
| AIInsights.InsightsPage.HandleShareInsights | src/pages/features/AIInsights.jsx:299-322 | shares exactly when there are insights and building the text does not throw; the failure toast when it throws, the copy toast when sharing falls back to the clipboard |
| Sidebar.BreadcrumbTitle | src/components/Sidebar.jsx:60-73 | a non-empty title exactly for the four feature paths, '' otherwise |
| Sidebar.ShownIffTitled | src/components/Sidebar.jsx:60-75 | the breadcrumb is shown exactly when its title is non-empty |
| Sidebar.CrumbsAgreeWithNav | src/components/Sidebar.jsx:18-73 | the '/upload', '/charts' and '/ai-insights' breadcrumbs repeat their link's title; the '/history' link says "History" and its breadcrumb "Analysis History" |
| FeaturesPage.FeatureClicked | src/pages/Features.jsx:106-113 | no user goes to '/login' with a toast; a user goes to the feature |
| FeaturesPage.Dropped | src/pages/Features.jsx:86-104 | no user goes to '/login'; an empty drop does nothing; the first file goes to the upload page exactly when its type is xlsx or CSV, else the type toast |
| FeaturesPage.ClickNeedsUser | src/pages/Features.jsx:106-111 | without a user a click never reaches its feature |
| FeaturesPage.OnlyFirstFileMatters | src/pages/Features.jsx:94-96 | files after the first never change a drop |
| FeaturesPage.DropWithoutUserIgnoresFiles | src/pages/Features.jsx:89-93 | without a user the dropped files are ignored |
| FeaturesPage.Features.constructor | src/pages/Features.jsx:24 | not dragging |
| FeaturesPage.Features.HandleDragOver | src/pages/Features.jsx:77-80 | dragging after dragover |
| FeaturesPage.Features.HandleDragLeave | src/pages/Features.jsx:82-84 | not dragging after dragleave |
| FeaturesPage.Features.HandleDrop | src/pages/Features.jsx:86-104 | not dragging after a drop; the effect is `Dropped` |

## Left out

- Rendering, styling, animation, icons and toasts' appearance. The page handlers return the text of their success and error toasts, in order, in place of showing them.
- Toasts of the 'loading' kind ('Uploading file...', 'Analyzing data with AI...', 'Generating chart...', 'Exporting chart...') are not among the returned toasts.
- `AuthContext.AuthProvider`'s methods return no toasts: the session-expired toast of the 401 hook and the success and error toasts of register, login, logout, profile update and password change are not modelled.
- The toasts of the charts page's export and share handlers, of the history page's report download, and of the registration submit (see the submit wiring below) are not modelled. Of the two download handlers the model keeps the file names they compute.
- Network transport: requests are not sent; every reply is an input to the handler that awaits it. `Promise.all` in the batch upload is modelled as all replies settled, one per file.
- Concurrency and timing: polling intervals, the chart page's debounce, stale responses after reselection, and the interceptor registration repeated on every render of `AuthContext`. Each handler runs to completion, and each hook is registered once.
- Floating point: the rounded active percentage (`AdminPanel.ActiveRatio` gives the numerator and divisor only), megabyte formatting, upload bar widths, and the PDF page-splitting loop of `exportAsPDF`, whose heights are real numbers.
- Browser and library APIs: Blob and object URLs, jsPDF and html2canvas, the clipboard and `navigator.share`, Chart.js, canvas export, react-dropzone, `window.confirm`. Each `confirm` answer is a parameter. The insights share text itself is not built: only its guard and the two `.map` calls that can throw (`AIInsights.ShareThrows`) are modelled.
- `Date.now()` and `toLocaleString` in download names and report timestamps: the model leaves the timestamp part out of the names.
- `Number()` parsing: `ChartsFeature.GetColumnType` takes `isNumber` as a parameter standing for `!isNaN(Number(v))`.
- JavaScript numbers are integers here; fractional values in stats or payloads are not represented.
- Strings are sequences of code points, not UTF-16 units. `toLowerCase` lowers ASCII letters only.
- React Router matching is exact path equality. Case-insensitive matching and trailing-slash matching are not modelled.
- `ProtectedRoute` and `AdminRoute`, imported by `src/App.js`, and the auth slice imported by `src/store/index.js` are not part of this model.
- The login and register components' submit wiring, which calls the store with positional arguments, is not modelled. `RegisterForm` models the form checks apart from the store.
- AIInsights.InsightsPage.constructor: the model takes the passed file's id as given; an undefined `_id` in the navigation state is not represented.
- UploadFeature.DetailToasts: an object preview whose own `length` field is a non-empty string, `true`, an array or an object is interpolated by JavaScript's string conversion, which is not modelled; the model counts 0 rows for it. A numeric `length` is modelled.
- AIInsights.Exported: the export toasts, and the error path when the PDF library itself fails, are not modelled. Template throws are modelled for string lists, for objects whose own `length` is a positive number or `true`, and for null statistics entries. An object whose `length` field is a string or an array is compared by JavaScript's number parsing, which is not modelled; such a list counts as not throwing. Interpolating a server object whose own `toString` or `valueOf` field is not a function is not modelled either.
- AuthContext.StoredForm: a token sent as `null` would be stored as "null" and attached as "Bearer null"; only a missing token is represented.
- `isAutoGenerate` in `ChartsFeature.ChartPage.HandleGenerateChart` is a parameter. Every call in the page passes false or nothing.
