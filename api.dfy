/** The shared HTTP client: its two interceptors, the request body of chart
    generation, and the verb and path each endpoint function sends. */
module Api {
  import opened Values
  import opened Http
  import opened Text

  const LoginPath := "/login"
  const DefaultChartType := "bar"

  datatype Verb = Get | Post | Put | Delete

  /** Every endpoint function of `authAPI`, `excelAPI`, `dataAPI`,
      `analysisAPI` and `historyAPI`, with the identifiers it is called with. */
  datatype Endpoint =
    | AuthRegister | AuthLogin | AuthGetProfile | AuthUpdateProfile | AuthChangePassword
    | ExcelUpload | ExcelGetAll | ExcelGetById(id: string) | ExcelDelete(id: string)
    | DataUpload | DataGetFileData(id: string) | DataGenerateChart | DataGetChart(id: string)
    | DataGetHistory | DataGetInsights(id: string) | DataDownloadReport(id: string) | DataDeleteFile(id: string)
    | AnalysisCreate | AnalysisGetAll | AnalysisGetById(id: string) | AnalysisUpdate(id: string)
    | AnalysisDelete(id: string) | AnalysisGenerateChart(id: string) | AnalysisGenerateInsights(id: string)
    | HistoryGetAll | HistoryGetByResource(resourceType: string, id: string)

  function VerbOf(e: Endpoint): Verb {
    match e
    case AuthRegister | AuthLogin | ExcelUpload | DataUpload | DataGenerateChart
      | AnalysisCreate | AnalysisGenerateChart(_) | AnalysisGenerateInsights(_) => Post
    case AuthUpdateProfile | AuthChangePassword | AnalysisUpdate(_) => Put
    case ExcelDelete(_) | DataDeleteFile(_) | AnalysisDelete(_) => Delete
    case _ => Get
  }

  /** The segments of the path each endpoint function builds, in the order
      the client's template string writes them. */
  function SegmentsOf(e: Endpoint): seq<string> {
    match e
    case AuthRegister => ["auth", "register"]
    case AuthLogin => ["auth", "login"]
    case AuthGetProfile => ["auth", "profile"]
    case AuthUpdateProfile => ["auth", "profile"]
    case AuthChangePassword => ["auth", "password"]
    case ExcelUpload => ["excel", "upload"]
    case ExcelGetAll => ["excel"]
    case ExcelGetById(id) => ["excel", id]
    case ExcelDelete(id) => ["excel", id]
    case DataUpload => ["data", "upload"]
    case DataGetFileData(id) => ["data", "file", id]
    case DataGenerateChart => ["data", "generate-chart"]
    case DataGetChart(id) => ["data", "chart", id]
    case DataGetHistory => ["data", "history"]
    case DataGetInsights(id) => ["data", "insights", id]
    case DataDownloadReport(id) => ["data", "download", id]
    case DataDeleteFile(id) => ["data", "file", id]
    case AnalysisCreate => ["analysis"]
    case AnalysisGetAll => ["analysis"]
    case AnalysisGetById(id) => ["analysis", id]
    case AnalysisUpdate(id) => ["analysis", id]
    case AnalysisDelete(id) => ["analysis", id]
    case AnalysisGenerateChart(id) => ["analysis", id, "chart"]
    case AnalysisGenerateInsights(id) => ["analysis", id, "insights"]
    case HistoryGetAll => ["history"]
    case HistoryGetByResource(t, id) => ["history", t, id]
  }

  /** Each segment written after a '/'. */
  function Join(segs: seq<string>): (p: string)
    ensures p == [] || p[0] == '/'
  {
    if segs == [] then "" else "/" + segs[0] + Join(segs[1..])
  }

  /** The path an endpoint function requests, e.g. `/data/file/${fileId}`. */
  function PathOf(e: Endpoint): string {
    Join(SegmentsOf(e))
  }

  /** The longest prefix of `s` without a '/'. */
  function TakeSegment(s: string): (seg: string)
    ensures IsPrefix(seg, s)
    ensures '/' !in seg
    ensures |seg| == |s| || s[|seg|] == '/'
  {
    if s == [] || s[0] == '/' then "" else [s[0]] + TakeSegment(s[1..])
  }

  /** Splits a path that starts with '/' into its segments. */
  function SplitPath(p: string): seq<string>
    decreases |p|
  {
    if p == [] || p[0] != '/' then []
    else
      var seg := TakeSegment(p[1..]);
      [seg] + SplitPath(p[1 + |seg|..])
  }

  /** The endpoint a server would dispatch a request to. */
  function FromSegments(v: Verb, segs: seq<string>): Option<Endpoint> {
    if segs == [] then None
    else match segs[0]
      case "auth" => FromAuth(v, segs[1..])
      case "excel" => FromExcel(v, segs[1..])
      case "data" => FromData(v, segs[1..])
      case "analysis" => FromAnalysis(v, segs[1..])
      case "history" => FromHistory(v, segs[1..])
      case _ => None
  }

  function FromAuth(v: Verb, rest: seq<string>): Option<Endpoint> {
    if |rest| != 1 then None
    else match (v, rest[0])
      case (Post, "register") => Some(AuthRegister)
      case (Post, "login") => Some(AuthLogin)
      case (Get, "profile") => Some(AuthGetProfile)
      case (Put, "profile") => Some(AuthUpdateProfile)
      case (Put, "password") => Some(AuthChangePassword)
      case _ => None
  }

  function FromExcel(v: Verb, rest: seq<string>): Option<Endpoint> {
    if rest == [] then (if v == Get then Some(ExcelGetAll) else None)
    else if |rest| != 1 then None
    else if v == Post then (if rest[0] == "upload" then Some(ExcelUpload) else None)
    else if v == Get then Some(ExcelGetById(rest[0]))
    else if v == Delete then Some(ExcelDelete(rest[0]))
    else None
  }

  function FromData(v: Verb, rest: seq<string>): Option<Endpoint> {
    if |rest| == 1 then
      match (v, rest[0])
      case (Post, "upload") => Some(DataUpload)
      case (Post, "generate-chart") => Some(DataGenerateChart)
      case (Get, "history") => Some(DataGetHistory)
      case _ => None
    else if |rest| == 2 then
      match (v, rest[0])
      case (Get, "file") => Some(DataGetFileData(rest[1]))
      case (Delete, "file") => Some(DataDeleteFile(rest[1]))
      case (Get, "chart") => Some(DataGetChart(rest[1]))
      case (Get, "insights") => Some(DataGetInsights(rest[1]))
      case (Get, "download") => Some(DataDownloadReport(rest[1]))
      case _ => None
    else None
  }

  function FromAnalysis(v: Verb, rest: seq<string>): Option<Endpoint> {
    if rest == [] then
      (if v == Post then Some(AnalysisCreate) else if v == Get then Some(AnalysisGetAll) else None)
    else if |rest| == 1 then
      (if v == Get then Some(AnalysisGetById(rest[0]))
       else if v == Put then Some(AnalysisUpdate(rest[0]))
       else if v == Delete then Some(AnalysisDelete(rest[0]))
       else None)
    else if |rest| == 2 && v == Post then
      (if rest[1] == "chart" then Some(AnalysisGenerateChart(rest[0]))
       else if rest[1] == "insights" then Some(AnalysisGenerateInsights(rest[0]))
       else None)
    else None
  }

  function FromHistory(v: Verb, rest: seq<string>): Option<Endpoint> {
    if v != Get then None
    else if rest == [] then Some(HistoryGetAll)
    else if |rest| == 2 then Some(HistoryGetByResource(rest[0], rest[1]))
    else None
  }

  function Decode(v: Verb, path: string): Option<Endpoint> {
    FromSegments(v, SplitPath(path))
  }

  /** Identifiers as the server issues them: no '/' inside. */
  predicate SlashFree(e: Endpoint) {
    forall i :: 0 <= i < |SegmentsOf(e)| ==> '/' !in SegmentsOf(e)[i]
  }

  lemma {:induction false} TakeSegmentOf(a: string, rest: string)
    requires '/' !in a
    requires rest == [] || rest[0] == '/'
    ensures TakeSegment(a + rest) == a
    decreases |a|
  {
    if a == [] {
      assert a + rest == rest;
    } else {
      var s := a + rest;
      assert s[0] == a[0] && a[0] != '/';
      assert s[1..] == a[1..] + rest;
      assert TakeSegment(s) == [a[0]] + TakeSegment(s[1..]);
      TakeSegmentOf(a[1..], rest);
      assert [a[0]] + a[1..] == a;
    }
  }

  /** Splitting a joined path gives back its segments. */
  lemma {:induction false} SplitJoin(segs: seq<string>)
    requires forall i :: 0 <= i < |segs| ==> '/' !in segs[i]
    ensures SplitPath(Join(segs)) == segs
    decreases |segs|
  {
    if segs != [] {
      var rest := Join(segs[1..]);
      var p := Join(segs);
      assert p == "/" + (segs[0] + rest);
      assert p[1..] == segs[0] + rest;
      TakeSegmentOf(segs[0], rest);
      assert p[1 + |segs[0]|..] == rest;
      SplitJoin(segs[1..]);
      assert SplitPath(p) == [segs[0]] + SplitPath(rest);
      assert segs == [segs[0]] + segs[1..];
    }
  }

  /** Each endpoint's segments and verb lead back to it. */
  lemma FromSegmentsInverse(e: Endpoint)
    ensures FromSegments(VerbOf(e), SegmentsOf(e)) == Some(e)
  {
    var segs := SegmentsOf(e);
    assert segs == [segs[0]] + segs[1..];
  }

  /** Decoding a request built by an endpoint function gives that endpoint. */
  lemma DecodeRequest(e: Endpoint)
    requires SlashFree(e)
    ensures Decode(VerbOf(e), PathOf(e)) == Some(e)
  {
    SplitJoin(SegmentsOf(e));
    FromSegmentsInverse(e);
  }

  /** Two different endpoint calls never send the same verb and path, as long
      as the identifiers are free of '/'. */
  lemma RequestsDistinct(e1: Endpoint, e2: Endpoint)
    requires SlashFree(e1) && SlashFree(e2)
    requires e1 != e2
    ensures (VerbOf(e1), PathOf(e1)) != (VerbOf(e2), PathOf(e2))
  {
    DecodeRequest(e1);
    DecodeRequest(e2);
  }

  /** A path of three segments. */
  lemma JoinThree(a: string, b: string, c: string)
    ensures Join([a, b, c]) == "/" + a + "/" + b + "/" + c
  {
    assert [a, b, c][1..] == [b, c];
    assert [b, c][1..] == [c];
    assert [c][1..] == [];
    assert Join([c]) == "/" + c;
    assert Join([b, c]) == "/" + b + ("/" + c);
    assert Join([a, b, c]) == "/" + a + ("/" + b + ("/" + c));
  }

  /** Without that condition distinct calls can collide: the interpolated
      path cannot tell the ids `t/u` and `v` from the ids `t` and `u/v`. */
  lemma SlashedIdsCollide(t: string, u: string, v: string)
    ensures HistoryGetByResource(t + "/" + u, v) != HistoryGetByResource(t, u + "/" + v)
    ensures VerbOf(HistoryGetByResource(t + "/" + u, v)) == VerbOf(HistoryGetByResource(t, u + "/" + v))
    ensures PathOf(HistoryGetByResource(t + "/" + u, v)) == PathOf(HistoryGetByResource(t, u + "/" + v))
  {
    var a, b := t + "/" + u, u + "/" + v;
    assert |a| != |t|;
    HistoryPath(a, v);
    HistoryPath(t, b);
    Regroup("/", "/history", t, u, v);
  }

  /** The path of `historyAPI.getByResource`. */
  lemma HistoryPath(resourceType: string, id: string)
    ensures PathOf(HistoryGetByResource(resourceType, id)) == "/history" + "/" + resourceType + "/" + id
  {
    JoinThree("history", resourceType, id);
  }

  lemma Regroup(sep: string, p: string, t: string, u: string, v: string)
    ensures p + sep + (t + sep + u) + sep + v == p + sep + t + sep + (u + sep + v)
  {
  }

  /** `options` of `dataAPI.generateChart`. */
  datatype ChartOptions = ChartOptions(xColumn: Option<string>, yColumn: Option<string>, maxRows: Option<int>)

  /** The JSON body posted to `/data/generate-chart`. */
  datatype ChartRequest = ChartRequest(fileId: string, chartType: string, xColumn: Option<string>, yColumn: Option<string>, maxRows: Option<int>)

  /** `chartType` defaults to "bar" and `options` to `{}` when left out. */
  function GenerateChartBody(fileId: string, chartType: Option<string>, options: Option<ChartOptions>): (r: ChartRequest)
    ensures r.fileId == fileId
    ensures chartType.None? ==> r.chartType == DefaultChartType
    ensures chartType.Some? ==> r.chartType == chartType.value
    ensures options.None? ==> r.xColumn.None? && r.yColumn.None? && r.maxRows.None?
    ensures options.Some? ==> r.xColumn == options.value.xColumn && r.yColumn == options.value.yColumn
                              && r.maxRows == options.value.maxRows
  {
    var o := options.GetOr(ChartOptions(None, None, None));
    ChartRequest(fileId, chartType.GetOr(DefaultChartType), o.xColumn, o.yColumn, o.maxRows)
  }

  /** The instance `api` with its two interceptors. Local storage is the
      shared `LocalStorage`; `window.location.href` is a plain field. */
  class ApiClient {
    const storage: LocalStorage
    var location: string

    constructor (storage: LocalStorage, location: string)
      ensures this.storage == storage && this.location == location
    {
      this.storage := storage;
      this.location := location;
    }

    /** Reads the 'token' entry at the time of the request. */
    method InterceptRequest(config: RequestConfig)
      modifies config
      ensures config.headers == WithBearer(old(config.headers), storage.token)
    {
      var token := storage.token;
      if Filled(token) {
        config.headers := config.headers[AuthorizationHeader := BearerPrefix + token.value];
      }
    }

    /** A 401 drops the token and sends the browser to the login page; the
        error is passed on unchanged either way. */
    method InterceptError(f: Failure) returns (rejected: Failure)
      modifies this, storage
      ensures rejected == f
      ensures IsUnauthorized(f) ==> storage.token.None? && location == LoginPath
      ensures !IsUnauthorized(f) ==> storage.token == old(storage.token) && location == old(location)
    {
      if IsUnauthorized(f) {
        storage.token := None;
        location := LoginPath;
      }
      rejected := f;
    }
  }
}
