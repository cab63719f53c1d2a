/** The chart page: column-type guessing, the first two columns picked for
    a loaded file, the gate in front of chart generation, and the name an
    exported image is saved under. */
module ChartsFeature {
  import opened Values
  import opened Text
  import opened Records
  import opened Http
  import Api

  const SampleSize := 10
  const DefaultMaxRows := 50
  const InitialChart := "bar"
  const NoFile := "Please select a file first"
  const NoColumns := "Please select X and Y columns"
  const Generated := "Chart generated successfully!"
  const GenerateFailed := "Failed to generate chart"
  const DataLoadFailed := "Failed to load file data"

  datatype ColumnType = Numeric | TextColumn

  /** `fileData.slice(0, 10)`. */
  function Sample(rows: seq<Row>): (r: seq<Row>)
    ensures |r| == if |rows| < SampleSize then |rows| else SampleSize
    ensures r == rows[..|r|]
  {
    if |rows| < SampleSize then rows else rows[..SampleSize]
  }

  /** A sampled value counts when it is defined, not `null`, not '' and
      `Number` of it is not NaN; `isNumber` stands for that last test. */
  predicate CountsAsNumber(v: Option<Json>, isNumber: Json -> bool) {
    v.Some? && v.value != JNull && v.value != JStr("") && isNumber(v.value)
  }

  /** How many rows have a counting value in the column. */
  function NumericCount(rows: seq<Row>, column: string, isNumber: Json -> bool): (n: nat)
    ensures n <= |rows|
  {
    if rows == [] then 0
    else (if CountsAsNumber(rows[0].Get(column), isNumber) then 1 else 0) + NumericCount(rows[1..], column, isNumber)
  }

  /** `getColumnType`: 'text' without data; otherwise 'numeric' exactly when
      more than 70% of the sampled values count. For a sample of at most 10
      rows, `count > length * 0.7` and `10 * count > 7 * length` agree. */
  function GetColumnType(fileData: Option<seq<Row>>, column: string, isNumber: Json -> bool): (t: ColumnType)
    ensures fileData.None? || fileData.value == [] ==> t == TextColumn
    ensures fileData.Some? && fileData.value != [] ==>
              (t == Numeric <==> 10 * NumericCount(Sample(fileData.value), column, isNumber) > 7 * |Sample(fileData.value)|)
  {
    if fileData.None? || fileData.value == [] then TextColumn
    else
      var sample := Sample(fileData.value);
      if 10 * NumericCount(sample, column, isNumber) > 7 * |sample| then Numeric else TextColumn
  }

  /** Rows after the tenth never change the answer. */
  lemma OnlyFirstTenCount(rows: seq<Row>, more: seq<Row>, column: string, isNumber: Json -> bool)
    requires |rows| >= SampleSize
    ensures GetColumnType(Some(rows + more), column, isNumber) == GetColumnType(Some(rows), column, isNumber)
  {
    assert (rows + more)[..SampleSize] == rows[..SampleSize];
  }

  lemma {:induction false} CountAll(rows: seq<Row>, column: string, isNumber: Json -> bool)
    ensures (forall i :: 0 <= i < |rows| ==> CountsAsNumber(rows[i].Get(column), isNumber))
            ==> NumericCount(rows, column, isNumber) == |rows|
    ensures (forall i :: 0 <= i < |rows| ==> !CountsAsNumber(rows[i].Get(column), isNumber))
            ==> NumericCount(rows, column, isNumber) == 0
    decreases |rows|
  {
    if rows != [] {
      CountAll(rows[1..], column, isNumber);
      assert forall i :: 1 <= i < |rows| ==> rows[1..][i - 1] == rows[i];
    }
  }

  /** A column whose sampled values all count is numeric; one where none
      counts is text. */
  lemma AllOrNone(rows: seq<Row>, column: string, isNumber: Json -> bool)
    requires rows != []
    ensures (forall i :: 0 <= i < |Sample(rows)| ==> CountsAsNumber(rows[i].Get(column), isNumber))
            ==> GetColumnType(Some(rows), column, isNumber) == Numeric
    ensures (forall i :: 0 <= i < |Sample(rows)| ==> !CountsAsNumber(rows[i].Get(column), isNumber))
            ==> GetColumnType(Some(rows), column, isNumber) == TextColumn
  {
    CountAll(Sample(rows), column, isNumber);
  }

  /** `Object.keys(data[0] || {})`. */
  function Columns(data: seq<Row>): (cs: seq<string>)
    ensures data == [] ==> cs == []
    ensures data != [] ==> cs == data[0].Keys()
  {
    if data == [] then [] else data[0].Keys()
  }

  /** The columns picked for freshly loaded data: the first two keys when
      there are at least two, otherwise the selection as it was. */
  function AutoColumns(data: seq<Row>, x: string, y: string): (r: (string, string))
    ensures |Columns(data)| >= 2 ==> r == (Columns(data)[0], Columns(data)[1])
    ensures |Columns(data)| < 2 ==> r == (x, y)
    ensures |Columns(data)| >= 2 ==> r.0 == data[0].fields[0].0 && r.1 == data[0].fields[1].0
  {
    var cs := Columns(data);
    if |cs| >= 2 then (cs[0], cs[1]) else (x, y)
  }

  /** `${originalName} - ${selectedChart} Chart`. */
  function Title(file: FileRecord, chart: string): string {
    file.originalName + " - " + chart + " Chart"
  }

  /** A character the pattern `[^a-z0-9]` with the `i` flag leaves alone. */
  predicate IsAsciiAlnum(c: char) {
    'a' <= c <= 'z' || 'A' <= c <= 'Z' || '0' <= c <= '9'
  }

  predicate IsStemChar(c: char) {
    'a' <= c <= 'z' || '0' <= c <= '9' || c == '_'
  }

  /** `title.replace(/[^a-z0-9]/gi, '_')`. */
  function Underscored(title: string): (r: string)
    ensures |r| == |title|
    ensures forall i :: 0 <= i < |r| ==> r[i] == if IsAsciiAlnum(title[i]) then title[i] else '_'
  {
    if title == [] then [] else [if IsAsciiAlnum(title[0]) then title[0] else '_'] + Underscored(title[1..])
  }

  /** The file-name stem: every character of the title kept if it is an
      ASCII letter or digit (lower-cased) and replaced by '_' otherwise. */
  function ExportStem(title: string): (r: string)
    ensures |r| == |title|
    ensures forall i :: 0 <= i < |r| ==> IsStemChar(r[i])
    ensures forall i :: 0 <= i < |r| ==> (r[i] == '_' <==> !IsAsciiAlnum(title[i]) || title[i] == '_')
    ensures forall i :: 0 <= i < |r| ==> IsAsciiAlnum(title[i]) ==> r[i] == LowerChar(title[i])
  {
    Lower(Underscored(title))
  }

  /** Sanitising an already sanitised stem changes nothing. */
  lemma ExportStemIdempotent(title: string)
    ensures ExportStem(ExportStem(title)) == ExportStem(title)
  {
    var s := ExportStem(title);
    assert forall i :: 0 <= i < |s| ==> ExportStem(s)[i] == s[i];
  }

  /** The download name for a format: only 'png' and 'jpg' produce one, and
      only while a chart is drawn. */
  function ExportFileName(hasChart: bool, title: string, format: string): (r: Option<string>)
    ensures r.Some? <==> hasChart && (format == "png" || format == "jpg")
    ensures r.Some? ==> r.value == ExportStem(title) + "." + format
  {
    if !hasChart then None
    else if format == "png" then Some(ExportStem(title) + ".png")
    else if format == "jpg" then Some(ExportStem(title) + ".jpg")
    else None
  }

  /** `getFileData`'s reply: `success` and the rows. */
  datatype FileDataBody = FileDataBody(success: bool, data: Option<seq<Row>>)

  /** `generateChart`'s reply, of which only `chartConfig` is read. */
  datatype ChartBody = ChartBody(chartConfig: Json)

  class ChartPage {
    var selectedChart: string
    var selectedFile: Option<FileRecord>
    var chartData: Json
    var generating: bool
    var chartTitle: string
    var fileData: Option<seq<Row>>
    var x: string
    var y: string
    var maxRows: int

    /** The page as it mounts, with the file the history page passed (if
        any) already selected. */
    constructor (passed: Option<FileRecord>)
      ensures selectedChart == InitialChart && selectedFile == passed && chartData == JNull && !generating
      ensures chartTitle == "" && fileData.None? && x == "" && y == "" && maxRows == DefaultMaxRows
    {
      selectedChart := InitialChart;
      selectedFile := passed;
      chartData := JNull;
      generating := false;
      chartTitle := "";
      fileData := None;
      x := "";
      y := "";
      maxRows := DefaultMaxRows;
    }

    /** `loadFileData`: a reply with `success` stores the rows and picks the
        first two columns. Missing rows (reading `data[0]` then throws) leave
        the rows cleared and the columns as they were; a failure or a `null`
        reply changes nothing. Each of those three paths ends in the catch
        and toasts the fixed error; a reply without `success` toasts nothing. */
    method LoadFileData(fileId: string, reply: Reply<Option<FileDataBody>>)
      returns (request: Api.Endpoint, toast: Option<string>)
      modifies this
      ensures request == Api.DataGetFileData(fileId)
      ensures toast.None? <==> reply.Ok? && reply.body.Some? && (reply.body.value.success ==> reply.body.value.data.Some?)
      ensures toast.Some? ==> toast.value == DataLoadFailed
      ensures reply.Ok? && reply.body.Some? && reply.body.value.success && reply.body.value.data.Some? ==>
                var d := reply.body.value.data.value;
                fileData == Some(d) && (x, y) == AutoColumns(d, old(x), old(y))
      ensures reply.Ok? && reply.body.Some? && reply.body.value.success && reply.body.value.data.None? ==>
                fileData.None? && x == old(x) && y == old(y)
      ensures !(reply.Ok? && reply.body.Some? && reply.body.value.success) ==>
                fileData == old(fileData) && x == old(x) && y == old(y)
      ensures selectedChart == old(selectedChart) && selectedFile == old(selectedFile) && chartData == old(chartData)
      ensures generating == old(generating) && chartTitle == old(chartTitle) && maxRows == old(maxRows)
    {
      request := Api.DataGetFileData(fileId);
      toast := Some(DataLoadFailed);
      match reply {
        case Ok(Some(b)) =>
          if b.success {
            fileData := b.data;
            if b.data.Some? {
              var columns := Columns(b.data.value);
              if |columns| >= 2 {
                x := columns[0];
                y := columns[1];
              }
              toast := None;
            }
          } else {
            toast := None;
          }
        case Ok(None) =>
        case Err(_) =>
      }
    }

    /** Choosing a file clears the chart, the rows and both columns, titles
        the chart after the file, toasts the file's name, then loads the
        file's rows, whose own toast follows. */
    method HandleFileSelect(file: FileRecord, reply: Reply<Option<FileDataBody>>)
      returns (request: Api.Endpoint, toasts: seq<string>)
      modifies this
      ensures request == Api.DataGetFileData(file.id)
      ensures var loaded := reply.Ok? && reply.body.Some? && (reply.body.value.success ==> reply.body.value.data.Some?);
              toasts == ["Selected file: " + file.originalName] + (if loaded then [] else [DataLoadFailed])
      ensures selectedFile == Some(file) && chartData == JNull
      ensures chartTitle == Title(file, old(selectedChart))
      ensures reply.Ok? && reply.body.Some? && reply.body.value.success && reply.body.value.data.Some? ==>
                var d := reply.body.value.data.value;
                fileData == Some(d) && (x, y) == AutoColumns(d, "", "")
      ensures !(reply.Ok? && reply.body.Some? && reply.body.value.success && reply.body.value.data.Some?) ==>
                fileData.None? && x == "" && y == ""
      ensures selectedChart == old(selectedChart) && generating == old(generating) && maxRows == old(maxRows)
    {
      selectedFile := Some(file);
      chartData := JNull;
      chartTitle := Title(file, selectedChart);
      fileData := None;
      x := "";
      y := "";
      var loadToast;
      request, loadToast := LoadFileData(file.id, reply);
      toasts := ["Selected file: " + file.originalName] + (if loadToast.Some? then [loadToast.value] else []);
    }

    /** Sends a request only with a file and both columns chosen; returns the
        body sent and the message toasted. `generating` ends false, a reply
        with data replaces the chart and retitles it, and anything else keeps
        the chart. */
    method HandleGenerateChart(isAutoGenerate: bool, reply: Reply<Option<ChartBody>>)
      returns (request: Option<Api.ChartRequest>, toast: Option<string>)
      modifies this
      ensures request.Some? <==> old(selectedFile).Some? && old(x) != "" && old(y) != ""
      ensures request.Some? ==> request.value == Api.ChartRequest(old(selectedFile).value.id, old(selectedChart),
                                                                  Some(old(x)), Some(old(y)), Some(old(maxRows)))
      ensures request.None? ==> generating == old(generating) && chartData == old(chartData) && chartTitle == old(chartTitle)
      ensures request.Some? ==> !generating
      ensures request.Some? && reply.Ok? && reply.body.Some? ==>
                chartData == reply.body.value.chartConfig && chartTitle == Title(old(selectedFile).value, old(selectedChart))
      ensures request.Some? && !(reply.Ok? && reply.body.Some?) ==> chartData == old(chartData) && chartTitle == old(chartTitle)
      ensures isAutoGenerate ==> toast.None?
      ensures !isAutoGenerate ==> toast.Some?
      ensures !isAutoGenerate && old(selectedFile).None? ==> toast == Some(NoFile)
      ensures !isAutoGenerate && old(selectedFile).Some? && (old(x) == "" || old(y) == "") ==> toast == Some(NoColumns)
      ensures !isAutoGenerate && request.Some? && reply.Ok? && reply.body.Some? ==> toast == Some(Generated)
      ensures !isAutoGenerate && request.Some? && reply.Err? ==> toast == Some(ServerMessageOr(reply.failure, GenerateFailed))
      ensures !isAutoGenerate && request.Some? && reply.Ok? && reply.body.None? ==> toast == Some(GenerateFailed)
      ensures selectedChart == old(selectedChart) && selectedFile == old(selectedFile) && fileData == old(fileData)
      ensures x == old(x) && y == old(y) && maxRows == old(maxRows)
    {
      request := None;
      toast := None;
      if selectedFile.None? {
        if !isAutoGenerate {
          toast := Some(NoFile);
        }
        return;
      }
      if x == "" || y == "" {
        if !isAutoGenerate {
          toast := Some(NoColumns);
        }
        return;
      }
      generating := true;
      request := Some(Api.GenerateChartBody(selectedFile.value.id, Some(selectedChart),
                                            Some(Api.ChartOptions(Some(x), Some(y), Some(maxRows)))));
      var message;
      match reply {
        case Ok(Some(b)) =>
          chartData := b.chartConfig;
          chartTitle := Title(selectedFile.value, selectedChart);
          message := Generated;
        case Ok(None) =>
          // reading `chartConfig` of `null` throws a TypeError without a response
          message := GenerateFailed;
        case Err(f) =>
          message := ServerMessageOr(f, GenerateFailed);
      }
      if !isAutoGenerate {
        toast := Some(message);
      }
      generating := false;
    }
  }
}
