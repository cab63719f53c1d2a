/** The history page: files and analyses merged into one list, the search
    and type filter over it, the name a downloaded report is saved under,
    and the confirmed delete. */
module HistoryFeature {
  import opened Values
  import opened Text
  import opened Records
  import opened Http
  import Api

  const FileKind := "file"
  const AnalysisKind := "analysis"
  const AllKinds := "all"
  const DefaultAnalysisTitle := "Generated Analysis"
  const UnknownFile := "Unknown File"
  const FilenameKey := "filename=\""
  const ReportSuffix := "_report.xlsx"
  const LoadFailed := "Failed to load history"
  const FileDeleted := "File deleted successfully!"
  const DeleteFailed := "Failed to delete file"

  /** An analysis as the history endpoint lists it: `_id`, `name` and the
      `originalName` of its `file`, each possibly missing. */
  datatype AnalysisRecord = AnalysisRecord(id: string, name: Option<string>, fileName: Option<string>)

  /** One row of the list: its id, title, kind ('file' or 'analysis') and
      the name of the file it comes from. */
  datatype Item = Item(id: string, title: string, kind: string, file: string)

  function FileItem(f: FileRecord): Item {
    Item(f.id, f.originalName, FileKind, f.originalName)
  }

  function AnalysisItem(a: AnalysisRecord): (it: Item)
    ensures it.id == a.id && it.kind == AnalysisKind
    ensures it.title == OrElse(a.name, DefaultAnalysisTitle) && it.file == OrElse(a.fileName, UnknownFile)
    ensures it.title != "" && it.file != ""
  {
    Item(a.id, OrElse(a.name, DefaultAnalysisTitle), AnalysisKind, OrElse(a.fileName, UnknownFile))
  }

  function FileItems(files: seq<FileRecord>): (r: seq<Item>)
    ensures |r| == |files|
    ensures forall i :: 0 <= i < |r| ==> r[i] == FileItem(files[i])
  {
    if files == [] then [] else [FileItem(files[0])] + FileItems(files[1..])
  }

  function AnalysisItems(analyses: seq<AnalysisRecord>): (r: seq<Item>)
    ensures |r| == |analyses|
    ensures forall i :: 0 <= i < |r| ==> r[i] == AnalysisItem(analyses[i])
  {
    if analyses == [] then [] else [AnalysisItem(analyses[0])] + AnalysisItems(analyses[1..])
  }

  /** `allItems`: every file, then every analysis, in their own orders. */
  function AllItems(files: seq<FileRecord>, analyses: seq<AnalysisRecord>): (r: seq<Item>)
    ensures |r| == |files| + |analyses|
    ensures forall i :: 0 <= i < |files| ==> r[i] == FileItem(files[i])
    ensures forall i :: 0 <= i < |analyses| ==> r[|files| + i] == AnalysisItem(analyses[i])
  {
    var r := FileItems(files) + AnalysisItems(analyses);
    assert forall i :: 0 <= i < |analyses| ==> r[|files| + i] == AnalysisItems(analyses)[i];
    r
  }

  /** The test each item passes to stay in the list. */
  predicate Keeps(query: string, filter: string, it: Item) {
    (Contains(Lower(it.title), Lower(query)) || Contains(Lower(it.file), Lower(query)))
    && (filter == AllKinds || it.kind == filter)
  }

  /** `filteredItems`; `FilterIsSubsequence` gives its order and completeness. */
  function Filtered(items: seq<Item>, query: string, filter: string): seq<Item> {
    Filter(items, it => Keeps(query, filter, it))
  }

  /** With no search text and the 'all' filter, every item is listed. */
  lemma EmptyQueryKeepsAll(items: seq<Item>)
    ensures Filtered(items, "", AllKinds) == items
  {
    var keep := it => Keeps("", AllKinds, it);
    forall i | 0 <= i < |items|
      ensures keep(items[i])
    {
      ContainsEmpty(Lower(items[i].title));
    }
    FilterIsSubsequence(items, keep);
  }

  /** The characters `.` does not match. */
  predicate IsLineTerminator(c: char) {
    c == '\n' || c == '\r' || c == '\U{2028}' || c == '\U{2029}'
  }

  /** The length of the first line of `s`. */
  function LineLength(s: string): (n: nat)
    ensures n <= |s|
    ensures forall i :: 0 <= i < n ==> !IsLineTerminator(s[i])
    ensures n < |s| ==> IsLineTerminator(s[n])
  {
    if s == [] || IsLineTerminator(s[0]) then 0 else 1 + LineLength(s[1..])
  }

  /** The index of the last '"' in `s`. */
  function LastQuote(s: string): (k: Option<nat>)
    ensures k.Some? ==> k.value < |s| && s[k.value] == '"' && forall j :: k.value < j < |s| ==> s[j] != '"'
    ensures k.None? ==> forall j :: 0 <= j < |s| ==> s[j] != '"'
  {
    if s == [] then None
    else if s[|s| - 1] == '"' then Some(|s| - 1)
    else LastQuote(s[..|s| - 1])
  }

  /** What `(.+)"` captures at the start of `s`: the greedy `.+` runs to the
      end of the line and gives back characters until a '"' follows; it
      must keep at least one. */
  function Capture(s: string): (c: Option<string>)
    ensures c.Some? ==> |c.value| >= 1 && |c.value| < |s| && c.value == s[..|c.value|] && s[|c.value|] == '"'
    ensures c.Some? ==> forall i :: 0 <= i < |c.value| ==> !IsLineTerminator(c.value[i])
  {
    var line := s[..LineLength(s)];
    match LastQuote(line)
    case Some(k) => if k >= 1 then Some(s[..k]) else None
    case None => None
  }

  /** `s.match(/filename="(.+)"/)[1]`: the capture at the leftmost place
      where the pattern matches. */
  function MatchFilename(s: string): (c: Option<string>)
    ensures c.Some? ==> |c.value| >= 1
    decreases |s|
  {
    if IsPrefix(FilenameKey, s) && Capture(s[|FilenameKey|..]).Some? then Capture(s[|FilenameKey|..])
    else if s == [] then None
    else MatchFilename(s[1..])
  }

  /** Text before the key that holds no 'f' cannot start a match. */
  lemma {:induction false} MatchSkipsPrefix(p: string, t: string)
    requires 'f' !in p
    ensures MatchFilename(p + t) == MatchFilename(t)
    decreases |p|
  {
    if p == [] {
      assert p + t == t;
    } else {
      assert (p + t)[0] == p[0] && p[0] in p;
      assert FilenameKey[0] == 'f';
      assert (p + t)[1..] == p[1..] + t;
      MatchSkipsPrefix(p[1..], t);
      assert MatchFilename(p + t) == MatchFilename((p + t)[1..]);
      assert MatchFilename(p + t) == MatchFilename(p[1..] + t);
    }
  }

  /** A header of the usual shape, `attachment; filename="<name>"`, yields the
      quoted name when the name is one line without quotes. */
  lemma TypicalHeader(p: string, name: string)
    requires 'f' !in p
    requires name != [] && '"' !in name
    requires forall i :: 0 <= i < |name| ==> !IsLineTerminator(name[i])
    ensures MatchFilename(p + FilenameKey + name + "\"") == Some(name)
  {
    var t := FilenameKey + name + "\"";
    assert p + FilenameKey + name + "\"" == p + t;
    MatchSkipsPrefix(p, t);
    var rest := name + "\"";
    assert t[|FilenameKey|..] == rest;
    assert IsPrefix(FilenameKey, t);
    assert forall i :: 0 <= i < |rest| ==> !IsLineTerminator(rest[i]);
    assert LineLength(rest) == |rest|;
    assert rest[..LineLength(rest)] == rest;
    assert LastQuote(rest) == Some(|name|);
    assert rest[..|name|] == name;
  }

  /** The fallback name: one trailing '.xlsx' or '.xls' is removed before
      '_report.xlsx' is added; other extensions stay. */
  function FallbackName(fileName: string): (r: string)
    ensures EndsWith(fileName, ".xlsx") ==> r == fileName[..|fileName| - 5] + ReportSuffix
    ensures !EndsWith(fileName, ".xlsx") && EndsWith(fileName, ".xls") ==> r == fileName[..|fileName| - 4] + ReportSuffix
    ensures !EndsWith(fileName, ".xlsx") && !EndsWith(fileName, ".xls") ==> r == fileName + ReportSuffix
    ensures EndsWith(r, ReportSuffix)
  {
    var clean :=
      if EndsWith(fileName, ".xlsx") then fileName[..|fileName| - 5]
      else if EndsWith(fileName, ".xls") then fileName[..|fileName| - 4]
      else fileName;
    clean + ReportSuffix
  }

  /** The name the report is saved under: the header's quoted name when the
      header is present and matches, the fallback otherwise. */
  function DownloadName(contentDisposition: Option<string>, fileName: string): (r: string)
    ensures Filled(contentDisposition) && MatchFilename(contentDisposition.value).Some? ==>
              r == MatchFilename(contentDisposition.value).value
    ensures !(Filled(contentDisposition) && MatchFilename(contentDisposition.value).Some?) ==>
              r == FallbackName(fileName)
    ensures r != ""
  {
    if Filled(contentDisposition) && MatchFilename(contentDisposition.value).Some? then
      MatchFilename(contentDisposition.value).value
    else FallbackName(fileName)
  }

  /** `getHistory`'s reply: its `files` and `analyses`, each possibly missing. */
  datatype HistoryBody = HistoryBody(files: Option<seq<FileRecord>>, analyses: Option<seq<AnalysisRecord>>)

  class HistoryPage {
    var searchQuery: string
    var selectedFilter: string
    var files: seq<FileRecord>
    var analyses: seq<AnalysisRecord>
    var loading: bool

    constructor ()
      ensures searchQuery == "" && selectedFilter == AllKinds && files == [] && analyses == [] && loading
    {
      searchQuery := "";
      selectedFilter := AllKinds;
      files := [];
      analyses := [];
      loading := true;
    }

    /** The list the page shows. */
    function FilteredItems(): seq<Item>
      reads this
    {
      Filtered(AllItems(files, analyses), searchQuery, selectedFilter)
    }

    /** `loadHistory`: missing lists count as empty; a failed request or a
        `null` reply keeps the lists and toasts the fixed error; `loading`
        ends false. */
    method LoadHistory(reply: Reply<Option<HistoryBody>>) returns (toast: Option<string>)
      modifies this
      ensures reply.Ok? && reply.body.Some? ==>
                files == reply.body.value.files.GetOr([]) && analyses == reply.body.value.analyses.GetOr([])
                && toast.None?
      ensures !(reply.Ok? && reply.body.Some?) ==>
                files == old(files) && analyses == old(analyses) && toast == Some(LoadFailed)
      ensures !loading
      ensures searchQuery == old(searchQuery) && selectedFilter == old(selectedFilter)
    {
      loading := true;
      toast := Some(LoadFailed);
      match reply {
        case Ok(Some(b)) =>
          files := b.files.GetOr([]);
          analyses := b.analyses.GetOr([]);
          toast := None;
        case Ok(None) =>
        case Err(_) =>
      }
      loading := false;
    }

    /** Deletes after the user confirms, then reloads the lists. Returns
        the delete request sent, if any, and the toasts shown: the
        delete's success followed by the reload's own, or the delete's
        failure. */
    method HandleDelete(fileId: string, confirmed: bool, deleted: Reply<Json>, reloaded: Reply<Option<HistoryBody>>)
      returns (request: Option<Api.Endpoint>, toasts: seq<string>)
      modifies this
      ensures request.Some? <==> confirmed
      ensures request.Some? ==> request.value == Api.DataDeleteFile(fileId)
      ensures !(confirmed && deleted.Ok?) ==> files == old(files) && analyses == old(analyses) && loading == old(loading)
      ensures confirmed && deleted.Ok? && reloaded.Ok? && reloaded.body.Some? ==>
                files == reloaded.body.value.files.GetOr([]) && analyses == reloaded.body.value.analyses.GetOr([])
      ensures confirmed && deleted.Ok? ==> !loading
      ensures !confirmed ==> toasts == []
      ensures confirmed && deleted.Err? ==> toasts == [DeleteFailed]
      ensures confirmed && deleted.Ok? && reloaded.Ok? && reloaded.body.Some? ==> toasts == [FileDeleted]
      ensures confirmed && deleted.Ok? && !(reloaded.Ok? && reloaded.body.Some?) ==> toasts == [FileDeleted, LoadFailed]
      ensures searchQuery == old(searchQuery) && selectedFilter == old(selectedFilter)
    {
      if !confirmed {
        return None, [];
      }
      request := Some(Api.DataDeleteFile(fileId));
      if deleted.Ok? {
        var reloadToast := LoadHistory(reloaded);
        toasts := [FileDeleted] + (if reloadToast.Some? then [reloadToast.value] else []);
      } else {
        toasts := [DeleteFailed];
      }
    }
  }
}
