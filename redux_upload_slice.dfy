/** The Redux `upload` slice: the list of uploads. */
module ReduxUploadSlice {
  import opened Values

  datatype Action = AddUpload(upload: Json) | SetUploads(uploads: seq<Json>)

  /** `addUpload` pushes at the end; `setUploads` replaces the whole list. */
  function Reduce(uploads: seq<Json>, a: Action): (r: seq<Json>)
    ensures a.AddUpload? ==> |r| == |uploads| + 1 && r[..|uploads|] == uploads && r[|uploads|] == a.upload
    ensures a.SetUploads? ==> r == a.uploads
  {
    match a
    case AddUpload(u) => uploads + [u]
    case SetUploads(us) => us
  }

  function Run(uploads: seq<Json>, actions: seq<Action>): seq<Json>
    decreases |actions|
  {
    if actions == [] then uploads else Run(Reduce(uploads, actions[0]), actions[1..])
  }

  /** The payloads of the `addUpload` actions, in order. */
  function Added(actions: seq<Action>): seq<Json>
    decreases |actions|
  {
    if actions == [] then []
    else (if actions[0].AddUpload? then [actions[0].upload] else []) + Added(actions[1..])
  }

  /** A run of additions appends every payload in order after the entries
      already there. */
  lemma {:induction false} RunAdds(uploads: seq<Json>, actions: seq<Action>)
    requires forall i :: 0 <= i < |actions| ==> actions[i].AddUpload?
    ensures Run(uploads, actions) == uploads + Added(actions)
    decreases |actions|
  {
    if actions != [] {
      var t := Reduce(uploads, actions[0]);
      assert t == uploads + [actions[0].upload];
      assert Added(actions) == [actions[0].upload] + Added(actions[1..]);
      assert Run(uploads, actions) == Run(t, actions[1..]);
      assert forall i :: 0 <= i < |actions[1..]| ==> actions[1..][i] == actions[i + 1];
      RunAdds(t, actions[1..]);
      assert t + Added(actions[1..]) == uploads + Added(actions);
    }
  }

  /** After `setUploads`, the list is the payload followed by whatever was
      added since, whatever it held before. */
  lemma SetThenAdd(uploads: seq<Json>, payload: seq<Json>, actions: seq<Action>)
    requires forall i :: 0 <= i < |actions| ==> actions[i].AddUpload?
    ensures Run(uploads, [SetUploads(payload)] + actions) == payload + Added(actions)
  {
    assert ([SetUploads(payload)] + actions)[1..] == actions;
    RunAdds(payload, actions);
  }

  class UploadSlice {
    var uploads: seq<Json>

    constructor ()
      ensures uploads == []
    {
      uploads := [];
    }

    method AddUpload(payload: Json)
      modifies this
      ensures uploads == Reduce(old(uploads), Action.AddUpload(payload))
    {
      uploads := uploads + [payload];
    }

    method SetUploads(payload: seq<Json>)
      modifies this
      ensures uploads == Reduce(old(uploads), Action.SetUploads(payload))
    {
      uploads := payload;
    }
  }
}
