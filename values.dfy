/** Values as the client sees them: optional values, the JSON the server sends,
    and JavaScript's truthiness rules for the values the code tests with `if (x)`
    and `x || fallback`. */
module Values {

  /** `None` stands for JavaScript's `null` / `undefined`. */
  datatype Option<+T> = None | Some(value: T) {
    function GetOr(default: T): T {
      match this
      case Some(v) => v
      case None => default
    }
  }

  /** A server value. JavaScript numbers are modelled as integers. */
  datatype Json =
    | JNull
    | JBool(b: bool)
    | JNum(n: int)
    | JStr(s: string)
    | JArr(items: seq<Json>)
    | JObj(fields: map<string, Json>)

  /** JavaScript truthiness of a JSON value: null, false, 0 and "" are falsy;
      arrays and objects are always truthy. */
  predicate Truthy(j: Json) {
    match j
    case JNull => false
    case JBool(b) => b
    case JNum(n) => n != 0
    case JStr(s) => s != ""
    case JArr(_) => true
    case JObj(_) => true
  }

  /** Truthiness of a string-or-null: absent and "" are falsy. */
  predicate Filled(o: Option<string>) {
    o.Some? && o.value != ""
  }

  /** `o || fallback` for a string-or-null. A non-empty fallback can never
      give the empty string, so a message built this way is never blank. */
  function OrElse(o: Option<string>, fallback: string): (r: string)
    ensures Filled(o) ==> r == o.value
    ensures !Filled(o) ==> r == fallback
    ensures fallback != "" ==> r != ""
  {
    if Filled(o) then o.value else fallback
  }

  /** `n || fallback` for a number-or-null: absent and 0 are falsy. */
  function NumberOr(o: Option<int>, fallback: int): (r: int)
    ensures o.Some? && o.value != 0 ==> r == o.value
    ensures (o.None? || o.value == 0) ==> r == fallback
  {
    if o.Some? && o.value != 0 then o.value else fallback
  }

  /** A row of spreadsheet data as the server sends it: a JSON object whose
      fields are listed in the order `Object.keys` enumerates them. */
  datatype Row = Row(fields: seq<(string, Json)>) {

    /** `Object.keys(row)`. */
    function Keys(): (ks: seq<string>)
      ensures |ks| == |fields|
      ensures forall i :: 0 <= i < |ks| ==> ks[i] == fields[i].0
    {
      KeysOf(fields)
    }

    /** `row[key]`: the value of the first field with that key, `None` for
        `undefined`. */
    function Get(key: string): (v: Option<Json>)
      ensures v.Some? <==> exists i :: 0 <= i < |fields| && fields[i].0 == key
    {
      Lookup(fields, key)
    }
  }

  function KeysOf(fs: seq<(string, Json)>): (ks: seq<string>)
    ensures |ks| == |fs|
    ensures forall i :: 0 <= i < |ks| ==> ks[i] == fs[i].0
  {
    if fs == [] then [] else [fs[0].0] + KeysOf(fs[1..])
  }

  function Lookup(fs: seq<(string, Json)>, key: string): (v: Option<Json>)
    ensures v.Some? <==> exists i :: 0 <= i < |fs| && fs[i].0 == key
  {
    if fs == [] then None
    else if fs[0].0 == key then Some(fs[0].1)
    else
      var rest := Lookup(fs[1..], key);
      assert forall i :: 1 <= i < |fs| ==> fs[i] == fs[1..][i - 1];
      rest
  }

  /** `a` is `b` with some entries left out, order kept. */
  predicate SubsequenceOf<T(==)>(a: seq<T>, b: seq<T>)
    decreases |b|
  {
    a == [] || (b != [] && ((a[0] == b[0] && SubsequenceOf(a[1..], b[1..])) || SubsequenceOf(a, b[1..])))
  }

  /** `xs.filter(keep)`: the entries that pass, in their order. */
  function Filter<T(==)>(xs: seq<T>, keep: T -> bool): (r: seq<T>)
    ensures |r| <= |xs|
    ensures forall i :: 0 <= i < |r| ==> keep(r[i]) && r[i] in xs
  {
    if xs == [] then []
    else (if keep(xs[0]) then [xs[0]] else []) + Filter(xs[1..], keep)
  }

  /** The filter keeps entries in their order, drops nothing that passes,
      and keeps the whole list when every entry passes. */
  lemma {:induction false} FilterIsSubsequence<T>(xs: seq<T>, keep: T -> bool)
    ensures SubsequenceOf(Filter(xs, keep), xs)
    ensures forall x :: x in xs && keep(x) ==> x in Filter(xs, keep)
    ensures (forall i :: 0 <= i < |xs| ==> keep(xs[i])) ==> Filter(xs, keep) == xs
    decreases |xs|
  {
    if xs != [] {
      FilterIsSubsequence(xs[1..], keep);
      assert forall i :: 1 <= i < |xs| ==> xs[1..][i - 1] == xs[i];
      var r := Filter(xs, keep);
      if keep(xs[0]) {
        assert r[0] == xs[0] && r[1..] == Filter(xs[1..], keep);
      } else {
        assert r == Filter(xs[1..], keep);
      }
    }
  }

  /** Two tests that agree on every entry filter alike. */
  lemma {:induction false} FilterAgree<T>(xs: seq<T>, keep1: T -> bool, keep2: T -> bool)
    requires forall i :: 0 <= i < |xs| ==> keep1(xs[i]) == keep2(xs[i])
    ensures Filter(xs, keep1) == Filter(xs, keep2)
    decreases |xs|
  {
    if xs != [] {
      assert forall i :: 1 <= i < |xs| ==> xs[1..][i - 1] == xs[i];
      FilterAgree(xs[1..], keep1, keep2);
    }
  }

  /** The empty object `{}`. */
  const EmptyRow := Row([])
}
