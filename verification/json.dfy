/** Decoded JSON responses and the Python operations the façades apply to
    them: truthiness, `x.get(k, default)`, `x[k]`, iteration, `filter` and
    `map`. */
module Json {

  import opened Prelude

  /** A value `response.json()` returns. Objects are insertion-ordered field
      lists with distinct keys, as `json.loads` builds them. */
  datatype Json =
    | JNull
    | JBool(b: bool)
    | JNum(n: real)
    | JStr(s: string)
    | JArr(items: seq<Json>)
    | JObj(fields: seq<(string, Json)>)

  /** Python truthiness: `None`, `False`, zero and empty containers are
      falsy. */
  predicate Truthy(j: Json) {
    match j
    case JNull => false
    case JBool(b) => b
    case JNum(n) => n != 0.0
    case JStr(s) => |s| > 0
    case JArr(a) => |a| > 0
    case JObj(f) => |f| > 0
  }

  /** The value of field `k`. */
  function Field(fields: seq<(string, Json)>, k: string): (r: Option<Json>)
    ensures r.Some? ==> exists i :: 0 <= i < |fields| && fields[i] == (k, r.value)
    ensures r.None? ==> forall i :: 0 <= i < |fields| ==> fields[i].0 != k
    decreases |fields|
  {
    if |fields| == 0 then None
    else if fields[0].0 == k then Some(fields[0].1)
    else
      var r := Field(fields[1..], k);
      assert forall i :: 1 <= i < |fields| ==> fields[i] == fields[1..][i - 1];
      r
  }

  /** `j.get(k, default)`: only a dict has `get`. */
  function GetKey(j: Json, k: string, default: Json): (r: Outcome<Json>)
    ensures r.Raised? <==> !j.JObj?
    ensures r.Raised? ==> r.error == AttributeError("get")
    ensures j.JObj? && Field(j.fields, k).None? ==> r == Returned(default)
    ensures j.JObj? && Field(j.fields, k).Some? ==> r == Returned(Field(j.fields, k).value)
  {
    match j
    case JObj(f) => Returned(Field(f, k).GetOr(default))
    case _ => Raised(AttributeError("get"))
  }

  /** `j[k]` with a string key: a dict lookup, `KeyError` for a missing key,
      `TypeError` for anything that is not a dict. */
  function Item(j: Json, k: string): (r: Outcome<Json>)
    ensures r.Returned? <==> j.JObj? && Field(j.fields, k).Some?
    ensures r.Returned? ==> Field(j.fields, k) == Some(r.value)
    ensures j.JObj? && r.Raised? ==> r.error == KeyError(k)
    ensures !j.JObj? ==> r == Raised(TypeError)
  {
    match j
    case JObj(f) =>
      (match Field(f, k)
       case Some(v) => Returned(v)
       case None => Raised(KeyError(k)))
    case _ => Raised(TypeError)
  }

  /** The elements `for x in j` visits: a list's items, a dict's keys, a
      string's characters; scalars are not iterable. */
  function Elements(j: Json): (r: Outcome<seq<Json>>)
    ensures r.Raised? <==> j.JNull? || j.JBool? || j.JNum?
    ensures j.JArr? ==> r == Returned(j.items)
    ensures j.JObj? ==> r.Returned? && |r.value| == |j.fields|
  {
    match j
    case JArr(a) => Returned(a)
    case JObj(f) => Returned(seq(|f|, i requires 0 <= i < |f| => JStr(f[i].0)))
    case JStr(s) => Returned(seq(|s|, i requires 0 <= i < |s| => JStr([s[i]])))
    case _ => Raised(TypeError)
  }

  /** `list(filter(test, items))`: the items whose test returns true, in
      their order; the first test that raises ends the call. */
  function Filter(items: seq<Json>, test: Json -> Outcome<bool>): (r: Outcome<seq<Json>>)
    ensures r.Returned? <==> forall i :: 0 <= i < |items| ==> test(items[i]).Returned?
    ensures r.Returned? ==> |r.value| <= |items|
    ensures r.Returned? ==> forall x :: x in r.value ==> x in items && test(x) == Returned(true)
    ensures r.Raised? ==> exists i :: 0 <= i < |items| && test(items[i]) == Raised(r.error)
    decreases |items|
  {
    if |items| == 0 then Returned([])
    else
      match test(items[0])
      case Raised(e) => Raised(e)
      case Returned(keep) =>
        assert forall i :: 1 <= i < |items| ==> items[i] == items[1..][i - 1];
        match Filter(items[1..], test)
        case Raised(e) => Raised(e)
        case Returned(rest) => Returned(if keep then [items[0]] + rest else rest)
  }

  /** `filter` distributes over concatenation, so it keeps the order of the
      items it keeps. */
  lemma {:induction false} FilterAppend(a: seq<Json>, b: seq<Json>, test: Json -> Outcome<bool>)
    requires Filter(a, test).Returned? && Filter(b, test).Returned?
    ensures Filter(a + b, test) == Returned(Filter(a, test).value + Filter(b, test).value)
    decreases |a|
  {
    if |a| == 0 {
      assert a + b == b;
      assert Filter(a, test) == Returned([]);
      assert [] + Filter(b, test).value == Filter(b, test).value;
    } else {
      assert (a + b)[1..] == a[1..] + b;
      assert (a + b)[0] == a[0];
      FilterAppend(a[1..], b, test);
      var ra, rb := Filter(a[1..], test).value, Filter(b, test).value;
      assert [a[0]] + (ra + rb) == ([a[0]] + ra) + rb;
    }
  }

  /** A single item is kept exactly when its test returns true. */
  lemma FilterOne(x: Json, test: Json -> Outcome<bool>)
    requires test(x).Returned?
    ensures Filter([x], test) == Returned(if test(x).value then [x] else [])
  {
    assert [x][1..] == [];
    assert [x] + [] == [x];
  }

  /** Every item whose test returns true is kept. */
  lemma {:induction false} FilterKeepsPassing(items: seq<Json>, test: Json -> Outcome<bool>, x: Json)
    requires Filter(items, test).Returned?
    requires x in items && test(x) == Returned(true)
    ensures x in Filter(items, test).value
    decreases |items|
  {
    if items[0] != x {
      assert x in items[1..];
      FilterKeepsPassing(items[1..], test, x);
    }
  }

  /** The items satisfying `p`, in their order: a selection built from the
      back of the sequence, independent of how `Filter` walks it. */
  function Select(items: seq<Json>, p: Json -> bool): (r: seq<Json>)
    ensures |r| <= |items|
    ensures forall x :: x in r ==> x in items && p(x)
    ensures forall x :: x in items && p(x) ==> x in r
    decreases |items|
  {
    if |items| == 0 then []
    else
      var init, last := items[..|items| - 1], items[|items| - 1];
      assert items == init + [last];
      Select(init, p) + (if p(last) then [last] else [])
  }

  /** When every test returns the predicate's verdict, `list(filter(...))`
      is exactly the order-preserving selection: nothing dropped, nothing
      repeated, nothing reordered. */
  lemma {:induction false} FilterSelect(items: seq<Json>, test: Json -> Outcome<bool>, p: Json -> bool)
    requires forall i :: 0 <= i < |items| ==> test(items[i]) == Returned(p(items[i]))
    ensures Filter(items, test) == Returned(Select(items, p))
    decreases |items|
  {
    if |items| > 0 {
      var init, last := items[..|items| - 1], items[|items| - 1];
      assert items == init + [last];
      assert forall i :: 0 <= i < |init| ==> init[i] == items[i];
      FilterSelect(init, test, p);
      FilterOne(last, test);
      FilterAppend(init, [last], test);
    }
  }

  /** `list(map(f, items))`: one result per item, in order; the first call
      that raises ends the call. */
  function Map(items: seq<Json>, f: Json -> Outcome<Json>): (r: Outcome<seq<Json>>)
    ensures r.Returned? <==> forall i :: 0 <= i < |items| ==> f(items[i]).Returned?
    ensures r.Returned? ==> |r.value| == |items|
    ensures r.Returned? ==> forall i :: 0 <= i < |items| ==> f(items[i]) == Returned(r.value[i])
    ensures r.Raised? ==> exists i :: 0 <= i < |items| && f(items[i]) == Raised(r.error)
    decreases |items|
  {
    if |items| == 0 then Returned([])
    else
      match f(items[0])
      case Raised(e) => Raised(e)
      case Returned(y) =>
        assert forall i :: 1 <= i < |items| ==> items[i] == items[1..][i - 1];
        match Map(items[1..], f)
        case Raised(e) => Raised(e)
        case Returned(rest) => Returned([y] + rest)
  }
}
