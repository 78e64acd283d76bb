/** The Python values that appear as request parameters, their `str()` and
    `repr()` texts, and insertion-ordered dicts of them. */
module PyValue {

  import opened Prelude
  import Decimal
  import Strings

  /** A scalar Python value. A float is carried as the text Python prints
      for it, since the model does no floating-point arithmetic. */
  datatype Value =
    | VNone
    | VBool(b: bool)
    | VInt(i: int)
    | VFloat(text: string)
    | VStr(s: string)

  /** Python truthiness of a parameter value. A float is falsy only when
      its text is a zero. */
  predicate Truthy(v: Value) {
    match v
    case VNone => false
    case VBool(b) => b
    case VInt(i) => i != 0
    case VFloat(t) => t !in {"0.0", "-0.0"}
    case VStr(s) => |s| > 0
  }

  /** `str(v)`. */
  function Str(v: Value): string {
    match v
    case VNone => "None"
    case VBool(b) => if b then "True" else "False"
    case VInt(i) => Decimal.Show(i)
    case VFloat(t) => t
    case VStr(s) => s
  }

  /** The character after a backslash in `repr` for the characters it
      escapes; `q` is the quote in use. */
  function EscapeOf(c: char, q: char): Option<char> {
    if c == '\\' then Some('\\')
    else if c == q then Some(q)
    else if c == '\n' then Some('n')
    else if c == '\r' then Some('r')
    else if c == '\t' then Some('t')
    else None
  }

  /** The body of `repr(s)` between its quotes. */
  function Escape(s: string, q: char): (r: string)
    ensures |r| >= |s|
    decreases |s|
  {
    if |s| == 0 then ""
    else
      match EscapeOf(s[0], q)
      case Some(e) => ['\\', e] + Escape(s[1..], q)
      case None => [s[0]] + Escape(s[1..], q)
  }

  /** Reads an escaped body back. */
  function Unescape(r: string, q: char): Option<string>
    decreases |r|
  {
    if |r| == 0 then Some("")
    else if r[0] == '\\' then
      if |r| < 2 then None
      else
        var c := if r[1] == 'n' then '\n' else if r[1] == 'r' then '\r'
                 else if r[1] == 't' then '\t' else r[1];
        match Unescape(r[2..], q)
        case Some(rest) => Some([c] + rest)
        case None => None
    else
      match Unescape(r[1..], q)
      case Some(rest) => Some([r[0]] + rest)
      case None => None
  }

  /** `repr` loses nothing of a string: unescaping its body gives the
      string back. */
  lemma {:induction false} UnescapeEscape(s: string, q: char)
    requires q == '\'' || q == '"'
    ensures Unescape(Escape(s, q), q) == Some(s)
    decreases |s|
  {
    if |s| > 0 {
      UnescapeEscape(s[1..], q);
      var r := Escape(s, q);
      assert [s[0]] + s[1..] == s;
      match EscapeOf(s[0], q)
      case Some(e) =>
        assert r == ['\\', e] + Escape(s[1..], q);
        assert r[2..] == Escape(s[1..], q);
        assert Unescape(r, q) == Some([s[0]] + s[1..]);
      case None =>
        assert r == [s[0]] + Escape(s[1..], q);
        assert r[1..] == Escape(s[1..], q);
        assert s[0] != '\\';
    }
  }

  /** `repr(s)`: single quotes unless the text holds a single quote and no
      double quote. */
  function Quote(s: string): (r: string)
    ensures |r| >= 2 && r[0] == r[|r| - 1] && r[0] in {'\'', '"'}
    ensures Unescape(r[1..|r| - 1], r[0]) == Some(s)
  {
    var q := if '\'' in s && '"' !in s then '"' else '\'';
    UnescapeEscape(s, q);
    var r := [q] + Escape(s, q) + [q];
    assert r[1..|r| - 1] == Escape(s, q);
    r
  }

  /** A string with nothing `repr` escapes is shown in plain single quotes. */
  lemma {:induction false} QuotePlain(s: string)
    requires forall i :: 0 <= i < |s| ==> EscapeOf(s[i], '\'') == None && s[i] != '"'
    ensures Quote(s) == "'" + s + "'"
  {
    assert Escape(s, '\'') == s by { EscapeNothing(s); }
  }

  lemma {:induction false} EscapeNothing(s: string)
    requires forall i :: 0 <= i < |s| ==> EscapeOf(s[i], '\'') == None
    ensures Escape(s, '\'') == s
    decreases |s|
  {
    if |s| > 0 {
      EscapeNothing(s[1..]);
      assert [s[0]] + s[1..] == s;
    }
  }

  /** `repr(v)`. */
  function Repr(v: Value): string {
    match v
    case VStr(s) => Quote(s)
    case _ => Str(v)
  }

  // ---------------------------------------------------------------------
  // Insertion-ordered dicts with string keys.

  type Dict = seq<(string, Value)>

  function Keys(d: Dict): (ks: seq<string>)
    ensures |ks| == |d|
    ensures forall i :: 0 <= i < |d| ==> ks[i] == d[i].0
  {
    seq(|d|, i requires 0 <= i < |d| => d[i].0)
  }

  /** No key occurs twice, as in every Python dict. */
  predicate Distinct(d: Dict) {
    forall i, j :: 0 <= i < j < |d| ==> d[i].0 != d[j].0
  }

  /** `d.get(k)`: the value of the first entry with key `k`. */
  function Get(d: Dict, k: string): (r: Option<Value>)
    ensures r.Some? ==> exists i :: 0 <= i < |d| && d[i] == (k, r.value)
    ensures r.None? ==> forall i :: 0 <= i < |d| ==> d[i].0 != k
    decreases |d|
  {
    if |d| == 0 then None
    else if d[0].0 == k then Some(d[0].1)
    else
      var r := Get(d[1..], k);
      assert forall i :: 1 <= i < |d| ==> d[i] == d[1..][i - 1];
      r
  }

  /** In a dict without repeated keys, every entry is what `get` finds. */
  lemma GetEntry(d: Dict, i: int)
    requires Distinct(d) && 0 <= i < |d|
    ensures Get(d, d[i].0) == Some(d[i].1)
  {
  }

  /** `d[k] = v`: an existing key keeps its place and takes the new value;
      a new key is appended at the end. */
  function Put(d: Dict, k: string, v: Value): (r: Dict)
    ensures Get(r, k) == Some(v)
    ensures forall k' :: k' != k ==> Get(r, k') == Get(d, k')
    decreases |d|
  {
    if |d| == 0 then [(k, v)]
    else if d[0].0 == k then [(k, v)] + d[1..]
    else [d[0]] + Put(d[1..], k, v)
  }

  lemma KeysCons(e: (string, Value), d: Dict)
    ensures Keys([e] + d) == [e.0] + Keys(d)
  {
  }

  /** Where `d[k] = v` puts the key: in place if present, else appended. */
  lemma {:induction false} PutKeys(d: Dict, k: string, v: Value)
    ensures Get(d, k).Some? ==> Keys(Put(d, k, v)) == Keys(d)
    ensures Get(d, k).None? ==> Keys(Put(d, k, v)) == Keys(d) + [k]
    decreases |d|
  {
    if |d| == 0 {
    } else if d[0].0 == k {
      KeysCons((k, v), d[1..]);
      KeysCons(d[0], d[1..]);
      assert [d[0]] + d[1..] == d;
    } else {
      PutKeys(d[1..], k, v);
      PutKeysStep(d, k, v);
    }
  }

  /** The step of `PutKeys` past a first entry with another key. */
  lemma PutKeysStep(d: Dict, k: string, v: Value)
    requires |d| > 0 && d[0].0 != k
    requires Get(d[1..], k).Some? ==> Keys(Put(d[1..], k, v)) == Keys(d[1..])
    requires Get(d[1..], k).None? ==> Keys(Put(d[1..], k, v)) == Keys(d[1..]) + [k]
    ensures Get(d, k).Some? ==> Keys(Put(d, k, v)) == Keys(d)
    ensures Get(d, k).None? ==> Keys(Put(d, k, v)) == Keys(d) + [k]
  {
    var p := Put(d[1..], k, v);
    assert Put(d, k, v) == [d[0]] + p;
    assert Get(d, k) == Get(d[1..], k);
    KeysCons(d[0], p);
    KeysCons(d[0], d[1..]);
    assert [d[0]] + d[1..] == d;
    if Get(d, k).None? {
      assert [d[0].0] + (Keys(d[1..]) + [k]) == ([d[0].0] + Keys(d[1..])) + [k];
    }
  }

  /** `d[k] = v` keeps a dict's keys distinct. */
  lemma PutDistinct(d: Dict, k: string, v: Value)
    requires Distinct(d)
    ensures Distinct(Put(d, k, v))
  {
    PutKeys(d, k, v);
    var r := Put(d, k, v);
    forall i, j | 0 <= i < j < |r| ensures r[i].0 != r[j].0 {
      assert Keys(r)[i] == r[i].0 && Keys(r)[j] == r[j].0;
      if j == |d| {
        assert Get(d, k).None?;
      }
    }
  }

  /** `{**d, **e}`: the entries of `e` are put into `d` one after another,
      so they override earlier values of the same key. */
  function Update(d: Dict, e: Dict): (r: Dict)
    ensures forall k :: Get(e, k).None? ==> Get(r, k) == Get(d, k)
    ensures Distinct(e) ==> forall k :: Get(e, k).Some? ==> Get(r, k) == Get(e, k)
    ensures |d| > 0 ==> |r| > 0
    decreases |e|
  {
    if |e| == 0 then d
    else
      var r := Update(Put(d, e[0].0, e[0].1), e[1..]);
      assert forall k :: k != e[0].0 ==> Get(e, k) == Get(e[1..], k);
      assert Distinct(e) ==> Distinct(e[1..]) && Get(e[1..], e[0].0).None?;
      r
  }

  /** `{**d, **e}` keeps a dict's keys distinct. */
  lemma {:induction false} UpdateDistinct(d: Dict, e: Dict)
    requires Distinct(d)
    ensures Distinct(Update(d, e))
    decreases |e|
  {
    if |e| > 0 {
      PutDistinct(d, e[0].0, e[0].1);
      UpdateDistinct(Put(d, e[0].0, e[0].1), e[1..]);
    }
  }

  /** Putting entries whose keys are all new appends them in order. */
  lemma {:induction false} UpdateAppends(d: Dict, e: Dict)
    requires Distinct(d + e)
    ensures Update(d, e) == d + e
    decreases |e|
  {
    if |e| > 0 {
      assert Get(d, e[0].0).None? by {
        forall i | 0 <= i < |d| ensures d[i].0 != e[0].0 {
          assert (d + e)[i] == d[i] && (d + e)[|d|] == e[0];
        }
      }
      PutNewAppends(d, e[0].0, e[0].1);
      assert d + e == (d + [e[0]]) + e[1..];
      UpdateAppends(d + [e[0]], e[1..]);
    }
  }

  lemma {:induction false} PutNewAppends(d: Dict, k: string, v: Value)
    requires Get(d, k).None?
    ensures Put(d, k, v) == d + [(k, v)]
    decreases |d|
  {
    if |d| > 0 {
      PutNewAppends(d[1..], k, v);
      assert d == [d[0]] + d[1..];
    }
  }

  /** A dict literal `{k1: v1, k2: v2, ...}`: later duplicates override
      earlier ones, and a literal with distinct keys is kept as written. */
  function FromPairs(ps: Dict): (r: Dict)
    ensures Distinct(r)
    ensures Distinct(ps) ==> r == ps
    ensures forall k :: Get(ps, k).None? ==> Get(r, k).None?
  {
    UpdateDistinct([], ps);
    if Distinct(ps) then
      assert [] + ps == ps;
      UpdateAppends([], ps);
      Update([], ps)
    else Update([], ps)
  }

  /** `str(d)` of a dict: `{'k': v, ...}` with the `repr` of keys and values,
      in insertion order. */
  function DictRepr(d: Dict): string {
    "{" + Strings.Join(", ", seq(|d|, i requires 0 <= i < |d| => Quote(d[i].0) + ": " + Repr(d[i].1))) + "}"
  }
}
