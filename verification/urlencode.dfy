/** `urllib.parse.urlencode` with its default `quote_plus`: how FTX turns
    its parameters into the query text it both sends and signs. */
module UrlEncode {

  import opened Prelude
  import Utf8
  import Hex
  import Strings
  import PyValue

  /** Bytes `quote_plus` leaves as they are: ASCII letters, digits, `_.-~`. */
  predicate IsUnreserved(b: int) {
    (65 <= b <= 90) || (97 <= b <= 122) || (48 <= b <= 57)
    || b == 95 || b == 46 || b == 45 || b == 126
  }

  predicate IsQuotedChar(c: char) {
    IsUnreserved(c as int) || c == '+' || c == '%'
  }

  /** One byte of `quote_plus`: itself, `+` for a space, `%XX` otherwise. */
  function QuoteByte(b: byte): (s: string)
    ensures 1 <= |s| <= 3
    ensures forall i :: 0 <= i < |s| ==> IsQuotedChar(s[i])
  {
    if IsUnreserved(b as int) then [b as int as char]
    else if b == 0x20 then "+"
    else
      var h := Hex.UpperByte(b);
      "%" + h
  }

  function QuoteBytes(bs: seq<byte>): (s: string)
    ensures forall i :: 0 <= i < |s| ==> IsQuotedChar(s[i])
    decreases |bs|
  {
    if |bs| == 0 then "" else QuoteByte(bs[0]) + QuoteBytes(bs[1..])
  }

  /** `quote_plus(s)`: the UTF-8 bytes of `s`, escaped. The result holds no
      `&` and no `=`, so it can sit inside a query string unambiguously. */
  function QuotePlus(s: string): (r: string)
    ensures forall i :: 0 <= i < |r| ==> IsQuotedChar(r[i])
    ensures '&' !in r && '=' !in r
  {
    QuoteBytes(Utf8.Encode(s))
  }

  /** `unquote_to_bytes` after `+` is read as a space. */
  function UnquoteBytes(s: string): Option<seq<byte>>
    decreases |s|
  {
    if |s| == 0 then Some([])
    else if s[0] == '+' then
      match UnquoteBytes(s[1..])
      case Some(rest) => Some([0x20 as byte] + rest)
      case None => None
    else if s[0] == '%' then
      if |s| < 3 then None
      else
        match (Hex.Decode(s[1..3]), UnquoteBytes(s[3..]))
        case (Some(b), Some(rest)) => Some(b + rest)
        case _ => None
    else if IsUnreserved(s[0] as int) then
      match UnquoteBytes(s[1..])
      case Some(rest) => Some([s[0] as int as byte] + rest)
      case None => None
    else None
  }

  /** `unquote_plus(s)`. */
  function UnquotePlus(s: string): Option<string>
  {
    match UnquoteBytes(s)
    case Some(bs) => Utf8.Decode(bs)
    case None => None
  }

  lemma UnquoteQuoteByte(b: byte, t: string, rest: seq<byte>)
    requires UnquoteBytes(t) == Some(rest)
    ensures UnquoteBytes(QuoteByte(b) + t) == Some([b] + rest)
  {
    var s := QuoteByte(b) + t;
    if IsUnreserved(b as int) {
      assert s[1..] == t;
    } else if b == 0x20 {
      assert s[1..] == t;
    } else {
      assert s[1..3] == Hex.UpperByte(b);
      assert s[3..] == t;
    }
  }

  lemma {:induction false} UnquoteQuoteBytes(bs: seq<byte>)
    ensures UnquoteBytes(QuoteBytes(bs)) == Some(bs)
    decreases |bs|
  {
    if |bs| > 0 {
      UnquoteQuoteBytes(bs[1..]);
      UnquoteQuoteByte(bs[0], QuoteBytes(bs[1..]), bs[1..]);
      assert [bs[0]] + bs[1..] == bs;
    }
  }

  /** `unquote_plus` undoes `quote_plus`: the escaped text determines the
      original one. */
  lemma UnquoteQuote(s: string)
    ensures UnquotePlus(QuotePlus(s)) == Some(s)
  {
    UnquoteQuoteBytes(Utf8.Encode(s));
    Utf8.DecodeEncode(s);
  }

  /** Text made only of unreserved ASCII characters is left unescaped. */
  lemma {:induction false} QuoteUnreserved(s: string)
    requires forall i :: 0 <= i < |s| ==> IsUnreserved(s[i] as int)
    ensures QuotePlus(s) == s
    decreases |s|
  {
    if |s| > 0 {
      QuoteUnreserved(s[1..]);
      assert s[0] as int < 0x80;
      assert Utf8.Encode(s) == Utf8.EncodeChar(s[0]) + Utf8.Encode(s[1..]);
      assert [s[0]] + s[1..] == s;
    }
  }

  /** One `k=v` item of the query text. */
  function Item(k: string, v: PyValue.Value): (s: string)
    ensures Strings.Split(s, '=') == [QuotePlus(k), QuotePlus(PyValue.Str(v))]
  {
    Strings.SplitJoin([QuotePlus(k), QuotePlus(PyValue.Str(v))], '=');
    QuotePlus(k) + "=" + QuotePlus(PyValue.Str(v))
  }

  function Items(d: PyValue.Dict): seq<string>
  {
    seq(|d|, i requires 0 <= i < |d| => Item(d[i].0, d[i].1))
  }

  /** `urlencode(d)`: the escaped `k=v` items joined by `&`, in insertion
      order. Splitting the text at `&` and each item at `=` recovers every
      escaped key and value, in order. */
  function Urlencode(d: PyValue.Dict): (r: string)
    ensures |d| > 0 ==> |Strings.Split(r, '&')| == |d|
    ensures |d| > 0 ==> forall i :: 0 <= i < |d| ==>
      Strings.Split(Strings.Split(r, '&')[i], '=') == [QuotePlus(d[i].0), QuotePlus(PyValue.Str(d[i].1))]
  {
    var items := Items(d);
    if |d| == 0 then Strings.Join("&", items)
    else
      assert forall i :: 0 <= i < |items| ==> '&' !in items[i];
      Strings.SplitJoin(items, '&');
      Strings.Join("&", items)
  }

  /** The keys FTX passes as params need no escaping. */
  lemma MarketKey()
    ensures QuotePlus("market") == "market"
  {
    QuoteUnreserved("market");
  }

  lemma DepthKey()
    ensures QuotePlus("depth") == "depth"
  {
    QuoteUnreserved("depth");
  }

  /** A one-entry dict whose key needs no escaping. */
  lemma UrlencodePlainKey(k: string, v: PyValue.Value)
    requires QuotePlus(k) == k
    ensures Urlencode([(k, v)]) == k + "=" + QuotePlus(PyValue.Str(v))
    ensures v.VStr? ==> Urlencode([(k, v)]) == k + "=" + QuotePlus(v.s)
  {
    UrlencodeOne(k, v);
  }

  /** `urlencode({"market": symbol})`, the params of FTX's `cancel_orders`. */
  lemma MarketParam(symbol: string)
    ensures Urlencode([("market", PyValue.VStr(symbol))]) == "market=" + QuotePlus(symbol)
  {
    MarketKey();
    UrlencodePlainKey("market", PyValue.VStr(symbol));
    assert "market" + "=" == "market=";
  }

  /** `urlencode({"depth": limit})`, the params of FTX's `get_orderbook`. */
  lemma DepthParam(limit: PyValue.Value)
    ensures Urlencode([("depth", limit)]) == "depth=" + QuotePlus(PyValue.Str(limit))
  {
    DepthKey();
    UrlencodePlainKey("depth", limit);
    assert "depth" + "=" == "depth=";
  }

  /** A one-entry dict encodes to its single item. */
  lemma UrlencodeOne(k: string, v: PyValue.Value)
    ensures Urlencode([(k, v)]) == QuotePlus(k) + "=" + QuotePlus(PyValue.Str(v))
  {
    assert Items([(k, v)]) == [Item(k, v)];
  }
}
