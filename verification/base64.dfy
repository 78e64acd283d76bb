/** Base64 encoding in the standard alphabet with `=` padding, as
    `base64.b64encode` produces it (section 4 of RFC 4648). */
module Base64 {

  import opened Prelude

  /** The character for a 6-bit value. */
  function Symbol(k: int): char
    requires 0 <= k < 64
  {
    if k < 26 then (65 + k) as char          // 'A'..'Z'
    else if k < 52 then (97 + k - 26) as char // 'a'..'z'
    else if k < 62 then (48 + k - 52) as char // '0'..'9'
    else if k == 62 then '+'
    else '/'
  }

  predicate IsSymbol(c: char) {
    'A' <= c <= 'Z' || 'a' <= c <= 'z' || '0' <= c <= '9' || c == '+' || c == '/'
  }

  /** The 6-bit value a character of the alphabet stands for. */
  function Value(c: char): Option<int>
  {
    if 'A' <= c <= 'Z' then Some(c as int - 65)
    else if 'a' <= c <= 'z' then Some(c as int - 97 + 26)
    else if '0' <= c <= '9' then Some(c as int - 48 + 52)
    else if c == '+' then Some(62)
    else if c == '/' then Some(63)
    else None
  }

  lemma ValueOfSymbol(k: int)
    requires 0 <= k < 64
    ensures IsSymbol(Symbol(k)) && Symbol(k) != '='
    ensures Value(Symbol(k)) == Some(k)
  {
  }

  /** Four characters for three bytes. */
  function Group(a: byte, b: byte, c: byte): (s: string)
    ensures |s| == 4 && forall i :: 0 <= i < 4 ==> IsSymbol(s[i])
  {
    var a, b, c := a as int, b as int, c as int;
    ValueOfSymbol(a / 4);
    ValueOfSymbol((a % 4) * 16 + b / 16);
    ValueOfSymbol((b % 16) * 4 + c / 64);
    ValueOfSymbol(c % 64);
    [Symbol(a / 4), Symbol((a % 4) * 16 + b / 16), Symbol((b % 16) * 4 + c / 64), Symbol(c % 64)]
  }

  /** Three characters and one `=` for a final two bytes. */
  function Tail2(a: byte, b: byte): (s: string)
    ensures |s| == 4 && s[3] == '=' && forall i :: 0 <= i < 3 ==> IsSymbol(s[i])
  {
    var a, b := a as int, b as int;
    ValueOfSymbol(a / 4);
    ValueOfSymbol((a % 4) * 16 + b / 16);
    ValueOfSymbol((b % 16) * 4);
    [Symbol(a / 4), Symbol((a % 4) * 16 + b / 16), Symbol((b % 16) * 4), '=']
  }

  /** Two characters and `==` for a final single byte. */
  function Tail1(a: byte): (s: string)
    ensures |s| == 4 && s[2] == '=' && s[3] == '=' && IsSymbol(s[0]) && IsSymbol(s[1])
  {
    var a := a as int;
    ValueOfSymbol(a / 4);
    ValueOfSymbol((a % 4) * 16);
    [Symbol(a / 4), Symbol((a % 4) * 16), '=', '=']
  }

  /** `base64.b64encode(bs)`: four characters for every started group of
      three bytes; the text is made of alphabet symbols and `=`. */
  function Encode(bs: seq<byte>): (s: string)
    ensures |s| == 4 * ((|bs| + 2) / 3)
    ensures forall i :: 0 <= i < |s| ==> IsSymbol(s[i]) || s[i] == '='
    decreases |bs|
  {
    if |bs| == 0 then ""
    else if |bs| == 1 then Tail1(bs[0])
    else if |bs| == 2 then Tail2(bs[0], bs[1])
    else Group(bs[0], bs[1], bs[2]) + Encode(bs[3..])
  }

  /** `base64.b64decode(s)` on well-padded text; `None` for anything else. */
  function Decode(s: string): Option<seq<byte>>
    decreases |s|
  {
    if |s| == 0 then Some([])
    else if |s| < 4 || Value(s[0]).None? || Value(s[1]).None? then None
    else
      var v0, v1 := Value(s[0]).value, Value(s[1]).value;
      if |s| == 4 && s[2] == '=' && s[3] == '=' then
        if v1 % 16 == 0 then Some([(v0 * 4 + v1 / 16) as byte]) else None
      else if Value(s[2]).None? then None
      else
        var v2 := Value(s[2]).value;
        if |s| == 4 && s[3] == '=' then
          if v2 % 4 == 0 then Some([(v0 * 4 + v1 / 16) as byte, ((v1 % 16) * 16 + v2 / 4) as byte])
          else None
        else if Value(s[3]).None? || Decode(s[4..]).None? then None
        else
          var v3 := Value(s[3]).value;
          Some([(v0 * 4 + v1 / 16) as byte, ((v1 % 16) * 16 + v2 / 4) as byte, ((v2 % 4) * 64 + v3) as byte]
               + Decode(s[4..]).value)
  }

  lemma FirstByte(a: int, b: int)
    requires 0 <= a < 256 && 0 <= b < 256
    ensures ((a % 4) * 16 + b / 16) / 16 == a % 4
    ensures ((a % 4) * 16 + b / 16) % 16 == b / 16
  {
  }

  lemma SecondByte(b: int, c: int)
    requires 0 <= b < 256 && 0 <= c < 256
    ensures ((b % 16) * 4 + c / 64) / 4 == b % 16
    ensures ((b % 16) * 4 + c / 64) % 4 == c / 64
  {
  }

  lemma DecodeTail1(a: byte)
    ensures Decode(Tail1(a)) == Some([a])
  {
    var x := a as int;
    ValueOfSymbol(x / 4);
    ValueOfSymbol((x % 4) * 16);
    FirstByte(x, 0);
    var s := Tail1(a);
    assert Value(s[0]) == Some(x / 4);
    assert Value(s[1]) == Some((x % 4) * 16);
    assert (x / 4 * 4 + (x % 4) * 16 / 16) as byte == a;
  }

  lemma DecodeTail2(a: byte, b: byte)
    ensures Decode(Tail2(a, b)) == Some([a, b])
  {
    var x, y := a as int, b as int;
    ValueOfSymbol(x / 4);
    ValueOfSymbol((x % 4) * 16 + y / 16);
    ValueOfSymbol((y % 16) * 4);
    FirstByte(x, y);
    SecondByte(y, 0);
    var s := Tail2(a, b);
    assert Value(s[0]) == Some(x / 4);
    assert Value(s[1]) == Some((x % 4) * 16 + y / 16);
    assert Value(s[2]) == Some((y % 16) * 4);
  }

  lemma DecodeGroup(a: byte, b: byte, c: byte, t: string, rest: seq<byte>)
    requires Decode(t) == Some(rest)
    ensures Decode(Group(a, b, c) + t) == Some([a, b, c] + rest)
  {
    var x, y, z := a as int, b as int, c as int;
    ValueOfSymbol(x / 4);
    ValueOfSymbol((x % 4) * 16 + y / 16);
    ValueOfSymbol((y % 16) * 4 + z / 64);
    ValueOfSymbol(z % 64);
    FirstByte(x, y);
    SecondByte(y, z);
    var s := Group(a, b, c) + t;
    assert s[4..] == t;
    assert Value(s[0]) == Some(x / 4);
    assert Value(s[1]) == Some((x % 4) * 16 + y / 16);
    assert Value(s[2]) == Some((y % 16) * 4 + z / 64);
    assert Value(s[3]) == Some(z % 64);
    assert s[3] != '=';
  }

  /** Decoding the Base64 text of a byte string gives the bytes back. */
  lemma {:induction false} DecodeEncode(bs: seq<byte>)
    ensures Decode(Encode(bs)) == Some(bs)
    decreases |bs|
  {
    if |bs| == 1 {
      assert Encode(bs) == Tail1(bs[0]);
      DecodeTail1(bs[0]);
      assert [bs[0]] == bs;
    } else if |bs| == 2 {
      assert Encode(bs) == Tail2(bs[0], bs[1]);
      DecodeTail2(bs[0], bs[1]);
      assert [bs[0], bs[1]] == bs;
    } else if |bs| >= 3 {
      DecodeEncode(bs[3..]);
      DecodeEncodeStep(bs);
    }
  }

  lemma FirstThree(bs: seq<byte>)
    requires |bs| >= 3
    ensures [bs[0], bs[1], bs[2]] + bs[3..] == bs
  {
    assert bs == bs[..3] + bs[3..];
  }

  /** The inductive step of `DecodeEncode`: a leading group decodes to its
      three bytes in front of whatever the rest decodes to. */
  lemma DecodeEncodeStep(bs: seq<byte>)
    requires |bs| >= 3 && Decode(Encode(bs[3..])) == Some(bs[3..])
    ensures Decode(Encode(bs)) == Some(bs)
  {
    var g, t := Group(bs[0], bs[1], bs[2]), Encode(bs[3..]);
    assert Encode(bs) == g + t;
    DecodeGroup(bs[0], bs[1], bs[2], t, bs[3..]);
    FirstThree(bs);
    calc {
      Decode(Encode(bs));
      Decode(g + t);
      Some([bs[0], bs[1], bs[2]] + bs[3..]);
      Some(bs);
    }
  }

  /** Text whose last character, and only that one, is the pad `=`. */
  predicate OnePad(s: string) {
    |s| > 0 && s[|s| - 1] == '=' && forall i :: 0 <= i < |s| - 1 ==> s[i] != '='
  }

  /** Four alphabet symbols in front keep a single final pad single. */
  lemma OnePadAfterGroup(g: string, t: string)
    requires |g| == 4 && forall i :: 0 <= i < 4 ==> IsSymbol(g[i])
    requires OnePad(t)
    ensures OnePad(g + t)
  {
    forall i | 0 <= i < |g + t| - 1
      ensures (g + t)[i] != '='
    {
      if i < 4 {
        assert (g + t)[i] == g[i];
      } else {
        assert (g + t)[i] == t[i - 4];
      }
    }
  }

  /** When the byte count leaves two over a multiple of three (as a 32-byte
      digest does), the text ends in exactly one `=`. */
  lemma {:induction false} SinglePadding(bs: seq<byte>)
    requires |bs| % 3 == 2
    ensures var s := Encode(bs);
      s[|s| - 1] == '=' && forall i :: 0 <= i < |s| - 1 ==> s[i] != '='
    decreases |bs|
  {
    if |bs| == 2 {
      var s := Tail2(bs[0], bs[1]);
      assert Encode(bs) == s;
      assert OnePad(s);
    } else {
      SinglePadding(bs[3..]);
      var g, t := Group(bs[0], bs[1], bs[2]), Encode(bs[3..]);
      assert Encode(bs) == g + t;
      assert OnePad(t);
      OnePadAfterGroup(g, t);
    }
  }

  /** The Base64 text of a 32-byte digest is 44 characters, the last one
      the single pad character. */
  lemma DigestText(d: seq<byte>)
    requires |d| == 32
    ensures |Encode(d)| == 44
    ensures Encode(d)[43] == '=' && forall i :: 0 <= i < 43 ==> Encode(d)[i] != '='
  {
    SinglePadding(d);
  }
}
