/** Hexadecimal text of bytes: `hashlib`'s `hexdigest()` (lower case) and
    the upper-case digits of URL percent-escapes. */
module Hex {

  import opened Prelude

  /** The lower-case hex digit for a nibble. */
  function LowerDigit(n: int): char
    requires 0 <= n < 16
  {
    if n < 10 then (48 + n) as char else (87 + n) as char
  }

  /** The upper-case hex digit for a nibble. */
  function UpperDigit(n: int): char
    requires 0 <= n < 16
  {
    if n < 10 then (48 + n) as char else (55 + n) as char
  }

  predicate IsLowerHexDigit(c: char) { '0' <= c <= '9' || 'a' <= c <= 'f' }

  predicate IsUpperHexDigit(c: char) { '0' <= c <= '9' || 'A' <= c <= 'F' }

  /** The nibble a hex digit of either case stands for. */
  function Nibble(c: char): Option<int>
  {
    if '0' <= c <= '9' then Some(c as int - 48)
    else if 'a' <= c <= 'f' then Some(c as int - 87)
    else if 'A' <= c <= 'F' then Some(c as int - 55)
    else None
  }

  lemma NibbleOfDigits(n: int)
    requires 0 <= n < 16
    ensures IsLowerHexDigit(LowerDigit(n)) && Nibble(LowerDigit(n)) == Some(n)
    ensures IsUpperHexDigit(UpperDigit(n)) && Nibble(UpperDigit(n)) == Some(n)
  {
  }

  /** `bytes.hex()` / `hexdigest()`: two lower-case digits per byte, high
      nibble first. */
  function Encode(bs: seq<byte>): (s: string)
    ensures |s| == 2 * |bs|
    ensures forall i :: 0 <= i < |s| ==> IsLowerHexDigit(s[i])
    decreases |bs|
  {
    if |bs| == 0 then ""
    else
      NibbleOfDigits(bs[0] as int / 16);
      NibbleOfDigits(bs[0] as int % 16);
      [LowerDigit(bs[0] as int / 16), LowerDigit(bs[0] as int % 16)] + Encode(bs[1..])
  }

  /** `bytes.fromhex(s)`: `None` unless `s` is pairs of hex digits. */
  function Decode(s: string): Option<seq<byte>>
    decreases |s|
  {
    if |s| == 0 then Some([])
    else if |s| == 1 then None
    else match (Nibble(s[0]), Nibble(s[1]), Decode(s[2..]))
      case (Some(hi), Some(lo), Some(rest)) => Some([(16 * hi + lo) as byte] + rest)
      case _ => None
  }

  /** Decoding the hex text of a digest gives the digest back: the text
      carries every bit of it. */
  lemma {:induction false} DecodeEncode(bs: seq<byte>)
    ensures Decode(Encode(bs)) == Some(bs)
    decreases |bs|
  {
    if |bs| > 0 {
      var b := bs[0] as int;
      NibbleOfDigits(b / 16);
      NibbleOfDigits(b % 16);
      var s := Encode(bs);
      assert s[2..] == Encode(bs[1..]);
      DecodeEncode(bs[1..]);
      assert [bs[0]] + bs[1..] == bs;
    }
  }

  /** Hex text of one byte with upper-case digits, as in a `%XX` escape. */
  function UpperByte(b: byte): (s: string)
    ensures |s| == 2 && IsUpperHexDigit(s[0]) && IsUpperHexDigit(s[1])
    ensures Decode(s) == Some([b])
  {
    NibbleOfDigits(b as int / 16);
    NibbleOfDigits(b as int % 16);
    var s := [UpperDigit(b as int / 16), UpperDigit(b as int % 16)];
    assert s[2..] == [];
    assert Decode(s[2..]) == Some([]);
    assert (16 * (b as int / 16) + b as int % 16) as byte == b;
    assert [b] + [] == [b];
    s
  }
}
