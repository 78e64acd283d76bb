/** HMAC-SHA256 (RFC 2104 over the SHA-256 of FIPS 180-4) as the modelled
    code reaches it through `hmac.new(key, msg, hashlib.sha256)`. The
    digest itself is computed by the `hashlib` collaborator, so it enters
    the model as a function parameter whose only known property is that
    it yields 32 bytes. */
module Crypto {

  import opened Prelude
  import Utf8
  import Hex
  import Base64

  /** A SHA-256 sized digest. */
  type Digest = d: seq<byte> | |d| == 32 witness seq(32, i => 0 as byte)

  /** HMAC-SHA256 over (key bytes, message bytes). */
  type Mac = (seq<byte>, seq<byte>) -> Digest

  /** `hmac.new(key.encode("utf-8"), msg.encode("utf-8"), sha256)` */
  function Hmac(mac: Mac, key: string, msg: string): Digest
  {
    mac(Utf8.Encode(key), Utf8.Encode(msg))
  }

  /** `.hexdigest()` of that MAC: 64 lower-case hex digits that decode back
      to the digest of the UTF-8 bytes of key and message. */
  function HexDigest(mac: Mac, key: string, msg: string): (s: string)
    ensures |s| == 64
    ensures forall i :: 0 <= i < |s| ==> Hex.IsLowerHexDigit(s[i])
    ensures Hex.Decode(s) == Some(mac(Utf8.Encode(key), Utf8.Encode(msg)))
  {
    Hex.DecodeEncode(Hmac(mac, key, msg));
    Hex.Encode(Hmac(mac, key, msg))
  }

  /** `base64.b64encode(... .digest())`: 44 characters ending in exactly one
      `=`, decoding back to the digest. */
  function Base64Digest(mac: Mac, key: string, msg: string): (s: string)
    ensures |s| == 44
    ensures s[43] == '=' && forall i :: 0 <= i < 43 ==> s[i] != '='
    ensures forall i :: 0 <= i < |s| ==> Base64.IsSymbol(s[i]) || s[i] == '='
    ensures Base64.Decode(s) == Some(mac(Utf8.Encode(key), Utf8.Encode(msg)))
  {
    Base64.DigestText(Hmac(mac, key, msg));
    Base64.DecodeEncode(Hmac(mac, key, msg));
    Base64.Encode(Hmac(mac, key, msg))
  }
}
