/** Session ids (src/generate-session.js): 16 random bytes rendered as
    lowercase hexadecimal, two digits per byte, high nibble first, as
    `Buffer.toString('hex')` does. */
module SessionId {
  import MemoryStore

  newtype byte = x: int | 0 <= x < 256

  /** The number of random bytes in a session id. */
  const IdBytes: nat := 16

  predicate IsLowerHex(c: char) {
    '0' <= c <= '9' || 'a' <= c <= 'f'
  }

  function HexDigit(n: int): (c: char)
    requires 0 <= n < 16
    ensures IsLowerHex(c)
  {
    "0123456789abcdef"[n]
  }

  lemma HexDigitInjective(m: int, n: int)
    requires 0 <= m < 16 && 0 <= n < 16
    requires HexDigit(m) == HexDigit(n)
    ensures m == n
  {
  }

  /** The two digits of one byte. */
  function ByteHex(b: byte): (s: string)
    ensures |s| == 2 && IsLowerHex(s[0]) && IsLowerHex(s[1])
  {
    [HexDigit(b as int / 16), HexDigit(b as int % 16)]
  }

  lemma ByteHexInjective(a: byte, b: byte)
    requires ByteHex(a) == ByteHex(b)
    ensures a == b
  {
    HexDigitInjective(a as int / 16, b as int / 16);
    HexDigitInjective(a as int % 16, b as int % 16);
  }

  /** `bytes.toString('hex')` */
  function Hex(bytes: seq<byte>): (s: string)
    ensures |s| == 2 * |bytes|
    ensures forall i :: 0 <= i < |s| ==> IsLowerHex(s[i])
  {
    if bytes == [] then "" else ByteHex(bytes[0]) + Hex(bytes[1..])
  }

  /** Hex encoding is injective: distinct random byte strings give distinct
      ids, so ids are as unique as the random bytes they come from. */
  lemma {:induction false} HexInjective(a: seq<byte>, b: seq<byte>)
    requires Hex(a) == Hex(b)
    ensures a == b
  {
    if a != [] {
      assert |b| == |a|;
      var ha, hb := Hex(a), Hex(b);
      assert ha[..2] == ByteHex(a[0]) && hb[..2] == ByteHex(b[0]);
      ByteHexInjective(a[0], b[0]);
      assert ha[2..] == Hex(a[1..]) && hb[2..] == Hex(b[1..]);
      HexInjective(a[1..], b[1..]);
      assert a == [a[0]] + a[1..] && b == [b[0]] + b[1..];
    }
  }

  /** Every session id is exactly 32 lowercase hexadecimal characters. */
  lemma SessionIdShape(bytes: seq<byte>)
    requires |bytes| == IdBytes
    ensures |Hex(bytes)| == 32
    ensures forall i :: 0 <= i < 32 ==> IsLowerHex(Hex(bytes)[i])
  {
  }

  /** A session id is never one of the names a plain JavaScript object
      inherits, so the in-memory store treats session ids as ordinary keys. */
  lemma HexIsNotInherited(bytes: seq<byte>)
    requires |bytes| == IdBytes
    ensures Hex(bytes) !in MemoryStore.InheritedKeys
  {
    LongNameNotInherited(Hex(bytes));
  }

  /** None of the inherited names is longer than 20 characters. */
  lemma LongNameNotInherited(id: string)
    requires |id| > 20
    ensures id !in MemoryStore.InheritedKeys
  {
  }
}
