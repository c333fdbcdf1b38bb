/**
  Bytes of a string, as `String.data(using:)` produces them. The library only
  ever appends with the default `.utf8` encoding; `.ascii` stands for the
  encodings that can fail, which is the branch `Data.append(_:encoding:)`
  guards against.
 */
module Utf8 {
  import opened Wrappers

  newtype byte = x: int | 0 <= x < 256

  datatype Encoding = Utf8 | Ascii

  /** UTF-8 encoding of one Unicode scalar value: one to four bytes. */
  function EncodeChar(c: char): (bs: seq<byte>)
    ensures 1 <= |bs| <= 4
    ensures |bs| == 1 <==> (c as int) < 0x80
  {
    var cp := c as int;
    if cp < 0x80 then [cp as byte]
    else if cp < 0x800 then [(0xC0 + cp / 64) as byte, (0x80 + cp % 64) as byte]
    else if cp < 0x1_0000 then
      [(0xE0 + cp / 4096) as byte, (0x80 + (cp / 64) % 64) as byte, (0x80 + cp % 64) as byte]
    else
      [(0xF0 + cp / 262144) as byte, (0x80 + (cp / 4096) % 64) as byte,
       (0x80 + (cp / 64) % 64) as byte, (0x80 + cp % 64) as byte]
  }

  /** UTF-8 encoding of a string. */
  function Encode(s: string): (bs: seq<byte>)
    ensures |bs| >= |s|
  {
    if s == [] then [] else EncodeChar(s[0]) + Encode(s[1..])
  }

  /** Encoding distributes over concatenation, so appending pieces one at a time
      gives the bytes of the whole text. */
  lemma {:induction false} EncodeAppend(a: string, b: string)
    ensures Encode(a + b) == Encode(a) + Encode(b)
  {
    if a != [] {
      EncodeAppend(a[1..], b);
      assert (a + b)[1..] == a[1..] + b;
    } else {
      assert a + b == b;
    }
  }

  predicate IsAscii(s: string) {
    forall k :: 0 <= k < |s| ==> (s[k] as int) < 0x80
  }

  /** ASCII text encodes to one byte per character, each equal to its code. */
  lemma {:induction false} EncodeAscii(s: string)
    requires IsAscii(s)
    ensures |Encode(s)| == |s|
    ensures forall k :: 0 <= k < |s| ==> Encode(s)[k] as int == s[k] as int
  {
    if s != [] {
      EncodeAscii(s[1..]);
      assert Encode(s) == [s[0] as int as byte] + Encode(s[1..]);
    }
  }

  /** `string.data(using: encoding)`: nil when the encoding cannot represent the text. */
  function Encoded(s: string, encoding: Encoding): (r: Option<seq<byte>>)
    ensures encoding == Utf8 ==> r == Some(Encode(s))
    ensures encoding == Ascii ==> (r.Some? <==> IsAscii(s))
  {
    match encoding
    case Utf8 => Some(Encode(s))
    case Ascii => if IsAscii(s) then Some(Encode(s)) else None
  }

  /** `Data.append(_ string:, encoding:)`: appends the encoded bytes, or nothing when encoding fails. */
  function Appended(data: seq<byte>, s: string, encoding: Encoding): (r: seq<byte>)
    ensures data <= r
    ensures Encoded(s, encoding).Some? ==> r[|data|..] == Encoded(s, encoding).value
    ensures Encoded(s, encoding).None? ==> r == data
  {
    match Encoded(s, encoding)
    case Some(bytes) => data + bytes
    case None => data
  }

  // ---- decoding, the inverse that shows the encoding loses nothing ----

  predicate IsContinuation(b: byte) {
    0x80 <= b < 0xC0
  }

  predicate IsScalar(cp: int) {
    0 <= cp < 0xD800 || 0xE000 <= cp < 0x11_0000
  }

  /** Number of bytes a sequence starting with lead byte `b` occupies (0 for an invalid lead). */
  function SequenceLength(b: byte): nat {
    if b < 0x80 then 1
    else if 0xC0 <= b < 0xE0 then 2
    else if 0xE0 <= b < 0xF0 then 3
    else if 0xF0 <= b < 0xF8 then 4
    else 0
  }

  /** Code point of one well-framed sequence. */
  function CodePoint(bs: seq<byte>): int
    requires 1 <= |bs| <= 4
  {
    if |bs| == 1 then bs[0] as int
    else if |bs| == 2 then (bs[0] as int - 0xC0) * 64 + (bs[1] as int - 0x80)
    else if |bs| == 3 then
      (bs[0] as int - 0xE0) * 4096 + (bs[1] as int - 0x80) * 64 + (bs[2] as int - 0x80)
    else
      (bs[0] as int - 0xF0) * 262144 + (bs[1] as int - 0x80) * 4096
      + (bs[2] as int - 0x80) * 64 + (bs[3] as int - 0x80)
  }

  /** Decodes UTF-8; None for byte sequences that are not framed as UTF-8 or name no scalar value. */
  function Decode(bs: seq<byte>): Option<string>
    decreases |bs|
  {
    if bs == [] then Some([])
    else
      var n := SequenceLength(bs[0]);
      if n == 0 || |bs| < n then None
      else if exists k :: 1 <= k < n && !IsContinuation(bs[k]) then None
      else
        var cp := CodePoint(bs[..n]);
        if !IsScalar(cp) then None
        else match Decode(bs[n..])
          case None => None
          case Some(rest) => Some([cp as char] + rest)
  }

  lemma EncodeCharFrames(c: char)
    ensures SequenceLength(EncodeChar(c)[0]) == |EncodeChar(c)|
    ensures forall k :: 1 <= k < |EncodeChar(c)| ==> IsContinuation(EncodeChar(c)[k])
    ensures CodePoint(EncodeChar(c)) == c as int
  {
    var cp := c as int;
    if cp < 0x80 {
    } else if cp < 0x800 {
      assert cp == (cp / 64) * 64 + cp % 64;
    } else if cp < 0x1_0000 {
      assert cp / 64 == (cp / 4096) * 64 + (cp / 64) % 64;
      assert cp == (cp / 64) * 64 + cp % 64;
    } else {
      assert cp / 4096 == (cp / 262144) * 64 + (cp / 4096) % 64;
      assert cp / 64 == (cp / 4096) * 64 + (cp / 64) % 64;
      assert cp == (cp / 64) * 64 + cp % 64;
    }
  }

  /** Decoding undoes encoding: the bytes written for a string determine it. */
  lemma {:induction false} DecodeEncode(s: string)
    ensures Decode(Encode(s)) == Some(s)
  {
    if s != [] {
      var head := EncodeChar(s[0]);
      var bs := Encode(s);
      assert bs == head + Encode(s[1..]);
      EncodeCharFrames(s[0]);
      assert bs[..|head|] == head;
      assert bs[|head|..] == Encode(s[1..]);
      assert forall k :: 1 <= k < |head| ==> bs[k] == head[k];
      DecodeEncode(s[1..]);
      assert [s[0]] + s[1..] == s;
    }
  }
}
