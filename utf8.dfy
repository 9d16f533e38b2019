/** `str.encode("utf-8")`: the bytes that are written when the storage sink
    saves text (a local file opened with `encoding="utf-8"`, an S3 object
    body, an Azure blob). A Dafny `char` is a Unicode scalar value, so every
    string has an encoding. */
module Utf8 {
  import opened Outcomes

  /** The one to four bytes of one code point. */
  function EncodeChar(c: char): (r: Bytes)
    ensures 1 <= |r| <= 4
    ensures |r| == 1 <==> c as int < 0x80
    ensures |r| == 1 ==> r[0] as int == c as int
    ensures forall i :: 1 <= i < |r| ==> 0x80 <= r[i] as int < 0xC0
    ensures |r| > 1 ==> 0xC0 <= r[0] as int
  {
    var n := c as int;
    if n < 0x80 then [n as Byte]
    else if n < 0x800 then [(0xC0 + n / 64) as Byte, (0x80 + n % 64) as Byte]
    else if n < 0x1_0000 then
      [(0xE0 + n / 4096) as Byte, (0x80 + (n / 64) % 64) as Byte, (0x80 + n % 64) as Byte]
    else
      [(0xF0 + n / 262144) as Byte, (0x80 + (n / 4096) % 64) as Byte,
       (0x80 + (n / 64) % 64) as Byte, (0x80 + n % 64) as Byte]
  }

  function Encode(s: string): (r: Bytes)
    ensures |s| <= |r| <= 4 * |s|
  {
    if s == [] then [] else EncodeChar(s[0]) + Encode(s[1..])
  }

  /** Encoding distributes over concatenation. */
  lemma {:induction false} EncodeConcat(a: string, b: string)
    ensures Encode(a + b) == Encode(a) + Encode(b)
  {
    if a != [] {
      assert (a + b)[0] == a[0] && (a + b)[1..] == a[1..] + b;
      EncodeConcat(a[1..], b);
      assert Encode(a + b) == EncodeChar(a[0]) + (Encode(a[1..]) + Encode(b));
    } else {
      assert a + b == b;
    }
  }

  /** ASCII text encodes to one byte per character, each the character's code. */
  lemma {:induction false} EncodeAscii(s: string)
    requires forall i :: 0 <= i < |s| ==> s[i] as int < 0x80
    ensures |Encode(s)| == |s|
    ensures forall i :: 0 <= i < |s| ==> Encode(s)[i] as int == s[i] as int
  {
    if s != [] {
      EncodeAscii(s[1..]);
    }
  }

  /** Text with a character outside ASCII encodes to more bytes than characters. */
  lemma {:induction false} EncodeNonAscii(s: string, k: nat)
    requires k < |s| && s[k] as int >= 0x80
    ensures |Encode(s)| > |s|
  {
    if k > 0 {
      EncodeNonAscii(s[1..], k - 1);
    }
  }
}
