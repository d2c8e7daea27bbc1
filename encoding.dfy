/**
 * The two text encodings the clients use on message bodies: the sender turns a
 * string into bytes with UTF-8 (RabbitSender.cs), the listener turns the bytes
 * back into text with ASCII (RabbitService.cs). Each is written out as a function
 * on Unicode scalar values, so that what the mismatch does to a message is stated
 * and proved rather than assumed.
 */
module Encoding {

  newtype byte = x: int | 0 <= x < 256

  /** The character the ASCII decoder substitutes for a byte outside 0..127. */
  const Replacement: char := '?'

  predicate IsAsciiChar(c: char) { (c as int) < 128 }

  predicate IsAscii(s: string) { forall i :: 0 <= i < |s| ==> IsAsciiChar(s[i]) }

  /** UTF-8 bytes of one scalar value: one byte below 0x80, then two, three or four. */
  function EncodeChar(c: char): (r: seq<byte>)
    ensures 1 <= |r| <= 4
    ensures |r| == 1 <==> IsAsciiChar(c)
    ensures IsAsciiChar(c) ==> r[0] as int == c as int
    ensures !IsAsciiChar(c) ==> forall i :: 0 <= i < |r| ==> r[i] >= 128
  {
    var cp := c as int;
    if cp < 0x80 then
      [cp as byte]
    else if cp < 0x800 then
      [(0xC0 + cp / 0x40) as byte, (0x80 + cp % 0x40) as byte]
    else if cp < 0x1_0000 then
      [(0xE0 + cp / 0x1000) as byte, (0x80 + (cp / 0x40) % 0x40) as byte, (0x80 + cp % 0x40) as byte]
    else
      [(0xF0 + cp / 0x4_0000) as byte, (0x80 + (cp / 0x1000) % 0x40) as byte,
       (0x80 + (cp / 0x40) % 0x40) as byte, (0x80 + cp % 0x40) as byte]
  }

  /** Encoding.UTF8.GetBytes: the characters' encodings, concatenated in order. */
  function Utf8Encode(s: string): (r: seq<byte>)
    ensures |r| >= |s|
    decreases |s|
  {
    if s == [] then [] else EncodeChar(s[0]) + Utf8Encode(s[1..])
  }

  /** Encoding.ASCII.GetString: one character per byte, '?' for every byte above 127. */
  function AsciiDecode(b: seq<byte>): (r: string)
    ensures |r| == |b|
    ensures IsAscii(r)
    ensures forall i :: 0 <= i < |b| && b[i] < 128 ==> r[i] as int == b[i] as int
    ensures forall i :: 0 <= i < |b| && b[i] >= 128 ==> r[i] == Replacement
  {
    seq(|b|, i requires 0 <= i < |b| => if b[i] < 128 then b[i] as int as char else Replacement)
  }

  /** On ASCII text UTF-8 is the identity on code points, one byte per character. */
  lemma {:induction false} Utf8OfAscii(s: string)
    requires IsAscii(s)
    ensures |Utf8Encode(s)| == |s|
    ensures forall i :: 0 <= i < |s| ==> Utf8Encode(s)[i] as int == s[i] as int
    decreases |s|
  {
    if s != [] {
      assert IsAsciiChar(s[0]);
      Utf8OfAscii(s[1..]);
    }
  }

  /** Text made of non-ASCII characters grows under UTF-8: a message keeps its length exactly when it is ASCII. */
  lemma {:induction false} Utf8LengthExact(s: string)
    ensures |Utf8Encode(s)| == |s| <==> IsAscii(s)
    decreases |s|
  {
    if s != [] {
      Utf8LengthExact(s[1..]);
      if IsAscii(s) {
        assert IsAsciiChar(s[0]);
        assert IsAscii(s[1..]) by {
          forall i | 0 <= i < |s[1..]| ensures IsAsciiChar(s[1..][i]) { assert s[1..][i] == s[i + 1]; }
        }
      } else if IsAsciiChar(s[0]) {
        assert !IsAscii(s[1..]) by {
          var j :| 0 <= j < |s| && !IsAsciiChar(s[j]);
          assert j > 0 && s[1..][j - 1] == s[j];
        }
      }
    }
  }

  /**
   * The listener reads back exactly what the sender wrote when, and only when,
   * the message is ASCII; any other message arrives altered.
   */
  lemma RoundTripExactlyOnAscii(s: string)
    ensures AsciiDecode(Utf8Encode(s)) == s <==> IsAscii(s)
  {
    var r := AsciiDecode(Utf8Encode(s));
    if IsAscii(s) {
      Utf8OfAscii(s);
      forall i | 0 <= i < |s| ensures r[i] == s[i] {
        assert Utf8Encode(s)[i] as int == s[i] as int;
      }
    } else {
      Utf8LengthExact(s);
    }
  }
}
