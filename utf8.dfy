/**
 * UTF-8 as RFC 3629 section 3 defines it, over Dafny's characters (Unicode scalar
 * values). The proxy recomputes a text response's Content-Length as the length of
 * this encoding, where JavaScript's `string.length` counts UTF-16 code units.
 */
module Utf8 {
  import opened Common

  /** The number of octets RFC 3629 section 3 gives a scalar value. */
  function Width(c: char): (w: nat)
    ensures 1 <= w <= 4
  {
    if c as int < 0x80 then 1
    else if c as int < 0x800 then 2
    else if c as int < 0x1_0000 then 3
    else 4
  }

  /** The sequence length a lead octet announces; 0 for a continuation or invalid octet. */
  function SequenceLength(lead: byte): nat {
    if lead < 0x80 then 1
    else if lead < 0xC0 then 0
    else if lead < 0xE0 then 2
    else if lead < 0xF0 then 3
    else if lead < 0xF8 then 4
    else 0
  }

  predicate IsContinuation(b: byte) {
    0x80 <= b < 0xC0
  }

  /** The octets of one scalar value, laid out as in the table of RFC 3629 section 3. */
  function EncodeChar(c: char): (b: seq<byte>)
    ensures |b| == Width(c)
    ensures SequenceLength(b[0]) == |b|
    ensures forall i | 1 <= i < |b| :: IsContinuation(b[i])
  {
    var n := c as int;
    if n < 0x80 then
      [n as byte]
    else if n < 0x800 then
      [(0xC0 + n / 0x40) as byte, (0x80 + n % 0x40) as byte]
    else if n < 0x1_0000 then
      [(0xE0 + n / 0x1000) as byte, (0x80 + n / 0x40 % 0x40) as byte, (0x80 + n % 0x40) as byte]
    else
      [(0xF0 + n / 0x4_0000) as byte, (0x80 + n / 0x1000 % 0x40) as byte,
       (0x80 + n / 0x40 % 0x40) as byte, (0x80 + n % 0x40) as byte]
  }

  /** `Buffer.from(s, 'utf-8')`: the concatenated encodings of the characters of `s`. */
  function Encode(s: string): seq<byte> {
    if s == [] then [] else EncodeChar(s[0]) + Encode(s[1..])
  }

  /** The scalar value a well-framed sequence of octets carries. */
  function DecodeValue(b: seq<byte>): int
    requires 1 <= |b| <= 4
  {
    var k := b[|b| - 1] as int - 0x80;
    if |b| == 1 then b[0] as int
    else if |b| == 2 then (b[0] as int - 0xC0) * 0x40 + k
    else if |b| == 3 then (b[0] as int - 0xE0) * 0x1000 + (b[1] as int - 0x80) * 0x40 + k
    else (b[0] as int - 0xF0) * 0x4_0000 + (b[1] as int - 0x80) * 0x1000 + (b[2] as int - 0x80) * 0x40 + k
  }

  predicate IsScalar(v: int) {
    (0 <= v < 0xD800) || (0xE000 <= v < 0x11_0000)
  }

  /** Reads a UTF-8 octet sequence back into text; None when it is not well framed. */
  function Decode(b: seq<byte>): (r: Option<string>)
    decreases |b|
  {
    if b == [] then Some([])
    else
      var n := SequenceLength(b[0]);
      if n == 0 || n > |b| then None
      else
        var v := DecodeValue(b[..n]);
        if !IsScalar(v) then None
        else match Decode(b[n..])
          case None => None
          case Some(rest) => Some([v as char] + rest)
  }

  /** One character's octets decode back to that character. */
  lemma DecodeEncodeChar(c: char)
    ensures DecodeValue(EncodeChar(c)) == c as int
  {
    var n := c as int;
    if n >= 0x80 {
      assert n == n / 0x40 * 0x40 + n % 0x40;
      if n >= 0x800 {
        assert n / 0x40 == n / 0x1000 * 0x40 + n / 0x40 % 0x40;
        if n >= 0x1_0000 {
          assert n / 0x1000 == n / 0x4_0000 * 0x40 + n / 0x1000 % 0x40;
        }
      }
    }
  }

  /** Encoding then decoding gives the text back (the inverse of `Buffer.from`). */
  lemma {:induction false} DecodeEncode(s: string)
    ensures Decode(Encode(s)) == Some(s)
  {
    if s != [] {
      var head := EncodeChar(s[0]);
      var b := Encode(s);
      assert b == head + Encode(s[1..]);
      var n := SequenceLength(b[0]);
      assert b[0] == head[0];
      assert n == |head|;
      assert b[..n] == head;
      assert b[n..] == Encode(s[1..]);
      DecodeEncodeChar(s[0]);
      DecodeEncode(s[1..]);
      assert [s[0]] + s[1..] == s;
    }
  }

  /** JavaScript's `string.length`: the number of UTF-16 code units of `s`. */
  function Utf16Length(s: string): nat {
    if s == [] then 0 else (if s[0] as int < 0x1_0000 then 1 else 2) + Utf16Length(s[1..])
  }

  predicate IsAscii(s: string) {
    forall i | 0 <= i < |s| :: s[i] as int < 0x80
  }

  /**
   * The byte length is never below the number of characters or UTF-16 units and at
   * most three octets per UTF-16 unit; it equals the UTF-16 length exactly for ASCII text.
   */
  lemma {:induction false} ByteLengthBounds(s: string)
    ensures |s| <= Utf16Length(s) <= |Encode(s)| <= 3 * Utf16Length(s)
    ensures |Encode(s)| == Utf16Length(s) <==> IsAscii(s)
  {
    if s != [] {
      ByteLengthBounds(s[1..]);
      assert IsAscii(s) <==> s[0] as int < 0x80 && IsAscii(s[1..]) by {
        if s[0] as int < 0x80 && IsAscii(s[1..]) {
          forall i | 0 <= i < |s| ensures s[i] as int < 0x80 {
            if i > 0 { assert s[i] == s[1..][i - 1]; }
          }
        }
        if IsAscii(s) {
          forall i | 0 <= i < |s[1..]| ensures s[1..][i] as int < 0x80 {
            assert s[1..][i] == s[i + 1];
          }
        }
      }
    }
  }
}
