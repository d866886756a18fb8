/**
 * UTF-8 as defined by RFC 3629, the byte encoding Encoding.UTF8 and Uri.EscapeDataString
 * use: a code point below 0x80 is one byte; any other is a lead byte announcing the
 * length (110xxxxx, 1110xxxx, 11110xxx) followed by continuation bytes (10xxxxxx).
 */
module Utf8 {
  import opened Wrappers

  newtype byte = x: int | 0 <= x < 256

  function Cont(n: int): byte
    requires 0 <= n
  {
    (0x80 + n % 64) as byte
  }

  /** The UTF-8 encoding of a character. */
  function EncodeChar(c: char): (bs: seq<byte>)
    ensures 1 <= |bs| <= 4
  {
    var cp := c as int;
    if cp < 0x80 then [cp as byte]
    else if cp < 0x800 then [(0xC0 + cp / 64) as byte, Cont(cp)]
    else if cp < 0x10000 then [(0xE0 + cp / 4096) as byte, Cont(cp / 64), Cont(cp)]
    else [(0xF0 + cp / 262144) as byte, Cont(cp / 4096), Cont(cp / 64), Cont(cp)]
  }

  /** The number of bytes a UTF-8 sequence with this lead byte has, or 0 for a bad lead. */
  function SequenceLength(lead: byte): nat {
    if lead < 0x80 then 1
    else if 0xC0 <= lead < 0xE0 then 2
    else if 0xE0 <= lead < 0xF0 then 3
    else if 0xF0 <= lead < 0xF8 then 4
    else 0
  }

  predicate IsCont(b: byte) {
    0x80 <= b < 0xC0
  }

  predicate IsScalar(cp: int) {
    (0 <= cp < 0xD800) || (0xE000 <= cp < 0x11_0000)
  }

  /** The character a complete UTF-8 sequence encodes, or None. */
  function DecodeChar(bs: seq<byte>): Option<char> {
    if |bs| == 0 || |bs| != SequenceLength(bs[0]) then None
    else if exists i | 1 <= i < |bs| :: !IsCont(bs[i]) then None
    else
      var cp :=
        if |bs| == 1 then bs[0] as int
        else if |bs| == 2 then (bs[0] as int - 0xC0) * 64 + (bs[1] as int - 0x80)
        else if |bs| == 3 then
          ((bs[0] as int - 0xE0) * 64 + (bs[1] as int - 0x80)) * 64 + (bs[2] as int - 0x80)
        else
          (((bs[0] as int - 0xF0) * 64 + (bs[1] as int - 0x80)) * 64 + (bs[2] as int - 0x80)) * 64
          + (bs[3] as int - 0x80);
      if IsScalar(cp) then Some(cp as char) else None
  }

  lemma TwoByteSequence(cp: int)
    requires 0x80 <= cp < 0x800
    ensures var bs := [(0xC0 + cp / 64) as byte, Cont(cp)];
      SequenceLength(bs[0]) == 2 && IsCont(bs[1])
      && (bs[0] as int - 0xC0) * 64 + (bs[1] as int - 0x80) == cp
  {
  }

  lemma ThreeByteSequence(cp: int)
    requires 0x800 <= cp < 0x10000
    ensures var bs := [(0xE0 + cp / 4096) as byte, Cont(cp / 64), Cont(cp)];
      SequenceLength(bs[0]) == 3 && IsCont(bs[1]) && IsCont(bs[2])
      && ((bs[0] as int - 0xE0) * 64 + (bs[1] as int - 0x80)) * 64 + (bs[2] as int - 0x80) == cp
  {
    assert (cp / 4096) * 64 + (cp / 64) % 64 == cp / 64;
  }

  lemma FourByteSequence(cp: int)
    requires 0x10000 <= cp < 0x11_0000
    ensures var bs := [(0xF0 + cp / 262144) as byte, Cont(cp / 4096), Cont(cp / 64), Cont(cp)];
      SequenceLength(bs[0]) == 4 && IsCont(bs[1]) && IsCont(bs[2]) && IsCont(bs[3])
      && (((bs[0] as int - 0xF0) * 64 + (bs[1] as int - 0x80)) * 64 + (bs[2] as int - 0x80)) * 64
         + (bs[3] as int - 0x80) == cp
  {
    assert (cp / 262144) * 64 + (cp / 4096) % 64 == cp / 4096;
    assert (cp / 4096) * 64 + (cp / 64) % 64 == cp / 64;
  }

  /** Decoding the UTF-8 encoding of a character gives the character back. */
  lemma CharRoundTrip(c: char)
    ensures SequenceLength(EncodeChar(c)[0]) == |EncodeChar(c)|
    ensures DecodeChar(EncodeChar(c)) == Some(c)
  {
    var cp := c as int;
    if cp < 0x80 {
    } else if cp < 0x800 {
      TwoByteSequence(cp);
    } else if cp < 0x10000 {
      ThreeByteSequence(cp);
    } else {
      FourByteSequence(cp);
    }
  }

  /** Encoding.UTF8.GetBytes: the encodings of the characters, in order. */
  function Encode(s: string): (bs: seq<byte>)
    ensures |bs| >= |s|
  {
    if s == [] then [] else EncodeChar(s[0]) + Encode(s[1..])
  }
}
