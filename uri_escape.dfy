/**
 * Uri.EscapeDataString as the client uses it on query values: every character outside
 * the unreserved set of section 2.3 of RFC 3986 is encoded in UTF-8 and each byte is
 * written as a percent sign followed by two upper-case hexadecimal digits (section 2.1
 * of RFC 3986). The unescaping direction is given too, to state that escaping loses
 * nothing.
 */
module UriEscape {
  import opened Wrappers
  import opened Utf8

  /** Unreserved characters: ALPHA / DIGIT / "-" / "." / "_" / "~". */
  predicate IsUnreserved(c: char) {
    ('A' <= c <= 'Z') || ('a' <= c <= 'z') || ('0' <= c <= '9')
    || c == '-' || c == '.' || c == '_' || c == '~'
  }

  const HexDigits: string := "0123456789ABCDEF"

  /** The upper-case hexadecimal digit of a value below 16. */
  function HexDigit(d: nat): (c: char)
    requires d < 16
    ensures IsUnreserved(c)
  {
    HexDigits[d]
  }

  /** The value of an upper-case hexadecimal digit, or None. */
  function HexValue(c: char): (d: Option<nat>)
    ensures d.Some? ==> d.value < 16
  {
    if '0' <= c <= '9' then Some(c as int - '0' as int)
    else if 'A' <= c <= 'F' then Some(c as int - 'A' as int + 10)
    else None
  }

  lemma HexValueOfDigit(d: nat)
    requires d < 16
    ensures HexValue(HexDigit(d)) == Some(d)
  {
  }

  /** "%HH": one byte, percent-encoded. */
  function PercentEncode(b: byte): (t: string)
    ensures |t| == 3 && t[0] == '%' && IsUnreserved(t[1]) && IsUnreserved(t[2])
  {
    ['%', HexDigit(b as int / 16), HexDigit(b as int % 16)]
  }

  /** The percent-encoding of a byte sequence, byte by byte. */
  function PercentEncodeAll(bs: seq<byte>): (t: string)
    ensures |t| == 3 * |bs|
  {
    if bs == [] then [] else PercentEncode(bs[0]) + PercentEncodeAll(bs[1..])
  }

  /** The byte at triple i of a percent-encoded text, if the triple is "%HH". */
  function ReadByte(t: string, i: nat): Option<byte> {
    if 3 * i + 3 <= |t| && t[3 * i] == '%' then
      var hi :- HexValue(t[3 * i + 1]);
      var lo :- HexValue(t[3 * i + 2]);
      Some((hi * 16 + lo) as byte)
    else
      None
  }

  /** Reading the first triple of a byte's encoding gives back the byte. */
  lemma ReadFirstByte(b: byte, rest: string)
    ensures ReadByte(PercentEncode(b) + rest, 0) == Some(b)
  {
    var t := PercentEncode(b) + rest;
    assert t[0] == '%' && t[1] == HexDigit(b as int / 16) && t[2] == HexDigit(b as int % 16);
    HexValueOfDigit(b as int / 16);
    HexValueOfDigit(b as int % 16);
  }

  /** Triple i + 1 of a text is triple i of the text after its first three characters. */
  lemma ReadByteShift(t: string, i: nat)
    requires |t| >= 3
    ensures ReadByte(t, i + 1) == ReadByte(t[3..], i)
  {
    var u := t[3..];
    assert 3 * (i + 1) + 3 <= |t| <==> 3 * i + 3 <= |u|;
    if 3 * i + 3 <= |u| {
      assert t[3 * (i + 1)] == u[3 * i];
      assert t[3 * (i + 1) + 1] == u[3 * i + 1];
      assert t[3 * (i + 1) + 2] == u[3 * i + 2];
    }
  }

  /** Reading triple i of an encoding gives back byte i, whatever follows the encoding. */
  lemma {:induction false} ReadEncodedByte(bs: seq<byte>, rest: string, i: nat)
    requires i < |bs|
    ensures ReadByte(PercentEncodeAll(bs) + rest, i) == Some(bs[i])
    decreases i
  {
    var tail := PercentEncodeAll(bs[1..]) + rest;
    var t := PercentEncodeAll(bs) + rest;
    assert t == PercentEncode(bs[0]) + tail;
    if i == 0 {
      ReadFirstByte(bs[0], tail);
    } else {
      assert t[3..] == tail;
      ReadByteShift(t, i - 1);
      ReadEncodedByte(bs[1..], rest, i - 1);
    }
  }

  /** EscapeDataString of one character. */
  function EscapeChar(c: char): (t: string)
    ensures |t| >= 1
  {
    if IsUnreserved(c) then [c] else PercentEncodeAll(EncodeChar(c))
  }

  /**
   * EscapeDataString: each character in turn, unreserved ones unchanged. The result holds
   * only unreserved characters and percent signs, so it never holds the '&', '=', '?' or
   * '#' that delimit a query.
   */
  function EscapeDataString(s: string): (t: string)
    ensures forall i | 0 <= i < |t| :: IsUnreserved(t[i]) || t[i] == '%'
    ensures |t| >= |s|
  {
    if s == [] then []
    else
      var head := EscapeChar(s[0]);
      assert forall i | 0 <= i < |head| :: IsUnreserved(head[i]) || head[i] == '%' by {
        if !IsUnreserved(s[0]) { PercentAlphabet(EncodeChar(s[0])); }
      }
      head + EscapeDataString(s[1..])
  }

  lemma {:induction false} PercentAlphabet(bs: seq<byte>)
    ensures forall i | 0 <= i < |PercentEncodeAll(bs)| ::
      IsUnreserved(PercentEncodeAll(bs)[i]) || PercentEncodeAll(bs)[i] == '%'
  {
    if bs != [] {
      PercentAlphabet(bs[1..]);
    }
  }

  /** A text of unreserved characters only (a method code, the action "0") is left as it is. */
  lemma {:induction false} EscapeUnreserved(s: string)
    requires forall i | 0 <= i < |s| :: IsUnreserved(s[i])
    ensures EscapeDataString(s) == s
  {
    if s != [] {
      EscapeUnreserved(s[1..]);
    }
  }

  /**
   * Reading one escaped character at the start of `t`: an unreserved character stands for
   * itself; "%HH" triples are read as the UTF-8 sequence their lead byte announces.
   * Returns the character and the number of characters of `t` it took.
   */
  function UnescapeChar(t: string): Option<(char, nat)>
    requires |t| > 0
  {
    if IsUnreserved(t[0]) then Some((t[0], 1))
    else
      var lead :- ReadByte(t, 0);
      var n := SequenceLength(lead);
      if n == 0 then None
      else
        var b1 :- if n > 1 then ReadByte(t, 1) else Some(0 as byte);
        var b2 :- if n > 2 then ReadByte(t, 2) else Some(0 as byte);
        var b3 :- if n > 3 then ReadByte(t, 3) else Some(0 as byte);
        var c :- DecodeChar([lead, b1, b2, b3][..n]);
        Some((c, 3 * n))
  }

  /** Uri.UnescapeDataString restricted to texts EscapeDataString can produce, or None. */
  function UnescapeDataString(t: string): Option<string>
    decreases |t|
  {
    if t == [] then Some([])
    else
      var (c, n) :- UnescapeChar(t);
      if n == 0 || n > |t| then None
      else
        var rest :- UnescapeDataString(t[n..]);
        Some([c] + rest)
  }

  /** Unescaping the escape of one character, whatever follows it, reads that character. */
  lemma UnescapeEscapedChar(c: char, rest: string)
    ensures UnescapeChar(EscapeChar(c) + rest) == Some((c, |EscapeChar(c)|))
  {
    if !IsUnreserved(c) {
      var bs := EncodeChar(c);
      var t := EscapeChar(c) + rest;
      assert t == PercentEncodeAll(bs) + rest;
      CharRoundTrip(c);
      ReadEncodedByte(bs, rest, 0);
      assert t[0] == '%';
      if |bs| > 1 { ReadEncodedByte(bs, rest, 1); }
      if |bs| > 2 { ReadEncodedByte(bs, rest, 2); }
      if |bs| > 3 { ReadEncodedByte(bs, rest, 3); }
      var b1 := if |bs| > 1 then bs[1] else 0 as byte;
      var b2 := if |bs| > 2 then bs[2] else 0 as byte;
      var b3 := if |bs| > 3 then bs[3] else 0 as byte;
      assert [bs[0], b1, b2, b3][..|bs|] == bs;
    }
  }

  /** Escaping loses nothing: unescaping the escaped text gives back the original. */
  lemma {:induction false} EscapeRoundTrip(s: string)
    ensures UnescapeDataString(EscapeDataString(s)) == Some(s)
  {
    if s != [] {
      var head := EscapeChar(s[0]);
      var tail := EscapeDataString(s[1..]);
      UnescapeEscapedChar(s[0], tail);
      EscapeRoundTrip(s[1..]);
      assert (head + tail)[|head|..] == tail;
      assert [s[0]] + s[1..] == s;
    }
  }

  /** Two texts with the same escape are the same text. */
  lemma EscapeInjective(s: string, u: string)
    ensures EscapeDataString(s) == EscapeDataString(u) ==> s == u
  {
    EscapeRoundTrip(s);
    EscapeRoundTrip(u);
  }
}
