/**
 * The request checksum (MD5Helper.cs): ComputeHash renders the MD5 digest of a text's
 * UTF-8 bytes as lower-case hexadecimal, and GenerateCheckSum hashes the password's hash
 * followed by the client code. The MD5 digest itself (RFC 1321) is a parameter `md5`:
 * the rendering and the composition are modelled, the digest is not.
 */
module MD5Helper {
  import opened Wrappers
  import opened Errors
  import opened Utf8

  /** The digest size of MD5 in bytes (section 3.5 of RFC 1321: a 128-bit output). */
  const DigestSize: nat := 16

  /** A digest function that, like MD5, always yields 16 bytes. */
  ghost predicate IsDigest(md5: seq<byte> -> seq<byte>) {
    forall bs :: |md5(bs)| == DigestSize
  }

  const LowerHexDigits: string := "0123456789abcdef"

  predicate IsLowerHex(c: char) {
    ('0' <= c <= '9') || ('a' <= c <= 'f')
  }

  /** `b.ToString("x2")`: two lower-case hexadecimal digits, high nibble first. */
  function ByteHex(b: byte): (t: string)
    ensures |t| == 2 && IsLowerHex(t[0]) && IsLowerHex(t[1])
  {
    [LowerHexDigits[b as int / 16], LowerHexDigits[b as int % 16]]
  }

  /** The hexadecimal rendering of a byte sequence, byte by byte in order. */
  function Hex(bs: seq<byte>): (t: string)
    ensures |t| == 2 * |bs|
  {
    if bs == [] then [] else Hex(bs[..|bs| - 1]) + ByteHex(bs[|bs| - 1])
  }

  /** A rendering holds lower-case hexadecimal digits only. */
  lemma {:induction false} HexAlphabet(bs: seq<byte>)
    ensures forall i | 0 <= i < |Hex(bs)| :: IsLowerHex(Hex(bs)[i])
    decreases |bs|
  {
    if bs != [] {
      HexAlphabet(bs[..|bs| - 1]);
    }
  }

  /** The value of a lower-case hexadecimal digit. */
  function NibbleOf(c: char): (n: nat)
    requires IsLowerHex(c)
    ensures n < 16
  {
    if c <= '9' then c as int - '0' as int else c as int - 'a' as int + 10
  }

  /** The byte two hexadecimal digits spell, high digit first. */
  function PairByte(hi: char, lo: char): Option<byte> {
    if IsLowerHex(hi) && IsLowerHex(lo) then Some((NibbleOf(hi) * 16 + NibbleOf(lo)) as byte) else None
  }

  /** Reading a rendering back: each pair of digits is one byte. */
  function Unhex(t: string): Option<seq<byte>>
    decreases |t|
  {
    if t == [] then Some([])
    else if |t| < 2 then None
    else match PairByte(t[|t| - 2], t[|t| - 1])
      case None => None
      case Some(b) =>
        match Unhex(t[..|t| - 2])
        case None => None
        case Some(front) => Some(front + [b])
  }

  /** The two digits of a byte read back as that byte. */
  lemma ByteHexValue(b: byte)
    ensures PairByte(ByteHex(b)[0], ByteHex(b)[1]) == Some(b)
  {
    var hi, lo := b as int / 16, b as int % 16;
    assert NibbleOf(LowerHexDigits[hi]) == hi;
    assert NibbleOf(LowerHexDigits[lo]) == lo;
  }

  /** Reading a rendering followed by one more byte reads that byte last. */
  lemma UnhexSnoc(t: string, b: byte)
    ensures Unhex(t + ByteHex(b)) == if Unhex(t).Some? then Some(Unhex(t).value + [b]) else None
  {
    var h := ByteHex(b);
    var u := t + h;
    assert u[|u| - 2] == h[0] && u[|u| - 1] == h[1];
    assert u[..|u| - 2] == t;
    ByteHexValue(b);
  }

  /** The rendering loses nothing: reading it back gives the digest bytes. */
  lemma {:induction false} HexRoundTrip(bs: seq<byte>)
    ensures Unhex(Hex(bs)) == Some(bs)
    decreases |bs|
  {
    if bs != [] {
      var front := bs[..|bs| - 1];
      var last := bs[|bs| - 1];
      HexRoundTrip(front);
      UnhexSnoc(Hex(front), last);
      assert front + [last] == bs;
    }
  }

  /** What ComputeHash returns for a non-empty input. */
  function HashOf(md5: seq<byte> -> seq<byte>, input: string): (h: string)
    ensures |h| == 2 * |md5(Encode(input))|
  {
    Hex(md5(Encode(input)))
  }

  /**
   * ComputeHash: an ArgumentException on an empty input; otherwise the digest of the
   * input's UTF-8 bytes, each byte appended as two lower-case hex digits.
   */
  method ComputeHash(md5: seq<byte> -> seq<byte>, input: string) returns (r: Result<string, ArgumentError>)
    ensures input == [] <==> r.Err?
    ensures r.Err? ==> r.error == ArgumentError("input", "Input cannot be null or empty")
    ensures r.Ok? ==> r.value == HashOf(md5, input)
  {
    if |input| == 0 {
      return Err(ArgumentError("input", "Input cannot be null or empty"));
    }
    var inputBytes := Encode(input);
    var hashBytes := md5(inputBytes);
    var sb := "";
    var i := 0;
    while i < |hashBytes|
      invariant 0 <= i <= |hashBytes|
      invariant sb == Hex(hashBytes[..i])
    {
      assert hashBytes[..i + 1][..i] == hashBytes[..i];
      sb := sb + ByteHex(hashBytes[i]);
      i := i + 1;
    }
    assert hashBytes[..i] == hashBytes;
    return Ok(sb);
  }

  /** The hash of any input under an MD5-sized digest is 32 lower-case hex digits. */
  lemma HashShape(md5: seq<byte> -> seq<byte>, input: string)
    requires IsDigest(md5)
    ensures |HashOf(md5, input)| == 32
    ensures forall i | 0 <= i < 32 :: IsLowerHex(HashOf(md5, input)[i])
  {
    HexAlphabet(md5(Encode(input)));
  }

  /**
   * What GenerateCheckSum returns: the password is checked before the client code, and
   * otherwise the result is the hash of the password's hash followed by the client code.
   */
  function CheckSum(md5: seq<byte> -> seq<byte>, password: string, clientCode: string): Result<string, ArgumentError> {
    if password == [] then Err(ArgumentError("password", "Password cannot be null or empty"))
    else if clientCode == [] then Err(ArgumentError("clientCode", "ClientCode cannot be null or empty"))
    else Ok(HashOf(md5, HashOf(md5, password) + clientCode))
  }

  /**
   * GenerateCheckSum: the guards, then ComputeHash(ComputeHash(password) + clientCode). The
   * second ComputeHash never meets its empty-input guard, since the client code is not empty.
   */
  method GenerateCheckSum(md5: seq<byte> -> seq<byte>, password: string, clientCode: string)
    returns (r: Result<string, ArgumentError>)
    ensures r == CheckSum(md5, password, clientCode)
    ensures r.Err? <==> password == [] || clientCode == []
  {
    if |password| == 0 {
      return Err(ArgumentError("password", "Password cannot be null or empty"));
    }
    if |clientCode| == 0 {
      return Err(ArgumentError("clientCode", "ClientCode cannot be null or empty"));
    }
    var passwordHash := ComputeHash(md5, password);
    var combined := passwordHash.value + clientCode;
    var checksum := ComputeHash(md5, combined);
    assert checksum.Ok?;
    return checksum;
  }

  /** Under an MD5-sized digest a checksum is always 32 lower-case hex digits. */
  lemma CheckSumShape(md5: seq<byte> -> seq<byte>, password: string, clientCode: string)
    requires IsDigest(md5)
    requires CheckSum(md5, password, clientCode).Ok?
    ensures |CheckSum(md5, password, clientCode).value| == 32
  {
    HashShape(md5, HashOf(md5, password) + clientCode);
  }
}
