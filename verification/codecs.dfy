// Digest identifiers (crates/game-core/src/digest.rs, lines 7-38) and the percent-encoding of
// redirect paths (app/src/components/protected_layout.rs, lines 71-83).

module Hex {
  type Byte = b: int | 0 <= b < 0x100

  predicate IsLowerHex(c: char) { '0' <= c <= '9' || 'a' <= c <= 'f' }
  predicate IsHex(c: char) { IsLowerHex(c) || 'A' <= c <= 'F' }

  function LowerDigit(n: nat): (c: char)
    requires n < 16
    ensures IsLowerHex(c) && DigitValue(c) == n
  {
    if n < 10 then '0' + n as char else 'a' + (n - 10) as char
  }

  function UpperDigit(n: nat): (c: char)
    requires n < 16
    ensures IsHex(c) && DigitValue(c) == n
  {
    if n < 10 then '0' + n as char else 'A' + (n - 10) as char
  }

  function DigitValue(c: char): (n: nat)
    requires IsHex(c)
    ensures n < 16
  {
    if c <= '9' then (c - '0') as int
    else if c <= 'F' then 10 + (c - 'A') as int
    else 10 + (c - 'a') as int
  }
}

module Digests {
  import opened Hex

  const PREFIX := "sha256:"
  const DIGEST_BYTES := 32

  /** `Sha256Digest::new` accepts the prefix and 64 lowercase hexadecimal digits. */
  predicate IsDigest(value: string) {
    && PREFIX <= value
    && |value| == |PREFIX| + 2 * DIGEST_BYTES
    && forall i :: |PREFIX| <= i < |value| ==> IsLowerHex(value[i])
  }

  /** One of the two digits of a byte. */
  function HalfDigit(b: Byte, low: bool): (c: char)
    ensures IsLowerHex(c)
  {
    if low then LowerDigit(b % 16) else LowerDigit(b / 16)
  }

  function HexText(bytes: seq<Byte>): (r: string)
    ensures |r| == 2 * |bytes|
    ensures forall i :: 0 <= i < |bytes| ==> r[2 * i] == HalfDigit(bytes[i], false)
    ensures forall i :: 0 <= i < |bytes| ==> r[2 * i + 1] == HalfDigit(bytes[i], true)
  {
    if bytes == [] then "" else
      var last := |bytes| - 1;
      HexText(bytes[..last]) + [HalfDigit(bytes[last], false), HalfDigit(bytes[last], true)]
  }

  /** `Sha256Digest::from_bytes`: appends two digits a byte. */
  method FromBytes(bytes: seq<Byte>) returns (value: string)
    requires |bytes| == 32
    ensures value == DigestOf(bytes)
    ensures IsDigest(value)
  {
    hide HexText, IsDigest, HalfDigit;
    value := PREFIX;
    for i := 0 to |bytes|
      invariant value == PREFIX + HexText(bytes[..i])
    {
      HexAppend(bytes[..i], bytes[i]);
      assert bytes[..i + 1] == bytes[..i] + [bytes[i]];
      value := value + [HalfDigit(bytes[i], false), HalfDigit(bytes[i], true)];
    }
    assert bytes[..|bytes|] == bytes;
    DigestIsLegal(bytes);
  }

  lemma DigestIsLegal(bytes: seq<Byte>)
    requires |bytes| == DIGEST_BYTES
    ensures IsDigest(DigestOf(bytes))
  {
    HexTextIsHex(bytes);
    hide HexText;
  }

  lemma HexAppend(bytes: seq<Byte>, b: Byte)
    ensures HexText(bytes + [b]) == HexText(bytes) + [HalfDigit(b, false), HalfDigit(b, true)]
  {
  }

  lemma HexTextIsHex(bytes: seq<Byte>)
    ensures forall k :: 0 <= k < |HexText(bytes)| ==> IsLowerHex(HexText(bytes)[k])
  {
  }

  function ByteAt(text: string, i: nat): Byte
    requires 2 * i + 1 < |text| && IsLowerHex(text[2 * i]) && IsLowerHex(text[2 * i + 1])
  {
    16 * DigitValue(text[2 * i]) + DigitValue(text[2 * i + 1])
  }

  predicate IsHexText(text: string) {
    |text| % 2 == 0 && forall i :: 0 <= i < |text| ==> IsLowerHex(text[i])
  }

  /** The bytes that hexadecimal text spells. */
  function BytesOf(text: string): (r: seq<Byte>)
    requires IsHexText(text)
    ensures |r| == |text| / 2
    ensures forall i :: 0 <= i < |r| ==> r[i] == ByteAt(text, i)
  {
    seq(|text| / 2, i requires 0 <= i < |text| / 2 => ByteAt(text, i))
  }

  lemma ByteMakesTheHalves(high: char, low: char)
    requires IsLowerHex(high) && IsLowerHex(low)
    ensures HalfDigit(16 * DigitValue(high) + DigitValue(low), false) == high
    ensures HalfDigit(16 * DigitValue(high) + DigitValue(low), true) == low
  {
  }

  /** Different byte strings have different texts: the text spells the bytes. */
  lemma TextDeterminesBytes(a: seq<Byte>, b: seq<Byte>)
    requires HexText(a) == HexText(b)
    ensures a == b
  {
  }

  lemma PairSurvives(text: string, i: nat)
    requires IsHexText(text) && 2 * i + 1 < |text|
    ensures HexText(BytesOf(text))[2 * i] == text[2 * i]
    ensures HexText(BytesOf(text))[2 * i + 1] == text[2 * i + 1]
  {
    hide HexText, HalfDigit, DigitValue;
    ByteMakesTheHalves(text[2 * i], text[2 * i + 1]);
    assert BytesOf(text)[i] == ByteAt(text, i);
  }

  lemma TextSurvives(text: string)
    requires IsHexText(text)
    ensures HexText(BytesOf(text)) == text
  {
    hide HexText, BytesOf;
    forall k | 0 <= k < |text|
      ensures HexText(BytesOf(text))[k] == text[k]
    {
      PairSurvives(text, k / 2);
      assert k == 2 * (k / 2) || k == 2 * (k / 2) + 1;
    }
  }

  function DigestOf(bytes: seq<Byte>): string { PREFIX + HexText(bytes) }

  const LOWER := "0123456789abcdef"

  lemma HalvesAre(b: Byte)
    ensures HalfDigit(b, false) == LOWER[b / 16] && HalfDigit(b, true) == LOWER[b % 16]
  {
    LowerDigitIs(b / 16);
    LowerDigitIs(b % 16);
  }

  lemma LowerDigitIs(n: nat)
    requires n < 16
    ensures LowerDigit(n) == LOWER[n]
  {
  }

  /** A digest is the word `sha256:` and, byte by byte, the high and the low digit in lower case. */
  lemma DigestSpells(bytes: seq<Byte>, i: nat)
    requires i < |bytes|
    ensures var value := DigestOf(bytes);
      && |value| == 7 + 2 * |bytes| && value[..7] == "sha256:"
      && value[7 + 2 * i] == LOWER[bytes[i] / 16]
      && value[8 + 2 * i] == LOWER[bytes[i] % 16]
  {
    HalvesAre(bytes[i]);
    hide HalfDigit;
  }

  /** Formatting is a bijection from 32-byte arrays onto the accepted texts: different arrays never
      share a digest, and every accepted text is the digest of an array. */
  lemma FormattingIsBijective(value: string)
    ensures IsDigest(value) <==> exists bytes: seq<Byte> :: |bytes| == 32 && DigestOf(bytes) == value
    ensures forall a: seq<Byte>, b: seq<Byte> :: DigestOf(a) == value && DigestOf(b) == value ==> a == b
  {
    if IsDigest(value) {
      var text := value[|PREFIX|..];
      assert value == PREFIX + text;
      assert forall i :: 0 <= i < |text| ==> text[i] == value[|PREFIX| + i];
      TextSurvives(text);
      hide HexText;
      assert |BytesOf(text)| == DIGEST_BYTES && DigestOf(BytesOf(text)) == value;
    }
    forall bytes: seq<Byte> | |bytes| == DIGEST_BYTES && DigestOf(bytes) == value
      ensures IsDigest(value)
    {
      DigestIsLegal(bytes);
    }
    forall a: seq<Byte>, b: seq<Byte> | DigestOf(a) == value && DigestOf(b) == value
      ensures a == b
    {
      assert HexText(a) == value[|PREFIX|..] == HexText(b);
      TextDeterminesBytes(a, b);
    }
  }
}

module Paths {
  import opened Hex

  /** Bytes that stand for themselves: the unreserved set of section 2.3 of RFC 3986, and `/`. */
  predicate IsPlain(b: Byte) {
    || '0' as int <= b <= '9' as int || 'a' as int <= b <= 'z' as int || 'A' as int <= b <= 'Z' as int
    || b == '-' as int || b == '_' as int || b == '.' as int || b == '~' as int || b == '/' as int
  }

  function EncodeByte(b: Byte): string {
    if IsPlain(b) then [b as char] else ['%', UpperDigit(b / 16), UpperDigit(b % 16)]
  }

  /** `encode_path`, on the bytes of the path. */
  function EncodePath(path: seq<Byte>): string {
    if path == [] then "" else EncodeByte(path[0]) + EncodePath(path[1..])
  }

  datatype Decoded = Bytes(bytes: seq<Byte>) | Malformed

  /** Percent-decoding as section 2.1 of RFC 3986 defines it, accepting either digit case. */
  function PercentDecode(text: string): Decoded {
    if text == "" then Bytes([])
    else if text[0] == '%' then
      if |text| < 3 || !IsHex(text[1]) || !IsHex(text[2]) then Malformed
      else
        match PercentDecode(text[3..])
        case Malformed => Malformed
        case Bytes(rest) => Bytes([16 * DigitValue(text[1]) + DigitValue(text[2])] + rest)
    else if text[0] as int >= 0x80 then Malformed
    else
      match PercentDecode(text[1..])
      case Malformed => Malformed
      case Bytes(rest) => Bytes([text[0] as int] + rest)
  }

  lemma DecodeEncodedByte(b: Byte, rest: string)
    requires PercentDecode(rest).Bytes?
    ensures PercentDecode(EncodeByte(b) + rest) == Bytes([b] + PercentDecode(rest).bytes)
  {
  }

  /** Percent-decoding undoes the encoding, on every byte string. */
  lemma {:induction false} DecodingUndoesEncoding(path: seq<Byte>)
    ensures PercentDecode(EncodePath(path)) == Bytes(path)
  {
    if path != [] {
      DecodingUndoesEncoding(path[1..]);
      DecodeEncodedByte(path[0], EncodePath(path[1..]));
      assert path == [path[0]] + path[1..];
    }
  }

  /** So no two paths share an encoding. */
  lemma EncodingIsInjective(a: seq<Byte>, b: seq<Byte>)
    requires EncodePath(a) == EncodePath(b)
    ensures a == b
  {
    DecodingUndoesEncoding(a);
    DecodingUndoesEncoding(b);
  }

  /** The encoding is safe inside a query value: it never holds a delimiter of one. */
  lemma {:induction false} EncodingIsQuerySafe(path: seq<Byte>)
    ensures forall i :: 0 <= i < |EncodePath(path)| ==>
      EncodePath(path)[i] == '%' || (EncodePath(path)[i] as int < 0x80 && IsPlain(EncodePath(path)[i] as int))
  {
    if path != [] {
      EncodingIsQuerySafe(path[1..]);
      var head := EncodeByte(path[0]);
      assert forall i :: 0 <= i < |head| ==> head[i] == '%' || (head[i] as int < 0x80 && IsPlain(head[i] as int));
    }
  }

  lemma {:induction false} EncodingJoins(a: seq<Byte>, b: seq<Byte>)
    ensures EncodePath(a + b) == EncodePath(a) + EncodePath(b)
  {
    if a == [] {
      assert a + b == b;
    } else {
      assert (a + b)[0] == a[0] && (a + b)[1..] == a[1..] + b;
      EncodingJoins(a[1..], b);
    }
  }

  const UPPER := "0123456789ABCDEF"
  const MARKS := "-_.~/"

  /** A byte stands for itself exactly when it is an ASCII letter or digit or one of five marks;
      otherwise it becomes a percent sign and two upper-case digits. */
  lemma EncodedByteIs(b: Byte)
    ensures EncodePath([b]) ==
      if || '0' as int <= b <= '9' as int || 'A' as int <= b <= 'Z' as int || 'a' as int <= b <= 'z' as int
         || (b < 0x80 && b as char in MARKS)
      then [b as char]
      else ['%', UPPER[b / 16], UPPER[b % 16]]
  {
    assert [b][1..] == [];
    assert EncodePath([b]) == EncodeByte(b) + "";
    assert forall c :: c in MARKS <==> c == '-' || c == '_' || c == '.' || c == '~' || c == '/' by {
      assert MARKS[0] == '-' && MARKS[1] == '_' && MARKS[2] == '.' && MARKS[3] == '~' && MARKS[4] == '/';
    }
    UpperDigitIs(b / 16);
    UpperDigitIs(b % 16);
  }

  lemma UpperDigitIs(n: nat)
    requires n < 16
    ensures UpperDigit(n) == UPPER[n]
  {
  }
}
