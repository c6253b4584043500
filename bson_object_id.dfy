/**
 * The BSON ObjectId (element type 0x07 of the BSON specification) as the
 * MongoDB driver exposes it to the cast: twelve bytes, built from a string
 * of 24 hexadecimal characters (either case), and converted back to a string
 * as 24 lowercase hexadecimal characters, two per byte, high nibble first.
 * The driver's generation of fresh ids (timestamp, counter) is not modelled.
 */
module BsonObjectId {
  import opened Wrappers

  newtype byte = x: int | 0 <= x < 256

  /** Number of bytes in an ObjectId. */
  const ObjectIdLength := 12

  /** Number of characters in the string form of an ObjectId. */
  const HexLength := 24

  type ObjectIdBytes = s: seq<byte> | |s| == ObjectIdLength
    witness [0, 0, 0, 0, 0, 0, 0, 0, 0, 0, 0, 0]

  datatype ObjectId = ObjectId(bytes: ObjectIdBytes)

  predicate IsHexChar(c: char) {
    '0' <= c <= '9' || 'a' <= c <= 'f' || 'A' <= c <= 'F'
  }

  predicate IsLowerHexChar(c: char) {
    '0' <= c <= '9' || 'a' <= c <= 'f'
  }

  predicate IsHexString(s: string) {
    forall i :: 0 <= i < |s| ==> IsHexChar(s[i])
  }

  predicate IsLowerHexString(s: string) {
    forall i :: 0 <= i < |s| ==> IsLowerHexChar(s[i])
  }

  /** The canonical string form of an ObjectId: 24 lowercase hexadecimal characters. */
  predicate IsCanonical(s: string) {
    |s| == HexLength && IsLowerHexString(s)
  }

  /** Maps an upper-case hexadecimal letter to its lower-case form; other characters are kept. */
  function LowerHexChar(c: char): char {
    if 'A' <= c <= 'F' then (c as int - 'A' as int + 'a' as int) as char else c
  }

  /** Lower-cases the hexadecimal letters of a string; every other character is kept. */
  function LowerHex(s: string): string {
    seq(|s|, i requires 0 <= i < |s| => LowerHexChar(s[i]))
  }

  /** The lowercase hexadecimal digit for a nibble. */
  function HexDigit(n: nat): (c: char)
    requires n < 16
    ensures IsLowerHexChar(c)
  {
    if n < 10 then ('0' as int + n) as char else ('a' as int + n - 10) as char
  }

  /** The nibble a hexadecimal digit of either case stands for. */
  function HexValue(c: char): (n: nat)
    requires IsHexChar(c)
    ensures n < 16
    ensures HexDigit(n) == LowerHexChar(c)
  {
    if c <= '9' then c as int - '0' as int
    else if c <= 'F' then c as int - 'A' as int + 10
    else c as int - 'a' as int + 10
  }

  /** Each byte as two lowercase hexadecimal digits, high nibble first. */
  function RenderBytes(bs: seq<byte>): (s: string)
    ensures |s| == 2 * |bs|
    ensures IsLowerHexString(s)
  {
    if bs == [] then []
    else [HexDigit(bs[0] as int / 16), HexDigit(bs[0] as int % 16)] + RenderBytes(bs[1..])
  }

  /** Decodes pairs of hexadecimal digits into bytes; fails on any non-hexadecimal character. */
  function ParseHex(s: string): (r: Option<seq<byte>>)
    requires |s| % 2 == 0
    ensures r.Some? <==> IsHexString(s)
    ensures r.Some? ==> 2 * |r.value| == |s|
    decreases |s|
  {
    if s == [] then Some([])
    else if !IsHexChar(s[0]) || !IsHexChar(s[1]) then None
    else
      match ParseHex(s[2..])
      case None =>
        assert !IsHexString(s) by {
          var i :| 0 <= i < |s[2..]| && !IsHexChar(s[2..][i]);
          assert s[i + 2] == s[2..][i];
        }
        None
      case Some(rest) =>
        Some([(HexValue(s[0]) * 16 + HexValue(s[1])) as byte] + rest)
  }

  /**
   * The driver's ObjectId constructor on a string: accepts exactly the strings
   * of 24 hexadecimal characters (either case), and rejects every other string.
   */
  function Parse(s: string): (r: Option<ObjectId>)
    ensures r.Some? <==> |s| == HexLength && IsHexString(s)
  {
    if |s| != HexLength then None
    else
      match ParseHex(s)
      case None => None
      case Some(bs) => Some(ObjectId(bs))
  }

  /** The driver's string conversion of an ObjectId; always the canonical form. */
  function Render(id: ObjectId): (s: string)
    ensures IsCanonical(s)
  {
    RenderBytes(id.bytes)
  }

  /** Decoding the two digits written for a byte gives that byte back. */
  lemma HexDigitsOfByte(b: byte)
    ensures HexValue(HexDigit(b as int / 16)) * 16 + HexValue(HexDigit(b as int % 16)) == b as int
  {
  }

  /** Parsing the rendered bytes gives the bytes back. */
  lemma {:induction false} ParseHexOfRenderBytes(bs: seq<byte>)
    ensures ParseHex(RenderBytes(bs)) == Some(bs)
  {
    if bs != [] {
      var s := RenderBytes(bs);
      ParseHexOfRenderBytes(bs[1..]);
      HexDigitsOfByte(bs[0]);
      assert s[2..] == RenderBytes(bs[1..]);
      assert bs == [bs[0]] + bs[1..];
    }
  }

  /** Rendering what was parsed gives the input back, lower-cased. */
  lemma {:induction false} RenderBytesOfParseHex(s: string)
    requires |s| % 2 == 0 && ParseHex(s).Some?
    ensures RenderBytes(ParseHex(s).value) == LowerHex(s)
    decreases |s|
  {
    if s != [] {
      var bs := ParseHex(s).value;
      RenderBytesOfParseHex(s[2..]);
      var hi, lo := HexValue(s[0]), HexValue(s[1]);
      assert bs[0] as int == hi * 16 + lo;
      assert bs[1..] == ParseHex(s[2..]).value;
      assert (hi * 16 + lo) / 16 == hi && (hi * 16 + lo) % 16 == lo;
      assert LowerHex(s) == [LowerHexChar(s[0]), LowerHexChar(s[1])] + LowerHex(s[2..]);
    }
  }

  /** Parsing the string form of an ObjectId gives the same ObjectId. */
  lemma ParseOfRender(id: ObjectId)
    ensures Parse(Render(id)) == Some(id)
  {
    ParseHexOfRenderBytes(id.bytes);
  }

  /** The string form of a parsed ObjectId is the input string, lower-cased. */
  lemma RenderOfParse(s: string)
    requires Parse(s).Some?
    ensures Render(Parse(s).value) == LowerHex(s)
  {
    RenderBytesOfParseHex(s);
  }

  /** Canonical strings are exactly the string forms of ObjectIds, and parse back to them. */
  lemma CanonicalRoundTrip(s: string)
    requires IsCanonical(s)
    ensures Parse(s).Some? && Render(Parse(s).value) == s
  {
    RenderOfParse(s);
    assert LowerHex(s) == s;
  }

  /** An ObjectId has exactly one canonical string denoting it: its string form. */
  lemma CanonicalFormUnique(s: string, id: ObjectId)
    requires IsCanonical(s) && Parse(s) == Some(id)
    ensures s == Render(id)
  {
    CanonicalRoundTrip(s);
  }

  /** Two ObjectIds with the same string form are the same ObjectId. */
  lemma RenderInjective(a: ObjectId, b: ObjectId)
    requires Render(a) == Render(b)
    ensures a == b
  {
    ParseOfRender(a);
    ParseOfRender(b);
  }
}
