/**
 * The `application/x-www-form-urlencoded` byte serializer of the WHATWG URL Standard
 * (section 5.2), as the `url` crate's `form_urlencoded::byte_serialize` implements it: the
 * space byte becomes `+`, ASCII alphanumerics and `*-._` pass through, every other byte becomes
 * `%XX` with upper-case hex digits. Text is serialized through its UTF-8 bytes.
 */
module FormEncoding {
  import opened Wrappers
  import Utf8

  type Byte = Utf8.Byte

  const UpperHex := "0123456789ABCDEF"

  predicate IsAsciiAlphanumeric(b: int) {
    ('0' as int <= b <= '9' as int) || ('A' as int <= b <= 'Z' as int) || ('a' as int <= b <= 'z' as int)
  }

  /** Bytes that the serializer leaves as they are. */
  predicate PassesThrough(b: int) {
    IsAsciiAlphanumeric(b) || b == '*' as int || b == '-' as int || b == '.' as int || b == '_' as int
  }

  predicate IsUpperHexDigit(c: char) {
    ('0' <= c <= '9') || ('A' <= c <= 'F')
  }

  function SerializeByte(b: Byte): (r: string)
    ensures |r| == 1 || |r| == 3
  {
    if b == 0x20 then "+"
    else if PassesThrough(b) then [b as char]
    else ['%', UpperHex[b / 16], UpperHex[b % 16]]
  }

  function ByteSerialize(bytes: seq<Byte>): string {
    if bytes == [] then "" else SerializeByte(bytes[0]) + ByteSerialize(bytes[1..])
  }

  /** The form-urlencoded text of a string. */
  function FormEncode(s: string): string {
    ByteSerialize(Utf8.Encode(s))
  }

  /** The characters a serialized value can hold. */
  predicate IsFormChar(c: char) {
    PassesThrough(c as int) || c == '+' || c == '%'
  }

  /** Serialized text: runs of pass-through characters and `+`, with `%` only ever followed by
      two upper-case hex digits. */
  predicate WellFormed(s: string) {
    (forall i :: 0 <= i < |s| ==> IsFormChar(s[i]))
    && (forall i :: 0 <= i < |s| && s[i] == '%' ==> i + 2 < |s| && IsUpperHexDigit(s[i + 1]) && IsUpperHexDigit(s[i + 2]))
  }

  /** Each digit of the table is an upper-case hex digit that reads back as its position. */
  lemma UpperHexDigit(v: nat)
    requires v < 16
    ensures IsUpperHexDigit(UpperHex[v]) && HexValue(UpperHex[v]) == v
  {
  }

  /** The two digits of `%XX` for byte `b`. */
  lemma EscapeDigits(b: Byte)
    ensures b / 16 < 16 && b % 16 < 16
    ensures b == (b / 16) * 16 + b % 16
  {
  }

  /** One serialized byte is well formed on its own. */
  lemma SerializeByteWellFormed(b: Byte)
    ensures WellFormed(SerializeByte(b))
  {
    if b != 0x20 && !PassesThrough(b) {
      EscapeDigits(b);
      UpperHexDigit(b / 16);
      UpperHexDigit(b % 16);
    }
  }

  /** Well-formed pieces join into well-formed text: a `%` keeps its digits inside its piece. */
  lemma WellFormedJoin(a: string, b: string)
    requires WellFormed(a) && WellFormed(b)
    ensures WellFormed(a + b)
  {
    forall i | 0 <= i < |a + b|
      ensures IsFormChar((a + b)[i])
    {
      if i >= |a| {
        assert (a + b)[i] == b[i - |a|];
      }
    }
    forall i | 0 <= i < |a + b| && (a + b)[i] == '%'
      ensures i + 2 < |a + b| && IsUpperHexDigit((a + b)[i + 1]) && IsUpperHexDigit((a + b)[i + 2])
    {
      if i >= |a| {
        assert (a + b)[i] == b[i - |a|];
        assert (a + b)[i + 1] == b[i + 1 - |a|];
        assert (a + b)[i + 2] == b[i + 2 - |a|];
      }
    }
  }

  lemma {:induction false} ByteSerializeWellFormed(bytes: seq<Byte>)
    ensures WellFormed(ByteSerialize(bytes))
  {
    if bytes != [] {
      ByteSerializeWellFormed(bytes[1..]);
      SerializeByteWellFormed(bytes[0]);
      WellFormedJoin(SerializeByte(bytes[0]), ByteSerialize(bytes[1..]));
    }
  }

  /** A serialized value never holds a brace, so it can never form part of a
      `{{input.<key>}}` placeholder. */
  lemma FormEncodeHasNoBraces(s: string)
    ensures WellFormed(FormEncode(s))
    ensures forall i :: 0 <= i < |FormEncode(s)| ==> FormEncode(s)[i] != '{' && FormEncode(s)[i] != '}'
  {
    ByteSerializeWellFormed(Utf8.Encode(s));
  }

  function HexValue(c: char): (v: nat)
    requires IsUpperHexDigit(c)
    ensures v < 16 && UpperHex[v] == c
  {
    if c <= '9' then c as int - '0' as int else c as int - 'A' as int + 10
  }

  /** The form-urlencoded parser's view of serialized text: `+` is a space, `%XX` a byte,
      and any other ASCII character its own byte. */
  function FormDecode(s: string): Option<seq<Byte>>
  {
    if s == [] then Some([])
    else if s[0] == '+' then PrependByte(0x20, FormDecode(s[1..]))
    else if s[0] == '%' then
      if |s| >= 3 && IsUpperHexDigit(s[1]) && IsUpperHexDigit(s[2]) then
        PrependByte(HexValue(s[1]) * 16 + HexValue(s[2]), FormDecode(s[3..]))
      else None
    else if s[0] as int < 0x80 then PrependByte(s[0] as int, FormDecode(s[1..]))
    else None
  }

  function PrependByte(b: Byte, rest: Option<seq<Byte>>): Option<seq<Byte>> {
    match rest
    case None => None
    case Some(bs) => Some([b] + bs)
  }

  lemma DecodeSerializedByte(b: Byte, rest: string)
    ensures FormDecode(SerializeByte(b) + rest) == PrependByte(b, FormDecode(rest))
  {
    var s := SerializeByte(b) + rest;
    if b == 0x20 {
      assert s[1..] == rest;
    } else if PassesThrough(b) {
      assert s[1..] == rest;
    } else {
      DecodeEscapedByte(b, rest);
    }
  }

  /** A byte written as `%XX` reads back as that byte. */
  lemma DecodeEscapedByte(b: Byte, rest: string)
    requires b != 0x20 && !PassesThrough(b)
    ensures FormDecode(SerializeByte(b) + rest) == PrependByte(b, FormDecode(rest))
  {
    var s := SerializeByte(b) + rest;
    EscapeDigits(b);
    UpperHexDigit(b / 16);
    UpperHexDigit(b % 16);
    assert s[3..] == rest;
  }

  /** Parsing serialized bytes gives the same bytes back. */
  lemma {:induction false} DecodeByteSerialize(bytes: seq<Byte>)
    ensures FormDecode(ByteSerialize(bytes)) == Some(bytes)
  {
    if bytes != [] {
      DecodeSerializedByte(bytes[0], ByteSerialize(bytes[1..]));
      DecodeByteSerialize(bytes[1..]);
      assert [bytes[0]] + bytes[1..] == bytes;
    }
  }

  /** Encoding loses nothing: the text comes back from the serialized form. */
  lemma FormEncodeRoundTrip(s: string)
    ensures FormDecode(FormEncode(s)).Some?
    ensures Utf8.Decode(FormDecode(FormEncode(s)).value) == Some(s)
  {
    DecodeByteSerialize(Utf8.Encode(s));
    Utf8.DecodeEncode(s);
  }
}
