/**
 * UTF-8 as RFC 3629 defines it: the encoding of Unicode scalar values as one to four bytes,
 * and the validating decoder that Rust's `String::from_utf8` applies (shortest form only, no
 * surrogates, nothing above U+10FFFF). Rust's `str::len` is the length of this encoding.
 */
module Utf8 {
  import opened Wrappers

  type Byte = x: int | 0 <= x < 256

  predicate IsScalar(cp: int) {
    0 <= cp < 0xD800 || 0xE000 <= cp < 0x11_0000
  }

  predicate IsContinuation(b: Byte) {
    0x80 <= b < 0xC0
  }

  /** The bytes of one character, by the table of section 3 of RFC 3629. */
  function EncodeChar(c: char): (r: seq<Byte>)
    ensures 1 <= |r| <= 4
    ensures (|r| == 1) == (c as int < 0x80)
  {
    var cp := c as int;
    if cp < 0x80 then [cp]
    else if cp < 0x800 then [0xC0 + cp / 64, 0x80 + cp % 64]
    else if cp < 0x1_0000 then [0xE0 + cp / 4096, 0x80 + (cp / 64) % 64, 0x80 + cp % 64]
    else [0xF0 + cp / 262144, 0x80 + (cp / 4096) % 64, 0x80 + (cp / 64) % 64, 0x80 + cp % 64]
  }

  function Encode(s: string): seq<Byte> {
    if s == [] then [] else EncodeChar(s[0]) + Encode(s[1..])
  }

  /** Byte length of a string: what Rust's `str::len` reports. */
  function ByteLen(s: string): nat {
    |Encode(s)|
  }

  /** The first character of `b` and the number of bytes it takes, if `b` starts with a
      well-formed sequence. */
  function DecodeFirst(b: seq<Byte>): Option<(char, nat)>
    requires |b| > 0
  {
    var b0: int := b[0];
    if b0 < 0x80 then Some((b0 as char, 1))
    else if 0xC2 <= b0 < 0xE0 then
      if |b| >= 2 && IsContinuation(b[1]) then Some((Join2(b0, b[1]) as char, 2))
      else None
    else if 0xE0 <= b0 < 0xF0 then
      if |b| >= 3 && IsContinuation(b[1]) && IsContinuation(b[2]) then
        var cp := Join3(b0, b[1], b[2]);
        if 0x800 <= cp && IsScalar(cp) then Some((cp as char, 3)) else None
      else None
    else if 0xF0 <= b0 < 0xF5 then
      if |b| >= 4 && IsContinuation(b[1]) && IsContinuation(b[2]) && IsContinuation(b[3]) then
        var cp := Join4(b0, b[1], b[2], b[3]);
        if 0x1_0000 <= cp < 0x11_0000 then Some((cp as char, 4)) else None
      else None
    else None
  }

  /** The code point carried by a two-, three- or four-byte sequence: the payload bits of
      the lead byte followed by six bits from each continuation byte. */
  function Join2(b0: int, b1: int): (cp: int)
    requires 0xC2 <= b0 < 0xE0 && 0x80 <= b1 < 0xC0
    ensures 0x80 <= cp < 0x800
  {
    (b0 - 0xC0) * 64 + (b1 - 0x80)
  }

  function Join3(b0: int, b1: int, b2: int): int {
    (b0 - 0xE0) * 4096 + (b1 - 0x80) * 64 + (b2 - 0x80)
  }

  function Join4(b0: int, b1: int, b2: int, b3: int): int {
    (b0 - 0xF0) * 262144 + (b1 - 0x80) * 4096 + (b2 - 0x80) * 64 + (b3 - 0x80)
  }

  /** `String::from_utf8`: the text, when every byte belongs to a well-formed sequence. */
  function Decode(b: seq<Byte>): Option<string>
    decreases |b|
  {
    if b == [] then Some([])
    else match DecodeFirst(b)
      case None => None
      case Some((c, n)) =>
        if 1 <= n <= |b| then
          match Decode(b[n..])
          case None => None
          case Some(rest) => Some([c] + rest)
        else None
  }

  lemma Split2(cp: int)
    requires 0x80 <= cp < 0x800
    ensures 0xC2 <= 0xC0 + cp / 64 < 0xE0 && Join2(0xC0 + cp / 64, 0x80 + cp % 64) == cp
  {
  }

  lemma Split3(cp: int)
    requires 0x800 <= cp < 0x1_0000
    ensures 0xE0 <= 0xE0 + cp / 4096 < 0xF0
    ensures Join3(0xE0 + cp / 4096, 0x80 + (cp / 64) % 64, 0x80 + cp % 64) == cp
  {
    assert cp == (cp / 4096) * 4096 + ((cp / 64) % 64) * 64 + cp % 64;
  }

  lemma Split4(cp: int)
    requires 0x1_0000 <= cp < 0x11_0000
    ensures 0xF0 <= 0xF0 + cp / 262144 < 0xF5
    ensures Join4(0xF0 + cp / 262144, 0x80 + (cp / 4096) % 64, 0x80 + (cp / 64) % 64, 0x80 + cp % 64) == cp
  {
    assert cp == (cp / 262144) * 262144 + ((cp / 4096) % 64) * 4096 + ((cp / 64) % 64) * 64 + cp % 64;
  }

  /** Division undoes a multiply-and-add of a remainder in range. */
  lemma DivMod(q: int, r: int, d: int)
    requires d == 64 || d == 4096 || d == 262144
    requires 0 <= r < d
    ensures (q * d + r) / d == q && (q * d + r) % d == r
  {
    if d == 64 {
      assert (q * 64 + r) / 64 == q;
    } else if d == 4096 {
      assert (q * 4096 + r) / 4096 == q;
    } else {
      assert (q * 262144 + r) / 262144 == q;
    }
  }

  lemma Unsplit3(b0: int, b1: int, b2: int)
    requires 0xE0 <= b0 < 0xF0 && 0x80 <= b1 < 0xC0 && 0x80 <= b2 < 0xC0
    ensures var cp := Join3(b0, b1, b2);
      cp / 4096 == b0 - 0xE0 && (cp / 64) % 64 == b1 - 0x80 && cp % 64 == b2 - 0x80
  {
    var x0, x1, x2 := b0 - 0xE0, b1 - 0x80, b2 - 0x80;
    var cp := Join3(b0, b1, b2);
    assert cp == (x0 * 64 + x1) * 64 + x2;
    DivMod(x0 * 64 + x1, x2, 64);
    DivMod(x0, x1, 64);
    assert cp == x0 * 4096 + (x1 * 64 + x2);
    DivMod(x0, x1 * 64 + x2, 4096);
  }

  lemma Unsplit4(b0: int, b1: int, b2: int, b3: int)
    requires 0xF0 <= b0 < 0xF5 && 0x80 <= b1 < 0xC0 && 0x80 <= b2 < 0xC0 && 0x80 <= b3 < 0xC0
    ensures var cp := Join4(b0, b1, b2, b3);
      cp / 262144 == b0 - 0xF0 && (cp / 4096) % 64 == b1 - 0x80 && (cp / 64) % 64 == b2 - 0x80 && cp % 64 == b3 - 0x80
  {
    var x0, x1, x2, x3 := b0 - 0xF0, b1 - 0x80, b2 - 0x80, b3 - 0x80;
    var cp := Join4(b0, b1, b2, b3);
    assert cp == (x0 * 4096 + x1 * 64 + x2) * 64 + x3;
    DivMod(x0 * 4096 + x1 * 64 + x2, x3, 64);
    assert x0 * 4096 + x1 * 64 + x2 == (x0 * 64 + x1) * 64 + x2;
    DivMod(x0 * 64 + x1, x2, 64);
    assert cp == (x0 * 64 + x1) * 4096 + (x2 * 64 + x3);
    DivMod(x0 * 64 + x1, x2 * 64 + x3, 4096);
    DivMod(x0, x1, 64);
    assert cp == x0 * 262144 + (x1 * 4096 + x2 * 64 + x3);
    DivMod(x0, x1 * 4096 + x2 * 64 + x3, 262144);
  }

  lemma DecodeFirstOfEncodeChar(c: char, rest: seq<Byte>)
    ensures DecodeFirst(EncodeChar(c) + rest) == Some((c, |EncodeChar(c)|))
  {
    var cp := c as int;
    if cp < 0x80 {
    } else if cp < 0x800 {
      Split2(cp);
    } else if cp < 0x1_0000 {
      Split3(cp);
    } else {
      Split4(cp);
    }
  }

  lemma EncodeCharOfDecodeFirst(b: seq<Byte>)
    requires |b| > 0 && DecodeFirst(b).Some?
    ensures var (c, n) := DecodeFirst(b).value; n <= |b| && EncodeChar(c) == b[..n]
  {
    var b0: int := b[0];
    if b0 < 0x80 {
    } else if b0 < 0xE0 {
      assert DecodeFirst(b).value.0 as int == Join2(b0, b[1]);
    } else if b0 < 0xF0 {
      Unsplit3(b0, b[1], b[2]);
    } else {
      Unsplit4(b0, b[1], b[2], b[3]);
    }
  }

  /** Decoding an encoding gives the text back. */
  lemma {:induction false} DecodeEncode(s: string)
    ensures Decode(Encode(s)) == Some(s)
  {
    if s != [] {
      var head, tail := EncodeChar(s[0]), Encode(s[1..]);
      var b := Encode(s);
      assert b == head + tail;
      DecodeFirstOfEncodeChar(s[0], tail);
      assert DecodeFirst(b) == Some((s[0], |head| as nat));
      assert b[|head|..] == tail;
      DecodeEncode(s[1..]);
      assert [s[0]] + s[1..] == s;
    }
  }

  /** Whatever decodes is the encoding of what it decodes to: valid UTF-8 and encodings of
      text are the same byte strings. */
  lemma {:induction false} EncodeDecode(b: seq<Byte>)
    requires Decode(b).Some?
    ensures Encode(Decode(b).value) == b
    decreases |b|
  {
    if b != [] {
      EncodeCharOfDecodeFirst(b);
      var (c, n) := DecodeFirst(b).value;
      EncodeDecode(b[n..]);
      assert b == b[..n] + b[n..];
    }
  }

  lemma {:induction false} EncodeAppend(s: string, t: string)
    ensures Encode(s + t) == Encode(s) + Encode(t)
  {
    if s != [] {
      assert (s + t)[0] == s[0] && (s + t)[1..] == s[1..] + t;
      EncodeAppend(s[1..], t);
      calc {
        Encode(s + t);
        EncodeChar(s[0]) + Encode(s[1..] + t);
        EncodeChar(s[0]) + (Encode(s[1..]) + Encode(t));
      }
    } else {
      assert s + t == t;
    }
  }

  /** Every character takes at least one byte. */
  lemma {:induction false} ByteLenAtLeastLength(s: string)
    ensures ByteLen(s) >= |s|
  {
    if s != [] {
      ByteLenAtLeastLength(s[1..]);
    }
  }

  predicate IsAscii(s: string) {
    forall i :: 0 <= i < |s| ==> s[i] < '\U{80}'
  }

  /** A string takes one byte per character exactly when it is ASCII. */
  lemma {:induction false} ByteLenAscii(s: string)
    ensures ByteLen(s) == |s| <==> IsAscii(s)
  {
    if s != [] {
      ByteLenAscii(s[1..]);
      ByteLenAtLeastLength(s[1..]);
      if IsAscii(s) {
        assert IsAscii(s[1..]) by {
          forall i | 0 <= i < |s[1..]| ensures s[1..][i] < '\U{80}' { assert s[1..][i] == s[i + 1]; }
        }
      }
      if ByteLen(s) == |s| {
        forall i | 0 <= i < |s| ensures s[i] < '\U{80}' {
          if i > 0 { assert s[i] == s[1..][i - 1]; }
        }
      }
    }
  }
}
