/** Text as code points: its UTF-8 bytes, and what the decoder labelled `latin1` (windows-1252) makes of bytes. */
module Encodings {

  type Byte = b: int | 0 <= b < 256
  type CodePoint = c: int | 0 <= c < 0x11_0000
  type Text = seq<CodePoint>

  predicate Surrogate(c: CodePoint) {
    0xD800 <= c < 0xE000
  }

  /** A lone surrogate is written as the replacement character. */
  function Utf8Char(c: CodePoint): (bytes: seq<Byte>)
    ensures 1 <= |bytes| <= 4 && (|bytes| == 1 <==> c < 0x80)
  {
    if c < 0x80 then [c]
    else if c < 0x800 then [0xC0 + c / 0x40, 0x80 + c % 0x40]
    else if Surrogate(c) then [0xEF, 0xBF, 0xBD]
    else if c < 0x1_0000 then [0xE0 + c / 0x1000, 0x80 + c / 0x40 % 0x40, 0x80 + c % 0x40]
    else [0xF0 + c / 0x4_0000, 0x80 + c / 0x1000 % 0x40, 0x80 + c / 0x40 % 0x40, 0x80 + c % 0x40]
  }

  /** A lone surrogate is written as U+FFFD is. */
  lemma SurrogateIsReplaced(c: CodePoint)
    requires 0xD800 <= c <= 0xDFFF
    ensures Utf8Char(c) == Utf8Char(0xFFFD)
  {
  }

  function Utf8(text: Text): seq<Byte> {
    if text == [] then [] else Utf8Char(text[0]) + Utf8(text[1..])
  }

  /** The bytes of as many whole characters as fit, from the first on. */
  function Fitting(text: Text, room: nat): (bytes: seq<Byte>)
    ensures |bytes| <= room
  {
    if text == [] || |Utf8Char(text[0])| > room then []
    else Utf8Char(text[0]) + Fitting(text[1..], room - |Utf8Char(text[0])|)
  }

  /** Bytes 0x80 to 0x9F. */
  const HIGH: seq<CodePoint> := [
    0x20AC, 0x0081, 0x201A, 0x0192, 0x201E, 0x2026, 0x2020, 0x2021, 0x02C6, 0x2030, 0x0160, 0x2039, 0x0152, 0x008D,
    0x017D, 0x008F, 0x0090, 0x2018, 0x2019, 0x201C, 0x201D, 0x2022, 0x2013, 0x2014, 0x02DC, 0x2122, 0x0161, 0x203A,
    0x0153, 0x009D, 0x017E, 0x0178]

  function Latin1Char(b: Byte): CodePoint {
    if 0x80 <= b < 0xA0 then HIGH[b - 0x80] else b
  }

  /** One character a byte. */
  function Latin1(bytes: seq<Byte>): (text: Text)
    ensures |text| == |bytes|
  {
    if bytes == [] then [] else [Latin1Char(bytes[0])] + Latin1(bytes[1..])
  }

  predicate Ascii(text: Text) {
    forall i :: 0 <= i < |text| ==> text[i] < 0x80
  }

  lemma {:induction false} FitsWhole(text: Text, room: nat)
    requires |Utf8(text)| <= room
    ensures Fitting(text, room) == Utf8(text)
  {
    if text != [] { FitsWhole(text[1..], room - |Utf8Char(text[0])|); }
  }

  /** Text is no longer than its bytes, and as long exactly when it is ASCII; it then is its bytes. */
  lemma {:induction false} Utf8Lengthens(text: Text)
    ensures |text| <= |Utf8(text)| && (|text| == |Utf8(text)| <==> Ascii(text))
    ensures Ascii(text) ==> Utf8(text) == text
  {
    if text != [] {
      Utf8Lengthens(text[1..]);
      assert text == [text[0]] + text[1..];
      assert Ascii(text) <==> text[0] < 0x80 && Ascii(text[1..]);
    }
  }

  /** Only the character NUL has a byte 0. */
  lemma {:induction false} ZeroIsNul(text: Text)
    ensures 0 in Utf8(text) <==> 0 in text
  {
    if text != [] {
      ZeroIsNul(text[1..]);
      assert text == [text[0]] + text[1..];
    }
  }

  lemma OnlyNulIsNul(b: Byte)
    ensures Latin1Char(b) == 0 <==> b == 0
  {
  }

  lemma {:induction false} NoNulReadsNone(bytes: seq<Byte>)
    ensures 0 !in bytes ==> 0 !in Latin1(bytes)
  {
    if bytes != [] {
      NoNulReadsNone(bytes[1..]);
      OnlyNulIsNul(bytes[0]);
      assert bytes == [bytes[0]] + bytes[1..];
    }
  }

  /** The six bits of a byte that continues a character. */
  function Six(b: Byte): int {
    b - 0x80
  }

  predicate Continues(b: Byte) {
    0x80 <= b < 0xC0
  }

  /**
   A character's bytes are its bits, six to a byte behind the first, whose range tells how many there are; no shorter
   form would hold it.
   */
  lemma Utf8Spells(c: CodePoint)
    requires !Surrogate(c)
    ensures var b := Utf8Char(c);
      && (forall i :: 1 <= i < |b| ==> Continues(b[i]))
      && (|b| == 1 ==> c < 0x80 && b[0] == c)
      && (|b| == 2 ==> c >= 0x80 && 0xC0 <= b[0] < 0xE0 && (b[0] - 0xC0) * 0x40 + Six(b[1]) == c)
      && (|b| == 3 ==> c >= 0x800 && 0xE0 <= b[0] < 0xF0
                       && ((b[0] - 0xE0) * 0x40 + Six(b[1])) * 0x40 + Six(b[2]) == c)
      && (|b| == 4 ==> c >= 0x1_0000 && 0xF0 <= b[0] < 0xF8
                       && (((b[0] - 0xF0) * 0x40 + Six(b[1])) * 0x40 + Six(b[2])) * 0x40 + Six(b[3]) == c)
  {
    if 0x800 <= c < 0x1_0000 {
      assert c / 0x1000 == c / 0x40 / 0x40;
    }
    if c >= 0x1_0000 {
      assert c / 0x4_0000 == c / 0x40 / 0x40 / 0x40 && c / 0x1000 == c / 0x40 / 0x40;
    }
  }

  lemma {:induction false} AsciiReads(bytes: seq<Byte>)
    requires forall i :: 0 <= i < |bytes| ==> bytes[i] < 0x80
    ensures Latin1(bytes) == bytes
  {
    if bytes != [] {
      AsciiReads(bytes[1..]);
      assert bytes == [bytes[0]] + bytes[1..];
    }
  }
}
