/**
 PNG chunks as `scripts/make-icon.ts` writes them, and a reader that checks them (section 3.2 of RFC 2083): a
 length, a type, the data, and the CRC-32 of the type and the data.
 */
module Png {
  import opened Wrappers
  import opened Crc

  /** `kind` is the chunk's four-letter type. */
  datatype Chunk = Chunk(kind: seq<Byte>, data: seq<Byte>)

  const LIMIT: nat := 0x1_0000_0000

  function BigEndian(n: nat): (r: seq<Byte>)
    requires n < LIMIT
    ensures |r| == 4
  {
    [n / 256 / 256 / 256, n / 256 / 256 % 256, n / 256 % 256, n % 256]
  }

  function Value(b: seq<Byte>): nat
    requires |b| == 4
  {
    (b[0] as int) * 0x100_0000 + (b[1] as int) * 0x1_0000 + (b[2] as int) * 256 + b[3]
  }

  lemma ValueOfBigEndian(n: nat)
    requires n < LIMIT
    ensures Value(BigEndian(n)) == n
  {
    var a := n / 256;
    var b := a / 256;
    var c := b / 256;
    assert n == a * 256 + n % 256 && a == b * 256 + a % 256 && b == c * 256 + b % 256;
  }

  function ByteOf(bits: seq<bool>): Byte
    requires |bits| == 8
  {
    assert Pow2(8) == 256;
    FromBits(bits)
  }

  /** A 32-bit word, its most significant byte first. */
  function WordBytes(w: Word): (r: seq<Byte>)
    ensures |r| == 4
  {
    [ByteOf(w[24..32]), ByteOf(w[16..24]), ByteOf(w[8..16]), ByteOf(w[0..8])]
  }

  lemma WordBytesInjective(v: Word, w: Word)
    requires WordBytes(v) == WordBytes(w)
    ensures v == w
  {
    assert WordBytes(v)[0] == WordBytes(w)[0] && WordBytes(v)[1] == WordBytes(w)[1];
    assert WordBytes(v)[2] == WordBytes(w)[2] && WordBytes(v)[3] == WordBytes(w)[3];
    BitsOfNumber(v[24..32]); BitsOfNumber(w[24..32]);
    BitsOfNumber(v[16..24]); BitsOfNumber(w[16..24]);
    BitsOfNumber(v[8..16]); BitsOfNumber(w[8..16]);
    BitsOfNumber(v[0..8]); BitsOfNumber(w[0..8]);
    assert v == v[0..8] + v[8..16] + v[16..24] + v[24..32];
    assert w == w[0..8] + w[8..16] + w[16..24] + w[24..32];
  }

  lemma Doubled(x: nat, p: nat, n: nat)
    ensures 2 * (x + p * n) == 2 * x + (2 * p) * n
  {
  }

  lemma {:induction false} NumberOfParts(a: seq<bool>, b: seq<bool>)
    ensures FromBits(a + b) == FromBits(a) + Pow2(|a|) * FromBits(b)
  {
    if a == [] {
      assert a + b == b;
    } else {
      assert (a + b)[1..] == a[1..] + b;
      NumberOfParts(a[1..], b);
      Doubled(FromBits(a[1..]), Pow2(|a| - 1), FromBits(b));
    }
  }

  lemma NumberOfBytes(low: seq<bool>, high: seq<bool>)
    requires |low| == 8
    ensures FromBits(low + high) == ByteOf(low) + 256 * FromBits(high)
  {
    EightBits();
    NumberOfParts(low, high);
  }

  /** Those bytes are the word's number, as a length's are the length. */
  lemma ValueOfWord(w: Word)
    ensures Value(WordBytes(w)) == FromBits(w)
  {
    var last := w[24..32];
    assert w == w[0..8] + (w[8..16] + (w[16..24] + last)) && last == last + [];
    NumberOfBytes(w[0..8], w[8..16] + (w[16..24] + last));
    NumberOfBytes(w[8..16], w[16..24] + last);
    NumberOfBytes(w[16..24], last);
    NumberOfBytes(last, []);
  }

  /** A chunk's bytes; `None` is the throw of writing a length that needs more than 32 bits. */
  function ChunkBytes(c: Chunk): Option<seq<Byte>> {
    if |c.data| >= LIMIT then None
    else Some(BigEndian(|c.data|) + c.kind + c.data + WordBytes(Defined(c.kind + c.data)))
  }

  method WriteChunk(table: seq<Word>, kind: seq<Byte>, data: seq<Byte>) returns (r: Option<seq<Byte>>)
    requires IsTable(table)
    ensures r == ChunkBytes(Chunk(kind, data))
  {
    if |data| >= LIMIT {
      return None;
    }
    var crc := Crc32(table, kind + data);
    r := Some(BigEndian(|data|) + kind + data + WordBytes(crc));
  }

  /** The chunk `bytes` starts with, if there is one and its check matches. */
  function FirstChunk(bytes: seq<Byte>): Option<Chunk> {
    if |bytes| < 12 then None
    else
      var n := Value(bytes[..4]);
      if |bytes| < n + 12 then None
      else
        var body := bytes[4..8 + n];
        if bytes[8 + n..12 + n] == WordBytes(Defined(body)) then Some(Chunk(body[..4], body[4..])) else None
  }

  function ReadChunks(bytes: seq<Byte>): Option<seq<Chunk>>
    decreases |bytes|
  {
    if bytes == [] then Some([])
    else
      var first := FirstChunk(bytes);
      if first.None? then None
      else
        var rest := ReadChunks(bytes[12 + |first.value.data|..]);
        if rest.None? then None else Some([first.value] + rest.value)
  }

  predicate Writable(c: Chunk) {
    |c.kind| == 4 && |c.data| < LIMIT
  }

  function Bytes(c: Chunk): (r: seq<Byte>)
    requires Writable(c)
    ensures |r| == 12 + |c.data|
  {
    ChunkBytes(c).value
  }

  /** The chunks one after the other. */
  function Stream(chunks: seq<Chunk>): seq<Byte>
    requires forall i :: 0 <= i < |chunks| ==> Writable(chunks[i])
  {
    if chunks == [] then [] else Bytes(chunks[0]) + Stream(chunks[1..])
  }

  /** A reader knows a chunk by its length, body and check. */
  lemma FirstChunkOf(length: seq<Byte>, body: seq<Byte>, check: seq<Byte>, rest: seq<Byte>)
    requires |length| == 4 && |check| == 4 && |body| == Value(length) + 4
    ensures FirstChunk(length + body + check + rest)
         == if check == WordBytes(Defined(body)) then Some(Chunk(body[..4], body[4..])) else None
  {
    var bytes := length + body + check + rest;
    assert bytes[..4] == length && bytes[4..4 + |body|] == body && bytes[4 + |body|..8 + |body|] == check;
  }

  lemma ChunkReads(c: Chunk, rest: seq<Byte>)
    requires Writable(c)
    ensures FirstChunk(Bytes(c) + rest) == Some(c)
    ensures (Bytes(c) + rest)[12 + |c.data|..] == rest
  {
    var length, body, check := BigEndian(|c.data|), c.kind + c.data, WordBytes(Defined(c.kind + c.data));
    ValueOfBigEndian(|c.data|);
    FirstChunkOf(length, body, check, rest);
    assert Bytes(c) + rest == length + body + check + rest;
    KindThenData(c);
  }

  lemma KindThenData(c: Chunk)
    requires |c.kind| == 4
    ensures Chunk((c.kind + c.data)[..4], (c.kind + c.data)[4..]) == c
  {
  }

  lemma FourParts(a: seq<Byte>, b: seq<Byte>, c: seq<Byte>, d: seq<Byte>)
    requires |a| == |b| == 4
    ensures var all := a + b + c + d;
      all[0..4] == a && all[4..8] == b && all[8..8 + |c|] == c && all[8 + |c|..] == d
  {
  }

  /** What stands where in a written chunk: two numbers, the greatest byte first, around the type and the data. */
  lemma ChunkLaidOut(c: Chunk)
    requires Writable(c)
    ensures var bytes, n := Bytes(c), |c.data|;
      && Value(bytes[0..4]) == n && bytes[4..8] == c.kind && bytes[8..8 + n] == c.data
      && |bytes| == 12 + n && Value(bytes[8 + n..]) == FromBits(Defined(c.kind + c.data))
  {
    var check := Defined(c.kind + c.data);
    ValueOfBigEndian(|c.data|);
    ValueOfWord(check);
    FourParts(BigEndian(|c.data|), c.kind, c.data, WordBytes(check));
  }

  lemma OneThenRest(c: Chunk, rest: seq<Byte>, chunks: seq<Chunk>)
    requires Writable(c) && ReadChunks(rest) == Some(chunks)
    ensures ReadChunks(Bytes(c) + rest) == Some([c] + chunks)
  {
    ChunkReads(c, rest);
  }

  /** Chunks written one after the other read back to their types and data, every check matching. */
  lemma {:induction false} ChunksRoundTrip(chunks: seq<Chunk>)
    requires forall i :: 0 <= i < |chunks| ==> Writable(chunks[i])
    ensures ReadChunks(Stream(chunks)) == Some(chunks)
  {
    if chunks != [] {
      ChunksRoundTrip(chunks[1..]);
      OneThenRest(chunks[0], Stream(chunks[1..]), chunks[1..]);
      assert [chunks[0]] + chunks[1..] == chunks;
    }
  }

  /** A chunk with one byte of its type or data changed is refused: its check no longer matches. */
  lemma ChangedByteIsRefused(c: Chunk, before: seq<Byte>, x: Byte, y: Byte, after: seq<Byte>, rest: seq<Byte>)
    requires Writable(c) && c.kind + c.data == before + [x] + after && x != y
    ensures FirstChunk(BigEndian(|c.data|) + (before + [y] + after) + WordBytes(Defined(c.kind + c.data)) + rest)
            == None
  {
    var good, bad := before + [x] + after, before + [y] + after;
    ValueOfBigEndian(|c.data|);
    FirstChunkOf(BigEndian(|c.data|), bad, WordBytes(Defined(good)), rest);
    DetectsOneByte(before, x, y, after);
    if WordBytes(Defined(good)) == WordBytes(Defined(bad)) {
      WordBytesInjective(Defined(good), Defined(bad));
    }
  }
}
