/**
 The ustar writer of `scripts/vendor-kerberos.ts` and the reader of `scripts/lib/tar.ts`. The one writes a name as
 UTF-8, the other reads it one character a byte.
 */
module Tar {
  import opened Wrappers
  import opened Loops
  import opened Encodings

  const BLOCK: nat := 512

  /** A regular file: its name is text, */
  datatype File = File(name: Text, bytes: seq<Byte>)
  /** and bytes in the archive. */
  datatype Entry = Entry(name: seq<Byte>, bytes: seq<Byte>)

  datatype TarError = Base256Size | MalformedSize(offset: int)

  function Zeros(n: nat): (r: seq<Byte>)
    ensures |r| == n && forall i :: 0 <= i < n ==> r[i] == 0
  {
    seq(n, _ => 0)
  }

  // Writing

  /** `n` in base 8, most significant digit first. */
  function OctalDigits(n: nat): (r: seq<Byte>)
    ensures |r| >= 1
  {
    if n < 8 then [48 + n] else OctalDigits(n / 8) + [48 + n % 8]
  }

  function PadStart(digits: seq<Byte>, width: nat): seq<Byte>
    decreases width - |digits|
  {
    if |digits| >= width then digits else PadStart([48] + digits, width)
  }

  /** `s` with `text` written over it from `at` on, as much of it as fits. */
  function Overwrite(s: seq<Byte>, at: nat, text: seq<Byte>): (r: seq<Byte>)
    requires at <= |s|
    ensures |r| == |s|
  {
    if at + |text| <= |s| then s[..at] + text + s[at + |text|..] else s[..at] + text[..|s| - at]
  }

  const MODE: seq<Byte> := [48, 48, 48, 48, 54, 52, 52, 0]               // 0000644
  const NOBODY: seq<Byte> := [48, 48, 48, 48, 48, 48, 48, 0]             // uid and gid 0000000
  const EPOCH: seq<Byte> := [48, 48, 48, 48, 48, 48, 48, 48, 48, 48, 48, 0]
  const SPACES: seq<Byte> := [32, 32, 32, 32, 32, 32, 32, 32]
  const REGULAR: seq<Byte> := [48]
  const MAGIC: seq<Byte> := [117, 115, 116, 97, 114, 0, 48, 48]          // ustar, NUL, 00

  function SizeField(size: nat): seq<Byte> {
    PadStart(OctalDigits(size), 11) + [0]
  }

  /** The fields up to the owner's group. */
  function OwnedHeader(name: seq<Byte>): (h: seq<Byte>)
    ensures |h| == BLOCK
  {
    Overwrite(Overwrite(Overwrite(Overwrite(Zeros(BLOCK), 0, name), 100, MODE), 108, NOBODY), 116, NOBODY)
  }

  /** And the rest of them, the checksum field left blank. */
  function Finish(h: seq<Byte>, size: nat): (r: seq<Byte>)
    requires |h| == BLOCK
    ensures |r| == BLOCK
  {
    var timed := Overwrite(Overwrite(h, 124, SizeField(size)), 136, EPOCH);
    Overwrite(Overwrite(Overwrite(timed, 148, SPACES), 156, REGULAR), 257, MAGIC)
  }

  function BlankHeader(name: seq<Byte>, size: nat): (h: seq<Byte>)
    ensures |h| == BLOCK
  {
    Finish(OwnedHeader(name), size)
  }

  function SumBytes(s: seq<Byte>): nat {
    if s == [] then 0 else SumBytes(s[..|s| - 1]) + s[|s| - 1]
  }

  function ChecksumField(sum: nat): seq<Byte> {
    PadStart(OctalDigits(sum), 6) + [0, 32]
  }

  function Header(name: seq<Byte>, size: nat): (h: seq<Byte>)
    ensures |h| == BLOCK
  {
    var blank := BlankHeader(name, size);
    Overwrite(blank, 148, ChecksumField(SumBytes(blank)))
  }

  function Padding(size: nat): nat {
    (BLOCK - size % BLOCK) % BLOCK
  }

  function Written(e: Entry): seq<Byte> {
    Header(e.name, |e.bytes|) + e.bytes + Zeros(Padding(|e.bytes|))
  }

  /** As it is written: a character that would not fit the header whole is left out, and so is what follows it. */
  function Encoded(file: File): Entry {
    Entry(Fitting(file.name, BLOCK), file.bytes)
  }

  lemma OverwriteNext(s: seq<Byte>, at: nat, text: seq<Byte>, i: nat)
    requires at <= |s| && i < |text| && at + i < |s|
    ensures Overwrite(s, at, text[..i])[at + i := text[i]] == Overwrite(s, at, text[..i + 1])
  {
  }

  /** `Buffer.write`: bytes that do not fit are dropped. */
  method WriteAt(header: array<Byte>, text: seq<Byte>, at: nat)
    requires at <= header.Length
    modifies header
    ensures header[..] == Overwrite(old(header[..]), at, text)
  {
    var n := if at + |text| <= header.Length then |text| else header.Length - at;
    for i := 0 to n
      invariant header[..] == Overwrite(old(header[..]), at, text[..i])
    {
      OverwriteNext(old(header[..]), at, text, i);
      header[at + i] := text[i];
    }
    assert n == |text| ==> text[..n] == text;
  }

  method WriteOwned(header: array<Byte>, name: seq<Byte>)
    requires header.Length == BLOCK && header[..] == Zeros(BLOCK)
    modifies header
    ensures header[..] == OwnedHeader(name)
  {
    WriteAt(header, name, 0);
    WriteAt(header, MODE, 100);
    WriteAt(header, NOBODY, 108);
    WriteAt(header, NOBODY, 116);
  }

  method WriteRest(header: array<Byte>, size: nat)
    requires header.Length == BLOCK
    modifies header
    ensures header[..] == Finish(old(header[..]), size)
  {
    WriteAt(header, SizeField(size), 124);
    WriteAt(header, EPOCH, 136);
    WriteAt(header, SPACES, 148);
    WriteAt(header, REGULAR, 156);
    WriteAt(header, MAGIC, 257);
  }

  method SumOf(header: array<Byte>) returns (sum: nat)
    ensures sum == SumBytes(header[..])
  {
    sum := 0;
    for i := 0 to header.Length
      invariant sum == SumBytes(header[..i])
    {
      assert header[..i + 1][..i] == header[..i];
      sum := sum + header[i];
    }
    assert header[..header.Length] == header[..];
  }

  method TarEntry(name: Text, data: seq<Byte>) returns (r: seq<Byte>)
    ensures r == Written(Encoded(File(name, data)))
  {
    var header := new Byte[BLOCK](_ => 0);
    assert header[..] == Zeros(BLOCK);
    WriteOwned(header, Fitting(name, BLOCK));
    WriteRest(header, |data|);
    var sum := SumOf(header);
    WriteAt(header, ChecksumField(sum), 148);
    r := header[..] + data + Zeros(Padding(|data|));
  }

  // Reading

  /** Up to the first NUL. */
  function UntilNul(s: seq<Byte>): seq<Byte> {
    if s == [] || s[0] == 0 then [] else [s[0]] + UntilNul(s[1..])
  }

  /**
   `slice(from, to)` and `subarray(from, to)` of a typed array: a negative end counts from the end, and both are
   clamped.
   */
  function Slice(s: seq<Byte>, from: int, to: int): seq<Byte> {
    var a, b := Clamp(from, |s|), Clamp(to, |s|);
    if a <= b then s[a..b] else []
  }

  function Clamp(end: int, length: nat): (r: nat)
    ensures r <= length
  {
    if end >= length then length
    else if end >= 0 then end
    else if length + end >= 0 then length + end
    else 0
  }

  function Field(header: seq<Byte>, start: nat, length: nat): seq<Byte> {
    UntilNul(Slice(header, start, start + length))
  }

  predicate Space(b: Byte) {
    9 <= b <= 13 || b == 32 || b == 160
  }

  function TrimStart(s: seq<Byte>): seq<Byte> {
    if s != [] && Space(s[0]) then TrimStart(s[1..]) else s
  }

  function TrimEnd(s: seq<Byte>): seq<Byte> {
    if s != [] && Space(s[|s| - 1]) then TrimEnd(s[..|s| - 1]) else s
  }

  predicate OctalDigit(b: Byte) {
    48 <= b < 56
  }

  /** The longest prefix of octal digits. */
  function LeadingDigits(s: seq<Byte>): seq<Byte> {
    if s != [] && OctalDigit(s[0]) then [s[0]] + LeadingDigits(s[1..]) else []
  }

  function OctalValue(digits: seq<Byte>): int {
    if digits == [] then 0 else OctalValue(digits[..|digits| - 1]) * 8 + ((digits[|digits| - 1] as int) - 48)
  }

  /** `Number.parseInt(text, 8)`; `None` is NaN. */
  function ParseOctal(text: seq<Byte>): Option<int> {
    var signed := text != [] && (text[0] == 43 || text[0] == 45);
    var digits := LeadingDigits(if signed then text[1..] else text);
    if digits == [] then None
    else Some(if signed && text[0] == 45 then -OctalValue(digits) else OctalValue(digits))
  }

  /** The size field; an empty one is 0. */
  function SizeOf(header: seq<Byte>): Option<int> {
    var text := TrimEnd(TrimStart(Field(header, 124, 12)));
    if text == [] then Some(0) else ParseOctal(text)
  }

  /** The prefix, if there is one, and a slash before the field. */
  function Joined(prefix: seq<Byte>, field: seq<Byte>): seq<Byte> {
    if prefix == [] then field else prefix + [47] + field
  }

  function NameOf(header: seq<Byte>): seq<Byte> {
    Joined(Field(header, 345, 155), Field(header, 0, 100))
  }

  /** A header cut from the end of the archive may be short; what it lacks reads as 0. */
  function ByteAt(header: seq<Byte>, i: nat): Byte {
    if i < |header| then header[i] else 0
  }

  /** What one pass of the loop does at `offset`. */
  datatype Pass = Stop | Fail(error: TarError) | Next(entry: Option<Entry>, offset: int)

  predicate AllZero(s: seq<Byte>) {
    forall i :: 0 <= i < |s| ==> s[i] == 0
  }

  function HeaderAt(tar: seq<Byte>, offset: int): seq<Byte> {
    Slice(tar, offset, offset + BLOCK)
  }

  /** The offset may be negative: a size that is moves it back. */
  function PassAt(tar: seq<Byte>, offset: int): Pass {
    var header := HeaderAt(tar, offset);
    if AllZero(header) then Stop
    else if ByteAt(header, 124) >= 128 then Fail(Base256Size)
    else
      var size := SizeOf(header);
      if size.None? then Fail(MalformedSize(offset))
      else
        var start := offset + BLOCK;
        var file := Entry(NameOf(header), Slice(tar, start, start + size.value));
        Next(if ByteAt(header, 156) == 48 || ByteAt(header, 156) == 0 then Some(file) else None,
             start + (size.value + BLOCK - 1) / BLOCK * BLOCK)
  }

  /** What the loop does at each offset; where it stops for want of a whole block, that is a stop like any other. */
  type Passes = int -> Pass

  function PassesOf(tar: seq<Byte>): Passes {
    (offset: int) => if offset + BLOCK > |tar| then Stop else PassAt(tar, offset)
  }

  function JumpsOf(at: Passes): Jump {
    (offset: int) => if at(offset).Next? then Some(at(offset).offset) else None
  }

  /** Where the loop goes from an offset, unless it ends there. */
  function Jumps(tar: seq<Byte>): Jump {
    JumpsOf(PassesOf(tar))
  }

  function Held(entry: Option<Entry>): seq<Entry> {
    if entry.None? then [] else [entry.value]
  }

  /** What the passes from `offset` on come to. */
  function ReadWithin(at: Passes, offset: int, n: nat): Result<seq<Entry>, TarError>
    requires EndsWithin(JumpsOf(at), offset, n)
    decreases n
  {
    match at(offset)
    case Stop => Ok([])
    case Fail(error) => Err(error)
    case Next(entry, next) => After(Held(entry), ReadWithin(at, next, n - 1))
  }

  ghost function ReadPasses(at: Passes, offset: int): Result<seq<Entry>, TarError>
    requires Ends(JumpsOf(at), offset)
  {
    var n: nat :| EndsWithin(JumpsOf(at), offset, n);
    ReadWithin(at, offset, n)
  }

  /** What the loop makes of the archive from `offset` on. */
  ghost function ReadFrom(tar: seq<Byte>, offset: int): Result<seq<Entry>, TarError>
    requires Ends(Jumps(tar), offset)
  {
    ReadPasses(PassesOf(tar), offset)
  }

  lemma {:induction false} AnyCountReads(at: Passes, offset: int, n: nat, m: nat)
    requires EndsWithin(JumpsOf(at), offset, n) && EndsWithin(JumpsOf(at), offset, m)
    ensures ReadWithin(at, offset, n) == ReadWithin(at, offset, m)
    decreases n
  {
    if at(offset).Next? { AnyCountReads(at, at(offset).offset, n - 1, m - 1); }
  }

  lemma ReadsWithin(at: Passes, offset: int, n: nat)
    requires EndsWithin(JumpsOf(at), offset, n)
    ensures Ends(JumpsOf(at), offset) && ReadPasses(at, offset) == ReadWithin(at, offset, n)
  {
    var m: nat :| EndsWithin(JumpsOf(at), offset, m) && ReadPasses(at, offset) == ReadWithin(at, offset, m);
    AnyCountReads(at, offset, n, m);
  }

  /** One pass of the loop, and what the others read. */
  lemma ReadStep(at: Passes, offset: int)
    requires Ends(JumpsOf(at), offset)
    ensures match at(offset)
      case Stop => ReadPasses(at, offset) == Ok([])
      case Fail(error) => ReadPasses(at, offset) == Err(error)
      case Next(entry, next) =>
        Ends(JumpsOf(at), next) && ReadPasses(at, offset) == After(Held(entry), ReadPasses(at, next))
  {
    var n: nat :| EndsWithin(JumpsOf(at), offset, n);
    ReadsWithin(at, offset, n);
    if at(offset).Next? { ReadsWithin(at, at(offset).offset, n - 1); }
  }

  /** `read` with `entries` read before it. */
  function After(entries: seq<Entry>, read: Result<seq<Entry>, TarError>): Result<seq<Entry>, TarError> {
    match read
    case Err(error) => Err(error)
    case Ok(rest) => Ok(entries + rest)
  }

  lemma AfterAfter(a: seq<Entry>, b: seq<Entry>, read: Result<seq<Entry>, TarError>)
    ensures After(a, After(b, read)) == After(a + b, read) && After([], read) == read && After(a, Ok([])) == Ok(a)
  {
    assert a + [] == a;
    if read.Ok? { assert a + (b + read.value) == a + b + read.value && [] + read.value == read.value; }
  }

  /** As it is read: one character a byte. */
  function Decoded(entry: Entry): File {
    File(Latin1(entry.name), entry.bytes)
  }

  function AllDecoded(entries: seq<Entry>): (files: seq<File>)
    ensures |files| == |entries|
  {
    seq(|entries|, i requires 0 <= i < |entries| => Decoded(entries[i]))
  }

  /** The files the loop makes of the archive. */
  ghost function FilesOf(tar: seq<Byte>): Result<seq<File>, TarError>
    requires Ends(Jumps(tar), 0)
  {
    match ReadFrom(tar, 0)
    case Err(error) => Err(error)
    case Ok(entries) => Ok(AllDecoded(entries))
  }

  /** For every archive on which the loop ends. */
  method ReadTar(tar: seq<Byte>) returns (r: Result<seq<File>, TarError>)
    requires Ends(Jumps(tar), 0)
    ensures r == FilesOf(tar)
  {
    var files: seq<File> := [];
    var offset := 0;
    ghost var entries: seq<Entry> := [];
    ghost var at := PassesOf(tar);
    ghost var n: nat :| EndsWithin(JumpsOf(at), 0, n);
    AfterAfter([], [], ReadPasses(at, 0));
    while offset + BLOCK <= |tar|
      invariant EndsWithin(JumpsOf(at), offset, n) && Ends(JumpsOf(at), offset)
      invariant ReadPasses(at, 0) == After(entries, ReadPasses(at, offset)) && files == AllDecoded(entries)
      decreases n
    {
      ReadStep(at, offset);
      match PassAt(tar, offset)
      case Stop =>
        AfterAfter(entries, [], Ok([]));
        return Ok(files);
      case Fail(error) =>
        return Err(error);
      case Next(entry, next) =>
        AfterAfter(entries, Held(entry), ReadPasses(at, next));
        DecodedNext(entries, entry);
        if entry.Some? {
          files := files + [Decoded(entry.value)];
        }
        offset, entries, n := next, entries + Held(entry), n - 1;
    }
    ReadStep(at, offset);
    AfterAfter(entries, [], Ok([]));
    r := Ok(files);
  }

  lemma DecodedNext(entries: seq<Entry>, entry: Option<Entry>)
    ensures AllDecoded(entries + Held(entry))
            == AllDecoded(entries) + if entry.None? then [] else [Decoded(entry.value)]
  {
  }
}
