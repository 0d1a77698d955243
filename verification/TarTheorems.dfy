/** The reader undoes the writer. */
module TarTheorems {
  import opened Wrappers
  import opened Loops
  import opened Encodings
  import opened Tar

  function Pow8(k: nat): nat {
    if k == 0 then 1 else 8 * Pow8(k - 1)
  }

  predicate OctalText(s: seq<Byte>) {
    forall i :: 0 <= i < |s| ==> OctalDigit(s[i])
  }

  // Octal numbers

  lemma {:induction false} DigitsSpell(n: nat)
    ensures OctalText(OctalDigits(n)) && OctalValue(OctalDigits(n)) == n
  {
    if n >= 8 {
      DigitsSpell(n / 8);
      assert OctalDigits(n)[..|OctalDigits(n)| - 1] == OctalDigits(n / 8);
    } else {
      assert OctalDigits(n)[..0] == [];
    }
  }

  lemma {:induction false} DigitsFit(n: nat, k: nat)
    requires n < Pow8(k)
    ensures k >= 1 ==> |OctalDigits(n)| <= k
  {
    if k >= 2 && n >= 8 { DigitsFit(n / 8, k - 1); }
  }

  lemma {:induction false} LeadingZero(digits: seq<Byte>)
    ensures OctalValue([48] + digits) == OctalValue(digits)
  {
    if digits == [] {
      assert ([48] + digits)[..0] == [];
    } else {
      assert ([48] + digits)[..|digits|] == [48] + digits[..|digits| - 1];
      LeadingZero(digits[..|digits| - 1]);
    }
  }

  lemma {:induction false} PadKeepsValue(digits: seq<Byte>, width: nat)
    requires OctalText(digits) && |digits| <= width
    ensures |PadStart(digits, width)| == width && OctalText(PadStart(digits, width))
    ensures OctalValue(PadStart(digits, width)) == OctalValue(digits)
    decreases width - |digits|
  {
    if |digits| < width {
      LeadingZero(digits);
      PadKeepsValue([48] + digits, width);
    }
  }

  /** A number below 8^width is written in exactly `width` octal digits that spell it. */
  lemma PaddedNumber(n: nat, width: nat)
    requires width >= 1 && n < Pow8(width)
    ensures var text := PadStart(OctalDigits(n), width); |text| == width && OctalText(text) && OctalValue(text) == n
  {
    DigitsSpell(n);
    DigitsFit(n, width);
    PadKeepsValue(OctalDigits(n), width);
  }

  lemma {:induction false} DigitsLead(s: seq<Byte>)
    requires OctalText(s)
    ensures LeadingDigits(s) == s
  {
    if s != [] {
      DigitsLead(s[1..]);
      assert [s[0]] + s[1..] == s;
    }
  }

  lemma {:induction false} NulEnds(text: seq<Byte>, rest: seq<Byte>)
    requires forall i :: 0 <= i < |text| ==> text[i] != 0
    ensures UntilNul(text + [0] + rest) == text && UntilNul(text) == text
  {
    if text != [] {
      assert (text + [0] + rest)[1..] == text[1..] + [0] + rest;
      NulEnds(text[1..], rest);
      assert [text[0]] + text[1..] == text;
    } else {
      assert (text + [0] + rest)[0] == 0;
    }
  }

  /** The number in a field of padded octal digits ended by a NUL reads back. */
  lemma NumberReads(n: nat, width: nat, rest: seq<Byte>)
    requires width >= 1 && n < Pow8(width)
    ensures var text := UntilNul(PadStart(OctalDigits(n), width) + [0] + rest);
      text != [] && TrimEnd(TrimStart(text)) == text && ParseOctal(text) == Some(n)
  {
    var text := PadStart(OctalDigits(n), width);
    PaddedNumber(n, width);
    NulEnds(text, rest);
    DigitsLead(text);
    assert OctalDigit(text[0]) && OctalDigit(text[|text| - 1]);
  }

  // Header fields

  lemma OverwriteApart(s: seq<Byte>, at: nat, text: seq<Byte>, a: nat, b: nat)
    requires at <= |s| && a <= b <= |s| && (b <= at || at + |text| <= a)
    ensures Overwrite(s, at, text)[a..b] == s[a..b]
  {
    forall i | a <= i < b ensures Overwrite(s, at, text)[i] == s[i] {}
  }

  lemma OverwriteHere(s: seq<Byte>, at: nat, text: seq<Byte>)
    requires at + |text| <= |s|
    ensures Overwrite(s, at, text)[at..at + |text|] == text
  {
  }

  /** Finishing a header touches neither the name nor the prefix field. */
  lemma FinishKeeps(h: seq<Byte>, size: nat, a: nat, b: nat)
    requires |h| == BLOCK && size < Pow8(11) && a <= b <= BLOCK && (b <= 100 || 265 <= a)
    ensures Finish(h, size)[a..b] == h[a..b]
  {
    PaddedNumber(size, 11);
    var h1 := Overwrite(h, 124, SizeField(size));
    var h2 := Overwrite(h1, 136, EPOCH);
    var h3 := Overwrite(h2, 148, SPACES);
    var h4 := Overwrite(h3, 156, REGULAR);
    OverwriteApart(h, 124, SizeField(size), a, b);
    OverwriteApart(h1, 136, EPOCH, a, b);
    OverwriteApart(h2, 148, SPACES, a, b);
    OverwriteApart(h3, 156, REGULAR, a, b);
    OverwriteApart(h4, 257, MAGIC, a, b);
  }

  lemma OwnedKeeps(name: seq<Byte>, a: nat, b: nat)
    requires a <= b <= BLOCK && (b <= 100 || 124 <= a)
    ensures OwnedHeader(name)[a..b] == Overwrite(Zeros(BLOCK), 0, name)[a..b]
  {
    var h0 := Overwrite(Zeros(BLOCK), 0, name);
    var h1 := Overwrite(h0, 100, MODE);
    var h2 := Overwrite(h1, 108, NOBODY);
    OverwriteApart(h0, 100, MODE, a, b);
    OverwriteApart(h1, 108, NOBODY, a, b);
    OverwriteApart(h2, 116, NOBODY, a, b);
  }

  /** The size, the checksum's blanks and the type are where they belong. */
  lemma FinishedFields(h: seq<Byte>, size: nat)
    requires |h| == BLOCK && size < Pow8(11)
    ensures Finish(h, size)[124..136] == SizeField(size)
    ensures Finish(h, size)[148..156] == SPACES
    ensures Finish(h, size)[156..157] == REGULAR
  {
    PaddedNumber(size, 11);
    var h1 := Overwrite(h, 124, SizeField(size));
    var h2 := Overwrite(h1, 136, EPOCH);
    var h3 := Overwrite(h2, 148, SPACES);
    var h4 := Overwrite(h3, 156, REGULAR);
    OverwriteHere(h, 124, SizeField(size));
    OverwriteApart(h1, 136, EPOCH, 124, 136);
    OverwriteApart(h2, 148, SPACES, 124, 136);
    OverwriteApart(h3, 156, REGULAR, 124, 136);
    OverwriteApart(h4, 257, MAGIC, 124, 136);
    OverwriteHere(h2, 148, SPACES);
    OverwriteApart(h3, 156, REGULAR, 148, 156);
    OverwriteApart(h4, 257, MAGIC, 148, 156);
    OverwriteHere(h3, 156, REGULAR);
    OverwriteApart(h4, 257, MAGIC, 156, 157);
  }

  lemma {:induction false} SumBounded(s: seq<Byte>)
    ensures SumBytes(s) <= 255 * |s|
  {
    if s != [] { SumBounded(s[..|s| - 1]); }
  }

  /** The checksum always fits its six digits, so it overwrites its own field and nothing else. */
  lemma ChecksumFits(h: seq<Byte>)
    requires |h| == BLOCK
    ensures SumBytes(h) < Pow8(6) && |ChecksumField(SumBytes(h))| == 8
  {
    SumBounded(h);
    assert Pow8(6) == 8 * 8 * 8 * Pow8(3);
    PaddedNumber(SumBytes(h), 6);
  }

  /** The checksum a header carries is the sum of its bytes with the checksum field taken as blanks. */
  lemma ChecksumReads(name: seq<Byte>, size: nat)
    requires size < Pow8(11)
    ensures var h := Header(name, size);
      ParseOctal(Field(h, 148, 8)) == Some(SumBytes(Overwrite(h, 148, SPACES)))
  {
    var blank := BlankHeader(name, size);
    ChecksumFits(blank);
    FinishedFields(OwnedHeader(name), size);
    var field := ChecksumField(SumBytes(blank));
    OverwriteHere(blank, 148, field);
    assert Overwrite(Overwrite(blank, 148, field), 148, SPACES) == blank by {
      assert blank == blank[..148] + blank[148..156] + blank[156..];
    }
    assert field == PadStart(OctalDigits(SumBytes(blank)), 6) + [0] + [32];
    NumberReads(SumBytes(blank), 6, [32]);
  }

  lemma HeaderFields(name: seq<Byte>, size: nat)
    requires size < Pow8(11)
    ensures var h := Header(name, size);
      && h[124..136] == SizeField(size)
      && h[156] == 48
      && h[0..100] == Overwrite(Zeros(BLOCK), 0, name)[0..100]
      && h[345..500] == Overwrite(Zeros(BLOCK), 0, name)[345..500]
  {
    var owned, blank := OwnedHeader(name), BlankHeader(name, size);
    var field := ChecksumField(SumBytes(blank));
    ChecksumFits(blank);
    FinishedFields(owned, size);
    OverwriteApart(blank, 148, field, 124, 136);
    OverwriteApart(blank, 148, field, 156, 157);
    assert Header(name, size)[156] == Header(name, size)[156..157][0];
    OverwriteApart(blank, 148, field, 0, 100);
    OverwriteApart(blank, 148, field, 345, 500);
    FinishKeeps(owned, size, 0, 100);
    FinishKeeps(owned, size, 345, 500);
    OwnedKeeps(name, 0, 100);
    OwnedKeeps(name, 345, 500);
  }

  // Names

  /** What reads back of written name bytes: up to 100 of them, behind those that ran into the prefix field, if any. */
  function CutName(written: seq<Byte>): seq<Byte> {
    Joined(UntilNul(Slice(written, 345, 500)), UntilNul(Slice(written, 0, 100)))
  }

  lemma NameRead(written: seq<Byte>, size: nat)
    requires size < Pow8(11) && |written| <= BLOCK
    ensures NameOf(Header(written, size)) == CutName(written)
  {
    HeaderFields(written, size);
    PaddedField(written, 0, 100);
    PaddedField(written, 345, 500);
  }

  /** Zeros behind the name end the field as the end of the name does. */
  lemma PaddedField(written: seq<Byte>, from: nat, to: nat)
    requires |written| <= BLOCK && from <= to <= BLOCK
    ensures UntilNul(Overwrite(Zeros(BLOCK), 0, written)[from..to]) == UntilNul(Slice(written, from, to))
  {
    var padded, part := Overwrite(Zeros(BLOCK), 0, written), Slice(written, from, to);
    assert padded == written + Zeros(BLOCK - |written|);
    assert padded[from..to] == part + Zeros(to - from - |part|);
    ZerosEnd(part, to - from - |part|);
  }

  lemma {:induction false} ZerosEnd(s: seq<Byte>, n: nat)
    ensures UntilNul(s + Zeros(n)) == UntilNul(s)
  {
    if s != [] {
      assert (s + Zeros(n))[1..] == s[1..] + Zeros(n);
      ZerosEnd(s[1..], n);
    }
  }

  /** Written name bytes that fit the field leave the prefix blank. */
  lemma ShortCut(written: seq<Byte>)
    requires |written| <= 100
    ensures CutName(written) == UntilNul(written)
  {
    ShortSlices(written);
  }

  lemma ShortSlices(written: seq<Byte>)
    requires |written| <= 100
    ensures Slice(written, 0, 100) == written && UntilNul(Slice(written, 345, 500)) == []
  {
    assert Slice(written, 345, 500) == [];
  }

  lemma {:induction false} UntilNulShortens(s: seq<Byte>)
    ensures |UntilNul(s)| <= |s| && 0 !in UntilNul(s) && UntilNul(s) <= s
  {
    if s != [] && s[0] != 0 {
      UntilNulShortens(s[1..]);
      assert UntilNul(s) == [s[0]] + UntilNul(s[1..]);
      assert s == [s[0]] + s[1..];
    }
  }

  // Archives

  lemma PaddingRoundsUp(n: nat)
    ensures n + Padding(n) == (n + BLOCK - 1) / BLOCK * BLOCK
  {
    var q, r := n / BLOCK, n % BLOCK;
    if r == 0 {
      assert (n + BLOCK - 1) / BLOCK == q;
    } else {
      assert Padding(n) == BLOCK - r;
      assert (n + BLOCK - 1) / BLOCK == q + 1;
    }
  }

  /** A written entry is whole blocks long. */
  lemma WrittenAligned(e: Entry)
    ensures |Written(e)| == BLOCK + (|e.bytes| + BLOCK - 1) / BLOCK * BLOCK && |Written(e)| % BLOCK == 0
  {
    PaddingRoundsUp(|e.bytes|);
  }

  lemma Middle(a: seq<Byte>, b: seq<Byte>, c: seq<Byte>)
    ensures (a + b + c)[|a|..|a| + |b|] == b
  {
  }

  lemma WhereWritten(before: seq<Byte>, e: Entry, after: seq<Byte>)
    ensures var tar, start := before + Written(e) + after, |before| + BLOCK;
      && start + |e.bytes| <= |tar|
      && tar[|before|..start] == Header(e.name, |e.bytes|)
      && tar[start..start + |e.bytes|] == e.bytes
  {
    var h, pad := Header(e.name, |e.bytes|), Zeros(Padding(|e.bytes|));
    Middle(before, h, e.bytes + pad + after);
    assert before + Written(e) + after == before + h + (e.bytes + pad + after) == before + h + e.bytes + (pad + after);
    Middle(before + h, e.bytes, pad + after);
  }

  /** A written header is a regular file's, of the size written. */
  lemma HeaderReads(name: seq<Byte>, size: nat)
    requires size < Pow8(11)
    ensures var h := Header(name, size);
      !AllZero(h) && h[124] < 128 && h[156] == 48 && SizeOf(h) == Some(size)
  {
    var h := Header(name, size);
    HeaderFields(name, size);
    PaddedNumber(size, 11);
    NumberReads(size, 11, []);
    assert SizeField(size) + [] == SizeField(size);
    assert h[124] == h[124..136][0] == PadStart(OctalDigits(size), 11)[0];
    assert OctalDigit(h[124]);
  }

  /** What the reader sees where an entry was written: its name as it is cut, its bytes, and its end. */
  lemma EntryPass(before: seq<Byte>, e: Entry, after: seq<Byte>)
    requires |e.name| <= BLOCK && |e.bytes| < Pow8(11)
    ensures var tar := before + Written(e) + after;
      && |before| + BLOCK <= |tar|
      && PassAt(tar, |before|) == Next(Some(Entry(CutName(e.name), e.bytes)), |before| + |Written(e)|)
  {
    WrittenAligned(e);
    WhereWritten(before, e, after);
    PassOverEntry(before + Written(e) + after, |before|, e);
  }

  lemma PassOverEntry(tar: seq<Byte>, offset: nat, e: Entry)
    requires |e.name| <= BLOCK && |e.bytes| < Pow8(11) && offset + BLOCK + |e.bytes| <= |tar|
    requires tar[offset..offset + BLOCK] == Header(e.name, |e.bytes|)
    requires tar[offset + BLOCK..offset + BLOCK + |e.bytes|] == e.bytes
    ensures PassAt(tar, offset)
         == Next(Some(Entry(CutName(e.name), e.bytes)), offset + BLOCK + (|e.bytes| + BLOCK - 1) / BLOCK * BLOCK)
  {
    HeaderReads(e.name, |e.bytes|);
    NameRead(e.name, |e.bytes|);
    PassOver(tar, offset, Header(e.name, |e.bytes|), e.bytes);
  }

  /** A pass over a regular file's header, its data behind it. */
  lemma PassOver(tar: seq<Byte>, offset: nat, header: seq<Byte>, bytes: seq<Byte>)
    requires offset + BLOCK + |bytes| <= |tar| && tar[offset..offset + BLOCK] == header
    requires tar[offset + BLOCK..offset + BLOCK + |bytes|] == bytes
    requires !AllZero(header) && header[124] < 128 && header[156] == 48 && SizeOf(header) == Some(|bytes|)
    ensures PassAt(tar, offset)
         == Next(Some(Entry(NameOf(header), bytes)), offset + BLOCK + (|bytes| + BLOCK - 1) / BLOCK * BLOCK)
  {
    assert HeaderAt(tar, offset) == header;
    assert Slice(tar, offset + BLOCK, offset + BLOCK + |bytes|) == bytes;
  }

  /** The written entries one after the other. */
  function Archive(entries: seq<Entry>): seq<Byte> {
    if entries == [] then [] else Written(entries[0]) + Archive(entries[1..])
  }

  /** What writer and reader keep: a name of at most 100 bytes without NUL, and data below 8^11 bytes. */
  predicate Storable(e: Entry) {
    |e.name| <= 100 && 0 !in e.name && |e.bytes| < Pow8(11)
  }

  lemma StorablePass(before: seq<Byte>, e: Entry, after: seq<Byte>)
    requires Storable(e)
    ensures |before| + BLOCK <= |before + Written(e) + after|
    ensures PassAt(before + Written(e) + after, |before|) == Next(Some(e), |before + Written(e)|)
    ensures |before + Written(e)| > |before|
  {
    EntryPass(before, e, after);
    ShortCut(e.name);
    NulEnds(e.name, []);
    WrittenAligned(e);
  }

  lemma Regroup(a: seq<Byte>, b: seq<Byte>, c: seq<Byte>, d: seq<Byte>)
    ensures a + (b + c) + d == a + b + c + d == a + b + (c + d)
  {
  }

  lemma PassNext(at: Passes, offset: int, e: Entry, next: int, rest: seq<Entry>)
    requires at(offset) == Next(Some(e), next) && Ends(JumpsOf(at), next) && ReadPasses(at, next) == Ok(rest)
    ensures Ends(JumpsOf(at), offset) && ReadPasses(at, offset) == Ok([e] + rest)
  {
    OneMoreJump(JumpsOf(at), offset);
    ReadStep(at, offset);
  }

  lemma ReadNext(tar: seq<Byte>, offset: int, e: Entry, next: int, rest: seq<Entry>)
    requires offset + BLOCK <= |tar| && PassAt(tar, offset) == Next(Some(e), next)
    requires Ends(Jumps(tar), next) && ReadFrom(tar, next) == Ok(rest)
    ensures Ends(Jumps(tar), offset) && ReadFrom(tar, offset) == Ok([e] + rest)
  {
    PassNext(PassesOf(tar), offset, e, next, rest);
  }

  lemma StopsAtOnce(at: Passes, offset: int)
    requires at(offset) == Stop
    ensures Ends(JumpsOf(at), offset) && ReadPasses(at, offset) == Ok([])
  {
    var n: nat := 0;
    assert EndsWithin(JumpsOf(at), offset, n);
    ReadStep(at, offset);
  }

  lemma EndsAtOnce(tar: seq<Byte>, offset: int)
    requires offset + BLOCK <= |tar| ==> PassAt(tar, offset) == Stop
    ensures Ends(Jumps(tar), offset) && ReadFrom(tar, offset) == Ok([])
  {
    StopsAtOnce(PassesOf(tar), offset);
  }

  lemma TrailerEnds(before: seq<Byte>, trailer: seq<Byte>)
    requires AllZero(trailer)
    ensures Ends(Jumps(before + trailer), |before|) && ReadFrom(before + trailer, |before|) == Ok([])
  {
    var tar := before + trailer;
    if |before| + BLOCK <= |tar| {
      assert forall i :: 0 <= i < BLOCK ==> tar[|before|..|before| + BLOCK][i] == trailer[i];
      assert PassAt(tar, |before|) == Stop;
    }
    EndsAtOnce(tar, |before|);
  }

  /** The pass over one entry, given what the later passes read. */
  lemma ReadsOne(before: seq<Byte>, e: Entry, later: seq<Entry>, rest: seq<Byte>)
    requires Storable(e)
    requires Ends(Jumps(before + Written(e) + rest), |before + Written(e)|)
    requires ReadFrom(before + Written(e) + rest, |before + Written(e)|) == Ok(later)
    ensures Ends(Jumps(before + Written(e) + rest), |before|)
            && ReadFrom(before + Written(e) + rest, |before|) == Ok([e] + later)
  {
    StorablePass(before, e, rest);
    ReadNext(before + Written(e) + rest, |before|, e, |before + Written(e)|, later);
  }

  lemma {:induction false} ReadsAll(before: seq<Byte>, entries: seq<Entry>, trailer: seq<Byte>)
    requires forall i :: 0 <= i < |entries| ==> Storable(entries[i])
    requires AllZero(trailer)
    ensures var tar := before + Archive(entries) + trailer;
      Ends(Jumps(tar), |before|) && ReadFrom(tar, |before|) == Ok(entries)
    decreases |entries|
  {
    if entries == [] {
      assert before + Archive(entries) + trailer == before + trailer;
      TrailerEnds(before, trailer);
    } else {
      var e, later := entries[0], entries[1..];
      Regroup(before, Written(e), Archive(later), trailer);
      ReadsAll(before + Written(e), later, trailer);
      ReadsOne(before, e, later, Archive(later) + trailer);
      assert [e] + later == entries;
    }
  }

  lemma NothingBefore(a: seq<Byte>)
    ensures [] + a == a
  {
  }

  /** Reading back an archive of written entries, with or without a trailer of zeros, gives those entries in order. */
  lemma EntriesReadBack(entries: seq<Entry>, trailer: seq<Byte>)
    requires forall i :: 0 <= i < |entries| ==> Storable(entries[i])
    requires AllZero(trailer)
    ensures Ends(Jumps(Archive(entries) + trailer), 0)
    ensures ReadFrom(Archive(entries) + trailer, 0) == Ok(entries)
  {
    NothingBefore(Archive(entries));
    ReadsAll([], entries, trailer);
  }

  /** One entry reads back with its bytes and what is left of its name. */
  lemma EntryReadsBack(e: Entry)
    requires |e.name| <= BLOCK && |e.bytes| < Pow8(11)
    ensures Ends(Jumps(Written(e)), 0) && ReadFrom(Written(e), 0) == Ok([Entry(CutName(e.name), e.bytes)])
  {
    var back := Entry(CutName(e.name), e.bytes);
    EntryPass([], e, []);
    assert [] + Written(e) + [] == Written(e) == Written(e) + [];
    TrailerEnds(Written(e), []);
    ReadNext(Written(e), 0, back, |Written(e)|, []);
    assert [back] + [] == [back];
  }
}
