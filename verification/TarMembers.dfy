/**
 What the reader makes of any archive of whole members, whoever wrote it: which it gives, under what names, what it
 passes over, where it stops and what it refuses. And the header that the writer writes, field by field.
 */
module TarMembers {
  import opened Wrappers
  import opened Loops
  import opened Encodings
  import opened Tar
  import opened TarTheorems

  /** A header with the text of its two name fields, the data and what fills the last block. */
  datatype Member = Member(header: seq<Byte>, prefix: seq<Byte>, field: seq<Byte>, data: seq<Byte>, filling: seq<Byte>)

  /** The field holds the text, ended by a NUL unless it is full. */
  predicate HoldsText(header: seq<Byte>, at: nat, length: nat, text: seq<Byte>)
    requires at + length <= |header|
  {
    && |text| <= length && header[at..at + |text|] == text
    && (forall i :: 0 <= i < |text| ==> text[i] != 0)
    && (|text| < length ==> header[at + |text|] == 0)
  }

  /** Eleven octal digits and a NUL or a blank, */
  predicate HoldsDigits(header: seq<Byte>, size: nat)
    requires |header| == BLOCK
  {
    && (forall i :: 124 <= i < 135 ==> 48 <= header[i] < 56) && OctalValue(header[124..135]) == size
    && (header[135] == 0 || header[135] == 32)
  }

  /** or nothing at all for no data. */
  predicate HoldsSize(header: seq<Byte>, size: nat)
    requires |header| == BLOCK
  {
    HoldsDigits(header, size) || (header[124] == 0 && size == 0 && exists i :: 0 <= i < 512 && header[i] != 0)
  }

  /** Whole blocks. */
  predicate Fills(size: nat, filling: nat) {
    filling < 512 && (size + filling) % 512 == 0
  }

  predicate IsMember(m: Member) {
    && |m.header| == BLOCK && HoldsText(m.header, 345, 155, m.prefix) && HoldsText(m.header, 0, 100, m.field)
    && HoldsSize(m.header, |m.data|)
    && Fills(|m.data|, |m.filling|)
  }

  function BytesOf(m: Member): seq<Byte> {
    m.header + m.data + m.filling
  }

  function Stream(ms: seq<Member>): seq<Byte> {
    if ms == [] then [] else BytesOf(ms[0]) + Stream(ms[1..])
  }

  /** Its type is a regular file's, of today or of old; directories, links and extended headers have others. */
  predicate IsRegular(m: Member)
    requires |m.header| == BLOCK
  {
    m.header[156] == 48 || m.header[156] == 0
  }

  function EntryOf(m: Member): Entry {
    Entry(if |m.prefix| == 0 then m.field else m.prefix + [47] + m.field, m.data)
  }

  /** The regular files, in order. */
  function FilesIn(ms: seq<Member>): seq<Entry>
    requires forall i :: 0 <= i < |ms| ==> IsMember(ms[i])
  {
    if ms == [] then []
    else
      assert IsMember(ms[0]);
      (if IsRegular(ms[0]) then [EntryOf(ms[0])] else []) + FilesIn(ms[1..])
  }

  // One member

  lemma TextReads(header: seq<Byte>, at: nat, length: nat, text: seq<Byte>)
    requires at + length <= |header| && HoldsText(header, at, length, text)
    ensures Field(header, at, length) == text
  {
    var slice := header[at..at + length];
    assert Slice(header, at, at + length) == slice;
    if |text| < length {
      assert slice == text + [0] + slice[|text| + 1..];
      NulEnds(text, slice[|text| + 1..]);
    } else {
      NulEnds(text, []);
    }
  }

  lemma DigitsThenBlank(digits: seq<Byte>)
    requires digits != [] && OctalText(digits)
    ensures TrimEnd(TrimStart(digits)) == digits && TrimEnd(TrimStart(digits + [32])) == digits
    ensures ParseOctal(digits) == Some(OctalValue(digits))
  {
    assert OctalDigit(digits[0]) && OctalDigit(digits[|digits| - 1]);
    assert (digits + [32])[..|digits|] == digits;
    DigitsLead(digits);
  }

  lemma DigitsRead(header: seq<Byte>, size: nat)
    requires |header| == BLOCK && HoldsDigits(header, size)
    ensures SizeOf(header) == Some(size) && !AllZero(header) && header[124] < 128
  {
    var digits := header[124..135];
    assert forall i :: 0 <= i < 11 ==> digits[i] == header[124 + i];
    DigitsThenBlank(digits);
    if header[135] == 0 {
      assert HoldsText(header, 124, 12, digits);
      TextReads(header, 124, 12, digits);
    } else {
      assert header[124..136] == digits + [32];
      assert HoldsText(header, 124, 12, digits + [32]);
      TextReads(header, 124, 12, digits + [32]);
    }
    assert header[124] != 0;
  }

  lemma SizeReads(header: seq<Byte>, size: nat)
    requires |header| == BLOCK && HoldsSize(header, size)
    ensures SizeOf(header) == Some(size) && !AllZero(header) && header[124] < 128
  {
    if HoldsDigits(header, size) {
      DigitsRead(header, size);
    } else {
      assert HoldsText(header, 124, 12, []);
      TextReads(header, 124, 12, []);
    }
  }

  lemma RoundsUp(n: nat, filling: nat)
    requires Fills(n, filling)
    ensures (n + BLOCK - 1) / BLOCK * BLOCK == n + filling
  {
    var q := (n + filling) / 512;
    assert n + filling == q * 512;
    assert (n + 511) / 512 == q;
  }

  lemma WhereMemberLies(before: seq<Byte>, m: Member, after: seq<Byte>)
    requires IsMember(m)
    ensures var tar, start := before + BytesOf(m) + after, |before| + BLOCK;
      && start + |m.data| <= |tar|
      && HeaderAt(tar, |before|) == m.header && Slice(tar, start, start + |m.data|) == m.data
  {
    Middle(before, m.header, m.data + m.filling + after);
    assert before + BytesOf(m) + after == before + m.header + (m.data + m.filling + after)
                                       == before + m.header + m.data + (m.filling + after);
    Middle(before + m.header, m.data, m.filling + after);
  }

  lemma NameReads(m: Member)
    requires IsMember(m)
    ensures NameOf(m.header) == EntryOf(m).name
  {
    TextReads(m.header, 345, 155, m.prefix);
    TextReads(m.header, 0, 100, m.field);
  }

  lemma PassOverAny(tar: seq<Byte>, offset: nat, header: seq<Byte>, bytes: seq<Byte>, filling: nat)
    requires |header| == BLOCK && HeaderAt(tar, offset) == header
    requires Slice(tar, offset + BLOCK, offset + BLOCK + |bytes|) == bytes
    requires !AllZero(header) && header[124] < 128 && SizeOf(header) == Some(|bytes|)
    requires Fills(|bytes|, filling)
    ensures PassAt(tar, offset)
         == Next(if header[156] == 48 || header[156] == 0 then Some(Entry(NameOf(header), bytes)) else None,
                 offset + BLOCK + |bytes| + filling)
  {
    RoundsUp(|bytes|, filling);
  }

  lemma NextMember(tar: seq<Byte>, offset: nat, m: Member, next: nat)
    requires |m.header| == BLOCK && next == offset + BLOCK + |m.data| + |m.filling|
    requires HeaderAt(tar, offset) == m.header && Slice(tar, offset + BLOCK, offset + BLOCK + |m.data|) == m.data
    requires !AllZero(m.header) && m.header[124] < 128 && SizeOf(m.header) == Some(|m.data|)
    requires NameOf(m.header) == EntryOf(m).name && Fills(|m.data|, |m.filling|)
    ensures PassAt(tar, offset) == Next(if IsRegular(m) then Some(EntryOf(m)) else None, next)
  {
    PassOverAny(tar, offset, m.header, m.data, |m.filling|);
  }

  /** The pass over a member gives it if it is regular, and goes on behind it. */
  lemma MemberPass(before: seq<Byte>, m: Member, after: seq<Byte>)
    requires IsMember(m)
    ensures var tar := before + BytesOf(m) + after;
      && |before| + BLOCK <= |tar|
      && PassAt(tar, |before|) == Next(if IsRegular(m) then Some(EntryOf(m)) else None, |before + BytesOf(m)|)
  {
    WhereMemberLies(before, m, after);
    SizeReads(m.header, |m.data|);
    NameReads(m);
    NextMember(before + BytesOf(m) + after, |before|, m, |before + BytesOf(m)|);
  }

  // All of them

  lemma PassOn(at: Passes, offset: int, entry: Option<Entry>, next: int)
    requires at(offset) == Next(entry, next) && Ends(JumpsOf(at), next)
    ensures Ends(JumpsOf(at), offset) && ReadPasses(at, offset) == After(Held(entry), ReadPasses(at, next))
  {
    OneMoreJump(JumpsOf(at), offset);
    ReadStep(at, offset);
  }

  lemma ReadsMember(before: seq<Byte>, m: Member, rest: seq<Byte>)
    requires IsMember(m)
    requires Ends(Jumps(before + BytesOf(m) + rest), |before + BytesOf(m)|)
    ensures var tar, next := before + BytesOf(m) + rest, |before + BytesOf(m)|;
      && Ends(Jumps(tar), |before|)
      && ReadFrom(tar, |before|) == After(if IsRegular(m) then [EntryOf(m)] else [], ReadFrom(tar, next))
  {
    MemberPass(before, m, rest);
    PassOn(PassesOf(before + BytesOf(m) + rest), |before|, if IsRegular(m) then Some(EntryOf(m)) else None,
           |before + BytesOf(m)|);
  }

  lemma {:induction false} ReadsMembers(before: seq<Byte>, ms: seq<Member>, tail: seq<Byte>)
    requires forall i :: 0 <= i < |ms| ==> IsMember(ms[i])
    requires Ends(Jumps(before + Stream(ms) + tail), |before + Stream(ms)|)
    ensures var tar := before + Stream(ms) + tail;
      && Ends(Jumps(tar), |before|)
      && ReadFrom(tar, |before|) == After(FilesIn(ms), ReadFrom(tar, |before + Stream(ms)|))
    decreases |ms|
  {
    var tar := before + Stream(ms) + tail;
    if ms == [] {
      assert before + Stream(ms) == before;
      AfterAfter([], [], ReadFrom(tar, |before|));
    } else {
      var m, later := ms[0], ms[1..];
      Regroup(before, BytesOf(m), Stream(later), tail);
      Regroup(before, BytesOf(m), Stream(later), []);
      assert before + Stream(ms) == before + BytesOf(m) + Stream(later);
      ReadsMembers(before + BytesOf(m), later, tail);
      ReadsMember(before, m, Stream(later) + tail);
      AfterAfter(if IsRegular(m) then [EntryOf(m)] else [], FilesIn(later), ReadFrom(tar, |before + Stream(ms)|));
    }
  }

  // What ends an archive

  /** Less than a block, or a block of zeros with anything behind it. */
  predicate IsEnd(tail: seq<Byte>) {
    |tail| < 512 || forall i :: 0 <= i < 512 ==> tail[i] == 0
  }

  /** A header whose size is not octal text. */
  predicate HasBase256Size(tail: seq<Byte>) {
    |tail| >= 512 && tail[124] >= 128
  }

  /** A header whose size is text that starts with none of: a digit below 8, a sign, a blank, the end of the field. */
  predicate HasBadSize(tail: seq<Byte>) {
    |tail| >= 512 && tail[124] < 128
    && !(48 <= tail[124] < 56) && tail[124] != 43 && tail[124] != 45 && !Space(tail[124]) && tail[124] != 0
  }

  lemma {:induction false} StartStays(s: seq<Byte>)
    requires s != [] && s[0] != 0 && !Space(s[0])
    ensures var t := TrimEnd(TrimStart(UntilNul(s))); t != [] && t[0] == s[0]
  {
    EndKeepsStart(UntilNul(s));
  }

  lemma {:induction false} EndKeepsStart(s: seq<Byte>)
    requires s != [] && !Space(s[0])
    ensures TrimEnd(s) != [] && TrimEnd(s)[0] == s[0]
  {
    if Space(s[|s| - 1]) { EndKeepsStart(s[..|s| - 1]); }
  }

  lemma BadSizeIsNone(header: seq<Byte>)
    requires |header| == BLOCK && HasBadSize(header)
    ensures SizeOf(header) == None
  {
    var slice := Slice(header, 124, 136);
    assert slice == header[124..136] && slice[0] == header[124];
    StartStays(slice);
    var text := TrimEnd(TrimStart(UntilNul(slice)));
    assert text[0] == header[124];
    assert LeadingDigits(text) == [];
  }

  lemma TailPass(before: seq<Byte>, tail: seq<Byte>)
    ensures IsEnd(tail) ==> PassesOf(before + tail)(|before|) == Stop
    ensures HasBase256Size(tail) ==> PassesOf(before + tail)(|before|) == Fail(Base256Size)
    ensures HasBadSize(tail) ==> PassesOf(before + tail)(|before|) == Fail(MalformedSize(|before|))
  {
    if |tail| >= 512 {
      var header := HeaderAt(before + tail, |before|);
      assert header == tail[..512];
      assert header[124] == tail[124];
      if HasBadSize(tail) { BadSizeIsNone(header); }
    }
  }

  lemma EndsThere(at: Passes, offset: int)
    requires !at(offset).Next?
    ensures Ends(JumpsOf(at), offset)
    ensures ReadPasses(at, offset) == if at(offset).Fail? then Err(at(offset).error) else Ok([])
  {
    var n: nat := 0;
    assert EndsWithin(JumpsOf(at), offset, n);
    ReadStep(at, offset);
  }

  /**
   An archive of whole members gives the regular ones in order, each under its name, behind its prefix and a slash if it
   has one, and passes over the others with their data. A block of zeros, or too little for a header, ends it, whatever
   follows; a header with a size that is not text, or that starts like no number, makes it an error, whatever was read.
   */
  lemma MembersRead(ms: seq<Member>, tail: seq<Byte>)
    requires forall i :: 0 <= i < |ms| ==> IsMember(ms[i])
    requires IsEnd(tail) || HasBase256Size(tail) || HasBadSize(tail)
    ensures var tar := Stream(ms) + tail;
      && Ends(Jumps(tar), 0)
      && (IsEnd(tail) ==> FilesOf(tar) == Ok(AllDecoded(FilesIn(ms))))
      && (HasBase256Size(tail) ==> FilesOf(tar) == Err(Base256Size))
      && (HasBadSize(tail) ==> FilesOf(tar) == Err(MalformedSize(|Stream(ms)|)))
  {
    var tar := Stream(ms) + tail;
    NothingBefore(Stream(ms));
    TailPass(Stream(ms), tail);
    EndsThere(PassesOf(tar), |Stream(ms)|);
    ReadsMembers([], ms, tail);
    AfterAfter(FilesIn(ms), [], Ok([]));
  }

  // What the writer writes

  lemma OverZeros(a: seq<Byte>, n: nat, text: seq<Byte>)
    requires |text| <= n
    ensures Overwrite(a + Zeros(n), |a|, text) == a + text + Zeros(n - |text|)
  {
  }

  lemma OverMiddle(a: seq<Byte>, b: seq<Byte>, c: seq<Byte>, text: seq<Byte>)
    requires |text| == |b|
    ensures Overwrite(a + b + c, |a|, text) == a + text + c
  {
  }

  lemma OwnedSpelt(name: seq<Byte>)
    requires |name| <= 100
    ensures var named := name + Zeros(100 - |name|);
      OwnedHeader(name) == named + MODE + NOBODY + NOBODY + Zeros(388)
  {
    var named := name + Zeros(100 - |name|);
    assert Overwrite(Zeros(BLOCK), 0, name) == named + Zeros(412);
    OverZeros(named, 412, MODE);
    OverZeros(named + MODE, 404, NOBODY);
    OverZeros(named + MODE + NOBODY, 396, NOBODY);
  }

  lemma FinishSpelt(owned: seq<Byte>, size: nat)
    requires |owned| == 124 && size < Pow8(11)
    ensures Finish(owned + Zeros(388), size)
         == owned + SizeField(size) + EPOCH + SPACES + (REGULAR + Zeros(100) + MAGIC + Zeros(247))
  {
    PaddedNumber(size, 11);
    var sized := owned + SizeField(size);
    OverZeros(owned, 388, SizeField(size));
    OverZeros(sized, 376, EPOCH);
    OverZeros(sized + EPOCH, 364, SPACES);
    OverZeros(sized + EPOCH + SPACES, 356, REGULAR);
    var typed := sized + EPOCH + SPACES + REGULAR;
    assert typed + Zeros(355) == typed + Zeros(100) + Zeros(255);
    OverZeros(typed + Zeros(100), 255, MAGIC);
    var all := REGULAR + Zeros(100) + MAGIC + Zeros(247);
    assert typed + Zeros(100) + MAGIC + Zeros(247) == sized + EPOCH + SPACES + all;
  }

  /** The header of a name that fits its field, with the sum of its bytes taken while the checksum was blank. */
  lemma HeaderSpelt(name: seq<Byte>, size: nat)
    requires |name| <= 100 && size < Pow8(11)
    ensures var front, back :=
        name + Zeros(100 - |name|)
        + [48, 48, 48, 48, 54, 52, 52, 0]                       // mode 0000644
        + [48, 48, 48, 48, 48, 48, 48, 0]                       // owner 0
        + [48, 48, 48, 48, 48, 48, 48, 0]                       // group 0
        + (PadStart(OctalDigits(size), 11) + [0])
        + [48, 48, 48, 48, 48, 48, 48, 48, 48, 48, 48, 0],      // time 0
        [48]                                                    // a regular file
        + Zeros(100)
        + [117, 115, 116, 97, 114, 0, 48, 48]                   // ustar 00
        + Zeros(247);
      var sum := SumBytes(front + [32, 32, 32, 32, 32, 32, 32, 32] + back);
      Header(name, size) == front + (PadStart(OctalDigits(sum), 6) + [0, 32]) + back
  {
    var owned := name + Zeros(100 - |name|) + MODE + NOBODY + NOBODY;
    var front := owned + SizeField(size) + EPOCH;
    var back := REGULAR + Zeros(100) + MAGIC + Zeros(247);
    PaddedNumber(size, 11);
    OwnedSpelt(name);
    FinishSpelt(owned, size);
    assert BlankHeader(name, size) == front + SPACES + back;
    ChecksumFits(front + SPACES + back);
    OverMiddle(front, SPACES, back, ChecksumField(SumBytes(front + SPACES + back)));
  }

  // Offsets before the start

  /** An offset below 0 counts from the end, and stops at the start: what a size that goes back makes the reader see. */
  lemma NegativeCountsBack(tar: seq<Byte>, k: int)
    requires k > 0
    ensures k <= |tar| ==> Slice(tar, -k, |tar|) == tar[|tar| - k..] && Slice(tar, 0, -k) == tar[..|tar| - k]
    ensures k > |tar| ==> Slice(tar, -k, |tar|) == tar && Slice(tar, 0, -k) == []
  {
  }
}
