/** When the reader's loop ends: a negative size moves the offset back, or leaves it where it is. */
module TarTermination {
  import opened Wrappers
  import opened Loops
  import opened Encodings
  import opened Tar
  import opened TarTheorems

  /** Far enough before the start there is no header left to read, and the loop stops. */
  lemma GoingIsInRange(tar: seq<Byte>, offset: int)
    requires Jumps(tar)(offset).Some?
    ensures -|tar| - BLOCK < offset < |tar|
  {
  }

  /** The loop ends if and only if no offset comes up twice. */
  lemma WhenReaderEnds(tar: seq<Byte>, from: int)
    ensures Ends(Jumps(tar), from) <==> VisitsOnce(Jumps(tar), from)
  {
    forall offset | Jumps(tar)(offset).Some? ensures -|tar| - BLOCK <= offset < -|tar| - BLOCK + (2 * |tar| + BLOCK) {
      GoingIsInRange(tar, offset);
    }
    WhenLoopEnds(Jumps(tar), from, -|tar| - BLOCK, 2 * |tar| + BLOCK);
  }

  // What moves the offset

  /** Past a size over -512 the offset moves on; down to -1023 it stays; from -1024 on it goes back. */
  lemma WhenPassMoves(tar: seq<Byte>, offset: int)
    requires PassAt(tar, offset).Next?
    ensures var size, next := SizeOf(HeaderAt(tar, offset)).value, PassAt(tar, offset).offset;
      && (next > offset <==> size > -512)
      && (next == offset <==> -1024 < size <= -512)
      && (next < offset <==> size <= -1024)
      && (next - offset) % BLOCK == 0
  {
  }

  /** The pass at `offset`, should the loop go on from it, parsed this size. */
  predicate Sized(tar: seq<Byte>, offset: int, size: int) {
    Jumps(tar)(offset).Some? && SizeOf(HeaderAt(tar, offset)) == Some(size)
  }

  lemma JumpOf(tar: seq<Byte>, offset: int, size: int)
    requires Sized(tar, offset, size)
    ensures Jumps(tar)(offset) == Some(PassAt(tar, offset).offset)
            && PassAt(tar, offset).Next? && offset + BLOCK <= |tar|
  {
  }

  lemma StuckJump(tar: seq<Byte>, offset: int, size: int)
    requires Sized(tar, offset, size) && -1024 < size <= -512
    ensures Jumps(tar)(offset) == Some(offset)
  {
    JumpOf(tar, offset, size);
    WhenPassMoves(tar, offset);
  }

  /** A header of size -512 to -1023 that the loop comes to is read for ever. */
  lemma StuckForEver(tar: seq<Byte>, from: int, k: nat, offset: int, size: int)
    requires Visits(Jumps(tar), from, k, offset) && Sized(tar, offset, size) && -1024 < size <= -512
    ensures !Ends(Jumps(tar), from)
  {
    var jump := Jumps(tar);
    StuckJump(tar, offset, size);
    EndsFrom(jump, from, k);
    forall n: nat ensures !EndsWithin(jump, offset, n) {
      assert At(jump, offset, 1) == At(jump, offset, 0);
      CycleNeverEnds(jump, offset, 1, n);
    }
  }

  /** Every pass the loop comes to parsed a size of at least `least`. */
  ghost predicate SizesFrom(tar: seq<Byte>, from: int, least: int) {
    forall k: nat, offset, size :: Visits(Jumps(tar), from, k, offset) && Sized(tar, offset, size) ==> size >= least
  }

  lemma SizesLater(tar: seq<Byte>, from: int, least: int)
    requires SizesFrom(tar, from, least) && Jumps(tar)(from).Some?
    ensures SizesFrom(tar, Jumps(tar)(from).value, least)
  {
    var next := Jumps(tar)(from).value;
    forall k: nat, offset, size | Visits(Jumps(tar), next, k, offset) && Sized(tar, offset, size)
      ensures size >= least
    {
      assert Visits(Jumps(tar), from, k + 1, offset);
    }
  }

  lemma ForwardJump(tar: seq<Byte>, from: int)
    requires SizesFrom(tar, from, -511) && Jumps(tar)(from).Some?
    ensures from < Jumps(tar)(from).value && from < |tar|
  {
    var size := SizeOf(HeaderAt(tar, from)).value;
    var k: nat := 0;
    assert Visits(Jumps(tar), from, k, from) && Sized(tar, from, size);
    WhenPassMoves(tar, from);
  }

  lemma {:induction false} ForwardEnds(tar: seq<Byte>, from: int)
    requires SizesFrom(tar, from, -511)
    ensures Ends(Jumps(tar), from)
    decreases |tar| - from
  {
    var jump := Jumps(tar);
    if jump(from).Some? {
      ForwardJump(tar, from);
      SizesLater(tar, from, -511);
      ForwardEnds(tar, jump(from).value);
      OneMoreJump(jump, from);
    } else {
      var n: nat := 0;
      assert EndsWithin(jump, from, n);
    }
  }

  /** Where nothing goes back, the loop ends if and only if every size it comes to is over -512. */
  lemma WhenNothingGoesBack(tar: seq<Byte>, from: int)
    requires SizesFrom(tar, from, -1023)
    ensures Ends(Jumps(tar), from) <==> SizesFrom(tar, from, -511)
  {
    if SizesFrom(tar, from, -511) {
      ForwardEnds(tar, from);
    } else {
      var k: nat, offset, size :| Visits(Jumps(tar), from, k, offset) && Sized(tar, offset, size) && size < -511;
      StuckForEver(tar, from, k, offset, size);
    }
  }

  // Two archives

  /** A header whose size field is a minus sign and ten octal digits. */
  function NegativeHeader(size: nat): (h: seq<Byte>)
    ensures |h| == BLOCK
  {
    Overwrite(Header([97], 0), 124, [45] + PadStart(OctalDigits(size), 10) + [0])
  }

  lemma NegativeReads(size: nat)
    requires size < Pow8(10)
    ensures var text := [45] + PadStart(OctalDigits(size), 10);
      && |text| == 11 && (forall i :: 0 <= i < |text| ==> text[i] != 0)
      && TrimEnd(TrimStart(text)) == text && ParseOctal(text).Some? && ParseOctal(text).value + size == 0
  {
    var digits := PadStart(OctalDigits(size), 10);
    var text := [45] + digits;
    PaddedNumber(size, 10);
    assert text[1..] == digits;
    DigitsLead(digits);
    assert TrimStart(text) == text && OctalDigit(text[|text| - 1]) && TrimEnd(text) == text;
  }

  lemma NegativeField(size: nat)
    requires size < Pow8(10)
    ensures SizeOf(NegativeHeader(size)).Some? && SizeOf(NegativeHeader(size)).value + size == 0
    ensures NegativeHeader(size)[124] == 45
  {
    var h, text := NegativeHeader(size), [45] + PadStart(OctalDigits(size), 10);
    NegativeReads(size);
    OverwriteHere(Header([97], 0), 124, text + [0]);
    NulEnds(text, []);
    assert text + [0] + [] == text + [0];
    assert h[124] == h[124..136][0] == 45;
  }

  lemma NegativeIsRegular(size: nat)
    requires size < Pow8(10)
    ensures NegativeHeader(size)[156] == 48
  {
    var text := [45] + PadStart(OctalDigits(size), 10) + [0];
    NegativeReads(size);
    HeaderFields([97], 0);
    OverwriteApart(Header([97], 0), 124, text, 156, 157);
    assert NegativeHeader(size)[156] == NegativeHeader(size)[156..157][0];
  }

  lemma FirstHeader(header: seq<Byte>, after: seq<Byte>)
    requires |header| == BLOCK
    ensures HeaderAt(header + after, 0) == header
  {
  }

  /** The header of a regular file whose size parses. */
  predicate IsFileHeader(header: seq<Byte>, size: int) {
    |header| == BLOCK && !AllZero(header) && header[124] < 128 && header[156] == 48 && SizeOf(header) == Some(size)
  }

  lemma FirstPass(header: seq<Byte>, after: seq<Byte>, size: int)
    requires IsFileHeader(header, size)
    ensures Sized(header + after, 0, size) && PassAt(header + after, 0).entry.Some?
  {
    FirstHeader(header, after);
  }

  /** There are such headers for negative sizes. */
  lemma NegativeIsFile(size: nat)
    requires 0 < size < Pow8(10)
    ensures IsFileHeader(NegativeHeader(size), 0 - size)
  {
    NegativeField(size);
    NegativeIsRegular(size);
  }

  /** An archive that begins with one, of size -512 to -1023, is never read to its end. */
  lemma NegativeSizeSticks(header: seq<Byte>, size: int, after: seq<Byte>)
    requires IsFileHeader(header, size) && -1024 < size <= -512
    ensures !Ends(Jumps(header + after), 0)
  {
    FirstPass(header, after, size);
    var k: nat := 0;
    StuckForEver(header + after, 0, k, 0, size);
  }

  /** From -1024 to -1535 the reader goes back to before the start, finds no header there, and answers the one file. */
  lemma GoingBackCanEnd(header: seq<Byte>, size: int, after: seq<Byte>)
    requires IsFileHeader(header, size) && -1536 < size <= -1024
    ensures var tar := header + after;
      Ends(Jumps(tar), 0) && ReadFrom(tar, 0).Ok? && |ReadFrom(tar, 0).value| == 1
  {
    FirstPass(header, after, size);
    BackToStart(header + after, size);
  }

  lemma BackToStart(tar: seq<Byte>, size: int)
    requires -1536 < size <= -1024 && Sized(tar, 0, size) && PassAt(tar, 0).entry.Some?
    ensures Ends(Jumps(tar), 0) && ReadFrom(tar, 0).Ok? && |ReadFrom(tar, 0).value| == 1
  {
    JumpOf(tar, 0, size);
    WhenPassMoves(tar, 0);
    assert (size + BLOCK - 1) / BLOCK == -2;
    EndsBeforeStart(tar);
    OneFileRead(tar);
  }

  lemma EndsBeforeStart(tar: seq<Byte>)
    ensures Ends(Jumps(tar), -512) && ReadFrom(tar, -512) == Ok([])
  {
    assert HeaderAt(tar, -512) == [];
    EndsAtOnce(tar, -512);
  }

  lemma OneFileRead(tar: seq<Byte>)
    requires BLOCK <= |tar| && PassAt(tar, 0).Next? && PassAt(tar, 0).entry.Some? && PassAt(tar, 0).offset == -512
    requires Ends(Jumps(tar), -512) && ReadFrom(tar, -512) == Ok([])
    ensures Ends(Jumps(tar), 0) && ReadFrom(tar, 0).Ok? && |ReadFrom(tar, 0).value| == 1
  {
    ReadNext(tar, 0, PassAt(tar, 0).entry.value, -512, []);
  }
}
