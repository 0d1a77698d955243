/** Which files a written archive gives back: names are written as UTF-8 and read one character a byte. */
module TarText {
  import opened Wrappers
  import opened Loops
  import opened Encodings
  import opened Tar
  import opened TarTheorems

  /** A name of ASCII characters other than NUL. */
  predicate IsPlain(name: Text) {
    forall i :: 0 <= i < |name| ==> 1 <= name[i] < 0x80
  }

  /** The name a file comes back with. */
  function NameBack(name: Text): Text {
    Latin1(CutName(Fitting(name, BLOCK)))
  }

  /** A name whose encoding fits the field comes back if and only if it is plain. */
  lemma ShortNameReads(name: Text)
    requires |Utf8(name)| <= 100
    ensures NameBack(name) == name <==> IsPlain(name)
  {
    var written := Utf8(name);
    FitsWhole(name, BLOCK);
    ShortCut(written);
    Utf8Lengthens(name);
    ZeroIsNul(name);
    UntilNulShortens(written);
    if IsPlain(name) {
      NulEnds(written, []);
      AsciiReads(written);
    }
    NoNulReadsNone(UntilNul(written));
    if 0 !in written { NulEnds(written, []); }
  }

  /** A plain name that does not fit is cut, or comes back with a slash it did not have. */
  lemma LongPlainNameIsCut(name: Text)
    requires IsPlain(name) && |name| > 100
    ensures NameBack(name) != name
  {
    var written := Fitting(name, BLOCK);
    PlainFits(name, BLOCK);
    UntilNulShortens(Slice(written, 345, 500));
    UntilNulShortens(Slice(written, 0, 100));
  }

  lemma {:induction false} PlainFits(name: Text, room: nat)
    requires IsPlain(name)
    ensures |Fitting(name, room)| == if |name| <= room then |name| else room
  {
    if name != [] && room > 0 { PlainFits(name[1..], room - 1); }
  }

  lemma NameComesBack(name: Text)
    ensures |Utf8(name)| <= 100 ==> (NameBack(name) == name <==> IsPlain(name))
    ensures IsPlain(name) ==> (NameBack(name) == name <==> |name| <= 100)
  {
    Utf8Lengthens(name);
    if |Utf8(name)| <= 100 { ShortNameReads(name); }
    if IsPlain(name) && |name| > 100 { LongPlainNameIsCut(name); }
  }

  /**
   A file's bytes always come back; a name whose encoding fits the field does if and only if it is plain, and one whose
   encoding does not, exactly when what is left of it happens to spell it, which for a plain name it never does.
   */
  lemma WhatRoundTrips(file: File)
    requires |file.bytes| < Pow8(11)
    ensures var tar := Written(Encoded(file));
      && Ends(Jumps(tar), 0) && FilesOf(tar) == Ok([File(NameBack(file.name), file.bytes)])
      && (FilesOf(tar) == Ok([file])
          <==> if |Utf8(file.name)| <= 100 then IsPlain(file.name) else NameBack(file.name) == file.name)
      && (IsPlain(file.name) ==> (FilesOf(tar) == Ok([file]) <==> |file.name| <= 100))
  {
    var back := File(NameBack(file.name), file.bytes);
    EntryReadsBack(Encoded(file));
    assert AllDecoded([Entry(CutName(Encoded(file).name), file.bytes)]) == [back];
    assert [back] == [file] <==> back == file by { assert [back][0] == back && [file][0] == file; }
    NameComesBack(file.name);
  }

  /** What writer and reader keep: a name of at most 100 plain characters, and data below 8^11 bytes. */
  predicate Keepable(file: File) {
    |file.name| <= 100 && IsPlain(file.name) && |file.bytes| < Pow8(11)
  }

  function AllEncoded(files: seq<File>): (entries: seq<Entry>)
    ensures |entries| == |files|
  {
    seq(|files|, i requires 0 <= i < |files| => Encoded(files[i]))
  }

  lemma KeepableIsStorable(file: File)
    requires Keepable(file)
    ensures Storable(Encoded(file)) && Decoded(Encoded(file)) == file
  {
    Utf8Lengthens(file.name);
    FitsWhole(file.name, BLOCK);
    AsciiReads(Utf8(file.name));
  }

  /** Reading back an archive of such files, with or without a trailer of zeros, gives those files in order. */
  lemma RoundTrip(files: seq<File>, trailer: seq<Byte>)
    requires forall i :: 0 <= i < |files| ==> Keepable(files[i])
    requires AllZero(trailer)
    ensures Ends(Jumps(Archive(AllEncoded(files)) + trailer), 0)
    ensures FilesOf(Archive(AllEncoded(files)) + trailer) == Ok(files)
  {
    var entries := AllEncoded(files);
    forall i | 0 <= i < |files| ensures Storable(entries[i]) && Decoded(entries[i]) == files[i] {
      KeepableIsStorable(files[i]);
    }
    EntriesReadBack(entries, trailer);
    assert AllDecoded(entries) == files;
  }

  /** A name of one accented letter comes back as two others. */
  lemma AccentIsGarbled(data: seq<Byte>)
    requires |data| < Pow8(11)
    ensures var tar := Written(Encoded(File([0xE9], data)));
      Ends(Jumps(tar), 0) && FilesOf(tar) == Ok([File([0xC3, 0xA9], data)])
  {
    AccentIsCut();
    WhatRoundTrips(File([0xE9], data));
  }

  lemma AccentIsCut()
    ensures NameBack([0xE9]) == [0xC3, 0xA9]
  {
    var name: Text := [0xE9];
    assert Utf8(name) == Utf8Char(0xE9) + Utf8([]) == [0xC3, 0xA9];
    FitsWhole(name, BLOCK);
    ShortCut([0xC3, 0xA9]);
    NulEnds([0xC3, 0xA9], []);
    assert Latin1([0xC3, 0xA9]) == [Latin1Char(0xC3)] + Latin1([0xA9]);
    assert Latin1([0xA9]) == [Latin1Char(0xA9)] + Latin1([]);
  }

  /** And one of the euro sign as three: the decoder takes its middle byte for a low quotation mark. */
  lemma EuroIsGarbled(data: seq<Byte>)
    requires |data| < Pow8(11)
    ensures var tar := Written(Encoded(File([0x20AC], data)));
      Ends(Jumps(tar), 0) && FilesOf(tar) == Ok([File([0xE2, 0x201A, 0xAC], data)])
  {
    EuroIsCut();
    WhatRoundTrips(File([0x20AC], data));
  }

  lemma EuroIsCut()
    ensures NameBack([0x20AC]) == [0xE2, 0x201A, 0xAC]
  {
    var name: Text := [0x20AC];
    var bytes: seq<Byte> := [0xE2, 0x82, 0xAC];
    assert Utf8(name) == Utf8Char(0x20AC) + Utf8([]) == bytes;
    FitsWhole(name, BLOCK);
    ShortCut(bytes);
    NulEnds(bytes, []);
    assert Latin1(bytes) == [Latin1Char(0xE2)] + Latin1([0x82, 0xAC]);
    assert Latin1([0x82, 0xAC]) == [Latin1Char(0x82)] + Latin1([0xAC]);
    assert Latin1([0xAC]) == [Latin1Char(0xAC)] + Latin1([]);
  }
}
