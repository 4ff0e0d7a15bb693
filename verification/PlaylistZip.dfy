/**
 * The portable playlist ZIP: the writer of portable_playlists.py and the strict reader of
 * playlist_bundle.py, over the header layouts of APPNOTE.TXT sections 4.3.7 (local file header),
 * 4.3.12 (central directory), 4.3.14 and 4.3.15 (the ZIP64 record and its locator) and 4.3.16 (end
 * of central directory). The directory is found and read as Python's `zipfile` does it. CRC-32 and
 * SHA-256 are parameters: nothing below depends on what they compute.
 */
module PlaylistZip {
  import opened Basics
  import opened Packing

  type Word = w: int | 0 <= w < 0x1_0000_0000
  type Checksum = Bytes -> Word

  const MAX_MANIFEST_BYTES := 256 * 1024
  const MAX_SOURCE_DOCUMENT_BYTES := 256 * 1024
  const MAX_JPEG_BYTES := 192 * 1024
  const MAX_PLAYLIST_ZIP_BYTES := 1024 * 1024

  const LOCAL_SIGNATURE := 0x0403_4b50
  const CENTRAL_SIGNATURE := 0x0201_4b50
  const END_SIGNATURE := 0x0605_4b50
  const LOCATOR_SIGNATURE := 0x0706_4b50
  const RECORD64_SIGNATURE := 0x0606_4b50
  /** 1 January 1980 in MS-DOS form; the matching time field is 0. */
  const EPOCH := 33
  /** A regular file with mode 0600, in the upper half of the external attributes. */
  const REGULAR_0600 := 0x8180 * 0x1_0000

  /** The formats "<4s5H3I2H", "<4s4B4H3L5H2L" and "<4s4H2IH" of Python's struct module. */
  const LOCAL := [4] + Repeat(5, 2) + Repeat(3, 4) + Repeat(2, 2)
  const CENTRAL := [4] + Repeat(4, 1) + Repeat(4, 2) + Repeat(3, 4) + Repeat(5, 2) + Repeat(2, 4)
  const END := [4] + Repeat(4, 2) + Repeat(2, 4) + [2]
  /** The formats "<4sQ2H2L4Q" and "<4sLQL". */
  const RECORD64 := [4, 8] + Repeat(2, 2) + Repeat(2, 4) + Repeat(4, 8)
  const LOCATOR := [4, 4, 8, 4]
  const LOCAL_BYTES := 30
  const CENTRAL_BYTES := 46
  const END_BYTES := 22
  const RECORD64_BYTES := 56
  const LOCATOR_BYTES := 20

  lemma HeaderSizes()
    ensures Size(LOCAL) == LOCAL_BYTES && Size(CENTRAL) == CENTRAL_BYTES && Size(END) == END_BYTES
  {
    hide Repeat;
    SizeRepeat([4], 5, 2);
    SizeRepeat([4] + Repeat(5, 2), 3, 4);
    SizeRepeat([4] + Repeat(5, 2) + Repeat(3, 4), 2, 2);
    SizeRepeat([4], 4, 1);
    SizeRepeat([4] + Repeat(4, 1), 4, 2);
    SizeRepeat([4] + Repeat(4, 1) + Repeat(4, 2), 3, 4);
    SizeRepeat([4] + Repeat(4, 1) + Repeat(4, 2) + Repeat(3, 4), 5, 2);
    SizeRepeat([4] + Repeat(4, 1) + Repeat(4, 2) + Repeat(3, 4) + Repeat(5, 2), 2, 4);
    SizeRepeat([4], 4, 2);
    SizeRepeat([4] + Repeat(4, 2), 2, 4);
    SizeConcat([4] + Repeat(4, 2) + Repeat(2, 4), [2]);
    assert Size([4]) == 4 && Size([2]) == 2;
  }

  lemma Zip64Sizes()
    ensures Size(RECORD64) == RECORD64_BYTES && Size(LOCATOR) == LOCATOR_BYTES
    ensures |RECORD64| == 10 && RECORD64[0] == 4 && LOCATOR[0] == 4
  {
    hide Repeat;
    SizeRepeat([4, 8], 2, 2);
    SizeRepeat([4, 8] + Repeat(2, 2), 2, 4);
    SizeRepeat([4, 8] + Repeat(2, 2) + Repeat(2, 4), 4, 8);
    assert Size([4, 8]) == 12 by {
      assert [4, 8][1..] == [8] && Size([8]) == 8;
    }
    assert LOCATOR[1..] == [4, 8, 4] && LOCATOR[1..][1..] == [8, 4] && Size([8, 4]) == 12;
  }

  lemma Spans()
    ensures Span(1) == 0x100 && Span(2) == 0x1_0000 && Span(4) == 0x1_0000_0000
  {
    assert Span(3) == 256 * Span(2);
  }

  // ---------------------------------------------------------------- central directory records

  /** One central directory record: the lengths it declares, and the bytes that were read for them. */
  datatype Entry = Entry(
    createVersion: nat, createSystem: nat, extractVersion: nat, reserved: nat, flagBits: nat,
    compression: nat, time: nat, date: nat, crc: nat, compressedSize: nat, fileSize: nat,
    nameLength: nat, extraLength: nat, commentLength: nat,
    volume: nat, internalAttributes: nat, externalAttributes: nat, headerOffset: nat,
    name: Bytes, extra: Bytes, comment: Bytes)

  function EntryFields(e: Entry): (fields: seq<nat>)
    ensures |fields| == |CENTRAL|
  {
    [CENTRAL_SIGNATURE, e.createVersion, e.createSystem, e.extractVersion, e.reserved, e.flagBits,
     e.compression, e.time, e.date, e.crc, e.compressedSize, e.fileSize,
     e.nameLength, e.extraLength, e.commentLength, e.volume, e.internalAttributes, e.externalAttributes, e.headerOffset]
  }

  ghost predicate Sized(e: Entry) {
    Fits(CENTRAL, EntryFields(e))
  }

  function Record(e: Entry): (bytes: Bytes)
    ensures |bytes| == CENTRAL_BYTES + |e.name| + |e.extra| + |e.comment|
  {
    HeaderSizes();
    Pack(CENTRAL, EntryFields(e)) + (e.name + e.extra + e.comment)
  }

  function Records(es: seq<Entry>): Bytes {
    if es == [] then [] else Record(es[0]) + Records(es[1..])
  }

  ghost predicate AllSized(es: seq<Entry>) {
    forall i :: 0 <= i < |es| ==> Sized(es[i])
  }

  /** The record declares what it holds. */
  predicate Exact(e: Entry) {
    e.nameLength == |e.name| && e.extraLength == |e.extra| && e.commentLength == |e.comment|
  }

  /** The same record with the lengths of what was read. */
  function Trimmed(e: Entry): (exact: Entry)
    ensures Exact(exact) && (Exact(e) <==> exact == e)
  {
    e.(nameLength := |e.name|, extraLength := |e.extra|, commentLength := |e.comment|)
  }

  /** What reads that stop short at the end leave: a part may be cut off, and then no later part has bytes. */
  predicate ReadShort(e: Entry) {
    && |e.name| <= e.nameLength && |e.extra| <= e.extraLength && |e.comment| <= e.commentLength
    && (|e.name| < e.nameLength ==> e.extra == [])
    && (|e.name| < e.nameLength || |e.extra| < e.extraLength ==> e.comment == [])
  }

  function Min(a: nat, b: nat): nat {
    if a <= b then a else b
  }

  /** The record that starts the bytes, if one does; lengths past the end read fewer bytes. */
  function DecodeRecord(bytes: Bytes): (e: Option<Entry>) {
    HeaderSizes();
    if |bytes| < CENTRAL_BYTES then None else
      var v := Unpack(CENTRAL, bytes[..CENTRAL_BYTES]);
      var extra := Min(CENTRAL_BYTES + v[12], |bytes|);
      var comment := Min(extra + v[13], |bytes|);
      var end := Min(comment + v[14], |bytes|);
      if v[0] != CENTRAL_SIGNATURE then None
      else Some(Entry(v[1], v[2], v[3], v[4], v[5], v[6], v[7], v[8], v[9], v[10], v[11], v[12], v[13], v[14],
                      v[15], v[16], v[17], v[18],
                      bytes[CENTRAL_BYTES..extra], bytes[extra..comment], bytes[comment..end]))
  }

  lemma DecodedHeader(bytes: Bytes)
    requires DecodeRecord(bytes).Some?
    ensures var e := DecodeRecord(bytes).value;
            Sized(e) && Pack(CENTRAL, EntryFields(e)) == bytes[..CENTRAL_BYTES]
  {
    hide Pack, Unpack, Size;
    HeaderSizes();
    PackUnpack(CENTRAL, bytes[..CENTRAL_BYTES]);
    assert EntryFields(DecodeRecord(bytes).value) == Unpack(CENTRAL, bytes[..CENTRAL_BYTES]);
  }

  lemma DecodedRecord(bytes: Bytes)
    requires DecodeRecord(bytes).Some?
    ensures var e := DecodeRecord(bytes).value;
            && Sized(e) && Record(e) <= bytes && ReadShort(e)
            && (Exact(e) || Record(e) == bytes)
  {
    hide Pack, Unpack, Size, EntryFields, Sized;
    HeaderSizes();
    DecodedHeader(bytes);
    var e := DecodeRecord(bytes).value;
    var extra := CENTRAL_BYTES + |e.name|;
    var comment := extra + |e.extra|;
    var end := comment + |e.comment|;
    assert e.name == bytes[CENTRAL_BYTES..extra];
    assert e.extra == bytes[extra..comment] && e.comment == bytes[comment..end];
    assert bytes[..CENTRAL_BYTES] + (e.name + e.extra + e.comment) == bytes[..end];
    assert Exact(e) || end == |bytes|;
    assert bytes[..|bytes|] == bytes;
  }

  /** A record decodes as itself, if it declares what it holds or is the last one. */
  lemma RecordDecodes(e: Entry, rest: Bytes)
    requires Sized(e) && ReadShort(e) && (Exact(e) || rest == [])
    ensures DecodeRecord(Record(e) + rest) == Some(e)
  {
    hide Pack, Unpack, Size;
    HeaderSizes();
    var bytes := Record(e) + rest;
    UnpackPack(CENTRAL, EntryFields(e));
    assert bytes[..CENTRAL_BYTES] == Pack(CENTRAL, EntryFields(e));
    var extra := CENTRAL_BYTES + |e.name|;
    var comment := extra + |e.extra|;
    assert bytes[CENTRAL_BYTES..extra] == e.name;
    assert bytes[extra..comment] == e.extra;
    assert bytes[comment..comment + |e.comment|] == e.comment;
  }

  lemma {:induction false} RecordsAppend(es: seq<Entry>, e: Entry)
    ensures Records(es + [e]) == Records(es) + Record(e)
  {
    hide Record;
    if es == [] {
      assert es + [e] == [e];
    } else {
      RecordsAppend(es[1..], e);
      assert (es + [e])[1..] == es[1..] + [e];
    }
  }

  /** Every record but the last declares what it holds, and the last one was read as far as there were bytes. */
  ghost predicate ReadOff(es: seq<Entry>) {
    && AllSized(es)
    && (forall i :: 0 <= i < |es| ==> ReadShort(es[i]))
    && (forall i :: 0 <= i < |es| - 1 ==> Exact(es[i]))
  }

  lemma ReadOffTail(es: seq<Entry>)
    requires ReadOff(es) && es != []
    ensures Sized(es[0]) && ReadShort(es[0]) && ReadOff(es[1..])
    ensures Exact(es[0]) || es[1..] == []
  {
    hide Sized, ReadShort, Exact;
  }

  lemma NoRecords(es: seq<Entry>)
    ensures Records(es) == [] ==> es == []
  {
    hide Record;
  }

  /** Records cannot be read in two ways. */
  lemma {:induction false} RecordsInjective(es: seq<Entry>, gs: seq<Entry>)
    requires ReadOff(es) && ReadOff(gs) && Records(es) == Records(gs)
    ensures es == gs
  {
    hide Record, DecodeRecord, ReadOff, Sized, ReadShort, Exact;
    NoRecords(es);
    NoRecords(gs);
    if es != [] && gs != [] {
      ReadOffTail(es);
      ReadOffTail(gs);
      RecordDecodes(es[0], Records(es[1..]));
      RecordDecodes(gs[0], Records(gs[1..]));
      assert Records(es)[|Record(es[0])|..] == Records(es[1..]);
      assert Records(gs)[|Record(gs[0])|..] == Records(gs[1..]);
      RecordsInjective(es[1..], gs[1..]);
    }
  }

  /** How far the lengths in its records say that a directory reaches. */
  function DeclaredTotal(directory: Bytes): nat {
    HeaderSizes();
    if |directory| < CENTRAL_BYTES then 0 else
      var v := Unpack(CENTRAL, directory[..CENTRAL_BYTES]);
      var end := CENTRAL_BYTES + v[12] + v[13] + v[14];
      end + if end < |directory| then DeclaredTotal(directory[end..]) else 0
  }

  lemma DeclaredOne(e: Entry, rest: Bytes)
    requires Sized(e) && ReadShort(e) && (Exact(e) || rest == [])
    ensures var end := CENTRAL_BYTES + e.nameLength + e.extraLength + e.commentLength;
            && end >= |Record(e)| && (end == |Record(e)| <==> Exact(e))
            && DeclaredTotal(Record(e) + rest) == end + if rest == [] then 0 else DeclaredTotal(rest)
  {
    hide Pack, Unpack, Size, Fits;
    HeaderSizes();
    var bytes := Record(e) + rest;
    UnpackPack(CENTRAL, EntryFields(e));
    assert bytes[..CENTRAL_BYTES] == Pack(CENTRAL, EntryFields(e));
    if rest != [] {
      assert bytes[|Record(e)|..] == rest;
    }
  }

  /** The directory ends where its records say exactly if the last one declares what it holds, too. */
  lemma {:induction false} DeclaredIsExact(es: seq<Entry>)
    requires ReadOff(es) && es != []
    ensures DeclaredTotal(Records(es)) >= |Records(es)|
    ensures DeclaredTotal(Records(es)) == |Records(es)| <==> Exact(es[|es| - 1])
  {
    hide Record, ReadOff, Sized, ReadShort, Exact, DeclaredTotal;
    ReadOffTail(es);
    DeclaredOne(es[0], Records(es[1..]));
    NoRecords(es[1..]);
    if |es| > 1 {
      DeclaredIsExact(es[1..]);
    } else {
      assert es[1..] == [];
    }
  }

  lemma ReadOffExtends(es: seq<Entry>, e: Entry)
    requires ReadOff(es) && Sized(e) && ReadShort(e)
    requires forall i :: 0 <= i < |es| ==> Exact(es[i])
    ensures ReadOff(es + [e])
  {
    hide Sized, ReadShort, Exact;
  }

  /**
   * The loop of `ZipFile`: it ends once the lengths it has seen declared reach the extent of the
   * directory, and a length that reaches past the end reads fewer bytes.
   */
  method ReadDirectory(directory: Bytes) returns (entries: Option<seq<Entry>>)
    ensures entries.Some? ==> ReadOff(entries.value) && Records(entries.value) == directory
    ensures entries.None? ==> forall es :: ReadOff(es) ==> Records(es) != directory
  {
    hide Record, DecodeRecord, Sized, ReadShort, Exact, ReadOff;
    var es: seq<Entry> := [];
    var position, total := 0, 0;
    Nothing();
    while total < |directory|
      invariant 0 <= position <= |directory| && position <= total
      invariant ReadOff(es) && Records(es) == directory[..position]
      invariant total < |directory| ==> total == position && forall i :: 0 <= i < |es| ==> Exact(es[i])
      invariant total >= |directory| ==> position == |directory|
      invariant forall gs :: ReadOff(gs) && Records(gs) == directory && position < |directory| ==>
                  es <= gs && Records(gs[|es|..]) == directory[position..]
      decreases |directory| - total
    {
      var rest := directory[position..];
      var e := DecodeRecord(rest);
      forall gs | ReadOff(gs) && Records(gs) == directory
        ensures e.Some? && es + [e.value] <= gs && |Record(e.value)| <= |rest|
        ensures Records(gs[|es| + 1..]) == rest[|Record(e.value)|..]
      {
        NextRecord(es, gs, rest);
      }
      if e.None? {
        return None;
      }
      DecodedRecord(rest);
      ExactLengths(e.value);
      RecordsAppend(es, e.value);
      ReadOffExtends(es, e.value);
      var next := position + |Record(e.value)|;
      assert directory[..next] == directory[..position] + rest[..next - position];
      assert directory[next..] == rest[next - position..];
      total := total + CENTRAL_BYTES + e.value.nameLength + e.value.extraLength + e.value.commentLength;
      es, position := es + [e.value], next;
    }
    assert directory[..position] == directory;
    return Some(es);
  }

  lemma Nothing()
    ensures ReadOff([]) && Records([]) == []
  {
  }

  lemma ExactLengths(e: Entry)
    ensures Exact(e) ==> CENTRAL_BYTES + e.nameLength + e.extraLength + e.commentLength == |Record(e)|
    ensures ReadShort(e) ==> CENTRAL_BYTES + e.nameLength + e.extraLength + e.commentLength >= |Record(e)|
    ensures ReadShort(e) && !Exact(e) ==>
              CENTRAL_BYTES + e.nameLength + e.extraLength + e.commentLength > |Record(e)|
  {
  }

  /** The next record of any reading is the one that the remaining bytes start with. */
  lemma {:induction false} NextRecord(es: seq<Entry>, gs: seq<Entry>, rest: Bytes)
    requires ReadOff(gs) && es <= gs && Records(gs[|es|..]) == rest && rest != []
    ensures |es| < |gs| && DecodeRecord(rest) == Some(gs[|es|])
    ensures es + [gs[|es|]] <= gs && |Record(gs[|es|])| <= |rest|
    ensures Records(gs[|es| + 1..]) == rest[|Record(gs[|es|])|..]
  {
    hide Record, DecodeRecord, Sized, ReadShort, Exact;
    var tail := gs[|es|..];
    assert tail[1..] == gs[|es| + 1..];
    assert ReadOff(tail);
    ReadOffTail(tail);
    RecordDecodes(tail[0], Records(tail[1..]));
    assert Records(tail) == Record(tail[0]) + Records(tail[1..]);
    assert rest[|Record(tail[0])|..] == Records(tail[1..]);
  }

  // ---------------------------------------------------------------- the archive

  datatype File = File(name: Bytes, data: Bytes)

  function LocalFields(crc: Checksum, f: File): (fields: seq<nat>)
    ensures |fields| == |LOCAL|
  {
    [LOCAL_SIGNATURE, 20, 0, 0, 0, EPOCH, crc(f.data), |f.data|, |f.data|, |f.name|, 0]
  }

  /** A stored member: its header, its name and its bytes. */
  function Local(crc: Checksum, f: File): (bytes: Bytes)
    ensures |bytes| == LOCAL_BYTES + |f.name| + |f.data|
  {
    HeaderSizes();
    Pack(LOCAL, LocalFields(crc, f)) + f.name + f.data
  }

  function Locals(crc: Checksum, fs: seq<File>): Bytes {
    if fs == [] then [] else Locals(crc, fs[..|fs| - 1]) + Local(crc, fs[|fs| - 1])
  }

  /** The directory record of a member whose local header starts at `offset`. */
  function EntryFor(crc: Checksum, f: File, offset: nat): Entry {
    Entry(20, 3, 20, 0, 0, 0, 0, EPOCH, crc(f.data), |f.data|, |f.data|, |f.name|, 0, 0,
          0, 0, REGULAR_0600, offset, f.name, [], [])
  }

  function Directory(crc: Checksum, fs: seq<File>): (entries: seq<Entry>)
    ensures |entries| == |fs|
    ensures forall i :: 0 <= i < |fs| ==> entries[i] == EntryFor(crc, fs[i], |Locals(crc, fs[..i])|)
  {
    seq(|fs|, i requires 0 <= i < |fs| => EntryFor(crc, fs[i], |Locals(crc, fs[..i])|))
  }

  function EndFields(entries: nat, size: nat, offset: nat): (fields: seq<nat>)
    ensures |fields| == |END|
  {
    [END_SIGNATURE, 0, 0, entries, entries, size, offset, 0]
  }

  /** Members, then their directory, then the end record: nothing before, between or after. */
  function Archive(crc: Checksum, fs: seq<File>): Bytes {
    var locals := Locals(crc, fs);
    var directory := Records(Directory(crc, fs));
    locals + directory + Pack(END, EndFields(|fs|, |directory|, |locals|))
  }

  /** The lengths that a directory record declares for its name, its extra field and its comment. */
  datatype Lengths = Lengths(name: nat, extra: nat, comment: nat)

  /** A name length that the name does not exceed, and any other two, all of two bytes. */
  predicate Overrun(fs: seq<File>, lengths: Lengths) {
    fs != [] && |fs[|fs| - 1].name| <= lengths.name < 0x1_0000 && lengths.extra < 0x1_0000 && lengths.comment < 0x1_0000
  }

  /** The lengths with which the writer's last record declares what it holds. */
  function TrueLengths(fs: seq<File>): Lengths
    requires fs != []
  {
    Lengths(|fs[|fs| - 1].name|, 0, 0)
  }

  /** The writer's directory with other lengths in its last record. */
  function LooseDirectory(crc: Checksum, fs: seq<File>, lengths: Lengths): (entries: seq<Entry>)
    requires fs != []
    ensures |entries| == |fs|
  {
    var es := Directory(crc, fs);
    es[|es| - 1 := es[|es| - 1].(nameLength := lengths.name, extraLength := lengths.extra,
                                 commentLength := lengths.comment)]
  }

  /** The writer's archive but for the three length fields of its last directory record. */
  function LooseArchive(crc: Checksum, fs: seq<File>, lengths: Lengths): Bytes
    requires fs != []
  {
    var locals := Locals(crc, fs);
    var directory := Records(LooseDirectory(crc, fs, lengths));
    locals + directory + Pack(END, EndFields(|fs|, |directory|, |locals|))
  }

  lemma TrueDirectory(crc: Checksum, fs: seq<File>)
    requires fs != []
    ensures LooseDirectory(crc, fs, TrueLengths(fs)) == Directory(crc, fs)
  {
    hide Locals, Directory;
    var es, last := Directory(crc, fs), |fs| - 1;
    assert es[last] == EntryFor(crc, fs[last], |Locals(crc, fs[..last])|);
    assert LooseDirectory(crc, fs, TrueLengths(fs)) == es[last := es[last]];
  }

  lemma TrueLengthsAreTight(crc: Checksum, fs: seq<File>)
    requires fs != []
    ensures LooseArchive(crc, fs, TrueLengths(fs)) == Archive(crc, fs)
  {
    hide Records, Pack, Locals, LooseDirectory;
    TrueDirectory(crc, fs);
  }

  // ---------------------------------------------------------------- what a portable playlist may hold

  function Ascii(text: string): (bytes: Bytes)
    requires forall i :: 0 <= i < |text| ==> text[i] < 128 as char
    ensures |bytes| == |text| && forall i :: 0 <= i < |text| ==> bytes[i] == text[i] as int
  {
    seq(|text|, i requires 0 <= i < |text| => text[i] as int)
  }

  const MANIFEST := Ascii("manifest.json")
  const MANIFEST_DIGEST := Ascii("manifest.sha256")
  const SOURCES := Ascii("sources.json")

  predicate LowerHex(b: Byte) {
    '0' as int <= b <= '9' as int || 'a' as int <= b <= 'f' as int
  }

  /** covers/[0-9a-f]{64}\.jpg */
  predicate CoverName(name: Bytes) {
    && |name| == 75
    && name[..7] == Ascii("covers/")
    && (forall i :: 7 <= i < 71 ==> LowerHex(name[i]))
    && name[71..] == Ascii(".jpg")
  }

  /** How many bytes a member of this name may hold; 0 for a name that may not appear. */
  function Limit(name: Bytes): nat {
    if name == MANIFEST then MAX_MANIFEST_BYTES
    else if name == MANIFEST_DIGEST then 65
    else if name == SOURCES then MAX_SOURCE_DOCUMENT_BYTES
    else if CoverName(name) then MAX_JPEG_BYTES
    else 0
  }

  /** The four members of a portable playlist, in the order in which they are written. */
  ghost predicate Portable(fs: seq<File>) {
    && |fs| == 4
    && fs[0].name == MANIFEST && fs[1].name == MANIFEST_DIGEST && fs[2].name == SOURCES && CoverName(fs[3].name)
    && forall i :: 0 <= i < 4 ==> 0 < |fs[i].data| <= Limit(fs[i].name)
  }

  lemma NamesDiffer()
    ensures |MANIFEST| == 13 && |MANIFEST_DIGEST| == 15 && |SOURCES| == 12
    ensures !CoverName(MANIFEST) && !CoverName(MANIFEST_DIGEST) && !CoverName(SOURCES)
  {
  }

  lemma LocalsStep(crc: Checksum, fs: seq<File>, i: nat)
    requires i < |fs|
    ensures Locals(crc, fs[..i + 1]) == Locals(crc, fs[..i]) + Local(crc, fs[i])
  {
    assert fs[..i + 1][..i] == fs[..i];
  }

  lemma {:induction false} LocalsPrefix(crc: Checksum, fs: seq<File>, i: nat)
    requires i <= |fs|
    ensures Locals(crc, fs[..i]) <= Locals(crc, fs)
    decreases |fs| - i
  {
    if i == |fs| {
      assert fs[..i] == fs;
    } else {
      LocalsStep(crc, fs, i);
      LocalsPrefix(crc, fs, i + 1);
    }
  }

  function MemberBytes(f: File): nat {
    LOCAL_BYTES + |f.name| + |f.data|
  }

  /** How long the parts of an archive of four members are. */
  lemma ArchiveLengths(crc: Checksum, fs: seq<File>)
    requires |fs| == 4
    ensures |Locals(crc, fs)| == MemberBytes(fs[0]) + MemberBytes(fs[1]) + MemberBytes(fs[2]) + MemberBytes(fs[3])
    ensures |Records(Directory(crc, fs))| ==
              4 * CENTRAL_BYTES + |fs[0].name| + |fs[1].name| + |fs[2].name| + |fs[3].name|
    ensures |Archive(crc, fs)| == |Locals(crc, fs)| + |Records(Directory(crc, fs))| + END_BYTES
  {
    hide Local, Pack, Record;
    HeaderSizes();
    assert fs[..4] == fs;
    LocalsStep(crc, fs, 0);
    LocalsStep(crc, fs, 1);
    LocalsStep(crc, fs, 2);
    LocalsStep(crc, fs, 3);
    var es := Directory(crc, fs);
    assert es == [es[0], es[1], es[2], es[3]];
    RecordsOfFour(es[0], es[1], es[2], es[3]);
  }

  lemma RecordsOfFour(a: Entry, b: Entry, c: Entry, d: Entry)
    ensures Records([a, b, c, d]) == Record(a) + Record(b) + Record(c) + Record(d)
  {
    hide Record;
    RecordsAppend([], a);
    RecordsAppend([a], b);
    RecordsAppend([a, b], c);
    RecordsAppend([a, b, c], d);
    assert [] + [a] == [a] && [a] + [b] == [a, b] && [a, b] + [c] == [a, b, c] && [a, b, c] + [d] == [a, b, c, d];
  }

  lemma EntryIsSized(crc: Checksum, f: File, offset: nat)
    requires |f.name| < 0x1_0000 && |f.data| < 0x1_0000_0000 && offset < 0x1_0000_0000
    ensures Sized(EntryFor(crc, f, offset))
  {
    Spans();
  }

  /** Files that keep the reader's limits always make an archive within its 1 MiB. */
  lemma PortableFits(crc: Checksum, fs: seq<File>)
    requires Portable(fs)
    ensures END_BYTES < |Archive(crc, fs)| <= MAX_PLAYLIST_ZIP_BYTES
    ensures AllSized(Directory(crc, fs))
  {
    hide Archive, Local, Locals, Record, Sized, EntryFor;
    ArchiveLengths(crc, fs);
    NamesDiffer();
    forall i | 0 <= i < 4 ensures Sized(Directory(crc, fs)[i]) {
      LocalsPrefix(crc, fs, i);
      EntryIsSized(crc, fs[i], |Locals(crc, fs[..i])|);
    }
  }

  lemma OtherLengthsFit(e: Entry, lengths: Lengths)
    requires Sized(e)
    requires lengths.name < 0x1_0000 && lengths.extra < 0x1_0000 && lengths.comment < 0x1_0000
    ensures Sized(e.(nameLength := lengths.name, extraLength := lengths.extra, commentLength := lengths.comment))
  {
    Spans();
    var fields := EntryFields(e.(nameLength := lengths.name, extraLength := lengths.extra,
                                 commentLength := lengths.comment));
    forall i | 0 <= i < |CENTRAL| ensures fields[i] < Span(CENTRAL[i]) {
      assert fields[i] == EntryFields(e)[i] || 12 <= i < 15;
    }
  }

  /** Other lengths in the last record change nothing else. */
  lemma LooseFits(crc: Checksum, fs: seq<File>, lengths: Lengths)
    requires Portable(fs) && Overrun(fs, lengths)
    ensures |Records(LooseDirectory(crc, fs, lengths))| == |Records(Directory(crc, fs))|
    ensures END_BYTES < |LooseArchive(crc, fs, lengths)| <= MAX_PLAYLIST_ZIP_BYTES
    ensures ReadOff(LooseDirectory(crc, fs, lengths))
  {
    hide Local, Record, Locals, Portable, Sized, Pack;
    HeaderSizes();
    FourFiles(fs);
    PortableFits(crc, fs);
    ArchiveLengths(crc, fs);
    var es, gs := Directory(crc, fs), LooseDirectory(crc, fs, lengths);
    assert es == [es[0], es[1], es[2], es[3]] && gs == [es[0], es[1], es[2], gs[3]];
    RecordsOfFour(es[0], es[1], es[2], es[3]);
    RecordsOfFour(gs[0], gs[1], gs[2], gs[3]);
    OtherLengthsFit(es[3], lengths);
  }

  /** A ZIP64 locator stands 20 bytes before the end record. */
  predicate HasLocator(document: Bytes): (has: bool)
    ensures has ==> LOCATOR_BYTES + END_BYTES <= |document|
  {
    && LOCATOR_BYTES + END_BYTES <= |document|
    && var at := |document| - END_BYTES - LOCATOR_BYTES;
       UnpackInt(document[at..at + 4]) == LOCATOR_SIGNATURE
  }

  /** In the archive of a portable playlist a cover name stands there. */
  lemma NoLocator(crc: Checksum, fs: seq<File>, lengths: Lengths)
    requires Portable(fs) && Overrun(fs, lengths)
    ensures !HasLocator(LooseArchive(crc, fs, lengths))
  {
    hide Pack, Locals, Limit;
    HeaderSizes();
    var gs := LooseDirectory(crc, fs, lengths);
    var name := fs[3].name;
    assert gs == [gs[0], gs[1], gs[2], gs[3]];
    RecordsOfFour(gs[0], gs[1], gs[2], gs[3]);
    var before := Locals(crc, fs) + (Record(gs[0]) + Record(gs[1]) + Record(gs[2])) + Pack(CENTRAL, EntryFields(gs[3]));
    var end := Pack(END, EndFields(4, |Records(gs)|, |Locals(crc, fs)|));
    var document := LooseArchive(crc, fs, lengths);
    assert document == before + name + end;
    var at := |document| - END_BYTES - LOCATOR_BYTES;
    assert document[at] == name[55] && LowerHex(name[55]);
    assert document[at..at + 4][0] == document[at];
  }

  // ---------------------------------------------------------------- the ZIP64 record and its locator

  /** The fields of a ZIP64 end record, the data that may follow them, and the fields of its locator. */
  datatype Zip64 = Zip64(
    recordSize: nat, createVersion: nat, readVersion: nat, disk: nat, directoryDisk: nat,
    diskEntries: nat, entries: nat, size: nat, offset: nat,
    extension: Bytes,
    locatorDisk: nat, recordOffset: nat, disks: nat)

  function RecordFields(z: Zip64): (fields: seq<nat>)
    ensures |fields| == |RECORD64|
  {
    [RECORD64_SIGNATURE, z.recordSize, z.createVersion, z.readVersion, z.disk, z.directoryDisk,
     z.diskEntries, z.entries, z.size, z.offset]
  }

  function LocatorFields(z: Zip64): (fields: seq<nat>)
    ensures |fields| == |LOCATOR|
  {
    [LOCATOR_SIGNATURE, z.locatorDisk, z.recordOffset, z.disks]
  }

  function Zip64Bytes(z: Zip64): (bytes: Bytes)
    ensures |bytes| == RECORD64_BYTES + |z.extension| + LOCATOR_BYTES
  {
    Zip64Sizes();
    Pack(RECORD64, RecordFields(z)) + z.extension + Pack(LOCATOR, LocatorFields(z))
  }

  /** `zipfile` before and since it checks the locator against the record. */
  datatype Release = Unchecked | Checked

  /** What a release asks of the two records of a directory of `size` bytes that starts at `start`. */
  predicate Admitted(release: Release, z: Zip64, start: nat, size: nat) {
    && z.locatorDisk == 0 && z.disks <= 1 && z.size == size && start <= z.offset
    && match release
       case Unchecked => z.extension == []
       case Checked => && z.offset == start && z.recordOffset == start + size
                       && z.recordSize + 12 == RECORD64_BYTES + |z.extension|
  }

  /** Where a directory lies, and what is added to the header offsets of its records. */
  datatype Place = Place(start: nat, end: nat, concat: int)

  function RecordAt(document: Bytes, at: int): (fields: Option<seq<nat>>)
    ensures fields.Some? ==> 0 <= at && at + RECORD64_BYTES <= |document| && |fields.value| == |RECORD64|
  {
    Zip64Sizes();
    if at < 0 || at + RECORD64_BYTES > |document| then None else
      var fields := Unpack(RECORD64, document[at..at + RECORD64_BYTES]);
      if fields[0] == RECORD64_SIGNATURE then Some(fields) else None
  }

  /** The directory ends where its record starts. */
  function PlaceBefore(record: nat, size: nat, offset: nat): Option<Place> {
    if record < size then None else Some(Place(record - size, record, record - size - offset))
  }

  /**
   * How `zipfile` finds the directory: by the ZIP64 record, if a locator leads to one, and else by the end
   * record. Older releases take the record to stand just before the locator and pass over one that does not.
   */
  function Locate(release: Release, document: Bytes, bound: nat): (place: Option<Place>)
    requires bound + END_BYTES <= |document|
    ensures place.Some? ==> place.value.start <= place.value.end <= |document| - END_BYTES
  {
    Zip64Sizes();
    var n := |document| - END_BYTES;
    var plain := Some(Place(bound, n, 0));
    if !HasLocator(document) then plain else
      var locator := Unpack(LOCATOR, document[n - LOCATOR_BYTES..n]);
      var last := n - LOCATOR_BYTES - RECORD64_BYTES;
      if locator[1] != 0 || locator[3] > 1 then None else
        match release
        case Unchecked =>
          var fields := RecordAt(document, last);
          if fields.None? then plain else PlaceBefore(last, fields.value[8], fields.value[9])
        case Checked =>
          if locator[2] > last then None else
            var record := if RecordAt(document, locator[2]).Some? then locator[2] else last;
            var fields := RecordAt(document, record);
            if || fields.None? || fields.value[9] + fields.value[8] != locator[2]
               || fields.value[1] + 12 != RECORD64_BYTES + (last - record) then None
            else PlaceBefore(record, fields.value[8], fields.value[9])
  }

  /** The same records with larger header offsets. */
  function Ahead(es: seq<Entry>, ahead: nat): (entries: seq<Entry>)
    ensures |entries| == |es|
  {
    seq(|es|, i requires 0 <= i < |es| => es[i].(headerOffset := es[i].headerOffset + ahead))
  }

  /** The records as `zipfile` hands them on; one with a negative header offset is of no member. */
  function Moved(es: seq<Entry>, concat: int): (entries: Option<seq<Entry>>)
    ensures entries.Some? ==> |entries.value| == |es|
  {
    if exists i :: 0 <= i < |es| && es[i].headerOffset + concat < 0 then None
    else Some(seq(|es|, i requires 0 <= i < |es| => es[i].(headerOffset := es[i].headerOffset + concat)))
  }

  lemma MovedBack(es: seq<Entry>, ahead: nat)
    ensures Moved(Ahead(es, ahead), 0 - ahead) == Some(es)
  {
    var gs := Ahead(es, ahead);
    assert forall i :: 0 <= i < |gs| ==> gs[i].headerOffset + (0 - ahead) == es[i].headerOffset;
    assert Moved(gs, 0 - ahead).Some?;
    forall i | 0 <= i < |es| ensures Moved(gs, 0 - ahead).value[i] == es[i] {
    }
    assert Moved(gs, 0 - ahead).value == es;
  }

  lemma MovedIsAhead(es: seq<Entry>, concat: int)
    requires concat <= 0 && Moved(es, concat).Some?
    ensures es == Ahead(Moved(es, concat).value, -concat)
  {
  }

  lemma NotAhead(es: seq<Entry>)
    ensures Ahead(es, 0) == es
  {
  }

  /**
   * Members, any bytes, the writer's directory but for the lengths in its last record and the header
   * offsets, which may all be too large by as much as the ZIP64 record has the directory too late; the
   * ZIP64 record and its locator; and an end record for which all of that is the directory.
   */
  function Zip64Document(crc: Checksum, fs: seq<File>, lengths: Lengths, gap: Bytes, ahead: nat, z: Zip64): Bytes
    requires fs != []
  {
    var locals, directory := Locals(crc, fs), Records(Ahead(LooseDirectory(crc, fs, lengths), ahead));
    locals + gap + directory + Zip64Bytes(z)
    + Pack(END, EndFields(|fs|, |gap| + |directory| + |Zip64Bytes(z)|, |locals|))
  }

  /** Such a document in which each value fits its field and the release admits the ZIP64 record. */
  ghost predicate Laid(release: Release, crc: Checksum, fs: seq<File>, lengths: Lengths, gap: Bytes, ahead: nat,
                       z: Zip64, document: Bytes) {
    && fs != [] && Overrun(fs, lengths) && Fits(RECORD64, RecordFields(z)) && Fits(LOCATOR, LocatorFields(z))
    && var start, entries := |Locals(crc, fs)| + |gap|, Ahead(LooseDirectory(crc, fs, lengths), ahead);
       && AllSized(entries) && z.offset == start + ahead && Admitted(release, z, start, |Records(entries)|)
       && document == Zip64Document(crc, fs, lengths, gap, ahead, z) && |document| <= MAX_PLAYLIST_ZIP_BYTES
  }

  /** A ZIP64 archive of portable files, as far as a release tells. */
  ghost predicate Zip64Archive(release: Release, crc: Checksum, fs: seq<File>, document: Bytes) {
    Portable(fs) && exists lengths, gap, ahead, z :: Laid(release, crc, fs, lengths, gap, ahead, z, document)
  }

  // ---------------------------------------------------------------- the reader

  /**
   * The member `f` lies at `offset` in the document, ends by `bound`, keeps its limit, and `e` is
   * the directory record the writer makes for it, whatever lengths it declares.
   */
  ghost predicate Member(crc: Checksum, document: Bytes, bound: nat, e: Entry, offset: nat, f: File)
    requires bound <= |document|
  {
    && Trimmed(e) == EntryFor(crc, f, offset)
    && 0 < |f.data| <= Limit(f.name)
    && offset + MemberBytes(f) <= bound
    && document[offset..offset + MemberBytes(f)] == Local(crc, f)
  }

  /** Python's slice, which stops at the end of the bytes. */
  function Slice(bytes: Bytes, lo: nat, hi: nat): Bytes
    requires lo <= |bytes| && lo <= hi
  {
    bytes[lo..if hi <= |bytes| then hi else |bytes|]
  }

  lemma LocalDecodes(crc: Checksum, f: File)
    requires 0 < |f.data| <= Limit(f.name)
    ensures Size(LOCAL) == LOCAL_BYTES
    ensures Unpack(LOCAL, Local(crc, f)[..LOCAL_BYTES]) == LocalFields(crc, f)
    ensures Local(crc, f)[LOCAL_BYTES..LOCAL_BYTES + |f.name|] == f.name
    ensures Local(crc, f)[LOCAL_BYTES + |f.name|..] == f.data
  {
    hide Pack, Unpack;
    HeaderSizes();
    Spans();
    UnpackPack(LOCAL, LocalFields(crc, f));
    assert Local(crc, f)[..LOCAL_BYTES] == Pack(LOCAL, LocalFields(crc, f));
  }

  /** The metadata checks that one directory record must pass, apart from its name's being new. */
  predicate PlainEntry(e: Entry, offset: nat) {
    && Limit(e.name) != 0
    && e.extra == [] && e.comment == []
    && e.flagBits == 0 && e.compression == 0
    && e.createSystem == 3 && e.extractVersion == 20 && e.createVersion == 20
    && e.volume == 0 && e.reserved == 0
    && e.externalAttributes == REGULAR_0600 && e.internalAttributes == 0
    && e.headerOffset == offset
    && 0 < e.fileSize <= Limit(e.name) && e.compressedSize == e.fileSize
    && e.time == 0 && e.date == EPOCH
  }

  /** What the reader sees of a member: its record's name, size and checksum, its header, its bytes. */
  ghost predicate Seen(crc: Checksum, document: Bytes, bound: nat, e: Entry, offset: nat, f: File)
    requires bound <= |document|
  {
    && f.name == e.name && |f.data| == e.fileSize && crc(f.data) == e.crc
    && offset + MemberBytes(f) <= bound && Size(LOCAL) == LOCAL_BYTES
    && Unpack(LOCAL, document[offset..offset + LOCAL_BYTES]) == LocalFields(crc, f)
    && document[offset + LOCAL_BYTES..offset + LOCAL_BYTES + |f.name|] == f.name
    && document[offset + LOCAL_BYTES + |f.name|..offset + MemberBytes(f)] == f.data
  }

  lemma MemberIsSeen(crc: Checksum, document: Bytes, bound: nat, e: Entry, offset: nat, f: File)
    requires bound <= |document| && Member(crc, document, bound, e, offset, f)
    ensures PlainEntry(e, offset) && Seen(crc, document, bound, e, offset, f)
  {
    hide Pack, Unpack, Local, Limit;
    LocalDecodes(crc, f);
    var bytes := document[offset..offset + MemberBytes(f)];
    assert bytes[..LOCAL_BYTES] == document[offset..offset + LOCAL_BYTES];
    assert bytes[LOCAL_BYTES..LOCAL_BYTES + |f.name|]
        == document[offset + LOCAL_BYTES..offset + LOCAL_BYTES + |f.name|] by {
      SliceOfSlice(document, offset, offset + MemberBytes(f), LOCAL_BYTES, LOCAL_BYTES + |f.name|);
    }
    assert bytes[LOCAL_BYTES + |f.name|..] == document[offset + LOCAL_BYTES + |f.name|..offset + MemberBytes(f)];
  }

  lemma SliceOfSlice(bytes: Bytes, lo: nat, hi: nat, from: nat, to: nat)
    requires lo <= hi <= |bytes| && from <= to <= hi - lo
    ensures bytes[lo..hi][from..to] == bytes[lo + from..lo + to]
  {
    var inner, outer := bytes[lo..hi][from..to], bytes[lo + from..lo + to];
    assert |inner| == |outer| && forall i :: 0 <= i < |inner| ==> inner[i] == outer[i];
  }

  lemma SeenIsMember(crc: Checksum, document: Bytes, bound: nat, e: Entry, offset: nat, f: File)
    requires bound <= |document|
    requires PlainEntry(e, offset) && Seen(crc, document, bound, e, offset, f)
    ensures Member(crc, document, bound, e, offset, f)
  {
    hide Pack, Unpack, Limit;
    var bytes := document[offset..offset + MemberBytes(f)];
    PackUnpack(LOCAL, document[offset..offset + LOCAL_BYTES]);
    assert bytes == document[offset..offset + LOCAL_BYTES]
                  + document[offset + LOCAL_BYTES..offset + LOCAL_BYTES + |f.name|]
                  + document[offset + LOCAL_BYTES + |f.name|..offset + MemberBytes(f)];
  }

  /** One pass of the reader's loop: the record's checks, the local header's, and the stored bytes. */
  method ReadMember(crc: Checksum, document: Bytes, bound: nat, e: Entry, offset: nat) returns (f: Option<File>)
    requires offset <= bound <= |document|
    ensures f.Some? ==> Member(crc, document, bound, e, offset, f.value) && offset + MemberBytes(f.value) <= bound
    ensures f.None? ==> forall g :: !Member(crc, document, bound, e, offset, g)
  {
    hide Unpack, Limit, Member;
    HeaderSizes();
    forall g | Member(crc, document, bound, e, offset, g)
      ensures PlainEntry(e, offset) && Seen(crc, document, bound, e, offset, g)
    {
      MemberIsSeen(crc, document, bound, e, offset, g);
    }
    if !PlainEntry(e, offset) || |document| < offset + LOCAL_BYTES {
      return None;
    }
    var header := Unpack(LOCAL, document[offset..offset + LOCAL_BYTES]);
    var nameStart := offset + LOCAL_BYTES;
    var nameEnd := nameStart + header[9];
    if || header[0] != LOCAL_SIGNATURE || header[1] != 20 || header[2] != 0 || header[3] != 0
       || header[4] != 0 || header[5] != EPOCH
       || header[6] != e.crc || header[7] != e.compressedSize || header[8] != e.fileSize
       || header[10] != 0 || Slice(document, nameStart, nameEnd) != e.name {
      return None;
    }
    var end := nameEnd + e.fileSize;
    if end > bound {
      return None;
    }
    var data := document[nameEnd..end];
    if crc(data) != e.crc {
      return None;
    }
    f := Some(File(e.name, data));
    assert header == LocalFields(crc, f.value);
    SeenIsMember(crc, document, bound, e, offset, f.value);
  }

  lemma MemberIsUnique(crc: Checksum, document: Bytes, bound: nat, e: Entry, offset: nat, f: File, g: File)
    requires bound <= |document|
    requires Member(crc, document, bound, e, offset, f) && Member(crc, document, bound, e, offset, g)
    ensures f == g
  {
    hide Unpack, Limit, Member;
    MemberIsSeen(crc, document, bound, e, offset, f);
    MemberIsSeen(crc, document, bound, e, offset, g);
  }

  lemma FourFiles(fs: seq<File>)
    requires Portable(fs)
    ensures |fs| == 4
    ensures forall i :: 0 <= i < 4 ==> 0 < |fs[i].data| <= Limit(fs[i].name)
    ensures forall i, j :: 0 <= i < j < 4 ==> fs[i].name != fs[j].name
  {
    NamesDiffer();
  }

  datatype ZipError = Rejected | TooLarge

  predicate HasName(files: seq<File>, name: Bytes) {
    exists f :: f in files && f.name == name
  }

  /** The files that were found lie one after another from the start of the document. */
  ghost predicate Tiled(crc: Checksum, document: Bytes, entries: seq<Entry>, files: seq<File>, offset: nat) {
    && |files| <= |entries|
    && offset == |Locals(crc, files)| && Locals(crc, files) <= document
    && forall j :: 0 <= j < |files| ==>
         && Trimmed(entries[j]) == EntryFor(crc, files[j], |Locals(crc, files[..j])|)
         && 0 < |files[j].data| <= Limit(files[j].name)
         && forall k :: 0 <= k < j ==> files[k].name != files[j].name
  }

  lemma NothingTiled(crc: Checksum, document: Bytes, entries: seq<Entry>)
    ensures Tiled(crc, document, entries, [], 0) && Locals(crc, []) == []
  {
  }

  lemma LocalsExtend(crc: Checksum, document: Bytes, bound: nat, e: Entry, files: seq<File>, f: File)
    requires bound <= |document| && Locals(crc, files) <= document
    requires Member(crc, document, bound, e, |Locals(crc, files)|, f)
    ensures Locals(crc, files + [f]) <= document
    ensures |Locals(crc, files + [f])| == |Locals(crc, files)| + MemberBytes(f)
    ensures 0 < |f.data| <= Limit(f.name) && Trimmed(e) == EntryFor(crc, f, |Locals(crc, files)|)
  {
    hide Local, Limit;
    var next := files + [f];
    assert next[..|files|] == files;
    assert Locals(crc, next) == Locals(crc, files) + Local(crc, f);
    assert Locals(crc, files) + Local(crc, f) == document[..|Locals(crc, files)| + MemberBytes(f)];
  }

  lemma {:induction false} TiledStep(crc: Checksum, document: Bytes, bound: nat, entries: seq<Entry>,
                                     files: seq<File>, offset: nat, f: File)
    requires bound <= |document| && Tiled(crc, document, entries, files, offset) && |files| < |entries|
    requires Member(crc, document, bound, entries[|files|], offset, f) && !HasName(files, f.name)
    ensures Tiled(crc, document, entries, files + [f], offset + MemberBytes(f))
    ensures offset + MemberBytes(f) == |Locals(crc, files + [f])|
  {
    hide Member, Locals, Limit, EntryFor;
    var next := files + [f];
    LocalsExtend(crc, document, bound, entries[|files|], files, f);
    forall j | 0 <= j < |next| ensures next[..j] == files[..j] {
    }
    assert files[..|files|] == files;
    forall k | 0 <= k < |files| ensures files[k].name != f.name {
      assert files[k] in files;
    }
  }

  /** A full tiling: every entry has its file, and the last one ends by `bound`. */
  ghost predicate Tiling(crc: Checksum, document: Bytes, bound: nat, entries: seq<Entry>, fs: seq<File>) {
    |fs| == |entries| && |Locals(crc, fs)| <= bound && Tiled(crc, document, entries, fs, |Locals(crc, fs)|)
  }

  /** The i-th file of a tiling lies where the reader's running offset points. */
  lemma {:induction false} TilingMember(crc: Checksum, document: Bytes, bound: nat, entries: seq<Entry>,
                                        fs: seq<File>, i: nat)
    requires bound <= |document| && Tiling(crc, document, bound, entries, fs) && i < |fs|
    ensures Member(crc, document, bound, entries[i], |Locals(crc, fs[..i])|, fs[i])
    ensures !HasName(fs[..i], fs[i].name)
  {
    hide Local, Limit;
    LocalsStep(crc, fs, i);
    LocalsPrefix(crc, fs, i + 1);
    var upTo := Locals(crc, fs[..i + 1]);
    assert upTo == document[..|upTo|];
    assert document[|Locals(crc, fs[..i])|..|upTo|] == Local(crc, fs[i]);
  }

  /** What the reader finds in an archive of portable files: their end record, directory and members. */
  ghost predicate ReadsAs(crc: Checksum, fs: seq<File>, lengths: Lengths, ahead: nat, place: Place, document: Bytes) {
    var bound, n := |Locals(crc, fs)|, |document| - END_BYTES;
    && END_BYTES < |document| <= MAX_PLAYLIST_ZIP_BYTES && Size(END) == END_BYTES
    && bound <= place.start <= place.end <= n && place.concat == 0 - ahead
    && Unpack(END, document[n..]) == EndFields(4, n - bound, bound)
    && |fs| == 4 && fs[0].name == MANIFEST && fs[1].name == MANIFEST_DIGEST && fs[2].name == SOURCES
    && Overrun(fs, lengths)
    && var entries := LooseDirectory(crc, fs, lengths);
       && document[place.start..place.end] == Records(Ahead(entries, ahead)) && ReadOff(Ahead(entries, ahead))
       && Tiling(crc, document, bound, entries, fs)
  }

  /** The reader finds these files in the document. */
  ghost predicate Found(release: Release, crc: Checksum, fs: seq<File>, lengths: Lengths, ahead: nat, document: Bytes) {
    && |Locals(crc, fs)| + END_BYTES <= |document|
    && var place := Locate(release, document, |Locals(crc, fs)|);
       place.Some? && ReadsAs(crc, fs, lengths, ahead, place.value, document)
  }

  /** The parts of a document that starts with the members of portable files and ends with their end record. */
  lemma {:induction false} EnvelopeReadsAs(crc: Checksum, fs: seq<File>, lengths: Lengths, ahead: nat, place: Place,
                                           between: Bytes, document: Bytes)
    requires Portable(fs) && Overrun(fs, lengths) && |document| <= MAX_PLAYLIST_ZIP_BYTES
    requires document == Locals(crc, fs) + between + Pack(END, EndFields(4, |between|, |Locals(crc, fs)|))
    requires |Locals(crc, fs)| <= place.start <= place.end <= |document| - END_BYTES && place.concat == 0 - ahead
    requires document[place.start..place.end] == Records(Ahead(LooseDirectory(crc, fs, lengths), ahead))
    requires ReadOff(Ahead(LooseDirectory(crc, fs, lengths), ahead))
    ensures ReadsAs(crc, fs, lengths, ahead, place, document)
  {
    hide Pack, Unpack, Records, CoverName, Limit, Local, Locals, ReadOff, Ahead;
    HeaderSizes();
    Spans();
    FourFiles(fs);
    var n := |document| - END_BYTES;
    UnpackPack(END, EndFields(4, |between|, |Locals(crc, fs)|));
    assert document[n..] == Pack(END, EndFields(4, |between|, |Locals(crc, fs)|));
    assert document[..|Locals(crc, fs)|] == Locals(crc, fs);
    forall i | 0 <= i < 4 ensures Trimmed(LooseDirectory(crc, fs, lengths)[i]) == Directory(crc, fs)[i] {
    }
    ArchiveLengths(crc, fs);
  }

  lemma {:induction false} ArchiveIsFound(release: Release, crc: Checksum, fs: seq<File>, lengths: Lengths,
                                          document: Bytes)
    requires Portable(fs) && Overrun(fs, lengths) && document == LooseArchive(crc, fs, lengths)
    ensures Found(release, crc, fs, lengths, 0, document)
  {
    hide Pack, Unpack, Records, CoverName, Limit, Local, Locals, HasLocator, ReadOff, Portable, ReadsAs;
    HeaderSizes();
    LooseFits(crc, fs, lengths);
    NoLocator(crc, fs, lengths);
    FourFiles(fs);
    var locals, directory := Locals(crc, fs), Records(LooseDirectory(crc, fs, lengths));
    NotAhead(LooseDirectory(crc, fs, lengths));
    assert document[|locals|..|document| - END_BYTES] == directory;
    EnvelopeReadsAs(crc, fs, lengths, 0, Place(|locals|, |document| - END_BYTES, 0), directory, document);
  }

  /** A record that stands somewhere in a document is found there. */
  lemma RecordIsAt(document: Bytes, before: Bytes, z: Zip64, after: Bytes)
    requires Fits(RECORD64, RecordFields(z)) && document == before + Pack(RECORD64, RecordFields(z)) + after
    ensures RecordAt(document, |before|) == Some(RecordFields(z))
  {
    hide Pack, Unpack, Fits;
    Zip64Sizes();
    UnpackPack(RECORD64, RecordFields(z));
    assert document[|before|..|before| + RECORD64_BYTES] == Pack(RECORD64, RecordFields(z));
  }

  lemma LocatorIsAt(document: Bytes, before: Bytes, z: Zip64, after: Bytes)
    requires Fits(LOCATOR, LocatorFields(z)) && |after| == END_BYTES
    requires document == before + Pack(LOCATOR, LocatorFields(z)) + after
    ensures HasLocator(document) && Size(LOCATOR) == LOCATOR_BYTES
    ensures Unpack(LOCATOR, document[|before|..|before| + LOCATOR_BYTES]) == LocatorFields(z)
  {
    hide Pack, Fits;
    Zip64Sizes();
    UnpackPack(LOCATOR, LocatorFields(z));
    var bytes := document[|before|..|before| + LOCATOR_BYTES];
    assert bytes == Pack(LOCATOR, LocatorFields(z));
    assert bytes[..4] == document[|before|..|before| + 4];
    assert Unpack(LOCATOR, bytes)[0] == UnpackInt(bytes[..4]);
  }

  lemma RecordsAreAt(document: Bytes, before: Bytes, z: Zip64, end: Bytes)
    requires document == before + Zip64Bytes(z) + end && |end| == END_BYTES
    requires Fits(RECORD64, RecordFields(z)) && Fits(LOCATOR, LocatorFields(z))
    ensures HasLocator(document) && RecordAt(document, |before|) == Some(RecordFields(z))
    ensures Size(LOCATOR) == LOCATOR_BYTES
    ensures var at := |before| + RECORD64_BYTES + |z.extension|;
            Unpack(LOCATOR, document[at..at + LOCATOR_BYTES]) == LocatorFields(z)
  {
    hide Pack, Unpack, HasLocator, RecordAt, Fits, RecordFields, LocatorFields;
    Zip64Sizes();
    var record, locator := Pack(RECORD64, RecordFields(z)), Pack(LOCATOR, LocatorFields(z));
    assert document == before + record + (z.extension + locator + end);
    RecordIsAt(document, before, z, z.extension + locator + end);
    assert document == (before + record + z.extension) + locator + end;
    LocatorIsAt(document, before + record + z.extension, z, end);
  }

  /** A release that admits the two records finds the directory before them. */
  lemma RecordIsLocated(release: Release, document: Bytes, bound: nat, before: Bytes, z: Zip64, end: Bytes,
                        start: nat, ahead: nat)
    requires document == before + Zip64Bytes(z) + end && |end| == END_BYTES && bound <= start <= |before|
    requires Fits(RECORD64, RecordFields(z)) && Fits(LOCATOR, LocatorFields(z))
    requires Admitted(release, z, start, |before| - start) && z.offset == start + ahead
    ensures HasLocator(document) && Locate(release, document, bound) == Some(Place(start, |before|, 0 - ahead))
  {
    hide Pack, Unpack, HasLocator, RecordAt, Fits, Zip64Bytes;
    RecordsAreAt(document, before, z, end);
    var n := |document| - END_BYTES;
    var last := n - LOCATOR_BYTES - RECORD64_BYTES;
    assert n - LOCATOR_BYTES == |before| + RECORD64_BYTES + |z.extension|;
    assert last == |before| + |z.extension|;
  }

  lemma {:induction false} Zip64IsFound(release: Release, crc: Checksum, fs: seq<File>, lengths: Lengths, gap: Bytes,
                                        ahead: nat, z: Zip64, document: Bytes)
    requires Portable(fs) && Laid(release, crc, fs, lengths, gap, ahead, z, document)
    ensures HasLocator(document) && Found(release, crc, fs, lengths, ahead, document)
  {
    hide Pack, Records, CoverName, Limit, Locals, HasLocator, Portable, ReadsAs, Fits, Locate, AllSized, Zip64Bytes,
         LooseDirectory, Ahead, Overrun, Admitted;
    HeaderSizes();
    FourFiles(fs);
    var locals := Locals(crc, fs);
    var start := |locals| + |gap|;
    var directory := Records(Ahead(LooseDirectory(crc, fs, lengths), ahead));
    var end := Pack(END, EndFields(4, |gap| + |directory| + |Zip64Bytes(z)|, |locals|));
    assert document == (locals + gap + directory) + Zip64Bytes(z) + end;
    RecordIsLocated(release, document, |locals|, locals + gap + directory, z, end, start, ahead);
    assert document[start..start + |directory|] == directory;
    AheadReadsOff(crc, fs, lengths, ahead);
    var between := gap + directory + Zip64Bytes(z);
    assert document == locals + between + end;
    EnvelopeReadsAs(crc, fs, lengths, ahead, Place(start, start + |directory|, 0 - ahead), between, document);
  }

  /** The end record of a document for which `bound` is where the directory starts. */
  ghost predicate Envelope(document: Bytes, bound: nat) {
    && END_BYTES < |document| <= MAX_PLAYLIST_ZIP_BYTES && Size(END) == END_BYTES && bound <= |document| - END_BYTES
    && Unpack(END, document[|document| - END_BYTES..]) == EndFields(4, |document| - END_BYTES - bound, bound)
  }

  lemma FoundEnvelope(release: Release, crc: Checksum, fs: seq<File>, lengths: Lengths, ahead: nat, document: Bytes)
    requires Found(release, crc, fs, lengths, ahead, document)
    ensures Envelope(document, |Locals(crc, fs)|)
    ensures Unpack(END, document[|document| - END_BYTES..])[6] == |Locals(crc, fs)|
    ensures Locate(release, document, |Locals(crc, fs)|).Some?
  {
    hide Unpack, Locals, Locate, Records, Ahead, Tiled, ReadOff, LooseDirectory, Overrun;
  }

  /** The directory loop finds the records of any files that the reader finds. */
  lemma FoundDirectory(release: Release, crc: Checksum, fs: seq<File>, lengths: Lengths, ahead: nat, document: Bytes,
                       place: Place, raw: Option<seq<Entry>>)
    requires Found(release, crc, fs, lengths, ahead, document)
    requires Locate(release, document, |Locals(crc, fs)|) == Some(place)
    requires raw.Some? ==> ReadOff(raw.value) && Records(raw.value) == document[place.start..place.end]
    requires raw.None? ==> forall es :: ReadOff(es) ==> Records(es) != document[place.start..place.end]
    ensures raw.Some? && Moved(raw.value, place.concat) == Some(LooseDirectory(crc, fs, lengths)) && |raw.value| == 4
    ensures |Locals(crc, fs)| <= place.start
    ensures Tiling(crc, document, |Locals(crc, fs)|, LooseDirectory(crc, fs, lengths), fs)
    ensures |fs| == 4 && fs[0].name == MANIFEST && fs[1].name == MANIFEST_DIGEST && fs[2].name == SOURCES
  {
    hide Unpack, Locals, Locate, Records, Ahead, Tiled, ReadOff, LooseDirectory, Overrun, Moved, Ascii;
    assert ReadsAs(crc, fs, lengths, ahead, place, document);
    var entries := LooseDirectory(crc, fs, lengths);
    MovedBack(entries, ahead);
    RecordsInjective(raw.value, Ahead(entries, ahead));
  }

  lemma ArchivesAreFound(release: Release, crc: Checksum, document: Bytes)
    ensures forall fs :: NearlyArchive(crc, fs, document) || Zip64Archive(release, crc, fs, document) ==>
                           exists lengths, ahead :: Found(release, crc, fs, lengths, ahead, document)
  {
    hide Found, LooseArchive, Laid, Portable;
    forall fs | NearlyArchive(crc, fs, document) || Zip64Archive(release, crc, fs, document)
      ensures exists lengths, ahead :: Found(release, crc, fs, lengths, ahead, document)
    {
      if NearlyArchive(crc, fs, document) {
        var lengths :| Overrun(fs, lengths) && document == LooseArchive(crc, fs, lengths);
        ArchiveIsFound(release, crc, fs, lengths, document);
      } else {
        var lengths, gap, ahead, z :| Laid(release, crc, fs, lengths, gap, ahead, z, document);
        Zip64IsFound(release, crc, fs, lengths, gap, ahead, z, document);
      }
    }
  }

  lemma LengthsFit(e: Entry)
    requires Sized(e)
    ensures e.nameLength < 0x1_0000 && e.extraLength < 0x1_0000 && e.commentLength < 0x1_0000
  {
    Spans();
    assert EntryFields(e)[12] < Span(CENTRAL[12]) && EntryFields(e)[13] < Span(CENTRAL[13])
        && EntryFields(e)[14] < Span(CENTRAL[14]);
  }

  /** Four records that are the writer's but for lengths and a move are its directory with other lengths in the last. */
  lemma {:induction false} TiledIsDirectory(crc: Checksum, document: Bytes, raw: seq<Entry>, ahead: nat,
                                            files: seq<File>, bound: nat, lengths: Lengths)
    requires |files| == |raw| == 4 && ReadOff(raw) && Moved(raw, 0 - ahead).Some?
    requires Tiled(crc, document, Moved(raw, 0 - ahead).value, files, bound)
    requires lengths == Lengths(raw[3].nameLength, raw[3].extraLength, raw[3].commentLength)
    ensures Overrun(files, lengths) && Moved(raw, 0 - ahead).value == LooseDirectory(crc, files, lengths)
    ensures raw == Ahead(LooseDirectory(crc, files, lengths), ahead)
  {
    hide Limit, Locals, Sized;
    assert Sized(raw[3]) && ReadShort(raw[3]);
    LengthsFit(raw[3]);
    var entries := Moved(raw, 0 - ahead).value;
    MovedIsAhead(raw, 0 - ahead);
    forall i | 0 <= i < 4 ensures entries[i] == LooseDirectory(crc, files, lengths)[i] {
      assert Trimmed(entries[i]) == Directory(crc, files)[i];
    }
  }

  /** Where a release takes the directory from the end record, the document is an archive. */
  lemma {:induction false} FoundPlain(crc: Checksum, fs: seq<File>, lengths: Lengths, ahead: nat, document: Bytes)
    requires |Locals(crc, fs)| + END_BYTES <= |document|
    requires ReadsAs(crc, fs, lengths, ahead, Place(|Locals(crc, fs)|, |document| - END_BYTES, 0), document)
    ensures Portable(fs) && document == LooseArchive(crc, fs, lengths) && !HasLocator(document)
    ensures document == Archive(crc, fs) <==>
              DeclaredTotal(DirectoryBytes(document)) == |DirectoryBytes(document)|
  {
    hide Pack, Unpack, Records, CoverName, Local, LooseDirectory, Overrun, Locals, Ahead, ReadOff, Sized, DeclaredTotal,
         Exact, HasLocator, EntryFor, Archive;
    var n, bound := |document| - END_BYTES, |Locals(crc, fs)|;
    var entries := LooseDirectory(crc, fs, lengths);
    NotAhead(entries);
    assert EndFields(4, n - bound, bound)[6] == bound;
    assert Portable(fs);
    PackUnpack(END, document[n..]);
    assert document == document[..bound] + document[bound..n] + document[n..];
    NoLocator(crc, fs, lengths);
    DeclaredIsExact(entries);
    ExactLast(crc, fs, lengths);
    TrueLengthsAreTight(crc, fs);
    if document == Archive(crc, fs) {
      TrueLengthsOverrun(fs);
      LooseIsInjective(crc, fs, lengths, fs, TrueLengths(fs));
    }
  }

  /** The last record declares what it holds exactly if its lengths are the true ones. */
  lemma ExactLast(crc: Checksum, fs: seq<File>, lengths: Lengths)
    requires fs != []
    ensures Exact(LooseDirectory(crc, fs, lengths)[|fs| - 1]) <==> lengths == TrueLengths(fs)
  {
  }

  lemma LocatorStarts(document: Bytes, at: nat)
    requires HasLocator(document) && at == |document| - END_BYTES - LOCATOR_BYTES
    ensures Size(LOCATOR) == LOCATOR_BYTES
    ensures Unpack(LOCATOR, document[at..at + LOCATOR_BYTES])[0] == LOCATOR_SIGNATURE
  {
    hide UnpackInt;
    Zip64Sizes();
    var bytes := document[at..at + LOCATOR_BYTES];
    FirstField(LOCATOR, bytes);
    SliceOfSlice(document, at, at + LOCATOR_BYTES, 0, 4);
  }

  lemma FirstField(widths: seq<nat>, bytes: Bytes)
    requires widths != [] && |bytes| == Size(widths)
    ensures widths[0] <= |bytes| && Unpack(widths, bytes)[0] == UnpackInt(bytes[0..widths[0]])
  {
    hide UnpackInt;
    assert bytes[0..widths[0]] == bytes[..widths[0]];
  }

  /** A directory that was found otherwise ends at a record that says how long it is and where it starts. */
  lemma LocatedAtRecord(release: Release, document: Bytes, bound: nat, place: Place, locator: seq<nat>)
    requires bound + END_BYTES <= |document| && HasLocator(document)
    requires Locate(release, document, bound) == Some(place) && place.concat <= 0
    requires place != Place(bound, |document| - END_BYTES, 0)
    requires Size(LOCATOR) == LOCATOR_BYTES
    requires var n := |document| - END_BYTES; locator == Unpack(LOCATOR, document[n - LOCATOR_BYTES..n])
    ensures RecordAt(document, place.end).Some? && locator[1] == 0 && locator[3] <= 1
    ensures var v, last := RecordAt(document, place.end).value, |document| - END_BYTES - LOCATOR_BYTES - RECORD64_BYTES;
            && place.end <= last && v[8] == place.end - place.start && v[9] == place.start - place.concat
            && match release
               case Unchecked => place.end == last
               case Checked => && v[9] == place.start && locator[2] == place.end
                               && v[1] + 12 == RECORD64_BYTES + (last - place.end)
  {
    hide Unpack, HasLocator, RecordAt;
    Zip64Sizes();
  }

  /** The release admits the record and its locator. */
  lemma LocatedByRecord(release: Release, document: Bytes, bound: nat, place: Place) returns (z: Zip64)
    requires bound + END_BYTES <= |document| && HasLocator(document)
    requires Locate(release, document, bound) == Some(place) && place.concat <= 0
    requires place != Place(bound, |document| - END_BYTES, 0)
    ensures Fits(RECORD64, RecordFields(z)) && Fits(LOCATOR, LocatorFields(z))
    ensures document[place.end..|document| - END_BYTES] == Zip64Bytes(z)
    ensures z.offset == place.start - place.concat && Admitted(release, z, place.start, place.end - place.start)
  {
    hide Pack, Unpack, HasLocator, Locate;
    Zip64Sizes();
    var n := |document| - END_BYTES;
    var at := n - LOCATOR_BYTES;
    LocatorStarts(document, at);
    var locator := Unpack(LOCATOR, document[at..n]);
    LocatedAtRecord(release, document, bound, place, locator);
    var bytes := document[place.end..place.end + RECORD64_BYTES];
    var v := Unpack(RECORD64, bytes);
    z := Zip64(v[1], v[2], v[3], v[4], v[5], v[6], v[7], v[8], v[9], document[place.end + RECORD64_BYTES..at],
               locator[1], locator[2], locator[3]);
    assert v == RecordFields(z);
    assert |locator| == 4 && locator == LocatorFields(z);
    PackUnpack(RECORD64, bytes);
    PackUnpack(LOCATOR, document[at..n]);
    JoinThree(document, place.end, place.end + RECORD64_BYTES, at, n);
  }

  lemma JoinThree(bytes: Bytes, a: nat, b: nat, c: nat, d: nat)
    requires a <= b <= c <= d <= |bytes|
    ensures bytes[a..d] == bytes[a..b] + bytes[b..c] + bytes[c..d]
  {
  }

  lemma {:induction false} FoundZip64(release: Release, crc: Checksum, fs: seq<File>, lengths: Lengths, ahead: nat,
                                      document: Bytes, place: Place)
    requires |Locals(crc, fs)| + END_BYTES <= |document| && HasLocator(document)
    requires Locate(release, document, |Locals(crc, fs)|) == Some(place)
    requires ReadsAs(crc, fs, lengths, ahead, place, document)
    requires place != Place(|Locals(crc, fs)|, |document| - END_BYTES, 0)
    ensures Portable(fs) && Zip64Archive(release, crc, fs, document)
  {
    hide Pack, Unpack, Records, CoverName, Local, LooseDirectory, Overrun, Locals, Ahead, Sized, Locate, HasLocator,
         Fits, EntryFor;
    var n, bound := |document| - END_BYTES, |Locals(crc, fs)|;
    var z := LocatedByRecord(release, document, bound, place);
    var gap := document[bound..place.start];
    assert Portable(fs);
    PackUnpack(END, document[n..]);
    assert document == document[..bound] + gap + document[place.start..place.end] + document[place.end..n]
                    + document[n..];
    assert document[..bound] == Locals(crc, fs);
    assert Laid(release, crc, fs, lengths, gap, ahead, z, document);
  }

  lemma {:induction false} Accepted(release: Release, crc: Checksum, document: Bytes, place: Place, raw: seq<Entry>,
                                    files: seq<File>)
    requires Envelope(document, |Locals(crc, files)|)
    requires Locate(release, document, |Locals(crc, files)|) == Some(place) && |Locals(crc, files)| <= place.start
    requires ReadOff(raw) && Records(raw) == document[place.start..place.end]
    requires |raw| == |files| == 4 && Moved(raw, place.concat).Some?
    requires Tiling(crc, document, |Locals(crc, files)|, Moved(raw, place.concat).value, files)
    requires files[0].name == MANIFEST && files[1].name == MANIFEST_DIGEST && files[2].name == SOURCES
    ensures if HasLocator(document) then Zip64Archive(release, crc, files, document)
            else NearlyArchive(crc, files, document)
    ensures document == Archive(crc, files) <==>
              && !HasLocator(document)
              && DeclaredTotal(DirectoryBytes(document)) == |DirectoryBytes(document)|
  {
    hide Portable, Archive, LooseArchive, Unpack, Pack, Records, Locals, Limit, Laid, HasLocator, Overrun, Ahead,
         Ascii, Sized, CoverName, EntryFor, ReadOff, Exact, DeclaredTotal, LooseDirectory, Zip64Archive;
    var bound, n := |Locals(crc, files)|, |document| - END_BYTES;
    var entries := Moved(raw, place.concat).value;
    assert entries[0].headerOffset == 0 by {
      FirstIsAtZero(crc, document, entries, files);
    }
    var ahead := -place.concat;
    var lengths := Lengths(raw[3].nameLength, raw[3].extraLength, raw[3].commentLength);
    TiledIsDirectory(crc, document, raw, ahead, files, bound, lengths);
    assert ReadsAs(crc, files, lengths, ahead, place, document);
    if place == Place(bound, n, 0) {
      FoundPlain(crc, files, lengths, ahead, document);
    } else {
      FoundZip64(release, crc, files, lengths, ahead, document, place);
      ArchiveHasNoLocator(crc, files);
    }
  }

  lemma ArchiveHasNoLocator(crc: Checksum, fs: seq<File>)
    requires Portable(fs)
    ensures !HasLocator(Archive(crc, fs))
  {
    hide Portable, Archive, LooseArchive, HasLocator, Limit;
    TrueLengthsOverrun(fs);
    TrueLengthsAreTight(crc, fs);
    NoLocator(crc, fs, TrueLengths(fs));
  }

  lemma FirstIsAtZero(crc: Checksum, document: Bytes, entries: seq<Entry>, files: seq<File>)
    requires files != [] && Tiled(crc, document, entries, files, |Locals(crc, files)|)
    ensures entries[0].headerOffset == 0
  {
    assert files[..0] == [];
  }

  lemma AheadReadsOff(crc: Checksum, fs: seq<File>, lengths: Lengths, ahead: nat)
    requires Portable(fs) && Overrun(fs, lengths) && AllSized(Ahead(LooseDirectory(crc, fs, lengths), ahead))
    ensures ReadOff(Ahead(LooseDirectory(crc, fs, lengths), ahead))
  {
    hide Sized, Portable, Locals;
    FourFiles(fs);
  }

  /** The reader's loop over the directory: it finds the only tiling, or there is none. */
  method ReadMembers(crc: Checksum, document: Bytes, bound: nat, entries: seq<Entry>)
    returns (r: Option<seq<File>>, offset: nat)
    requires bound <= |document| <= MAX_PLAYLIST_ZIP_BYTES
    ensures r.Some? ==> offset == |Locals(crc, r.value)| && Tiling(crc, document, bound, entries, r.value)
    ensures forall fs :: Tiling(crc, document, bound, entries, fs) ==> r == Some(fs)
  {
    hide Tiled, Locals, Limit, Member, HasName, Local;
    var files: seq<File> := [];
    var total: nat := 0;
    offset := 0;
    NothingTiled(crc, document, entries);
    for i := 0 to |entries|
      invariant |files| == i && offset == |Locals(crc, files)| <= bound && Tiled(crc, document, entries, files, offset)
      invariant forall fs :: Tiling(crc, document, bound, entries, fs) ==> files <= fs && |fs| == |entries|
      invariant total <= offset
    {
      var f := ReadMember(crc, document, bound, entries[i], offset);
      forall fs: seq<File> | Tiling(crc, document, bound, entries, fs)
        ensures f == Some(fs[i]) && !HasName(files, fs[i].name)
      {
        TilingMember(crc, document, bound, entries, fs, i);
        assert fs[..i] == files;
        MemberIsUnique(crc, document, bound, entries[i], offset, f.value, fs[i]);
        assert fs[..i + 1] == files + [f.value];
      }
      if f.None? || HasName(files, f.value.name) || total + |f.value.data| > MAX_PLAYLIST_ZIP_BYTES {
        return None, offset;
      }
      TiledStep(crc, document, bound, entries, files, offset, f.value);
      offset := offset + MemberBytes(f.value);
      total := total + |f.value.data|;
      files := files + [f.value];
    }
    forall fs | Tiling(crc, document, bound, entries, fs) ensures fs == files {
      assert fs[..|files|] == files;
    }
    r := Some(files);
  }

  /** The part of a document that its end record calls the directory, if the two agree on its extent. */
  function DirectoryBytes(document: Bytes): Bytes
    requires END_BYTES <= |document|
  {
    HeaderSizes();
    var n := |document| - END_BYTES;
    var start := Unpack(END, document[n..])[6];
    if start <= n then document[start..n] else []
  }

  /** Nothing but the three lengths in its last directory record tells the document from an archive. */
  ghost predicate NearlyArchive(crc: Checksum, fs: seq<File>, document: Bytes) {
    Portable(fs) && exists lengths :: Overrun(fs, lengths) && document == LooseArchive(crc, fs, lengths)
  }

  /**
   * The strict reader. Without a ZIP64 locator it accepts exactly the archives of portable files, up to
   * the lengths that the last directory record declares; with one, exactly the ZIP64 archives of portable
   * files. It returns those files. What it accepts is an archive to the byte exactly if there is no locator
   * and the directory ends where its records say.
   */
  method ReadFiles(crc: Checksum, release: Release, document: Bytes) returns (r: Result<seq<File>, ZipError>)
    ensures r.Ok? ==> if HasLocator(document) then Zip64Archive(release, crc, r.value, document)
                      else NearlyArchive(crc, r.value, document)
    ensures forall fs :: NearlyArchive(crc, fs, document) || Zip64Archive(release, crc, fs, document) ==> r == Ok(fs)
    ensures r.Ok? ==>
              && END_BYTES < |document|
              && (document == Archive(crc, r.value) <==>
                    && !HasLocator(document)
                    && DeclaredTotal(DirectoryBytes(document)) == |DirectoryBytes(document)|)
  {
    hide Portable, Archive, LooseArchive, Tiled, Unpack, Pack, Records, Record, Locals, Limit, Member, HasLocator,
         Size, Ascii, Sized, CoverName, EntryFor, ReadOff, Exact, DeclaredTotal, LooseDirectory, Laid, Locate, Moved,
         Ahead, Overrun, Found;
    HeaderSizes();
    ArchivesAreFound(release, crc, document);
    forall fs: seq<File>, lengths: Lengths, ahead: nat | Found(release, crc, fs, lengths, ahead, document)
      ensures Envelope(document, |Locals(crc, fs)|)
      ensures Unpack(END, document[|document| - END_BYTES..])[6] == |Locals(crc, fs)|
      ensures Locate(release, document, |Locals(crc, fs)|).Some?
    {
      FoundEnvelope(release, crc, fs, lengths, ahead, document);
    }
    if !(END_BYTES < |document| <= MAX_PLAYLIST_ZIP_BYTES) {
      return Err(Rejected);
    }
    var n := |document| - END_BYTES;
    var end := Unpack(END, document[n..]);
    if || end[0] != END_SIGNATURE || end[1] != 0 || end[2] != 0 || end[3] != 4 || end[4] != 4
       || end[7] != 0 || end[5] + end[6] != n {
      return Err(Rejected);
    }
    var bound := end[6];
    var place := Locate(release, document, bound);
    if place.None? {
      return Err(Rejected);
    }
    var raw := ReadDirectory(document[place.value.start..place.value.end]);
    forall fs: seq<File>, lengths: Lengths, ahead: nat | Found(release, crc, fs, lengths, ahead, document)
      ensures |fs| == 4 && fs[0].name == MANIFEST && fs[1].name == MANIFEST_DIGEST && fs[2].name == SOURCES
      ensures raw.Some? && Moved(raw.value, place.value.concat) == Some(LooseDirectory(crc, fs, lengths))
      ensures |raw.value| == 4 && bound == |Locals(crc, fs)| <= place.value.start
      ensures Tiling(crc, document, bound, LooseDirectory(crc, fs, lengths), fs)
    {
      FoundDirectory(release, crc, fs, lengths, ahead, document, place.value, raw);
    }
    if raw.None? || |raw.value| != 4 {
      return Err(Rejected);
    }
    var entries := Moved(raw.value, place.value.concat);
    if entries.None? {
      return Err(Rejected);
    }
    var found, offset := ReadMembers(crc, document, bound, entries.value);
    if found.None? {
      return Err(Rejected);
    }
    var files := found.value;
    if || offset > place.value.start || offset != bound
       || files[0].name != MANIFEST || files[1].name != MANIFEST_DIGEST || files[2].name != SOURCES {
      return Err(Rejected);
    }
    Accepted(release, crc, document, place.value, raw.value, files);
    return Ok(files);
  }

  lemma TrueLengthsOverrun(fs: seq<File>)
    requires Portable(fs)
    ensures Overrun(fs, TrueLengths(fs))
  {
  }

  lemma LengthsAreFields(crc: Checksum, fs: seq<File>, lengths: Lengths)
    requires fs != []
    ensures var last := LooseDirectory(crc, fs, lengths)[|fs| - 1];
            lengths == Lengths(last.nameLength, last.extraLength, last.commentLength)
  {
  }

  /** Neither the files nor the lengths can be read in two ways. */
  lemma {:induction false} LooseIsInjective(crc: Checksum, fs: seq<File>, a: Lengths, gs: seq<File>, b: Lengths)
    requires Portable(fs) && Overrun(fs, a) && Portable(gs) && Overrun(gs, b)
    requires LooseArchive(crc, fs, a) == LooseArchive(crc, gs, b)
    ensures fs == gs && a == b
  {
    hide Portable, LooseArchive, Unpack, Pack, Records, Local, Locals, Limit, Member, Tiled, Size, EntryFor, Sized,
         ReadOff, HasLocator, LooseDirectory;
    var document := LooseArchive(crc, fs, a);
    ArchiveIsFound(Checked, crc, fs, a, document);
    ArchiveIsFound(Checked, crc, gs, b, document);
    FoundEnvelope(Checked, crc, fs, a, 0, document);
    FoundEnvelope(Checked, crc, gs, b, 0, document);
    var bound := |Locals(crc, fs)|;
    NotAhead(LooseDirectory(crc, fs, a));
    NotAhead(LooseDirectory(crc, gs, b));
    RecordsInjective(LooseDirectory(crc, fs, a), LooseDirectory(crc, gs, b));
    TilingIsUnique(crc, document, bound, LooseDirectory(crc, fs, a), fs, gs, 4);
    LengthsAreFields(crc, fs, a);
    LengthsAreFields(crc, gs, b);
  }

  /** A last record whose name is declared one byte too long. */
  function OneTooLong(fs: seq<File>): Lengths
    requires fs != []
  {
    TrueLengths(fs).(name := |fs[|fs| - 1].name| + 1)
  }

  /** The reader accepts a document that no writer makes, for any four portable files. */
  method OverrunIsAccepted(crc: Checksum, release: Release, fs: seq<File>) returns (r: Result<seq<File>, ZipError>)
    requires Portable(fs)
    ensures r == Ok(fs)
    ensures forall gs :: Portable(gs) ==> LooseArchive(crc, fs, OneTooLong(fs)) != Archive(crc, gs)
  {
    hide Archive, LooseArchive, HasLocator;
    var lengths := OneTooLong(fs);
    var document := LooseArchive(crc, fs, lengths);
    r := ReadFiles(crc, release, document);
    assert NearlyArchive(crc, fs, document);
    forall gs | Portable(gs) ensures document != Archive(crc, gs) {
      TrueLengthsAreTight(crc, gs);
      if document == Archive(crc, gs) {
        LooseIsInjective(crc, fs, lengths, gs, TrueLengths(gs));
      }
    }
  }

  /** The two records that lead to a directory of `size` bytes at `start`. */
  function PlainZip64(start: nat, size: nat): Zip64 {
    Zip64(RECORD64_BYTES - 12, 0, 0, 0, 0, 0, 0, size, start, [], 0, start + size, 1)
  }

  lemma PlainZip64Fits(start: nat, size: nat)
    requires start + size < 0x1_0000_0000
    ensures var z := PlainZip64(start, size); Fits(RECORD64, RecordFields(z)) && Fits(LOCATOR, LocatorFields(z))
  {
    Zip64Sizes();
    Spans();
    WideSpan();
  }

  lemma PlainZip64Admitted(release: Release, start: nat, size: nat)
    ensures Admitted(release, PlainZip64(start, size), start, size)
    ensures PlainZip64(start, size).offset == start && PlainZip64(start, size).extension == []
  {
  }

  lemma WideSpan()
    ensures Span(8) > 0x1_0000_0000
  {
    Spans();
    assert Span(8) == 256 * Span(7) && Span(7) == 256 * Span(6) && Span(6) == 256 * Span(5) && Span(5) == 256 * Span(4);
  }

  lemma GapIsLaid(release: Release, crc: Checksum, fs: seq<File>, gap: Bytes)
    requires Portable(fs)
    requires |Archive(crc, fs)| + |gap| + RECORD64_BYTES + LOCATOR_BYTES <= MAX_PLAYLIST_ZIP_BYTES
    ensures var z := PlainZip64(|Locals(crc, fs)| + |gap|, |Records(LooseDirectory(crc, fs, TrueLengths(fs)))|);
            var document := Zip64Document(crc, fs, TrueLengths(fs), gap, 0, z);
            Laid(release, crc, fs, TrueLengths(fs), gap, 0, z, document) && Locals(crc, fs) + gap <= document
  {
    hide Archive, HasLocator, Portable, Locals, Records, Pack, Fits, Overrun, Zip64Bytes, Admitted, LooseDirectory,
         Directory, Ahead, AllSized, PlainZip64, Size;
    HeaderSizes();
    FourFiles(fs);
    ArchiveLengths(crc, fs);
    PortableFits(crc, fs);
    TrueLengthsOverrun(fs);
    TrueDirectory(crc, fs);
    var directory := Directory(crc, fs);
    NotAhead(directory);
    PlainZip64Fits(|Locals(crc, fs)| + |gap|, |Records(directory)|);
    PlainZip64Admitted(release, |Locals(crc, fs)| + |gap|, |Records(directory)|);
  }

  /**
   * The reader accepts any bytes at all between the members and their directory, if a ZIP64 locator follows,
   * for any four portable files and in each release: no entry names those bytes, and no writer makes them.
   */
  method GapIsAccepted(crc: Checksum, release: Release, fs: seq<File>, gap: Bytes)
    returns (document: Bytes, r: Result<seq<File>, ZipError>)
    requires Portable(fs)
    requires |Archive(crc, fs)| + |gap| + RECORD64_BYTES + LOCATOR_BYTES <= MAX_PLAYLIST_ZIP_BYTES
    ensures r == Ok(fs) && Locals(crc, fs) + gap <= document
    ensures forall gs :: Portable(gs) ==> document != Archive(crc, gs)
  {
    hide Archive, HasLocator, Portable, Locals, Laid, LooseDirectory, Zip64Document, Overrun;
    FourFiles(fs);
    TrueLengthsOverrun(fs);
    var z := PlainZip64(|Locals(crc, fs)| + |gap|, |Records(LooseDirectory(crc, fs, TrueLengths(fs)))|);
    document := Zip64Document(crc, fs, TrueLengths(fs), gap, 0, z);
    GapIsLaid(release, crc, fs, gap);
    assert Zip64Archive(release, crc, fs, document);
    Zip64IsFound(release, crc, fs, TrueLengths(fs), gap, 0, z, document);
    r := ReadFiles(crc, release, document);
    forall gs | Portable(gs) ensures document != Archive(crc, gs) {
      ArchiveHasNoLocator(crc, gs);
    }
  }

  // ---------------------------------------------------------------- the writer, and the way back

  /** What SHA-256 is used for here: 64 lower-case hexadecimal digits for any bytes. */
  type Digest = Bytes -> Bytes

  ghost predicate HexDigest(digest: Digest) {
    forall data :: |digest(data)| == 64 && forall i :: 0 <= i < 64 ==> LowerHex(digest(data)[i])
  }

  const NEWLINE: Byte := 10

  /** The members of a bundle: the manifest, its digest, the sources, and the cover named by its digest. */
  function Bundle(digest: Digest, manifest: Bytes, sources: Bytes, cover: Bytes): (fs: seq<File>)
    ensures |fs| == 4
  {
    [File(MANIFEST, manifest),
     File(MANIFEST_DIGEST, digest(manifest) + [NEWLINE]),
     File(SOURCES, sources),
     File(Ascii("covers/") + digest(cover) + Ascii(".jpg"), cover)]
  }

  lemma BundleIsPortable(digest: Digest, manifest: Bytes, sources: Bytes, cover: Bytes)
    requires HexDigest(digest)
    requires 0 < |manifest| <= MAX_MANIFEST_BYTES && 0 < |sources| <= MAX_SOURCE_DOCUMENT_BYTES
    requires 0 < |cover| <= MAX_JPEG_BYTES
    ensures Portable(Bundle(digest, manifest, sources, cover))
  {
    var name := Ascii("covers/") + digest(cover) + Ascii(".jpg");
    assert name[..7] == Ascii("covers/");
    assert name[71..] == Ascii(".jpg");
    forall i | 7 <= i < 71 ensures LowerHex(name[i]) {
      assert name[i] == digest(cover)[i - 7];
    }
    assert |digest(manifest)| == 64;
    NamesDiffer();
  }

  /** `writestr` for each file: its local header and its bytes, and its record for the directory. */
  method WriteMembers(crc: Checksum, fs: seq<File>) returns (document: Bytes, filelist: seq<Entry>)
    ensures document == Locals(crc, fs) && filelist == Directory(crc, fs)
  {
    hide Local, EntryFor;
    document, filelist := [], [];
    for i := 0 to |fs|
      invariant document == Locals(crc, fs[..i])
      invariant filelist == Directory(crc, fs)[..i]
    {
      LocalsStep(crc, fs, i);
      filelist := filelist + [EntryFor(crc, fs[i], |document|)];
      document := document + Local(crc, fs[i]);
    }
    assert fs[..|fs|] == fs;
  }

  method WriteDirectory(filelist: seq<Entry>) returns (directory: Bytes)
    ensures directory == Records(filelist)
  {
    hide Record;
    directory := [];
    for i := 0 to |filelist|
      invariant directory == Records(filelist[..i])
    {
      assert filelist[..i + 1] == filelist[..i] + [filelist[i]];
      RecordsAppend(filelist[..i], filelist[i]);
      directory := directory + Record(filelist[i]);
    }
    assert filelist[..|filelist|] == filelist;
  }

  /** `ZipFile(..., "w")`, its `writestr` calls and its close. */
  method WriteArchive(crc: Checksum, fs: seq<File>) returns (document: Bytes)
    ensures document == Archive(crc, fs)
  {
    hide Pack, Records, Locals, Directory;
    var members, filelist := WriteMembers(crc, fs);
    var directory := WriteDirectory(filelist);
    document := members + directory + Pack(END, EndFields(|fs|, |directory|, |members|));
  }

  /** The export's last step, with its two size checks. */
  method WriteBundle(crc: Checksum, digest: Digest, manifest: Bytes, sources: Bytes, cover: Bytes)
    returns (r: Result<Bytes, ZipError>)
    ensures var archive := Archive(crc, Bundle(digest, manifest, sources, cover));
            r == if |manifest| > MAX_MANIFEST_BYTES || |archive| > MAX_PLAYLIST_ZIP_BYTES
                 then Err(TooLarge) else Ok(archive)
  {
    hide Archive, Bundle;
    if |manifest| > MAX_MANIFEST_BYTES {
      return Err(TooLarge);
    }
    var output := WriteArchive(crc, Bundle(digest, manifest, sources, cover));
    if |output| > MAX_PLAYLIST_ZIP_BYTES {
      return Err(TooLarge);
    }
    return Ok(output);
  }

  /** Two different bundles of portable files never make the same archive. */
  lemma {:induction false} ArchiveIsInjective(crc: Checksum, fs: seq<File>, gs: seq<File>)
    requires Portable(fs) && Portable(gs) && Archive(crc, fs) == Archive(crc, gs)
    ensures fs == gs
  {
    hide Archive, LooseArchive, Limit;
    TrueLengthsAreTight(crc, fs);
    TrueLengthsAreTight(crc, gs);
    LooseIsInjective(crc, fs, TrueLengths(fs), gs, TrueLengths(gs));
  }

  lemma {:induction false} TilingIsUnique(crc: Checksum, document: Bytes, bound: nat, entries: seq<Entry>,
                                          fs: seq<File>, gs: seq<File>, n: nat)
    requires bound <= |document| && n <= |entries|
    requires Tiling(crc, document, bound, entries, fs) && Tiling(crc, document, bound, entries, gs)
    ensures fs[..n] == gs[..n]
  {
    hide Tiled, Member, HasName, Locals, Local, Limit;
    if n > 0 {
      TilingIsUnique(crc, document, bound, entries, fs, gs, n - 1);
      TilingMember(crc, document, bound, entries, fs, n - 1);
      TilingMember(crc, document, bound, entries, gs, n - 1);
      MemberIsUnique(crc, document, bound, entries[n - 1], |Locals(crc, fs[..n - 1])|, fs[n - 1], gs[n - 1]);
      assert fs[..n] == fs[..n - 1] + [fs[n - 1]] && gs[..n] == gs[..n - 1] + [gs[n - 1]];
    }
  }

  /**
   * Export, then import: within the limits that the manifest, the source document and the cover
   * already keep, the writer never refuses, and the strict reader returns exactly what was written.
   */
  method ExportThenImport(crc: Checksum, release: Release, digest: Digest,
                          manifest: Bytes, sources: Bytes, cover: Bytes)
    returns (r: Result<seq<File>, ZipError>)
    requires HexDigest(digest)
    requires 0 < |manifest| <= MAX_MANIFEST_BYTES && 0 < |sources| <= MAX_SOURCE_DOCUMENT_BYTES
    requires 0 < |cover| <= MAX_JPEG_BYTES
    ensures r == Ok(Bundle(digest, manifest, sources, cover))
  {
    hide Portable, Archive, LooseArchive, Bundle, HasLocator;
    ghost var fs := Bundle(digest, manifest, sources, cover);
    BundleIsPortable(digest, manifest, sources, cover);
    PortableFits(crc, fs);
    var document := WriteBundle(crc, digest, manifest, sources, cover);
    r := ReadFiles(crc, release, document.value);
    TrueLengthsAreTight(crc, fs);
    TrueLengthsOverrun(fs);
    assert NearlyArchive(crc, fs, document.value);
  }
}
